/**
 * The rules of the spatial-audio room component, on values.
 *
 * A Room holds the fields of the component that its operations read or
 * write. Each operation is a step function from the room before to a Step:
 * the room after, and the calls the component makes to its collaborators
 * (the sound engine, the room index, the geometry component, the reverb
 * component), in order. What the collaborators answer — whether the device
 * exists, whether AddRoom or RemoveRoom succeeds, whether a commandlet runs,
 * the build and the world — arrives as input.
 */
module RoomRules {

  import opened Wrappers
  import opened AkSettings

  /** MOVEMENT_STOP_TIMEOUT: seconds without a transform update after which
      a moving room is considered to have stopped. */
  const MOVEMENT_STOP_TIMEOUT: real := 0.1

  /** Extra radius given to the containment test of HasEffectOnLocation. */
  const EFFECT_RADIUS: real := 0.01

  /** The sound engine's "no aux bus" and "no playing instance" identifiers. */
  const AK_INVALID_AUX_ID: uint32 := 0
  const AK_INVALID_PLAYING_ID: uint32 := 0

  datatype Vector = Vector(x: real, y: real, z: real)

  /** Whether the editor code is compiled in. */
  datatype Build = EditorBuild | GameBuild

  /** The type of the world the component lives in (NoWorld: it has none). */
  datatype WorldType = NoWorld | EditorWorld | GameWorld | PIEWorld | OtherWorld

  /** AkRoomParams, the record sent to the sound engine with AddRoom. */
  datatype RoomParams = RoomParams(
    up: Vector,
    front: Vector,
    reverbAuxBus: uint32,
    reverbLevel: real,
    transmissionLoss: real,
    geometryInstanceId: nat,
    auxSendLevelToSelf: real,
    keepRegistered: bool)

  /** What the component learns from outside during one call. */
  datatype Host = Host(
    build: Build,
    world: WorldType,
    /** What AkComponentHelpers::IsInGameWorld answers for the component. */
    inGameWorld: bool,
    hasOwner: bool,
    devicePresent: bool,
    runningCommandlet: bool,
    /** None when the settings object is missing; otherwise whether reverb RTPCs are in use. */
    reverbRtpcsInUse: Option<bool>,
    /** A default-constructed AkRoomParams. */
    defaultRoomParams: RoomParams)

  /** The late-reverb component attached to the room's parent. */
  datatype LateReverb = LateReverb(
    enable: bool,
    hasAuxBus: bool,
    auxBusName: string,
    auxBusId: uint32,
    sendLevel: real)

  /** A valid primitive parent: its orientation, its name, its late-reverb child. */
  datatype Primitive = Primitive(up: Vector, front: Vector, name: string, reverb: Option<LateReverb>)

  /** The two kinds of acoustic texture set the room treats specially, and the rest. */
  datatype TextureSetKind = AkGeometry | SurfaceReflectorSet | OtherTextureSet

  /** The geometry component attached to the room (a tagged variant). */
  datatype TextureSet = TextureSet(
    kind: TextureSetKind,
    /** Not pending destruction. */
    valid: bool,
    wasAddedByRoom: bool,
    enableSurfaceReflectors: bool,
    geometryHasBeenSent: bool,
    geometryInstanceHasBeenSent: bool,
    geometrySetId: nat)

  /** What GetAttachParent finds. */
  datatype SceneParent =
    | NonPrimitiveParent
    | PrimitiveParent(primitive: Primitive, hasSimpleCollision: bool, isBrush: bool)

  /** The fields of UAkRoomComponent that the modelled operations use. */
  datatype Room = Room(
    enable: bool,
    registered: bool,
    moving: bool,
    secondsSinceMovement: real,
    dynamic: bool,
    wantsOnUpdateTransform: bool,
    parent: Option<Primitive>,
    geometry: Option<TextureSet>,
    wallOcclusion: real,
    auxSendLevel: real,
    hasAudioEvent: bool,
    eventName: string)

  /** A call the room component makes to one of its collaborators. */
  datatype Call =
    | SendGeometrySet | UpdateGeometryInstance | RemoveGeometrySet
    | SendSurfaceReflectorSet | UpdateSurfaceReflectorSet | RemoveSurfaceReflectorSet
    | AddRoom(params: RoomParams) | SetAttenuationScalingFactor | RemoveRoom | StopSounds
    | IndexRoom | ReindexRoom | UnindexRoom | PortalsNeedRoomUpdate
    | UpdateReverbRtpcs | PostEvent
    | LogAttachmentError | BuildSimpleBrushCollision | LogSimpleGeometryWarning
  {
    /** A call that sends geometry to the sound engine. */
    predicate IsGeometrySend() {
      SendGeometrySet? || UpdateGeometryInstance? || SendSurfaceReflectorSet? || UpdateSurfaceReflectorSet?
    }

    /** A call that removes geometry from the sound engine. */
    predicate IsGeometryRemove() { RemoveGeometrySet? || RemoveSurfaceReflectorSet? }

    /** A call AddSpatialAudioRoom makes besides sending geometry. */
    predicate IsAddCall() {
      AddRoom? || SetAttenuationScalingFactor? || IndexRoom? || PortalsNeedRoomUpdate? || UpdateReverbRtpcs?
    }

    /** A call UpdateSpatialAudioRoom makes. */
    predicate IsUpdateCall() { ReindexRoom? || PortalsNeedRoomUpdate? || UpdateReverbRtpcs? }

    /** A call RemoveSpatialAudioRoom makes besides removing geometry. */
    predicate IsRemoveCall() { StopSounds? || RemoveRoom? || UnindexRoom? || PortalsNeedRoomUpdate? }

    /** A call that changes the room index or the sound engine's request counts. */
    predicate TouchesEngine() { IndexRoom? || UnindexRoom? || ReindexRoom? || PortalsNeedRoomUpdate? }
  }

  datatype Step = Step(room: Room, calls: seq<Call>)

  /** The state the UAkRoomComponent constructor leaves; the members it does
      not set start zeroed, as every UObject does. */
  function InitialRoom(build: Build): (r: Room)
    ensures r.enable && !r.registered && !r.moving && r.parent.None? && r.geometry.None?
    ensures r.wallOcclusion == 1.0
    ensures r.wantsOnUpdateTransform <==> build == EditorBuild
  {
    Room(true, false, false, 0.0, false, build == EditorBuild, None, None, 1.0, 0.0, false, "")
  }

  // ---------------------------------------------------------------------------
  // Counting over call traces

  function Occurrences(cs: seq<Call>, c: Call): (n: nat)
    ensures n <= |cs|
    ensures n == 0 <==> c !in cs
    decreases |cs|
  {
    if cs == [] then 0
    else (if cs[0] == c then 1 else 0) + Occurrences(cs[1..], c)
  }

  lemma {:induction false} OccurrencesAppend(a: seq<Call>, b: seq<Call>, c: Call)
    ensures Occurrences(a + b, c) == Occurrences(a, c) + Occurrences(b, c)
    decreases |a|
  {
    if a == [] {
      assert a + b == b;
    } else {
      assert (a + b)[1..] == a[1..] + b;
      OccurrencesAppend(a[1..], b, c);
    }
  }

  /** Whether the room is in the room index after the calls, given whether it was before. */
  function IndexedAfter(was: bool, cs: seq<Call>): bool
    decreases |cs|
  {
    if cs == [] then was
    else IndexedAfter(if cs[0] == IndexRoom then true else if cs[0] == UnindexRoom then false else was, cs[1..])
  }

  lemma {:induction false} IndexedAfterAppend(was: bool, a: seq<Call>, b: seq<Call>)
    ensures IndexedAfter(was, a + b) == IndexedAfter(IndexedAfter(was, a), b)
    decreases |a|
  {
    if a != [] {
      assert (a + b)[1..] == a[1..] + b;
      IndexedAfterAppend(if a[0] == IndexRoom then true else if a[0] == UnindexRoom then false else was, a[1..], b);
    } else {
      assert a + b == b;
    }
  }

  /** Calls that mention neither IndexRoom nor UnindexRoom leave index membership alone. */
  lemma {:induction false} IndexedAfterUntouched(was: bool, cs: seq<Call>)
    requires IndexRoom !in cs && UnindexRoom !in cs
    ensures IndexedAfter(was, cs) == was
    decreases |cs|
  {
    if cs != [] {
      assert cs[0] in cs;
      assert forall c :: c in cs[1..] ==> c in cs;
      IndexedAfterUntouched(was, cs[1..]);
    }
  }

  /** Calls that do not touch the sound engine's index or request counts
      leave all three as they were. */
  lemma QuietCalls(was: bool, cs: seq<Call>)
    requires forall c :: c in cs ==> !c.TouchesEngine()
    ensures IndexedAfter(was, cs) == was
    ensures Occurrences(cs, PortalsNeedRoomUpdate) == 0 && Occurrences(cs, ReindexRoom) == 0
  {
    IndexedAfterUntouched(was, cs);
  }

  // ---------------------------------------------------------------------------
  // Queries

  /** UAkRoomComponent::RoomIsActive: a room without a parent, a disabled
      room and any room while a commandlet runs are inactive; every other
      room is active. */
  predicate RoomIsActive(r: Room, h: Host): (active: bool)
    ensures r.parent.None? || !r.enable || h.runningCommandlet ==> !active
    ensures r.parent.Some? && r.enable && !h.runningCommandlet ==> active
  {
    r.parent.Some? && r.enable && !h.runningCommandlet
  }

  /** UAkRoomComponent::EncompassesPoint. `encompasses` is the containment
      test of the parent primitive, given a point and an extra radius. */
  function EncompassesPoint(r: Room, point: Vector, radius: real, encompasses: (Vector, real) -> bool): (inside: bool)
    ensures r.parent.None? ==> !inside
    ensures r.parent.Some? ==> (inside <==> encompasses(point, radius))
  {
    if r.parent.Some? then encompasses(point, radius) else false
  }

  /** UAkRoomComponent::HasEffectOnLocation: an inactive room affects no location. */
  function HasEffectOnLocation(r: Room, h: Host, location: Vector, encompasses: (Vector, real) -> bool): (b: bool)
    ensures b ==> r.parent.Some? && r.enable && !h.runningCommandlet
    ensures RoomIsActive(r, h) ==> (b <==> encompasses(location, EFFECT_RADIUS))
  {
    RoomIsActive(r, h) && EncompassesPoint(r, location, EFFECT_RADIUS, encompasses)
  }

  /** UAkRoomComponent::GetReverbComponent: the late-reverb child of a valid parent. */
  function ReverbComponent(r: Room): (rv: Option<LateReverb>)
    ensures r.parent.None? ==> rv.None?
  {
    if r.parent.Some? then r.parent.value.reverb else None
  }

  /** The owner of the component, as GetRoomName sees it. */
  datatype Owner = Owner(actorLabel: string, actorName: string, roomComponentCount: nat)

  /** UAkRoomComponent::GetRoomName: the owner's label (editor) or name (game),
      suffixed with the parent's name when the owner holds several rooms. */
  function GetRoomName(r: Room, build: Build, objectName: string, owner: Option<Owner>): (name: string)
    ensures owner.None? ==> name == objectName
    ensures owner.Some? ==>
      var base := if build == EditorBuild then owner.value.actorLabel else owner.value.actorName;
      && base <= name
      && (|name| == |base| <==> !(r.parent.Some? && owner.value.roomComponentCount > 1))
      && (r.parent.Some? && owner.value.roomComponentCount > 1 ==> name[|base|..] == "_" + r.parent.value.name)
  {
    if owner.None? then objectName
    else
      var base := if build == EditorBuild then owner.value.actorLabel else owner.value.actorName;
      if r.parent.Some? && owner.value.roomComponentCount > 1 then base + "_" + r.parent.value.name
      else base
  }

  /** UAkRoomComponent::GetRoomParams, filling `out` in place. Without a
      device the parameters are left as they were; with one, each field is
      taken from the room, its parent or its reverb component, and the rest
      is left as it was. The room stays registered as a game object iff it
      has an event or event name or reverb RTPCs are in use. */
  function GetRoomParams(r: Room, h: Host, out: RoomParams): (p: RoomParams)
    ensures !h.devicePresent ==> p == out
    ensures h.devicePresent ==> p.transmissionLoss == r.wallOcclusion && p.auxSendLevelToSelf == r.auxSendLevel
    ensures h.devicePresent ==>
      (p.keepRegistered <==> r.hasAudioEvent || r.eventName != [] || h.reverbRtpcsInUse == Some(true))
    ensures h.devicePresent ==>
      if r.parent.Some? then p.up == r.parent.value.up && p.front == r.parent.value.front
      else p.up == out.up && p.front == out.front
    ensures h.devicePresent ==>
      p.geometryInstanceId == if r.geometry.Some? then r.geometry.value.geometrySetId else out.geometryInstanceId
    ensures h.devicePresent ==>
      var rv := ReverbComponent(r);
      if rv.Some? && rv.value.enable then
        && p.reverbLevel == rv.value.sendLevel
        && (!rv.value.hasAuxBus && rv.value.auxBusName == [] ==> p.reverbAuxBus == AK_INVALID_AUX_ID)
        && (rv.value.hasAuxBus || rv.value.auxBusName != [] ==> p.reverbAuxBus == rv.value.auxBusId)
      else p.reverbAuxBus == out.reverbAuxBus && p.reverbLevel == out.reverbLevel
  {
    if !h.devicePresent then out
    else
      var p1 := if r.parent.Some? then out.(up := r.parent.value.up, front := r.parent.value.front) else out;
      var p2 := p1.(transmissionLoss := r.wallOcclusion);
      var rv := ReverbComponent(r);
      var p3 :=
        if rv.Some? && rv.value.enable then
          p2.(reverbAuxBus := if !rv.value.hasAuxBus && rv.value.auxBusName == "" then AK_INVALID_AUX_ID else rv.value.auxBusId,
              reverbLevel := rv.value.sendLevel)
        else p2;
      var p4 := if r.geometry.Some? then p3.(geometryInstanceId := r.geometry.value.geometrySetId) else p3;
      var keep := !(!r.hasAudioEvent && r.eventName == "");
      var p5 := p4.(auxSendLevelToSelf := r.auxSendLevel, keepRegistered := keep);
      if h.reverbRtpcsInUse == Some(true) then p5.(keepRegistered := true) else p5
  }

  /** Filling the parameters twice gives what filling them once gives, and the
      lifecycle flags of the room do not enter into them. */
  lemma GetRoomParamsIdempotent(r: Room, h: Host, out: RoomParams, registered: bool, moving: bool, since: real)
    ensures GetRoomParams(r, h, GetRoomParams(r, h, out)) == GetRoomParams(r, h, out)
    ensures GetRoomParams(r.(registered := registered, moving := moving, secondsSinceMovement := since), h, out)
         == GetRoomParams(r, h, out)
  {
  }

  // ---------------------------------------------------------------------------
  // Geometry

  /** UAkRoomComponent::SendGeometry: the calls it makes on the geometry component. */
  function GeometrySendCalls(g: Option<TextureSet>): (cs: seq<Call>)
    ensures |cs| <= 2
    ensures forall c :: c in cs ==> c.IsGeometrySend()
  {
    if g.None? then []
    else
      var t := g.value;
      var geometry :=
        if t.kind == AkGeometry && t.wasAddedByRoom then
          (if !t.geometryHasBeenSent then [SendGeometrySet] else [])
          + (if !t.geometryInstanceHasBeenSent then [UpdateGeometryInstance] else [])
        else [];
      var reflectors :=
        if t.kind == SurfaceReflectorSet && !t.enableSurfaceReflectors then
          (if !t.geometryHasBeenSent then [SendSurfaceReflectorSet] else [])
          + (if !t.geometryInstanceHasBeenSent then [UpdateSurfaceReflectorSet] else [])
        else [];
      geometry + reflectors
  }

  /** UAkRoomComponent::RemoveGeometry: the calls it makes on the geometry
      component, which must be valid (not only non-null). */
  function GeometryRemoveCalls(g: Option<TextureSet>): (cs: seq<Call>)
    ensures |cs| <= 1
    ensures forall c :: c in cs ==> c.IsGeometryRemove()
  {
    if g.None? || !g.value.valid then []
    else
      var t := g.value;
      (if t.kind == AkGeometry && t.wasAddedByRoom then [RemoveGeometrySet] else [])
      + (if t.kind == SurfaceReflectorSet && !t.enableSurfaceReflectors then [RemoveSurfaceReflectorSet] else [])
  }

  /** Each of the four sending calls is made exactly when the geometry is of
      its kind and that part of it has not been sent yet; nothing else is. */
  lemma GeometrySendCallsSpec(g: Option<TextureSet>)
    ensures g.None? ==> GeometrySendCalls(g) == []
    ensures SendGeometrySet in GeometrySendCalls(g) <==>
      g.Some? && g.value.kind == AkGeometry && g.value.wasAddedByRoom && !g.value.geometryHasBeenSent
    ensures UpdateGeometryInstance in GeometrySendCalls(g) <==>
      g.Some? && g.value.kind == AkGeometry && g.value.wasAddedByRoom && !g.value.geometryInstanceHasBeenSent
    ensures SendSurfaceReflectorSet in GeometrySendCalls(g) <==>
      g.Some? && g.value.kind == SurfaceReflectorSet && !g.value.enableSurfaceReflectors && !g.value.geometryHasBeenSent
    ensures UpdateSurfaceReflectorSet in GeometrySendCalls(g) <==>
      g.Some? && g.value.kind == SurfaceReflectorSet && !g.value.enableSurfaceReflectors && !g.value.geometryInstanceHasBeenSent
  {
  }

  /** A valid geometry is removed by the one call of its kind. */
  lemma GeometryRemoveCallsSpec(g: Option<TextureSet>)
    ensures RemoveGeometrySet in GeometryRemoveCalls(g) <==>
      g.Some? && g.value.valid && g.value.kind == AkGeometry && g.value.wasAddedByRoom
    ensures RemoveSurfaceReflectorSet in GeometryRemoveCalls(g) <==>
      g.Some? && g.value.valid && g.value.kind == SurfaceReflectorSet && !g.value.enableSurfaceReflectors
  {
  }

  // ---------------------------------------------------------------------------
  // Registration with the spatial-audio engine

  /** UAkRoomComponent::AddSpatialAudioRoom, with the outcome of AddRoom:
      an inactive room is left alone; otherwise the room is registered when
      a device exists and AddRoom succeeds. */
  function AddStep(r: Room, h: Host, addOk: bool): (s: Step)
    ensures !RoomIsActive(r, h) ==> s == Step(r, [])
    ensures s.room == r.(registered := r.registered || (RoomIsActive(r, h) && h.devicePresent && addOk))
  {
    if !RoomIsActive(r, h) then Step(r, [])
    else Step(r.(registered := r.registered || (h.devicePresent && addOk)), AddCalls(r, h, addOk))
  }

  /** The calls of AddSpatialAudioRoom on an active room: the geometry is
      sent first, then the sound engine is told, then the reverb RTPCs of a
      registered room in a game world are refreshed. */
  function AddCalls(r: Room, h: Host, addOk: bool): seq<Call>
  {
    var registered := r.registered || (h.devicePresent && addOk);
    var device := if h.devicePresent then AddDeviceCalls(GetRoomParams(r, h, h.defaultRoomParams), addOk) else [];
    var rtpcs := if h.hasOwner && registered && h.inGameWorld && ReverbComponent(r).Some? then [UpdateReverbRtpcs] else [];
    GeometrySendCalls(r.geometry) + device + rtpcs
  }

  /** The calls of an add on an active room, from its three parts. */
  lemma AddCallsFrom(r: Room, h: Host, addOk: bool, device: seq<Call>, rtpcs: seq<Call>)
    requires RoomIsActive(r, h)
    requires device == if h.devicePresent then AddDeviceCalls(GetRoomParams(r, h, h.defaultRoomParams), addOk) else []
    requires rtpcs == if h.hasOwner && (r.registered || (h.devicePresent && addOk)) && h.inGameWorld && ReverbComponent(r).Some?
                      then [UpdateReverbRtpcs] else []
    ensures AddStep(r, h, addOk).calls == GeometrySendCalls(r.geometry) + device + rtpcs
  {
  }

  /** The calls of an add on the sound engine. The room is indexed and the
      portals refreshed whether or not AddRoom succeeded. */
  function AddDeviceCalls(params: RoomParams, addOk: bool): seq<Call>
  {
    AddRoomCalls(params, addOk) + [IndexRoom, PortalsNeedRoomUpdate]
  }

  function AddRoomCalls(params: RoomParams, addOk: bool): seq<Call>
  {
    [AddRoom(params)] + (if addOk then [SetAttenuationScalingFactor] else [])
  }

  /** With a device, adding an active room sends its parameters, leaves it
      in the room index and asks exactly once for the portals to be updated. */
  lemma AddStepIndexes(r: Room, h: Host, addOk: bool)
    requires RoomIsActive(r, h) && h.devicePresent
    ensures var cs := AddStep(r, h, addOk).calls;
      && AddRoom(GetRoomParams(r, h, h.defaultRoomParams)) in cs
      && IndexRoom in cs
      && ReindexRoom !in cs
      && IndexedAfter(false, cs)
      && Occurrences(cs, PortalsNeedRoomUpdate) == 1
  {
    var params := GetRoomParams(r, h, h.defaultRoomParams);
    var registered := r.registered || addOk;
    var rtpcs := if h.hasOwner && registered && h.inGameWorld && ReverbComponent(r).Some? then [UpdateReverbRtpcs] else [];
    var geometry := GeometrySendCalls(r.geometry);
    var pre := AddRoomCalls(params, addOk);
    assert AddStep(r, h, addOk).calls == geometry + (pre + [IndexRoom, PortalsNeedRoomUpdate]) + rtpcs;
    AddStepFacts(geometry, pre, rtpcs, params);
  }

  /** An add never removes, unindexes or reindexes the room; without a
      device it makes no call on the sound engine at all. */
  lemma AddStepCalls(r: Room, h: Host, addOk: bool)
    ensures forall c :: c in AddStep(r, h, addOk).calls ==> c.IsGeometrySend() || c.IsAddCall()
    ensures !h.devicePresent ==>
      forall c :: c in AddStep(r, h, addOk).calls ==> c.IsGeometrySend() || c == UpdateReverbRtpcs
  {
    GeometrySendCallsSpec(r.geometry);
    if RoomIsActive(r, h) {
      var registered := r.registered || (h.devicePresent && addOk);
      var rtpcs := if h.hasOwner && registered && h.inGameWorld && ReverbComponent(r).Some? then [UpdateReverbRtpcs] else [];
      var device := if h.devicePresent then AddDeviceCalls(GetRoomParams(r, h, h.defaultRoomParams), addOk) else [];
      assert forall c :: c in device ==> c.IsAddCall();
      AddCallsFrom(r, h, addOk, device, rtpcs);
    }
  }

  /** The last index call of a trace decides whether the room is indexed. */
  lemma IndexedAfterLastIndexCall(was: bool, a: seq<Call>, x: Call, b: seq<Call>)
    requires x == IndexRoom || x == UnindexRoom
    requires IndexRoom !in b && UnindexRoom !in b
    ensures IndexedAfter(was, a + [x] + b) == (x == IndexRoom)
  {
    IndexedAfterAppend(was, a + [x], b);
    IndexedAfterAppend(was, a, [x]);
    assert [x][1..] == [];
    IndexedAfterUntouched(IndexedAfter(was, a + [x]), b);
  }

  /** A call that appears once between two traces without it occurs once. */
  lemma OccursOnce(a: seq<Call>, c: Call, b: seq<Call>)
    requires c !in a && c !in b
    ensures Occurrences(a + [c] + b, c) == 1
  {
    OccurrencesAppend(a + [c], b, c);
    OccurrencesAppend(a, [c], c);
    assert [c][1..] == [];
  }

  /** The trace facts of an add, about the parts of its trace. */
  lemma AddStepFacts(geometry: seq<Call>, pre: seq<Call>, rtpcs: seq<Call>, params: RoomParams)
    requires forall c :: c in geometry ==> c.IsGeometrySend()
    requires pre == [AddRoom(params)] || pre == [AddRoom(params), SetAttenuationScalingFactor]
    requires rtpcs == [] || rtpcs == [UpdateReverbRtpcs]
    ensures var all := geometry + (pre + [IndexRoom, PortalsNeedRoomUpdate]) + rtpcs;
      && AddRoom(params) in all
      && IndexRoom in all
      && ReindexRoom !in all
      && IndexedAfter(false, all)
      && Occurrences(all, PortalsNeedRoomUpdate) == 1
  {
    var all := geometry + (pre + [IndexRoom, PortalsNeedRoomUpdate]) + rtpcs;
    assert AddRoom(params) in all && IndexRoom in all by {
      assert all[|geometry|] == AddRoom(params);
      assert all[|geometry| + |pre|] == IndexRoom;
    }
    assert ReindexRoom !in all by {
      assert ReindexRoom !in geometry;
    }
    assert IndexedAfter(false, all) by {
      assert IndexRoom !in geometry && UnindexRoom !in geometry;
      assert all == (geometry + pre) + [IndexRoom] + ([PortalsNeedRoomUpdate] + rtpcs);
      IndexedAfterLastIndexCall(false, geometry + pre, IndexRoom, [PortalsNeedRoomUpdate] + rtpcs);
    }
    assert Occurrences(all, PortalsNeedRoomUpdate) == 1 by {
      assert PortalsNeedRoomUpdate !in geometry;
      assert all == (geometry + pre + [IndexRoom]) + [PortalsNeedRoomUpdate] + rtpcs;
      OccursOnce(geometry + pre + [IndexRoom], PortalsNeedRoomUpdate, rtpcs);
    }
  }

  /** UAkRoomComponent::UpdateSpatialAudioRoom. It assembles the room
      parameters and discards them, so no call carries them; it never
      changes the room. */
  function UpdateStep(r: Room, h: Host, updateRoomIndex: bool): (s: Step)
    ensures s.room == r
    ensures !RoomIsActive(r, h) ==> s.calls == []
  {
    if !RoomIsActive(r, h) then Step(r, [])
    else Step(r, UpdateCalls(r, h, updateRoomIndex))
  }

  /** The calls of UpdateSpatialAudioRoom on an active room. */
  function UpdateCalls(r: Room, h: Host, updateRoomIndex: bool): seq<Call>
  {
    var device :=
      if h.devicePresent then (if updateRoomIndex then [ReindexRoom] else []) + [PortalsNeedRoomUpdate]
      else [];
    var rtpcs := if h.hasOwner && h.inGameWorld && ReverbComponent(r).Some? then [UpdateReverbRtpcs] else [];
    device + rtpcs
  }

  /** An update reindexes the room at most once, exactly when it is active,
      a device exists and the caller asks for it; it refreshes the portals
      exactly when it is active with a device; it never adds or removes. */
  lemma UpdateStepCalls(r: Room, h: Host, updateRoomIndex: bool)
    ensures var cs := UpdateStep(r, h, updateRoomIndex).calls;
      && (ReindexRoom in cs <==> RoomIsActive(r, h) && h.devicePresent && updateRoomIndex)
      && Occurrences(cs, ReindexRoom) <= 1
      && (PortalsNeedRoomUpdate in cs <==> RoomIsActive(r, h) && h.devicePresent)
      && forall c :: c in cs ==> c.IsUpdateCall()
  {
    if RoomIsActive(r, h) {
      var device :=
        if h.devicePresent then (if updateRoomIndex then [ReindexRoom] else []) + [PortalsNeedRoomUpdate]
        else [];
      var rtpcs := if h.hasOwner && h.inGameWorld && ReverbComponent(r).Some? then [UpdateReverbRtpcs] else [];
      assert UpdateStep(r, h, updateRoomIndex).calls == device + rtpcs;
      OccurrencesAppend(device, rtpcs, ReindexRoom);
      if h.devicePresent {
        OccurrencesAppend(if updateRoomIndex then [ReindexRoom] else [], [PortalsNeedRoomUpdate], ReindexRoom);
      }
    }
  }

  /** UAkRoomComponent::RemoveSpatialAudioRoom, with the outcome of RemoveRoom.
      It is guarded by the parent and the commandlet only, not by bEnable. */
  function RemoveStep(r: Room, h: Host, removeOk: bool): (s: Step)
    ensures !(r.parent.Some? && !h.runningCommandlet) ==> s == Step(r, [])
    ensures s.room == r.(registered := r.registered && !(r.parent.Some? && !h.runningCommandlet && h.devicePresent && removeOk))
  {
    if !(r.parent.Some? && !h.runningCommandlet) then Step(r, [])
    else Step(r.(registered := r.registered && !(h.devicePresent && removeOk)), RemoveCalls(r, h))
  }

  /** The calls of RemoveSpatialAudioRoom past its guard: the geometry is
      removed first, then, with a device, the sounds of a room in a game
      world are stopped and the sound engine is told. */
  function RemoveCalls(r: Room, h: Host): seq<Call>
  {
    GeometryRemoveCalls(r.geometry) + (if h.devicePresent then RemoveDeviceCalls(h) else [])
  }

  /** The calls of a remove on the sound engine. The room is unindexed and
      the portals refreshed whether or not RemoveRoom succeeded. */
  function RemoveDeviceCalls(h: Host): seq<Call>
  {
    StopCalls(h) + [RemoveRoom, UnindexRoom, PortalsNeedRoomUpdate]
  }

  function StopCalls(h: Host): seq<Call>
  {
    if h.hasOwner && h.world in {GameWorld, PIEWorld} then [StopSounds] else []
  }

  /** With a device, removing a room that has a parent takes it out of the
      room index, asks exactly once for the portals to be updated, and stops
      its sounds exactly when it has an owner in a game or PIE world. */
  lemma RemoveStepUnindexes(r: Room, h: Host, removeOk: bool)
    requires r.parent.Some? && !h.runningCommandlet && h.devicePresent
    ensures var cs := RemoveStep(r, h, removeOk).calls;
      && RemoveRoom in cs
      && UnindexRoom in cs
      && ReindexRoom !in cs
      && !IndexedAfter(true, cs)
      && Occurrences(cs, PortalsNeedRoomUpdate) == 1
      && (StopSounds in cs <==> h.hasOwner && h.world in {GameWorld, PIEWorld})
  {
    var geometry := GeometryRemoveCalls(r.geometry);
    var stop := StopCalls(h);
    assert RemoveStep(r, h, removeOk).calls == geometry + (stop + [RemoveRoom, UnindexRoom, PortalsNeedRoomUpdate]);
    RemoveStepFacts(geometry, stop);
  }

  /** A remove never adds, indexes or reindexes the room; without a device
      it only removes geometry. */
  lemma RemoveStepCalls(r: Room, h: Host, removeOk: bool)
    ensures forall c :: c in RemoveStep(r, h, removeOk).calls ==> c.IsGeometryRemove() || c.IsRemoveCall()
    ensures !h.devicePresent ==> forall c :: c in RemoveStep(r, h, removeOk).calls ==> c.IsGeometryRemove()
  {
    if r.parent.Some? && !h.runningCommandlet {
      var device := if h.devicePresent then RemoveDeviceCalls(h) else [];
      assert forall c :: c in device ==> c.IsRemoveCall();
      assert RemoveStep(r, h, removeOk).calls == GeometryRemoveCalls(r.geometry) + device;
    }
  }

  /** The trace facts of a remove, about the parts of its trace. */
  lemma RemoveStepFacts(geometry: seq<Call>, stop: seq<Call>)
    requires forall c :: c in geometry ==> c.IsGeometryRemove()
    requires stop == [] || stop == [StopSounds]
    ensures var all := geometry + (stop + [RemoveRoom, UnindexRoom, PortalsNeedRoomUpdate]);
      && RemoveRoom in all
      && UnindexRoom in all
      && ReindexRoom !in all
      && !IndexedAfter(true, all)
      && Occurrences(all, PortalsNeedRoomUpdate) == 1
      && (StopSounds in all <==> stop != [])
  {
    var all := geometry + (stop + [RemoveRoom, UnindexRoom, PortalsNeedRoomUpdate]);
    assert all[|geometry| + |stop|] == RemoveRoom;
    assert IndexRoom !in geometry && UnindexRoom !in geometry && PortalsNeedRoomUpdate !in geometry;
    assert StopSounds !in geometry;
    assert all == (geometry + stop + [RemoveRoom]) + [UnindexRoom] + [PortalsNeedRoomUpdate];
    IndexedAfterLastIndexCall(true, geometry + stop + [RemoveRoom], UnindexRoom, [PortalsNeedRoomUpdate]);
    assert all == (geometry + stop + [RemoveRoom, UnindexRoom]) + [PortalsNeedRoomUpdate] + [];
    OccursOnce(geometry + stop + [RemoveRoom, UnindexRoom], PortalsNeedRoomUpdate, []);
  }

  // ---------------------------------------------------------------------------
  // What the calls do to the sound engine

  /** What a run of calls does to the sound engine, as far as the room is
      concerned: whether the room ends in the room index, and how many
      portal updates and reindexes are asked for. */
  datatype EngineEffect = EngineEffect(indexed: bool, portalUpdates: nat, reindexes: nat)

  /** The effect of the calls `cs` on a room whose index membership was `was`. */
  function EffectOf(was: bool, cs: seq<Call>): EngineEffect
  {
    EngineEffect(IndexedAfter(was, cs), Occurrences(cs, PortalsNeedRoomUpdate), Occurrences(cs, ReindexRoom))
  }

  /** No effect: membership as it was, no request. */
  function NoEffect(was: bool): EngineEffect
  {
    EngineEffect(was, 0, 0)
  }

  /** One effect followed by another that started from the first's membership. */
  function Then(first: EngineEffect, second: EngineEffect): EngineEffect
  {
    EngineEffect(second.indexed, first.portalUpdates + second.portalUpdates, first.reindexes + second.reindexes)
  }

  lemma EffectOfAppend(was: bool, a: seq<Call>, b: seq<Call>)
    ensures EffectOf(was, a + b) == Then(EffectOf(was, a), EffectOf(IndexedAfter(was, a), b))
  {
    IndexedAfterAppend(was, a, b);
    OccurrencesAppend(a, b, PortalsNeedRoomUpdate);
    OccurrencesAppend(a, b, ReindexRoom);
  }

  lemma EffectFromFacts(was: bool, cs: seq<Call>, indexed: bool, portals: nat)
    requires IndexedAfter(was, cs) == indexed && Occurrences(cs, PortalsNeedRoomUpdate) == portals
    requires ReindexRoom !in cs
    ensures EffectOf(was, cs) == EngineEffect(indexed, portals, 0)
  {
  }

  /** An add that reaches the device indexes the room and asks once for the
      portals to be updated, whether or not AddRoom succeeded. */
  function AddEffect(r: Room, h: Host, was: bool): EngineEffect
  {
    var reached := RoomIsActive(r, h) && h.devicePresent;
    EngineEffect(was || reached, if reached then 1 else 0, 0)
  }

  /** An update that reaches the device keeps index membership, asks once
      for the portals to be updated and, if asked to, once for a reindex. */
  function UpdateEffect(r: Room, h: Host, updateRoomIndex: bool, was: bool): EngineEffect
  {
    var reached := RoomIsActive(r, h) && h.devicePresent;
    EngineEffect(was, if reached then 1 else 0, if reached && updateRoomIndex then 1 else 0)
  }

  /** A remove that reaches the device unindexes the room and asks once for
      the portals to be updated, whether or not RemoveRoom succeeded. */
  function RemoveEffect(r: Room, h: Host, was: bool): EngineEffect
  {
    var reached := r.parent.Some? && !h.runningCommandlet && h.devicePresent;
    EngineEffect(was && !reached, if reached then 1 else 0, 0)
  }

  lemma AddStepEffect(r: Room, h: Host, addOk: bool, was: bool)
    ensures EffectOf(was, AddStep(r, h, addOk).calls) == AddEffect(r, h, was)
  {
    if RoomIsActive(r, h) && h.devicePresent {
      AddReachesDevice(r, h, addOk, was);
    } else if RoomIsActive(r, h) {
      AddStepCalls(r, h, addOk);
      QuietCalls(was, AddStep(r, h, addOk).calls);
    }
  }

  lemma AddReachesDevice(r: Room, h: Host, addOk: bool, was: bool)
    requires RoomIsActive(r, h) && h.devicePresent
    ensures EffectOf(was, AddStep(r, h, addOk).calls) == EngineEffect(true, 1, 0)
  {
    var cs := AddStep(r, h, addOk).calls;
    AddStepIndexes(r, h, addOk);
    IndexedAfterSuffix(was, cs);
    EffectFromFacts(was, cs, true, 1);
  }

  lemma UpdateStepEffect(r: Room, h: Host, updateRoomIndex: bool, was: bool)
    ensures EffectOf(was, UpdateStep(r, h, updateRoomIndex).calls) == UpdateEffect(r, h, updateRoomIndex, was)
  {
    var cs := UpdateStep(r, h, updateRoomIndex).calls;
    UpdateStepCalls(r, h, updateRoomIndex);
    assert IndexRoom !in cs && UnindexRoom !in cs;
    IndexedAfterUntouched(was, cs);
    if RoomIsActive(r, h) && h.devicePresent {
      var rtpcs := if h.hasOwner && h.inGameWorld && ReverbComponent(r).Some? then [UpdateReverbRtpcs] else [];
      var pre := if updateRoomIndex then [ReindexRoom] else [];
      assert cs == pre + [PortalsNeedRoomUpdate] + rtpcs;
      OccursOnce(pre, PortalsNeedRoomUpdate, rtpcs);
    }
  }

  lemma RemoveStepEffect(r: Room, h: Host, removeOk: bool, was: bool)
    ensures EffectOf(was, RemoveStep(r, h, removeOk).calls) == RemoveEffect(r, h, was)
  {
    if r.parent.Some? && !h.runningCommandlet && h.devicePresent {
      RemoveReachesDevice(r, h, removeOk, was);
    } else if r.parent.Some? && !h.runningCommandlet {
      RemoveStepCalls(r, h, removeOk);
      QuietCalls(was, RemoveStep(r, h, removeOk).calls);
    }
  }

  lemma RemoveReachesDevice(r: Room, h: Host, removeOk: bool, was: bool)
    requires r.parent.Some? && !h.runningCommandlet && h.devicePresent
    ensures EffectOf(was, RemoveStep(r, h, removeOk).calls) == EngineEffect(false, 1, 0)
  {
    var cs := RemoveStep(r, h, removeOk).calls;
    RemoveStepUnindexes(r, h, removeOk);
    IndexedAfterSuffix(was, cs);
    EffectFromFacts(was, cs, false, 1);
  }

  /** Removal does not consult bEnable: it makes the same calls and reaches
      the same registration whatever the enable flag holds. */
  lemma RemoveIgnoresEnable(r: Room, h: Host, removeOk: bool, e: bool)
    ensures RemoveStep(r.(enable := e), h, removeOk).calls == RemoveStep(r, h, removeOk).calls
    ensures RemoveStep(r.(enable := e), h, removeOk).room.registered == RemoveStep(r, h, removeOk).room.registered
  {
  }

  /** Index membership after an add or a remove follows the device alone:
      a failed AddRoom still indexes the room and a failed RemoveRoom still
      unindexes it, so registration and indexing can disagree. */
  lemma IndexFollowsCallsNotOutcome(r: Room, h: Host, ok: bool, was: bool)
    requires r.parent.Some? && !h.runningCommandlet && h.devicePresent
    ensures r.enable ==> IndexedAfter(was, AddStep(r, h, ok).calls) && (AddStep(r, h, ok).room.registered <==> r.registered || ok)
    ensures !IndexedAfter(was, RemoveStep(r, h, ok).calls)
    ensures RemoveStep(r, h, ok).room.registered <==> r.registered && !ok
  {
    if r.enable {
      AddStepIndexes(r, h, ok);
      IndexedAfterSuffix(was, AddStep(r, h, ok).calls);
    }
    RemoveStepUnindexes(r, h, ok);
    IndexedAfterSuffix(was, RemoveStep(r, h, ok).calls);
  }

  /** The index membership after a trace that mentions the index at all does
      not depend on the membership before it. */
  lemma {:induction false} IndexedAfterSuffix(was: bool, cs: seq<Call>)
    ensures (IndexRoom in cs || UnindexRoom in cs) ==> IndexedAfter(was, cs) == IndexedAfter(!was, cs)
    ensures was ==> (IndexedAfter(false, cs) ==> IndexedAfter(was, cs))
    ensures !was ==> (IndexedAfter(was, cs) ==> IndexedAfter(true, cs))
    decreases |cs|
  {
    if cs != [] {
      var next := if cs[0] == IndexRoom then true else if cs[0] == UnindexRoom then false else was;
      var next' := if cs[0] == IndexRoom then true else if cs[0] == UnindexRoom then false else !was;
      IndexedAfterSuffix(was, cs[1..]);
      IndexedAfterSuffix(!was, cs[1..]);
      if cs[0] == IndexRoom || cs[0] == UnindexRoom {
        assert next == next';
      } else {
        assert forall c :: c in cs ==> c == cs[0] || c in cs[1..];
      }
    }
  }

  // ---------------------------------------------------------------------------
  // Movement and ticking

  /** UAkRoomComponent::OnUpdateTransform: the room starts moving again. */
  function OnUpdateTransformStep(r: Room): (r': Room)
    ensures r'.moving && r'.secondsSinceMovement == 0.0
    ensures r'.(moving := r.moving, secondsSinceMovement := r.secondsSinceMovement) == r
  {
    r.(moving := true, secondsSinceMovement := 0.0)
  }

  /** Whether TickComponent does anything: in an editor build, a room in a
      game world only updates in tick when it is dynamic. */
  predicate TickUpdates(r: Room, h: Host): (update: bool)
    ensures h.build == GameBuild || !h.inGameWorld ==> update
    ensures h.build == EditorBuild && h.inGameWorld ==> (update <==> r.dynamic)
  {
    !(h.build == EditorBuild && h.inGameWorld) || r.dynamic
  }

  /** UAkRoomComponent::TickComponent, with the outcomes of a possible
      AddRoom or RemoveRoom. First the movement debounce, then the
      reconciliation of bEnable with the registration. */
  function TickStep(r: Room, h: Host, deltaTime: real, addOk: bool, removeOk: bool): (s: Step)
    ensures !TickUpdates(r, h) ==> s == Step(r, [])
    ensures s.room.enable == r.enable && s.room.parent == r.parent && s.room.dynamic == r.dynamic
    ensures s.room.geometry == r.geometry
    ensures TickUpdates(r, h) && r.moving ==>
      (s.room.moving <==> r.secondsSinceMovement + deltaTime < MOVEMENT_STOP_TIMEOUT)
      && s.room.secondsSinceMovement == r.secondsSinceMovement + deltaTime
    ensures !(TickUpdates(r, h) && r.moving) ==>
      s.room.moving == r.moving && s.room.secondsSinceMovement == r.secondsSinceMovement
    ensures (r.enable == r.registered || !h.devicePresent) ==> s.room.registered == r.registered
  {
    if !TickUpdates(r, h) then Step(r, [])
    else
      var debounce := Debounce(r, h, deltaTime);
      var rec := Reconcile(debounce.room, h, addOk, removeOk);
      Step(rec.room, debounce.calls + rec.calls)
  }

  /** The first half of a tick: a moving room counts the time since its last
      move and, once the timeout is reached, stops and is updated in the
      room index (when a device exists). */
  function Debounce(r: Room, h: Host, deltaTime: real): (s: Step)
    ensures !r.moving ==> s == Step(r, [])
    ensures s.room == if r.moving then r.(secondsSinceMovement := r.secondsSinceMovement + deltaTime,
                                          moving := r.secondsSinceMovement + deltaTime < MOVEMENT_STOP_TIMEOUT)
                      else r
  {
    if r.moving then
      var moved := r.(secondsSinceMovement := r.secondsSinceMovement + deltaTime);
      if moved.secondsSinceMovement >= MOVEMENT_STOP_TIMEOUT then
        var u := if h.devicePresent then UpdateStep(moved, h, true).calls else [];
        Step(moved.(moving := false), u)
      else Step(moved, [])
    else Step(r, [])
  }

  /** The second half of a tick: with a device, a registration that disagrees
      with bEnable is undone by a remove or made by an add. */
  function Reconcile(r: Room, h: Host, addOk: bool, removeOk: bool): (s: Step)
    ensures !(r.enable != r.registered && h.devicePresent) ==> s == Step(r, [])
    ensures r.enable != r.registered && h.devicePresent ==>
      s == if r.registered then RemoveStep(r, h, removeOk) else AddStep(r, h, addOk)
  {
    if r.enable != r.registered && h.devicePresent then
      if r.registered then RemoveStep(r, h, removeOk) else AddStep(r, h, addOk)
    else Step(r, [])
  }

  /** The debounce reindexes at most once, exactly when a moving room reaches
      the timeout while active with a device, and makes only update calls. */
  lemma DebounceCalls(r: Room, h: Host, deltaTime: real)
    ensures var cs := Debounce(r, h, deltaTime).calls;
      && Occurrences(cs, ReindexRoom) <= 1
      && (ReindexRoom in cs <==>
            r.moving && r.secondsSinceMovement + deltaTime >= MOVEMENT_STOP_TIMEOUT && h.devicePresent && RoomIsActive(r, h))
      && forall c :: c in cs ==> c.IsUpdateCall()
  {
    if r.moving && r.secondsSinceMovement + deltaTime >= MOVEMENT_STOP_TIMEOUT && h.devicePresent {
      UpdateStepCalls(r.(secondsSinceMovement := r.secondsSinceMovement + deltaTime), h, true);
    }
  }

  /** Reconciling never reindexes the room, and it leaves the room in the
      index exactly when bEnable is set, whatever AddRoom or RemoveRoom answered. */
  lemma ReconcileCalls(r: Room, h: Host, addOk: bool, removeOk: bool, was: bool)
    ensures ReindexRoom !in Reconcile(r, h, addOk, removeOk).calls
    ensures r.enable != r.registered && h.devicePresent && r.parent.Some? && !h.runningCommandlet ==>
      IndexedAfter(was, Reconcile(r, h, addOk, removeOk).calls) == r.enable
  {
    if r.enable != r.registered && h.devicePresent {
      if r.registered {
        RemoveStepEffect(r, h, removeOk, was);
      } else {
        AddStepEffect(r, h, addOk, was);
      }
    }
  }

  /** The debounce reaches the sound engine only through the update of a
      moving room that reaches the timeout. */
  function DebounceEffect(r: Room, h: Host, deltaTime: real, was: bool): EngineEffect
  {
    if r.moving && r.secondsSinceMovement + deltaTime >= MOVEMENT_STOP_TIMEOUT && h.devicePresent then
      UpdateEffect(r.(secondsSinceMovement := r.secondsSinceMovement + deltaTime), h, true, was)
    else NoEffect(was)
  }

  /** Reconciling reaches the sound engine through a remove or an add. */
  function ReconcileEffect(r: Room, h: Host, was: bool): EngineEffect
  {
    if r.enable != r.registered && h.devicePresent then
      if r.registered then RemoveEffect(r, h, was) else AddEffect(r, h, was)
    else NoEffect(was)
  }

  /** The effect of a whole tick: the debounce's, then the reconciliation's. */
  function TickEffect(r: Room, h: Host, deltaTime: real, was: bool): EngineEffect
  {
    if !TickUpdates(r, h) then NoEffect(was)
    else
      var d := DebounceEffect(r, h, deltaTime, was);
      Then(d, ReconcileEffect(Debounce(r, h, deltaTime).room, h, d.indexed))
  }

  lemma TickStepEffect(r: Room, h: Host, deltaTime: real, addOk: bool, removeOk: bool, was: bool)
    ensures EffectOf(was, TickStep(r, h, deltaTime, addOk, removeOk).calls) == TickEffect(r, h, deltaTime, was)
  {
    if TickUpdates(r, h) {
      var d := Debounce(r, h, deltaTime);
      DebounceStepEffect(r, h, deltaTime, was);
      var was1 := IndexedAfter(was, d.calls);
      ReconcileStepEffect(d.room, h, addOk, removeOk, was1);
      EffectOfAppend(was, d.calls, Reconcile(d.room, h, addOk, removeOk).calls);
    }
  }

  lemma DebounceStepEffect(r: Room, h: Host, deltaTime: real, was: bool)
    ensures EffectOf(was, Debounce(r, h, deltaTime).calls) == DebounceEffect(r, h, deltaTime, was)
  {
    if r.moving && r.secondsSinceMovement + deltaTime >= MOVEMENT_STOP_TIMEOUT && h.devicePresent {
      UpdateStepEffect(r.(secondsSinceMovement := r.secondsSinceMovement + deltaTime), h, true, was);
    }
  }

  lemma ReconcileStepEffect(r: Room, h: Host, addOk: bool, removeOk: bool, was: bool)
    ensures EffectOf(was, Reconcile(r, h, addOk, removeOk).calls) == ReconcileEffect(r, h, was)
  {
    if r.enable != r.registered && h.devicePresent {
      if r.registered {
        RemoveStepEffect(r, h, removeOk, was);
      } else {
        AddStepEffect(r, h, addOk, was);
      }
    }
  }

  /** The reconciliation of a tick: with a device, an active parent and a
      successful add or remove, registration ends up equal to bEnable. */
  lemma TickReconciles(r: Room, h: Host, deltaTime: real)
    requires TickUpdates(r, h) && h.devicePresent && r.parent.Some? && !h.runningCommandlet
    ensures TickStep(r, h, deltaTime, true, true).room.registered == r.enable
  {
  }

  /** After a tick that had to reconcile, the room is in the index exactly
      when it is enabled, whatever AddRoom or RemoveRoom answered. */
  lemma TickIndexFollowsEnable(r: Room, h: Host, deltaTime: real, addOk: bool, removeOk: bool, was: bool)
    requires TickUpdates(r, h) && h.devicePresent && r.parent.Some? && !h.runningCommandlet
    requires r.enable != r.registered
    ensures IndexedAfter(was, TickStep(r, h, deltaTime, addOk, removeOk).calls) == r.enable
  {
    var d := Debounce(r, h, deltaTime);
    var rec := Reconcile(d.room, h, addOk, removeOk);
    DebounceCalls(r, h, deltaTime);
    assert IndexRoom !in d.calls && UnindexRoom !in d.calls;
    IndexedAfterAppend(was, d.calls, rec.calls);
    IndexedAfterUntouched(was, d.calls);
    ReconcileCalls(d.room, h, addOk, removeOk, was);
  }

  datatype TickInput = TickInput(host: Host, deltaTime: real, addOk: bool, removeOk: bool)

  /** A run of ticks: the rooms they pass through and the calls they make. */
  function RunTicks(r: Room, ticks: seq<TickInput>): (s: Step)
    decreases |ticks|
  {
    if ticks == [] then Step(r, [])
    else
      var t := ticks[0];
      var first := TickStep(r, t.host, t.deltaTime, t.addOk, t.removeOk);
      var rest := RunTicks(first.room, ticks[1..]);
      Step(rest.room, first.calls + rest.calls)
  }

  function SumDeltaTime(ticks: seq<TickInput>): real
    decreases |ticks|
  {
    if ticks == [] then 0.0 else ticks[0].deltaTime + SumDeltaTime(ticks[1..])
  }

  /** Ticks never change bEnable, the parent or the dynamic flag. */
  lemma {:induction false} RunTicksKeeps(r: Room, ticks: seq<TickInput>)
    ensures RunTicks(r, ticks).room.enable == r.enable
    ensures RunTicks(r, ticks).room.parent == r.parent
    ensures RunTicks(r, ticks).room.dynamic == r.dynamic
    decreases |ticks|
  {
    if ticks != [] {
      var t := ticks[0];
      RunTicksKeeps(TickStep(r, t.host, t.deltaTime, t.addOk, t.removeOk).room, ticks[1..]);
    }
  }

  /** A room at rest stays at rest and is never reindexed by ticks. */
  lemma {:induction false} RestingRoomStaysAtRest(r: Room, ticks: seq<TickInput>)
    requires !r.moving
    ensures !RunTicks(r, ticks).room.moving
    ensures ReindexRoom !in RunTicks(r, ticks).calls
    decreases |ticks|
  {
    if ticks != [] {
      var t := ticks[0];
      var first := TickStep(r, t.host, t.deltaTime, t.addOk, t.removeOk);
      TickStepReindexes(r, t);
      RestingRoomStaysAtRest(first.room, ticks[1..]);
    }
  }

  /** One tick reindexes at most once, and only the tick at which a moving
      room stops; a reindexing tick leaves the room at rest. */
  lemma TickStepReindexes(r: Room, t: TickInput)
    ensures var s := TickStep(r, t.host, t.deltaTime, t.addOk, t.removeOk);
      && Occurrences(s.calls, ReindexRoom) <= 1
      && (ReindexRoom in s.calls ==> r.moving && !s.room.moving)
      && (ReindexRoom in s.calls <==>
            TickUpdates(r, t.host) && r.moving && r.secondsSinceMovement + t.deltaTime >= MOVEMENT_STOP_TIMEOUT
            && t.host.devicePresent && RoomIsActive(r, t.host))
  {
    var h := t.host;
    if TickUpdates(r, h) {
      var d := Debounce(r, h, t.deltaTime);
      var rec := Reconcile(d.room, h, t.addOk, t.removeOk);
      DebounceCalls(r, h, t.deltaTime);
      ReconcileCalls(d.room, h, t.addOk, t.removeOk, false);
      OccurrencesAppend(d.calls, rec.calls, ReindexRoom);
    }
  }

  /** Movement settles: once the ticks of a moving room have added up to the
      timeout, the room is at rest, whether or not a device exists. */
  lemma {:induction false} MovementSettles(r: Room, ticks: seq<TickInput>)
    requires r.moving && r.secondsSinceMovement < MOVEMENT_STOP_TIMEOUT
    requires forall i :: 0 <= i < |ticks| ==> TickUpdates(r, ticks[i].host)
    requires r.secondsSinceMovement + SumDeltaTime(ticks) >= MOVEMENT_STOP_TIMEOUT
    ensures !RunTicks(r, ticks).room.moving
    decreases |ticks|
  {
    var t := ticks[0];
    var first := TickStep(r, t.host, t.deltaTime, t.addOk, t.removeOk);
    assert TickUpdates(r, t.host);
    if first.room.moving {
      assert first.room.secondsSinceMovement == r.secondsSinceMovement + t.deltaTime;
      assert forall i :: 0 <= i < |ticks[1..]| ==> TickUpdates(first.room, ticks[1..][i].host) by {
        forall i | 0 <= i < |ticks[1..]| ensures TickUpdates(first.room, ticks[1..][i].host) {
          assert ticks[1..][i] == ticks[i + 1];
        }
      }
      MovementSettles(first.room, ticks[1..]);
    } else {
      RestingRoomStaysAtRest(first.room, ticks[1..]);
    }
  }

  /** A burst of movement causes at most one reindex, however many ticks
      follow it, and none once the room is at rest. */
  lemma {:induction false} AtMostOneReindex(r: Room, ticks: seq<TickInput>)
    ensures Occurrences(RunTicks(r, ticks).calls, ReindexRoom) <= if r.moving then 1 else 0
    decreases |ticks|
  {
    if ticks != [] {
      var t := ticks[0];
      var first := TickStep(r, t.host, t.deltaTime, t.addOk, t.removeOk);
      var rest := RunTicks(first.room, ticks[1..]);
      TickStepReindexes(r, t);
      OccurrencesAppend(first.calls, rest.calls, ReindexRoom);
      AtMostOneReindex(first.room, ticks[1..]);
      if !r.moving {
        assert !first.room.moving;
      }
    }
  }

  /** With the device present and the room active on every tick, a burst of
      movement that lasts out the timeout is reindexed exactly once. */
  lemma {:induction false} SettlingReindexesOnce(r: Room, ticks: seq<TickInput>)
    requires r.moving && r.secondsSinceMovement < MOVEMENT_STOP_TIMEOUT
    requires r.parent.Some? && r.enable
    requires forall i :: 0 <= i < |ticks| ==>
      TickUpdates(r, ticks[i].host) && ticks[i].host.devicePresent && !ticks[i].host.runningCommandlet
    requires r.secondsSinceMovement + SumDeltaTime(ticks) >= MOVEMENT_STOP_TIMEOUT
    ensures Occurrences(RunTicks(r, ticks).calls, ReindexRoom) == 1
    decreases |ticks|
  {
    var t := ticks[0];
    var first := TickStep(r, t.host, t.deltaTime, t.addOk, t.removeOk);
    var rest := RunTicks(first.room, ticks[1..]);
    assert TickUpdates(r, t.host) && t.host.devicePresent && !t.host.runningCommandlet;
    TickStepReindexes(r, t);
    OccurrencesAppend(first.calls, rest.calls, ReindexRoom);
    if first.room.moving {
      assert first.room.secondsSinceMovement == r.secondsSinceMovement + t.deltaTime;
      assert forall i :: 0 <= i < |ticks[1..]| ==>
        TickUpdates(first.room, ticks[1..][i].host) && ticks[1..][i].host.devicePresent && !ticks[1..][i].host.runningCommandlet
      by {
        forall i | 0 <= i < |ticks[1..]|
          ensures TickUpdates(first.room, ticks[1..][i].host) && ticks[1..][i].host.devicePresent && !ticks[1..][i].host.runningCommandlet
        {
          assert ticks[1..][i] == ticks[i + 1];
        }
      }
      SettlingReindexesOnce(first.room, ticks[1..]);
    } else {
      RestingRoomStaysAtRest(first.room, ticks[1..]);
    }
  }

  // ---------------------------------------------------------------------------
  // Configuration

  /** Whether the component asks for transform updates, as SetDynamic and
      OnRegister decide it: always in an editor outside a game or PIE world
      (or without a world), and otherwise exactly when the room is dynamic. */
  function WantsOnUpdateTransform(h: Host, dynamic: bool): (wants: bool)
    ensures h.build == GameBuild ==> (wants <==> dynamic)
    ensures h.build == EditorBuild && h.world in {GameWorld, PIEWorld} ==> (wants <==> dynamic)
    ensures h.build == EditorBuild && h.world !in {GameWorld, PIEWorld} ==> wants
  {
    if h.build == EditorBuild && h.world !in {GameWorld, PIEWorld} then true else dynamic
  }

  /** UAkRoomComponent::SetDynamic: the flag is stored and the wish for
      transform updates follows it; nothing else changes. */
  function SetDynamicStep(r: Room, h: Host, inDynamic: bool): (r': Room)
    ensures r'.dynamic == inDynamic
    ensures r'.wantsOnUpdateTransform == WantsOnUpdateTransform(h, inDynamic)
    ensures r'.(dynamic := r.dynamic, wantsOnUpdateTransform := r.wantsOnUpdateTransform) == r
  {
    r.(dynamic := inDynamic, wantsOnUpdateTransform := WantsOnUpdateTransform(h, inDynamic))
  }

  /** UAkRoomComponent::InitializeParent, given what GetAttachParent finds.
      No attach parent changes nothing; a primitive becomes the parent; any
      other parent is dropped and disables the room. Nothing but the parent
      and bEnable changes, and at most one diagnostic call is made, none of
      which reaches the sound engine. */
  function InitializeParentStep(r: Room, attach: Option<SceneParent>): (s: Step)
    ensures attach.None? ==> s == Step(r, [])
    ensures attach.Some? ==> (s.room.parent.Some? <==> attach.value.PrimitiveParent?)
    ensures attach.Some? && attach.value.PrimitiveParent? ==> s.room.parent == Some(attach.value.primitive)
    ensures s.room.enable <==> r.enable && attach != Some(NonPrimitiveParent)
    ensures s.room.(parent := r.parent, enable := r.enable) == r
    ensures |s.calls| <= 1
    ensures forall c :: c in s.calls ==> !c.TouchesEngine() && !c.AddRoom?
  {
    match attach
    case None => Step(r, [])
    case Some(NonPrimitiveParent) => Step(r.(parent := None, enable := false), [LogAttachmentError])
    case Some(PrimitiveParent(p, simple, brush)) =>
      var cs := if simple then [] else if brush then [BuildSimpleBrushCollision] else [LogSimpleGeometryWarning];
      Step(r.(parent := Some(p)), cs)
  }

  /** A room whose attach parent is not a primitive is inactive, so adding
      it makes no call at all. */
  lemma NonPrimitiveParentDisablesRoom(r: Room, h: Host, addOk: bool)
    ensures var r' := InitializeParentStep(r, Some(NonPrimitiveParent)).room;
      !RoomIsActive(r', h) && AddStep(r', h, addOk) == Step(r', [])
  {
  }

  /** UAkRoomComponent::OnRegister, given what GetAttachParent finds and the
      outcome of a possible AddRoom: the wish for transform updates is
      recomputed, the parent initialised, then an unregistered room is added
      and a registered one updated (without reindexing). */
  function OnRegisterStep(r: Room, h: Host, attach: Option<SceneParent>, addOk: bool): (s: Step)
    ensures s.room.enable <==> r.enable && attach != Some(NonPrimitiveParent)
    ensures s.room.dynamic == r.dynamic && s.room.geometry == r.geometry && s.room.moving == r.moving
    ensures r.registered ==> s.room.registered
  {
    var r1 := r.(wantsOnUpdateTransform := WantsOnUpdateTransform(h, r.dynamic));
    var p := InitializeParentStep(r1, attach);
    var t := if !p.room.registered then AddStep(p.room, h, addOk) else UpdateStep(p.room, h, false);
    Step(t.room, p.calls + t.calls)
  }

  /** Registering recomputes the wish for transform updates from bDynamic and
      leaves the room registered exactly when it was, or when it is active
      once its parent is initialised, a device exists and AddRoom succeeds. */
  lemma OnRegisterStepRoom(r: Room, h: Host, attach: Option<SceneParent>, addOk: bool)
    ensures var s := OnRegisterStep(r, h, attach, addOk);
      && s.room.wantsOnUpdateTransform == WantsOnUpdateTransform(h, r.dynamic)
      && (s.room.registered <==>
            r.registered || (RoomIsActive(InitializeParentStep(r, attach).room, h) && h.devicePresent && addOk))
  {
    var w := WantsOnUpdateTransform(h, r.dynamic);
    var p := InitializeParentStep(r.(wantsOnUpdateTransform := w), attach);
    var q := InitializeParentStep(r, attach).room;
    InitializeParentWants(r, attach, w);
    assert q.registered == r.registered;
    assert RoomIsActive(p.room, h) == RoomIsActive(q, h);
    if !p.room.registered {
      var t := AddStep(p.room, h, addOk);
      OnRegisterFrom(r, h, attach, addOk, false, p, t);
      assert t.room.registered == (r.registered || (RoomIsActive(q, h) && h.devicePresent && addOk));
    } else {
      var t := UpdateStep(p.room, h, false);
      OnRegisterFrom(r, h, attach, addOk, false, p, t);
      assert t.room.registered;
    }
  }

  /** Initialising the parent does not look at the wish for transform
      updates. */
  lemma InitializeParentWants(r: Room, attach: Option<SceneParent>, w: bool)
    ensures InitializeParentStep(r.(wantsOnUpdateTransform := w), attach)
         == Step(InitializeParentStep(r, attach).room.(wantsOnUpdateTransform := w), InitializeParentStep(r, attach).calls)
  {
    match attach
    case None =>
    case Some(NonPrimitiveParent) =>
    case Some(PrimitiveParent(_, _, _)) =>
  }

  /** Registering reaches the sound engine through the add of an
      unregistered room or the update of a registered one. */
  function OnRegisterEffect(r: Room, h: Host, attach: Option<SceneParent>, was: bool): EngineEffect
  {
    var p := InitializeParentStep(r.(wantsOnUpdateTransform := WantsOnUpdateTransform(h, r.dynamic)), attach).room;
    if !p.registered then AddEffect(p, h, was) else UpdateEffect(p, h, false, was)
  }

  lemma OnRegisterStepEffect(r: Room, h: Host, attach: Option<SceneParent>, addOk: bool, was: bool)
    ensures EffectOf(was, OnRegisterStep(r, h, attach, addOk).calls) == OnRegisterEffect(r, h, attach, was)
  {
    var r1 := r.(wantsOnUpdateTransform := WantsOnUpdateTransform(h, r.dynamic));
    var pc := InitializeParentStep(r1, attach);
    var t := if !pc.room.registered then AddStep(pc.room, h, addOk) else UpdateStep(pc.room, h, false);
    assert OnRegisterStep(r, h, attach, addOk).calls == pc.calls + t.calls;
    QuietPrefix(was, pc.calls, t.calls);
    if !pc.room.registered {
      AddStepEffect(pc.room, h, addOk, was);
    } else {
      UpdateStepEffect(pc.room, h, false, was);
    }
  }

  /** Registering, from its two halves: the parent initialisation and then
      the add or the update. */
  lemma OnRegisterFrom(r: Room, h: Host, attach: Option<SceneParent>, addOk: bool, was: bool, p: Step, t: Step)
    requires p == InitializeParentStep(r.(wantsOnUpdateTransform := WantsOnUpdateTransform(h, r.dynamic)), attach)
    requires t == if !p.room.registered then AddStep(p.room, h, addOk) else UpdateStep(p.room, h, false)
    ensures OnRegisterStep(r, h, attach, addOk) == Step(t.room, p.calls + t.calls)
    ensures OnRegisterEffect(r, h, attach, was)
         == if !p.room.registered then AddEffect(p.room, h, was) else UpdateEffect(p.room, h, false, was)
  {
  }

  /** Calls that do not touch the sound engine, made first, change nothing
      about the effect of the calls that follow. */
  lemma QuietPrefix(was: bool, quiet: seq<Call>, cs: seq<Call>)
    requires forall c :: c in quiet ==> !c.TouchesEngine()
    ensures EffectOf(was, quiet + cs) == EffectOf(was, cs)
  {
    QuietCalls(was, quiet);
    EffectOfAppend(was, quiet, cs);
  }

  /** Registering a component whose parent is a primitive, with a device,
      leaves an enabled room in the room index when it was unregistered (it
      is added now) or when, being registered, it was still indexed; a room
      already registered is never re-added. A registered room that is not
      indexed stays out of the index: see FailedRemoveLeavesRoomUnindexed. */
  lemma OnRegisterIndexes(r: Room, h: Host, p: Primitive, simple: bool, brush: bool, addOk: bool, was: bool)
    requires h.devicePresent && !h.runningCommandlet && r.enable
    requires !r.registered || was
    ensures var s := OnRegisterStep(r, h, Some(PrimitiveParent(p, simple, brush)), addOk);
      && IndexedAfter(was, s.calls)
      && (r.registered ==> forall c :: c in s.calls ==> !c.AddRoom?)
  {
    var attach := Some(PrimitiveParent(p, simple, brush));
    OnRegisterStepEffect(r, h, attach, addOk, was);
    var r1 := r.(wantsOnUpdateTransform := WantsOnUpdateTransform(h, r.dynamic));
    var pc := InitializeParentStep(r1, attach);
    assert RoomIsActive(pc.room, h) && pc.room.registered == r.registered;
    if r.registered {
        UpdateStepCalls(pc.room, h, false);
      assert OnRegisterStep(r, h, attach, addOk).calls == pc.calls + UpdateStep(pc.room, h, false).calls;
    }
  }

  /** A tick on a room whose registration agrees with bEnable keeps that
      registration and leaves its index membership as it was: the debounce
      only updates, and there is nothing to reconcile. */
  lemma TickKeepsConsistentIndex(r: Room, h: Host, deltaTime: real, addOk: bool, removeOk: bool, was: bool)
    requires r.enable == r.registered
    ensures TickStep(r, h, deltaTime, addOk, removeOk).room.registered == r.registered
    ensures IndexedAfter(was, TickStep(r, h, deltaTime, addOk, removeOk).calls) == was
  {
    if TickUpdates(r, h) {
      var d := Debounce(r, h, deltaTime);
      var rec := Reconcile(d.room, h, addOk, removeOk);
      assert d.room.enable == d.room.registered;
      assert rec.calls == [];
      assert TickStep(r, h, deltaTime, addOk, removeOk).calls == d.calls + rec.calls;
      assert d.calls + rec.calls == d.calls;
      DebounceCalls(r, h, deltaTime);
      assert IndexRoom !in d.calls && UnindexRoom !in d.calls;
      IndexedAfterUntouched(was, d.calls);
    }
  }

  /** The state that OnRegisterIndexes leaves aside is reachable. A
      RemoveRoom that fails leaves the room registered although it has been
      unindexed; registering the component again then only updates it, so
      the enabled room stays registered and out of the room index, and by
      TickKeepsConsistentIndex no tick brings it back. */
  lemma FailedRemoveLeavesRoomUnindexed(r: Room, h: Host, p: Primitive, simple: bool, brush: bool, addOk: bool)
    requires r.parent.Some? && r.enable && r.registered && h.devicePresent && !h.runningCommandlet
    ensures var s1 := RemoveStep(r, h, false);
            var s2 := OnRegisterStep(s1.room, h, Some(PrimitiveParent(p, simple, brush)), addOk);
      && s2.room.registered && s2.room.enable
      && !IndexedAfter(true, s1.calls + s2.calls)
  {
    var attach := Some(PrimitiveParent(p, simple, brush));
    var s1 := RemoveStep(r, h, false);
    var s2 := OnRegisterStep(s1.room, h, attach, addOk);
    RemoveStepEffect(r, h, false, true);
    var r1 := s1.room.(wantsOnUpdateTransform := WantsOnUpdateTransform(h, s1.room.dynamic));
    var pc := InitializeParentStep(r1, attach);
    OnRegisterFrom(s1.room, h, attach, addOk, false, pc, UpdateStep(pc.room, h, false));
    OnRegisterStepEffect(s1.room, h, attach, addOk, false);
    IndexedAfterAppend(true, s1.calls, s2.calls);
  }

  /** UAkRoomComponent::SetGeometryComponent: the old geometry is removed,
      the new one stored, and, for an active room, sent and the room updated. */
  function SetGeometryStep(r: Room, h: Host, g: Option<TextureSet>): (s: Step)
    ensures s.room == r.(geometry := g)
    ensures s.calls == GeometryRemoveCalls(r.geometry)
                       + (if RoomIsActive(r, h) then GeometrySendCalls(g) + UpdateStep(r.(geometry := g), h, false).calls else [])
  {
    var removed := if r.geometry.Some? then GeometryRemoveCalls(r.geometry) else [];
    var r1 := r.(geometry := g);
    if RoomIsActive(r1, h) then Step(r1, removed + GeometrySendCalls(g) + UpdateStep(r1, h, false).calls)
    else Step(r1, removed)
  }

  /** Replacing the geometry reaches the sound engine only through the
      update of an active room; the geometry calls do not touch it. */
  lemma SetGeometryStepEffect(r: Room, h: Host, g: Option<TextureSet>, was: bool)
    ensures EffectOf(was, SetGeometryStep(r, h, g).calls) == UpdateEffect(r.(geometry := g), h, false, was)
  {
    var removed := GeometryRemoveCalls(r.geometry);
    var r1 := r.(geometry := g);
    var tail := if RoomIsActive(r, h) then GeometrySendCalls(g) + UpdateStep(r1, h, false).calls else [];
    assert SetGeometryStep(r, h, g).calls == removed + tail;
    QuietPrefix(was, removed, tail);
    UpdateStepEffect(r1, h, false, was);
    if RoomIsActive(r, h) {
      QuietPrefix(was, GeometrySendCalls(g), UpdateStep(r1, h, false).calls);
    }
  }


  /** UAkRoomComponent::PostAssociatedAkEvent: the playing identifier of a
      new post, or the invalid one while events are active. */
  function PostEventStep(hasActiveEvents: bool, postedId: uint32): (s: (uint32, seq<Call>))
    ensures hasActiveEvents ==> s == (AK_INVALID_PLAYING_ID, [])
    ensures !hasActiveEvents ==> s == (postedId, [PostEvent])
  {
    if !hasActiveEvents then (postedId, [PostEvent]) else (AK_INVALID_PLAYING_ID, [])
  }
}
