/**
 * The room component as the object it is: its fields are updated in place by
 * its methods, which call into a sound engine whose room index and request
 * counts they change. Each method is proved against the step function of
 * RoomRules that gives its new state and the calls it makes, so what is
 * proved about the step functions holds of the component.
 */
module RoomComponentModel {

  import opened Wrappers
  import opened AkSettings
  import opened RoomRules

  lemma AppendThree(t: seq<Call>, a: seq<Call>, b: seq<Call>, c: seq<Call>)
    ensures t + a + b + c == t + (a + b + c)
  {
  }

  lemma AppendTwo(t: seq<Call>, a: seq<Call>, b: seq<Call>)
    ensures t + a + b == t + (a + b)
  {
  }

  /** The room index with `room` in it or out of it, as `indexed` says. */
  function Indexing(index: set<RoomComponent>, room: RoomComponent, indexed: bool): set<RoomComponent>
  {
    if indexed then index + {room} else index - {room}
  }

  /** The room is in the index exactly as asked, and no other room's
      membership changes. */
  lemma IndexingSpec(index: set<RoomComponent>, room: RoomComponent, indexed: bool)
    ensures room in Indexing(index, room, indexed) <==> indexed
    ensures Indexing(index, room, indexed) - {room} == index - {room}
  {
  }

  /** Only the last of two changes to one room's membership matters. */
  lemma IndexingTwice(index: set<RoomComponent>, room: RoomComponent, first: bool, second: bool)
    ensures Indexing(Indexing(index, room, first), room, second) == Indexing(index, room, second)
  {
  }

  /** The part of the sound engine the room component changes: the index
      used to find the room around a position, and the number of portal
      refreshes and room reindexes asked for. */
  class SoundEngine {
    var roomIndex: set<RoomComponent>
    var portalUpdateRequests: nat
    var reindexRequests: nat

    constructor ()
      ensures roomIndex == {} && portalUpdateRequests == 0 && reindexRequests == 0
    {
      roomIndex := {};
      portalUpdateRequests := 0;
      reindexRequests := 0;
    }

    method IndexRoom(room: RoomComponent)
      modifies this`roomIndex
      ensures roomIndex == old(roomIndex) + {room}
    {
      roomIndex := roomIndex + {room};
    }

    method UnindexRoom(room: RoomComponent)
      modifies this`roomIndex
      ensures roomIndex == old(roomIndex) - {room}
    {
      roomIndex := roomIndex - {room};
    }

    /** Asks for the room's place in the index to be recomputed; which rooms
        are in the index does not change. */
    method ReindexRoom(room: RoomComponent)
      modifies this`reindexRequests
      ensures reindexRequests == old(reindexRequests) + 1
    {
      reindexRequests := reindexRequests + 1;
    }

    method PortalsNeedRoomUpdate()
      modifies this`portalUpdateRequests
      ensures portalUpdateRequests == old(portalUpdateRequests) + 1
    {
      portalUpdateRequests := portalUpdateRequests + 1;
    }
  }

  /** UAkRoomComponent. */
  class RoomComponent {
    var enable: bool
    var registered: bool
    var moving: bool
    var secondsSinceMovement: real
    var dynamic: bool
    var wantsOnUpdateTransform: bool
    var parent: Option<Primitive>
    var geometry: Option<TextureSet>
    var wallOcclusion: real
    var auxSendLevel: real
    var hasAudioEvent: bool
    var eventName: string
    /** Every call the component has made to its collaborators, in order. */
    ghost var trace: seq<Call>

    /** The fields, as the value the step functions work on. */
    function View(): Room
      reads this
    {
      Room(enable, registered, moving, secondsSinceMovement, dynamic, wantsOnUpdateTransform,
           parent, geometry, wallOcclusion, auxSendLevel, hasAudioEvent, eventName)
    }

    /** The view is left as it was by a change to the trace or to other
        objects. */
    twostate lemma ViewUnchanged()
      requires unchanged(this`enable, this`registered, this`moving, this`secondsSinceMovement, this`dynamic,
                         this`wantsOnUpdateTransform, this`parent, this`geometry, this`wallOcclusion,
                         this`auxSendLevel, this`hasAudioEvent, this`eventName)
      ensures View() == old(View())
    {
    }

    /** The view after a change to the registration flag alone. */
    twostate lemma ViewRegistered()
      requires unchanged(this`enable, this`moving, this`secondsSinceMovement, this`dynamic,
                         this`wantsOnUpdateTransform, this`parent, this`geometry, this`wallOcclusion,
                         this`auxSendLevel, this`hasAudioEvent, this`eventName)
      ensures View() == old(View()).(registered := registered)
    {
    }

    /** The view after a change to the geometry alone. */
    twostate lemma ViewGeometry()
      requires unchanged(this`enable, this`registered, this`moving, this`secondsSinceMovement, this`dynamic,
                         this`wantsOnUpdateTransform, this`parent, this`wallOcclusion,
                         this`auxSendLevel, this`hasAudioEvent, this`eventName)
      ensures View() == old(View()).(geometry := geometry)
    {
    }

    /** The sound engine has changed by the effect `e` since it held the
        index `index` and the counts `portals` and `reindexes`: this room is
        indexed as `e` says, every other room's membership is untouched, and
        the counts have grown by what `e` asks for. */
    ghost predicate EngineAfter(engine: SoundEngine, index: set<RoomComponent>, portals: nat, reindexes: nat, e: EngineEffect)
      reads engine
    {
      && engine.roomIndex == Indexing(index, this, e.indexed)
      && engine.portalUpdateRequests == portals + e.portalUpdates
      && engine.reindexRequests == reindexes + e.reindexes
    }

    constructor (build: Build)
      ensures View() == InitialRoom(build)
      ensures trace == []
    {
      enable := true;
      registered := false;
      moving := false;
      secondsSinceMovement := 0.0;
      dynamic := false;
      wantsOnUpdateTransform := build == EditorBuild;
      parent := None;
      geometry := None;
      wallOcclusion := 1.0;
      auxSendLevel := 0.0;
      hasAudioEvent := false;
      eventName := "";
      trace := [];
    }

    method SendGeometry()
      modifies this`trace
      ensures trace == old(trace) + GeometrySendCalls(geometry)
    {
      if geometry.Some? {
        var g := geometry.value;
        ghost var t0 := trace;
        if g.kind == AkGeometry && g.wasAddedByRoom {
          if !g.geometryHasBeenSent {
            trace := trace + [SendGeometrySet];
          }
          if !g.geometryInstanceHasBeenSent {
            trace := trace + [UpdateGeometryInstance];
          }
        }
        if g.kind == SurfaceReflectorSet && !g.enableSurfaceReflectors {
          if !g.geometryHasBeenSent {
            trace := trace + [SendSurfaceReflectorSet];
          }
          if !g.geometryInstanceHasBeenSent {
            trace := trace + [UpdateSurfaceReflectorSet];
          }
        }
        assert trace == t0 + GeometrySendCalls(geometry);
      }
    }

    method RemoveGeometry()
      modifies this`trace
      ensures trace == old(trace) + GeometryRemoveCalls(geometry)
      ensures View() == old(View())
    {
      if geometry.Some? && geometry.value.valid {
        var g := geometry.value;
        if g.kind == AkGeometry && g.wasAddedByRoom {
          trace := trace + [RemoveGeometrySet];
        }
        if g.kind == SurfaceReflectorSet && !g.enableSurfaceReflectors {
          trace := trace + [RemoveSurfaceReflectorSet];
        }
      }
      ViewUnchanged();
    }

    method AddSpatialAudioRoom(h: Host, addOk: bool, engine: SoundEngine)
      modifies this`registered, this`trace, engine
      ensures View() == AddStep(old(View()), h, addOk).room
      ensures trace == old(trace) + AddStep(old(View()), h, addOk).calls
      ensures EngineAfter(engine, old(engine.roomIndex), old(engine.portalUpdateRequests), old(engine.reindexRequests),
                          AddEffect(old(View()), h, old(this in engine.roomIndex)))
    {
      var r := View();
      if RoomIsActive(r, h) {
        ghost var was := this in engine.roomIndex;
        AddActiveRoom(h, addOk, engine);
        assert View() == r.(registered := registered);
        if !h.devicePresent {
          assert engine.roomIndex == Indexing(old(engine.roomIndex), this, was);
        }
      }
    }

    /** AddSpatialAudioRoom on a room that is active: the geometry is sent,
        the sound engine, when there is one, is told and indexes the room,
        and the reverb RTPCs are refreshed. */
    method AddActiveRoom(h: Host, addOk: bool, engine: SoundEngine)
      requires RoomIsActive(View(), h)
      modifies this`registered, this`trace, engine
      ensures registered == (old(registered) || (h.devicePresent && addOk))
      ensures trace == old(trace) + AddCalls(old(View()), h, addOk)
      ensures engine.roomIndex == if h.devicePresent then old(engine.roomIndex) + {this} else old(engine.roomIndex)
      ensures engine.portalUpdateRequests == old(engine.portalUpdateRequests) + if h.devicePresent then 1 else 0
      ensures engine.reindexRequests == old(engine.reindexRequests)
    {
      var r := View();
      ghost var t0 := trace;
      ghost var device := if h.devicePresent then AddDeviceCalls(GetRoomParams(r, h, h.defaultRoomParams), addOk) else [];
      ghost var rtpcs := if h.hasOwner && (r.registered || (h.devicePresent && addOk)) && h.inGameWorld && ReverbComponent(r).Some?
                         then [UpdateReverbRtpcs] else [];
      assert AddCalls(r, h, addOk) == GeometrySendCalls(r.geometry) + device + rtpcs;
      SendGeometry();
      if h.devicePresent {
        var params := GetRoomParams(r, h, h.defaultRoomParams);
        AddToDevice(params, addOk, engine);
      }
      RefreshRegisteredReverb(h);
      AppendThree(t0, GeometrySendCalls(r.geometry), device, rtpcs);
    }

    /** The late-reverb component of a registered room in a game world
        refreshes its RTPCs. */
    method RefreshRegisteredReverb(h: Host)
      modifies this`trace
      ensures trace == old(trace) + if h.hasOwner && registered && h.inGameWorld && parent.Some? && parent.value.reverb.Some?
                                    then [UpdateReverbRtpcs] else []
    {
      if h.hasOwner && registered && h.inGameWorld {
        if parent.Some? && parent.value.reverb.Some? {
          trace := trace + [UpdateReverbRtpcs];
        }
      }
    }

    /** The part of AddSpatialAudioRoom that needs the audio device: the
        room is added with `params`, then indexed and the portals refreshed
        whether or not AddRoom succeeds. */
    method AddToDevice(params: RoomParams, addOk: bool, engine: SoundEngine)
      modifies this`registered, this`trace, engine
      ensures registered == (old(registered) || addOk)
      ensures trace == old(trace) + AddDeviceCalls(params, addOk)
      ensures engine.roomIndex == old(engine.roomIndex) + {this}
      ensures engine.portalUpdateRequests == old(engine.portalUpdateRequests) + 1
      ensures engine.reindexRequests == old(engine.reindexRequests)
    {
      if addOk {
        registered := true;
      }
      engine.IndexRoom(this);
      engine.PortalsNeedRoomUpdate();
      trace := trace + AddDeviceCalls(params, addOk);
    }

    /** The room parameters a registered room assembles here are discarded,
        so they leave no trace. */
    method UpdateSpatialAudioRoom(h: Host, updateRoomIndex: bool, engine: SoundEngine)
      modifies this`trace, engine
      ensures View() == UpdateStep(old(View()), h, updateRoomIndex).room
      ensures trace == old(trace) + UpdateStep(old(View()), h, updateRoomIndex).calls
      ensures EngineAfter(engine, old(engine.roomIndex), old(engine.portalUpdateRequests), old(engine.reindexRequests),
                          UpdateEffect(old(View()), h, updateRoomIndex, old(this in engine.roomIndex)))
    {
      var r := View();
      ghost var t0 := trace;
      if RoomIsActive(r, h) {
        ghost var device: seq<Call> := [];
        if h.devicePresent {
          if updateRoomIndex {
            engine.ReindexRoom(this);
            device := [ReindexRoom];
          }
          engine.PortalsNeedRoomUpdate();
          device := device + [PortalsNeedRoomUpdate];
        }
        ghost var rtpcs: seq<Call> := [];
        if h.hasOwner && h.inGameWorld && ReverbComponent(r).Some? {
          rtpcs := [UpdateReverbRtpcs];
        }
        assert UpdateCalls(r, h, updateRoomIndex) == device + rtpcs;
        trace := trace + (device + rtpcs);
      }
      ViewUnchanged();
    }

    method RemoveSpatialAudioRoom(h: Host, removeOk: bool, engine: SoundEngine)
      modifies this`registered, this`trace, engine
      ensures View() == RemoveStep(old(View()), h, removeOk).room
      ensures trace == old(trace) + RemoveStep(old(View()), h, removeOk).calls
      ensures EngineAfter(engine, old(engine.roomIndex), old(engine.portalUpdateRequests), old(engine.reindexRequests),
                          RemoveEffect(old(View()), h, old(this in engine.roomIndex)))
    {
      var r := View();
      ghost var t0 := trace;
      if r.parent.Some? && !h.runningCommandlet {
        RemoveGeometry();
        if h.devicePresent {
          RemoveFromDevice(h, removeOk, engine);
        }
        AppendTwo(t0, GeometryRemoveCalls(r.geometry), if h.devicePresent then RemoveDeviceCalls(h) else []);
      }
    }

    /** The part of RemoveSpatialAudioRoom that needs the audio device. */
    method RemoveFromDevice(h: Host, removeOk: bool, engine: SoundEngine)
      modifies this`registered, this`trace, engine
      ensures registered == (old(registered) && !removeOk)
      ensures View() == old(View()).(registered := registered)
      ensures trace == old(trace) + RemoveDeviceCalls(h)
      ensures engine.roomIndex == old(engine.roomIndex) - {this}
      ensures engine.portalUpdateRequests == old(engine.portalUpdateRequests) + 1
      ensures engine.reindexRequests == old(engine.reindexRequests)
    {
      ghost var stop: seq<Call> := [];
      if h.hasOwner && (h.world == GameWorld || h.world == PIEWorld) {
        stop := [StopSounds];
      }
      if removeOk {
        registered := false;
      }
      engine.UnindexRoom(this);
      engine.PortalsNeedRoomUpdate();
      trace := trace + (stop + [RemoveRoom, UnindexRoom, PortalsNeedRoomUpdate]);
      ViewRegistered();
    }

    method OnUpdateTransform()
      modifies this`moving, this`secondsSinceMovement
      ensures View() == OnUpdateTransformStep(old(View()))
    {
      moving := true;
      secondsSinceMovement := 0.0;
    }

    method TickComponent(h: Host, deltaTime: real, addOk: bool, removeOk: bool, engine: SoundEngine)
      modifies this, engine
      ensures View() == TickStep(old(View()), h, deltaTime, addOk, removeOk).room
      ensures trace == old(trace) + TickStep(old(View()), h, deltaTime, addOk, removeOk).calls
      ensures EngineAfter(engine, old(engine.roomIndex), old(engine.portalUpdateRequests), old(engine.reindexRequests),
                          TickEffect(old(View()), h, deltaTime, old(this in engine.roomIndex)))
    {
      var r := View();
      ghost var t0 := trace;
      ghost var index0 := engine.roomIndex;
      ghost var p0 := engine.portalUpdateRequests;
      ghost var x0 := engine.reindexRequests;
      ghost var was := this in engine.roomIndex;
      if TickUpdates(r, h) {
        DebounceMovement(h, deltaTime, engine);
        ghost var d := Debounce(r, h, deltaTime);
        ghost var de := DebounceEffect(r, h, deltaTime, was);
        ReconcileRegistration(h, addOk, removeOk, engine);
        AppendTwo(t0, d.calls, Reconcile(d.room, h, addOk, removeOk).calls);
        IndexingTwice(index0, this, de.indexed, ReconcileEffect(d.room, h, de.indexed).indexed);
      }
    }

    /** The movement debounce of TickComponent. */
    method DebounceMovement(h: Host, deltaTime: real, engine: SoundEngine)
      modifies this, engine
      ensures View() == Debounce(old(View()), h, deltaTime).room
      ensures trace == old(trace) + Debounce(old(View()), h, deltaTime).calls
      ensures EngineAfter(engine, old(engine.roomIndex), old(engine.portalUpdateRequests), old(engine.reindexRequests),
                          DebounceEffect(old(View()), h, deltaTime, old(this in engine.roomIndex)))
    {
      if moving {
        secondsSinceMovement := secondsSinceMovement + deltaTime;
        if secondsSinceMovement >= MOVEMENT_STOP_TIMEOUT {
          if h.devicePresent {
            UpdateSpatialAudioRoom(h, true, engine);
          }
          moving := false;
        }
      }
    }

    /** The reconciliation of bEnable with the registration in TickComponent. */
    method ReconcileRegistration(h: Host, addOk: bool, removeOk: bool, engine: SoundEngine)
      modifies this, engine
      ensures View() == Reconcile(old(View()), h, addOk, removeOk).room
      ensures trace == old(trace) + Reconcile(old(View()), h, addOk, removeOk).calls
      ensures EngineAfter(engine, old(engine.roomIndex), old(engine.portalUpdateRequests), old(engine.reindexRequests),
                          ReconcileEffect(old(View()), h, old(this in engine.roomIndex)))
    {
      if enable != registered && h.devicePresent {
        if registered {
          RemoveSpatialAudioRoom(h, removeOk, engine);
        } else {
          AddSpatialAudioRoom(h, addOk, engine);
        }
      }
    }

    method SetDynamic(h: Host, inDynamic: bool)
      modifies this`dynamic, this`wantsOnUpdateTransform
      ensures View() == SetDynamicStep(old(View()), h, inDynamic)
    {
      dynamic := inDynamic;
      if h.build == EditorBuild {
        wantsOnUpdateTransform := true;
        if h.world == GameWorld || h.world == PIEWorld {
          wantsOnUpdateTransform := dynamic;
        }
      } else {
        wantsOnUpdateTransform := dynamic;
      }
    }

    method InitializeParent(attach: Option<SceneParent>)
      modifies this`parent, this`enable, this`trace
      ensures View() == InitializeParentStep(old(View()), attach).room
      ensures trace == old(trace) + InitializeParentStep(old(View()), attach).calls
    {
      if attach.Some? {
        match attach.value
        case NonPrimitiveParent =>
          parent := None;
          enable := false;
          trace := trace + [LogAttachmentError];
        case PrimitiveParent(p, simpleCollision, brush) =>
          parent := Some(p);
          if !simpleCollision {
            if brush {
              trace := trace + [BuildSimpleBrushCollision];
            } else {
              trace := trace + [LogSimpleGeometryWarning];
            }
          }
      }
    }

    method SetGeometryComponent(h: Host, g: Option<TextureSet>, engine: SoundEngine)
      modifies this`geometry, this`trace, engine
      ensures View() == SetGeometryStep(old(View()), h, g).room
      ensures trace == old(trace) + SetGeometryStep(old(View()), h, g).calls
      ensures EngineAfter(engine, old(engine.roomIndex), old(engine.portalUpdateRequests), old(engine.reindexRequests),
                          UpdateEffect(old(View()).(geometry := g), h, false, old(this in engine.roomIndex)))
    {
      var r := View();
      ghost var t0 := trace;
      if geometry.Some? {
        RemoveGeometry();
      }
      geometry := g;
      ViewGeometry();
      ghost var removed := GeometryRemoveCalls(r.geometry);
      assert trace == t0 + removed;
      if RoomIsActive(View(), h) {
        SendGeometry();
        UpdateSpatialAudioRoom(h, false, engine);
        AppendThree(t0, removed, GeometrySendCalls(g), UpdateStep(r.(geometry := g), h, false).calls);
      }
    }

    method OnRegister(h: Host, attach: Option<SceneParent>, addOk: bool, engine: SoundEngine)
      modifies this`wantsOnUpdateTransform, this`parent, this`enable, this`registered, this`trace, engine
      ensures View() == OnRegisterStep(old(View()), h, attach, addOk).room
      ensures trace == old(trace) + OnRegisterStep(old(View()), h, attach, addOk).calls
      ensures EngineAfter(engine, old(engine.roomIndex), old(engine.portalUpdateRequests), old(engine.reindexRequests),
                          OnRegisterEffect(old(View()), h, attach, old(this in engine.roomIndex)))
    {
      ghost var r0 := View();
      ghost var t0 := trace;
      wantsOnUpdateTransform := WantsOnUpdateTransform(h, dynamic);
      ghost var r1 := View();
      assert r1 == r0.(wantsOnUpdateTransform := WantsOnUpdateTransform(h, r0.dynamic));
      InitializeParent(attach);
      ghost var p := InitializeParentStep(r1, attach);
      ghost var t: Step;
      if !registered {
        t := AddStep(p.room, h, addOk);
        AddSpatialAudioRoom(h, addOk, engine);
      } else {
        t := UpdateStep(p.room, h, false);
        UpdateSpatialAudioRoom(h, false, engine);
      }
      AppendTwo(t0, p.calls, t.calls);
      OnRegisterFrom(r0, h, attach, addOk, old(this in engine.roomIndex), p, t);
    }

    method OnUnregister(h: Host, removeOk: bool, engine: SoundEngine)
      modifies this, engine
      ensures View() == RemoveStep(old(View()), h, removeOk).room
      ensures trace == old(trace) + RemoveStep(old(View()), h, removeOk).calls
      ensures EngineAfter(engine, old(engine.roomIndex), old(engine.portalUpdateRequests), old(engine.reindexRequests),
                          RemoveEffect(old(View()), h, old(this in engine.roomIndex)))
    {
      RemoveSpatialAudioRoom(h, removeOk, engine);
    }

    method PostAssociatedAkEvent(hasActiveEvents: bool, postedId: uint32) returns (playingId: uint32)
      modifies this`trace
      ensures playingId == PostEventStep(hasActiveEvents, postedId).0
      ensures trace == old(trace) + PostEventStep(hasActiveEvents, postedId).1
    {
      playingId := AK_INVALID_PLAYING_ID;
      if !hasActiveEvents {
        playingId := postedId;
        trace := trace + [PostEvent];
      }
    }
  }
}
