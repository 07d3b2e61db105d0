# Spatial-audio room component, modelled in Dafny

This project models the room component of the Wwise integration for Unreal
Engine (`UAkRoomComponent`), together with the inline parts of the game-object
component (`UAkComponent`) and the integration settings (`UAkSettings`) that
the room relies on.

A room is attached to a primitive parent. While it is *active* (it has a
parent, `bEnable` is set and no commandlet runs), it can be registered with
the spatial-audio sound engine. `AddSpatialAudioRoom` sends its geometry and
its `AkRoomParams`. It then indexes the room and asks for the portals to be
refreshed, whether or not `AddRoom` succeeded. `UpdateSpatialAudioRoom`
refreshes the portals and, when asked, reindexes the room.
`RemoveSpatialAudioRoom` removes the geometry, stops the room's sounds in a
game world, and unregisters and unindexes the room. Every tick, a moving room
counts the time since its last transform update. After `MOVEMENT_STOP_TIMEOUT`
(0.1 s) it stops and is reindexed once. The tick then reconciles the
registration with `bEnable`.

The index follows the calls, not their outcomes. So a failed `RemoveRoom`
leaves a room registered but unindexed. Registering it again only updates it,
and ticks do nothing while registration agrees with `bEnable`, so the room
stays out of the index (`FailedRemoveLeavesRoomUnindexed`,
`TickKeepsConsistentIndex`).

The model has three layers:

- `AkSettings` (pure): the collision-channel conversions, the equality of
  surface-property map entries, the absorption array of a texture, and the
  default reverb budget.
- `AkComponent` (imperative): the reverb fade control and the component's
  listener set, auto-destroy flag and member defaults.
- The room, in two modules.
  - `RoomRules` models it on values. A `Room` holds the component's fields.
    Each operation is a step function that returns the new room and the calls
    made to the collaborators, in order (sound engine, room index, geometry
    component, reverb component).
  - `RoomComponentModel` models it as the object it is. `RoomComponent` is a
    class whose methods update its fields in place and change a
    `SoundEngine` (the room index and the portal and reindex request counts).
    Each method is proved against the matching step function. Its
    `EngineAfter` postcondition states the engine's new state through a
    closed-form `EngineEffect`.
  - Lemmas in `RoomRules` connect each step to its effect
    (`…StepEffect`), so what is proved about the steps holds of the
    component.

Everything the component learns from outside during a call is an input:
whether the audio device exists, whether `AddRoom`/`RemoveRoom` succeed,
whether a commandlet runs, the build (editor or game), the world type, what
`IsInGameWorld` answers, whether there is an owner, and the settings' reverb
RTPC flag (together a `Host`). `AK_INVALID_AUX_ID` and `AK_INVALID_PLAYING_ID`
are 0. Single-precision floats are modelled as reals.

## Model

| member | source | states |
|---|---|---|
| AkSettings.Ordinal | Plugins/Wwise/Source/AkAudio/Classes/AkSettings.h:36-47 | the eight concrete channels take positions 0-7; position 8 is taken exactly by "use integration settings default" |
| AkSettings.CastChannelRoundTrip | Plugins/Wwise/Source/AkAudio/Classes/AkSettings.h:36-47 | casting a concrete channel to the host channel and back gives it again; no host channel maps back to "use default"; recovering then casting is the identity |
| AkSettings.ConvertOcclusionCollisionChannel | Plugins/Wwise/Source/AkAudio/Classes/AkSettings.h:135-138 | "use default" yields the settings' default occlusion channel; any other channel is cast to the host channel it names |
| AkSettings.ConvertFitToGeomCollisionChannel | Plugins/Wwise/Source/AkAudio/Classes/AkSettings.h:130-133 | "use default" yields the settings' default fit-to-geometry channel; any other channel is cast to the host channel it names |
| AkSettings.DefaultSettings | Plugins/Wwise/Source/AkAudio/Classes/AkSettings.h:143-185 | the shipped settings allow AK_MAX_AUX_PER_OBJ = 4 simultaneous reverbs, trace occlusion on Visibility and fit geometry on WorldStatic |
| AkSettings.DefaultChannelsUnderDefaultSettings | Plugins/Wwise/Source/AkAudio/Classes/AkSettings.h:181-185 | with the shipped settings, "use default" converts to Visibility for occlusion and WorldStatic for geometry fitting |
| AkSettings.DefaultSurfaceProperties | Plugins/Wwise/Source/AkAudio/Classes/AkSettings.h:61-69 | a default map entry has no valid texture and a transmission loss of 1 |
| AkSettings.SurfacePropertiesEqual | Plugins/Wwise/Source/AkAudio/Classes/AkSettings.h:71-85 | entries with different occlusion values, or with one valid and one invalid texture, differ; two invalid textures compare by occlusion alone; two valid ones by occlusion and by texture FName, which ignores case |
| AkSettings.SameFNameIgnoresCase | Plugins/Wwise/Source/AkAudio/Classes/AkSettings.h:85 | two texture names are the same FName iff they have the same length and agree letter by letter with ASCII case ignored |
| AkSettings.SurfacePropertiesEqualIsKeyEquality | Plugins/Wwise/Source/AkAudio/Classes/AkSettings.h:71-85 | the comparison holds iff the (occlusion, case-folded name of a valid texture) keys are equal |
| AkSettings.SurfacePropertiesEqualIsEquivalence | Plugins/Wwise/Source/AkAudio/Classes/AkSettings.h:71-85 | on non-NaN occlusion values the comparison is reflexive, symmetric and transitive |
| AkSettings.SameNameDifferentPathsCompareEqual | Plugins/Wwise/Source/AkAudio/Classes/AkSettings.h:84 | two different textures sharing a name compare equal |
| AkSettings.NamesDifferingInCaseCompareEqual | Plugins/Wwise/Source/AkAudio/Classes/AkSettings.h:85 | textures whose names differ only in case ("Brick" and "brick") compare equal |
| AkSettings.AcousticTextureParams.AsTArray | Plugins/Wwise/Source/AkAudio/Classes/AkSettings.h:103-108 | four values, element i being absorption band i, low to high |
| AkSettings.DefaultTextureParams | Plugins/Wwise/Source/AkAudio/Classes/AkSettings.h:96-101 | default parameters have short ID 0 and an all-zero absorption array |
| AkSettings.AsTArrayRoundTrip | Plugins/Wwise/Source/AkAudio/Classes/AkSettings.h:100-108 | up to float narrowing, the absorption vector is rebuilt from its array, so equal arrays mean equal absorption |
| AkComponent.ReverbFadeControl.ForceCurrentToTargetValue | Plugins/Wwise/Source/AkAudio/Classes/AkComponent.h:63 | the current value becomes the target; every other field is kept |
| AkComponent.AkComponent.constructor | Plugins/Wwise/Source/AkAudio/Classes/AkComponent.h:89-335 | the member defaults: occlusion channel "use default", spot reflectors off, radii 0, occlusion refresh 0 (occlusion off), reverb volumes used, not a listener, no listeners |
| AkComponent.AkComponent.SetAutoDestroy | Plugins/Wwise/Source/AkAudio/Classes/AkComponent.h:381 | the auto-destroy flag takes the given value and nothing else changes |
| AkComponent.AkComponent.UseDefaultListeners | Plugins/Wwise/Source/AkAudio/Classes/AkComponent.h:383 | reports whether the component follows the default listeners |
| AkComponent.AkComponent.OnListenerUnregistered | Plugins/Wwise/Source/AkAudio/Classes/AkComponent.h:385-389 | the listener is gone from the set and every other listener stays |
| AkComponent.AkComponent.OnDefaultListenerAdded | Plugins/Wwise/Source/AkAudio/Classes/AkComponent.h:391-398 | the listener joins the set iff the component uses default listeners; otherwise the set is unchanged |
| RoomRules.InitialRoom | Plugins/Wwise/Source/AkAudio/Private/AkRoomComponent.cpp:47-71 | a new room is enabled, unregistered, at rest, without parent or geometry, with wall occlusion 1; it wants transform updates iff built with the editor |
| RoomRules.RoomIsActive | Plugins/Wwise/Source/AkAudio/Private/AkRoomComponent.cpp:103-106 | a room without parent, a disabled room, and any room while a commandlet runs are inactive; every other room is active |
| RoomRules.HasEffectOnLocation | Plugins/Wwise/Source/AkAudio/Private/AkRoomComponent.cpp:95-101 | only an active room affects a location; an active one affects it iff its parent encompasses it within 0.01 |
| RoomRules.EncompassesPoint | Plugins/Wwise/Source/AkAudio/Private/AkRoomComponent.cpp:644-655 | a room without parent encompasses nothing; otherwise its parent's containment test decides |
| RoomRules.ReverbComponent | Plugins/Wwise/Source/AkAudio/Private/AkRoomComponent.cpp:697-705 | a room without a valid parent has no reverb component |
| RoomRules.GetRoomName | Plugins/Wwise/Source/AkAudio/Private/AkRoomComponent.cpp:370-392 | without owner, the object name; else the owner's label (editor) or name (game), extended by "_" and the parent's name exactly when the owner holds several rooms and there is a parent |
| RoomRules.GetRoomParams | Plugins/Wwise/Source/AkAudio/Private/AkRoomComponent.cpp:394-429 | without a device the parameters are untouched; with one, orientation from the parent, transmission loss from wall occlusion, reverb bus and level from an enabled reverb (invalid bus when none is named), geometry instance from the geometry, aux send to self, and keep-registered iff event, event name or reverb RTPCs; other fields kept |
| RoomRules.GetRoomParamsIdempotent | Plugins/Wwise/Source/AkAudio/Private/AkRoomComponent.cpp:394-429 | filling twice equals filling once; registration and movement do not enter the parameters |
| RoomRules.GeometrySendCalls | Plugins/Wwise/Source/AkAudio/Private/AkRoomComponent.cpp:657-678 | sending makes at most two calls, all of them geometry sends |
| RoomRules.GeometryRemoveCalls | Plugins/Wwise/Source/AkAudio/Private/AkRoomComponent.cpp:680-695 | removing makes at most one call, a geometry removal |
| RoomRules.GeometrySendCallsSpec | Plugins/Wwise/Source/AkAudio/Private/AkRoomComponent.cpp:657-678 | each of the four send calls is made iff the geometry is of its kind and that part is unsent; nothing else is sent |
| RoomRules.GeometryRemoveCallsSpec | Plugins/Wwise/Source/AkAudio/Private/AkRoomComponent.cpp:680-695 | a valid geometry is removed by the single call of its kind; an invalid one is not removed |
| RoomRules.AddStep | Plugins/Wwise/Source/AkAudio/Private/AkRoomComponent.cpp:436-466 | an inactive room is left alone with no call; otherwise it becomes registered iff it was or a device exists and AddRoom succeeds |
| RoomRules.AddStepIndexes | Plugins/Wwise/Source/AkAudio/Private/AkRoomComponent.cpp:443-457 | with a device, an active room's add sends its parameters, leaves it indexed, never reindexes, and refreshes portals exactly once |
| RoomRules.AddStepCalls | Plugins/Wwise/Source/AkAudio/Private/AkRoomComponent.cpp:436-466 | an add only sends geometry and makes add calls; without a device only geometry and the reverb RTPC refresh |
| RoomRules.UpdateStep | Plugins/Wwise/Source/AkAudio/Private/AkRoomComponent.cpp:468-496 | an update never changes the room and makes no call on an inactive one |
| RoomRules.UpdateStepCalls | Plugins/Wwise/Source/AkAudio/Private/AkRoomComponent.cpp:468-496 | reindex at most once, iff active with a device and asked; portals refreshed iff active with a device; only update calls |
| RoomRules.RemoveStep | Plugins/Wwise/Source/AkAudio/Private/AkRoomComponent.cpp:498-523 | guarded by the parent and the commandlet only; past the guard the room is unregistered iff a device exists and RemoveRoom succeeds |
| RoomRules.RemoveStepUnindexes | Plugins/Wwise/Source/AkAudio/Private/AkRoomComponent.cpp:498-523 | with a device, a remove unregisters and unindexes the room, never reindexes, refreshes portals once, and stops sounds iff owned in a game or PIE world |
| RoomRules.RemoveStepCalls | Plugins/Wwise/Source/AkAudio/Private/AkRoomComponent.cpp:498-523 | a remove only removes geometry and makes remove calls; without a device only geometry |
| RoomRules.RemoveIgnoresEnable | Plugins/Wwise/Source/AkAudio/Private/AkRoomComponent.cpp:500 | removal makes the same calls and reaches the same registration whatever bEnable holds |
| RoomRules.IndexFollowsCallsNotOutcome | Plugins/Wwise/Source/AkAudio/Private/AkRoomComponent.cpp:436-523 | with a device, an add indexes the room and a remove unindexes it whatever AddRoom/RemoveRoom answer, while registration follows the answer |
| RoomRules.AddStepEffect | Plugins/Wwise/Source/AkAudio/Private/AkRoomComponent.cpp:436-466 | an add's calls index the room and ask one portal refresh exactly when it reaches the device, and nothing otherwise |
| RoomRules.UpdateStepEffect | Plugins/Wwise/Source/AkAudio/Private/AkRoomComponent.cpp:468-496 | an update's calls keep index membership, ask one portal refresh and, if asked, one reindex when it reaches the device |
| RoomRules.RemoveStepEffect | Plugins/Wwise/Source/AkAudio/Private/AkRoomComponent.cpp:498-523 | a remove's calls unindex the room and ask one portal refresh exactly when it reaches the device |
| RoomRules.OnUpdateTransformStep | Plugins/Wwise/Source/AkAudio/Private/AkRoomComponent.cpp:320-325 | the room is moving with zero seconds since movement; nothing else changes |
| RoomRules.TickUpdates | Plugins/Wwise/Source/AkAudio/Private/AkRoomComponent.cpp:190-197 | a game build, or an editor outside a game world, always updates in tick; an editor in a game world updates iff the room is dynamic |
| RoomRules.TickStep | Plugins/Wwise/Source/AkAudio/Private/AkRoomComponent.cpp:190-227 | a tick that does not update changes nothing; a tick keeps enable, parent, dynamic and geometry; a moving room adds the delta and keeps moving iff under the timeout; a registration that agrees with bEnable (or has no device) is kept |
| RoomRules.Debounce | Plugins/Wwise/Source/AkAudio/Private/AkRoomComponent.cpp:199-212 | a room at rest is untouched; a moving one adds the delta and stops at the timeout |
| RoomRules.Reconcile | Plugins/Wwise/Source/AkAudio/Private/AkRoomComponent.cpp:214-224 | with a device, an enabled unregistered room is added and a disabled registered one removed; otherwise nothing happens |
| RoomRules.DebounceCalls | Plugins/Wwise/Source/AkAudio/Private/AkRoomComponent.cpp:199-212 | the debounce reindexes at most once, iff a moving active room with a device reaches the timeout, and makes only update calls |
| RoomRules.ReconcileCalls | Plugins/Wwise/Source/AkAudio/Private/AkRoomComponent.cpp:214-224 | reconciling never reindexes, and when it acts it leaves the room indexed iff enabled |
| RoomRules.TickStepEffect | Plugins/Wwise/Source/AkAudio/Private/AkRoomComponent.cpp:190-227 | a tick's calls have the debounce's effect followed by the reconciliation's |
| RoomRules.DebounceStepEffect | Plugins/Wwise/Source/AkAudio/Private/AkRoomComponent.cpp:199-212 | the debounce reaches the engine only through the update of a room reaching the timeout |
| RoomRules.ReconcileStepEffect | Plugins/Wwise/Source/AkAudio/Private/AkRoomComponent.cpp:214-224 | reconciling reaches the engine through a remove or an add |
| RoomRules.TickReconciles | Plugins/Wwise/Source/AkAudio/Private/AkRoomComponent.cpp:214-224 | with a device, a parent and successful add and remove, registration ends equal to bEnable |
| RoomRules.TickIndexFollowsEnable | Plugins/Wwise/Source/AkAudio/Private/AkRoomComponent.cpp:214-224 | after a tick that reconciles, the room is indexed iff enabled, whatever AddRoom/RemoveRoom answered |
| RoomRules.TickStepReindexes | Plugins/Wwise/Source/AkAudio/Private/AkRoomComponent.cpp:199-212 | one tick reindexes at most once, iff it stops a moving active room with a device, and that tick leaves the room at rest |
| RoomRules.RunTicksKeeps | Plugins/Wwise/Source/AkAudio/Private/AkRoomComponent.cpp:190-227 | any run of ticks keeps bEnable, the parent and bDynamic |
| RoomRules.RestingRoomStaysAtRest | Plugins/Wwise/Source/AkAudio/Private/AkRoomComponent.cpp:199-212 | a room at rest stays at rest and is never reindexed by ticks |
| RoomRules.MovementSettles | Plugins/Wwise/Source/AkAudio/Private/AkRoomComponent.cpp:199-212 | once the deltas of updating ticks add up to the timeout, a moving room is at rest |
| RoomRules.AtMostOneReindex | Plugins/Wwise/Source/AkAudio/Private/AkRoomComponent.cpp:199-212 | a burst of movement causes at most one reindex over any run of ticks, none for a room at rest |
| RoomRules.SettlingReindexesOnce | Plugins/Wwise/Source/AkAudio/Private/AkRoomComponent.cpp:199-212 | an active room with a device that moves for as long as the timeout is reindexed exactly once |
| RoomRules.WantsOnUpdateTransform | Plugins/Wwise/Source/AkAudio/Private/AkRoomComponent.cpp:73-88 | in a game build it follows bDynamic; in the editor it is set, except in a game or PIE world where it follows bDynamic |
| RoomRules.SetDynamicStep | Plugins/Wwise/Source/AkAudio/Private/AkRoomComponent.cpp:73-88 | bDynamic takes the new value, the wish for transform updates follows it, nothing else changes |
| RoomRules.InitializeParentStep | Plugins/Wwise/Source/AkAudio/Private/AkRoomComponent.cpp:342-368 | no attach parent changes nothing; a primitive becomes the parent; any other parent is dropped and disables the room; only parent and bEnable change; at most one diagnostic call, none reaching the sound engine |
| RoomRules.NonPrimitiveParentDisablesRoom | Plugins/Wwise/Source/AkAudio/Private/AkRoomComponent.cpp:350-356 | after a non-primitive attach parent the room is inactive and adding it does nothing |
| RoomRules.OnRegisterStep | Plugins/Wwise/Source/AkAudio/Private/AkRoomComponent.cpp:108-142 | registering keeps bEnable unless the attach parent is not a primitive, keeps bDynamic, the geometry and the movement state, and never unregisters the room |
| RoomRules.OnRegisterStepRoom | Plugins/Wwise/Source/AkAudio/Private/AkRoomComponent.cpp:108-142 | registering recomputes the wish for transform updates from bDynamic and leaves the room registered iff it was, or it is active after parent initialisation with a device and AddRoom succeeds |
| RoomRules.OnRegisterStepEffect | Plugins/Wwise/Source/AkAudio/Private/AkRoomComponent.cpp:108-142 | registering reaches the engine as the add of an unregistered room or the non-reindexing update of a registered one |
| RoomRules.OnRegisterIndexes | Plugins/Wwise/Source/AkAudio/Private/AkRoomComponent.cpp:108-142 | with a device and a primitive parent, an enabled room ends indexed if it was unregistered, or registered and still indexed; a registered room is never re-added |
| RoomRules.TickKeepsConsistentIndex | Plugins/Wwise/Source/AkAudio/Private/AkRoomComponent.cpp:190-227 | a tick on a room whose registration agrees with bEnable keeps the registration and the index membership |
| RoomRules.FailedRemoveLeavesRoomUnindexed | Plugins/Wwise/Source/AkAudio/Private/AkRoomComponent.cpp:108-142 | after a failed RemoveRoom, registering again leaves an enabled room registered but out of the room index |
| RoomRules.SetGeometryStep | Plugins/Wwise/Source/AkAudio/Private/AkRoomComponent.cpp:616-628 | the geometry is replaced; the old one is removed first, and for an active room the new one is sent and the room updated |
| RoomRules.SetGeometryStepEffect | Plugins/Wwise/Source/AkAudio/Private/AkRoomComponent.cpp:616-628 | replacing geometry reaches the engine only through the update of an active room |
| RoomRules.PostEventStep | Plugins/Wwise/Source/AkAudio/Private/AkRoomComponent.cpp:525-533 | while events are active nothing is posted and the invalid playing ID is returned; otherwise the event is posted and its ID returned |
| RoomComponentModel.RoomComponent.constructor | Plugins/Wwise/Source/AkAudio/Private/AkRoomComponent.cpp:47-71 | the fields start as InitialRoom says, with no call made |
| RoomComponentModel.RoomComponent.SendGeometry | Plugins/Wwise/Source/AkAudio/Private/AkRoomComponent.cpp:657-678 | the trace grows by exactly the send calls of the current geometry |
| RoomComponentModel.RoomComponent.RemoveGeometry | Plugins/Wwise/Source/AkAudio/Private/AkRoomComponent.cpp:680-695 | the trace grows by exactly the remove calls of the current geometry; the fields are unchanged |
| RoomComponentModel.RoomComponent.AddSpatialAudioRoom | Plugins/Wwise/Source/AkAudio/Private/AkRoomComponent.cpp:436-466 | the fields, the calls and the engine change as AddStep and AddEffect say |
| RoomComponentModel.RoomComponent.AddActiveRoom | Plugins/Wwise/Source/AkAudio/Private/AkRoomComponent.cpp:440-464 | on an active room: registered iff it was or a device exists and AddRoom succeeds; the add's calls; indexed and one portal refresh with a device, the engine untouched without |
| RoomComponentModel.RoomComponent.AddToDevice | Plugins/Wwise/Source/AkAudio/Private/AkRoomComponent.cpp:443-457 | AddRoom with the parameters registers the room on success; the room is indexed and the portals refreshed once either way |
| RoomComponentModel.RoomComponent.RefreshRegisteredReverb | Plugins/Wwise/Source/AkAudio/Private/AkRoomComponent.cpp:459-464 | the reverb RTPCs are refreshed iff the room has an owner, is registered, is in a game world and has a reverb component |
| RoomComponentModel.RoomComponent.UpdateSpatialAudioRoom | Plugins/Wwise/Source/AkAudio/Private/AkRoomComponent.cpp:468-496 | the fields are unchanged; the calls and the engine change as UpdateStep and UpdateEffect say |
| RoomComponentModel.RoomComponent.RemoveSpatialAudioRoom | Plugins/Wwise/Source/AkAudio/Private/AkRoomComponent.cpp:498-523 | the fields, the calls and the engine change as RemoveStep and RemoveEffect say |
| RoomComponentModel.RoomComponent.RemoveFromDevice | Plugins/Wwise/Source/AkAudio/Private/AkRoomComponent.cpp:504-520 | sounds stopped in a game world; unregistered iff RemoveRoom succeeds; unindexed and portals refreshed once either way |
| RoomComponentModel.RoomComponent.OnUpdateTransform | Plugins/Wwise/Source/AkAudio/Private/AkRoomComponent.cpp:320-325 | the fields change as OnUpdateTransformStep says |
| RoomComponentModel.RoomComponent.TickComponent | Plugins/Wwise/Source/AkAudio/Private/AkRoomComponent.cpp:190-227 | the fields, the calls and the engine change as TickStep and TickEffect say |
| RoomComponentModel.RoomComponent.DebounceMovement | Plugins/Wwise/Source/AkAudio/Private/AkRoomComponent.cpp:199-212 | the fields, the calls and the engine change as Debounce and DebounceEffect say |
| RoomComponentModel.RoomComponent.ReconcileRegistration | Plugins/Wwise/Source/AkAudio/Private/AkRoomComponent.cpp:214-224 | the fields, the calls and the engine change as Reconcile and ReconcileEffect say |
| RoomComponentModel.RoomComponent.SetDynamic | Plugins/Wwise/Source/AkAudio/Private/AkRoomComponent.cpp:73-88 | the fields change as SetDynamicStep says |
| RoomComponentModel.RoomComponent.InitializeParent | Plugins/Wwise/Source/AkAudio/Private/AkRoomComponent.cpp:342-368 | the fields and the calls change as InitializeParentStep says |
| RoomComponentModel.RoomComponent.SetGeometryComponent | Plugins/Wwise/Source/AkAudio/Private/AkRoomComponent.cpp:616-628 | the fields, the calls and the engine change as SetGeometryStep says, with the effect of an update of the room with its new geometry |
| RoomComponentModel.RoomComponent.OnRegister | Plugins/Wwise/Source/AkAudio/Private/AkRoomComponent.cpp:108-142 | the fields, the calls and the engine change as OnRegisterStep and OnRegisterEffect say |
| RoomComponentModel.RoomComponent.OnUnregister | Plugins/Wwise/Source/AkAudio/Private/AkRoomComponent.cpp:144-148 | unregistering is a remove: fields, calls and engine change as RemoveStep and RemoveEffect say |
| RoomComponentModel.RoomComponent.PostAssociatedAkEvent | Plugins/Wwise/Source/AkAudio/Private/AkRoomComponent.cpp:525-533 | returns the posted ID and records the post iff no event is active, else the invalid ID and no call |

## Left out

- BeginPlay, the deferred begin play run from the editor tick, and EndPlay: they are outside the room lifecycle modelled here.
- Editor-only code: HandleObjectsReplaced, PostEditChangeProperty, the visibility callback, and drawing-component creation and destruction (including the visualisation step of OnRegister).
- GetName, MoveComponentImpl, PostAkEventByNameWithDelegate, OnComponentCreated, InitializeComponent, PostLoad, OnComponentDestroyed, BeginDestroy and GetPrimitiveParent: they only forward to the engine or to the base class.
- The internals of the audio device, the room index, the geometry component, the late-reverb component and the parent primitive are not part of this model. Their answers (AddRoom/RemoveRoom success, the containment test, what GetAttachParent finds) are inputs; the room index and request counts are a `SoundEngine` with the effects the component relies on.
- SetRelativeTransform in OnRegister and the base-class calls (Super::OnRegister, Super::TickComponent) are not modelled.
- Floating-point arithmetic: the movement timer and all parameters are reals, so rounding of `float` is not captured.
- AkGameplayStatics.h, AkPlatforms.h and Wwise_IDs.h are not part of this model.
- AkComponent.ReverbFadeControl.constructor: the control is built from explicit field values; the constructor that reads them from a late-reverb component, and UpdateValues, Update, ToAkAuxSendValue and Prioritize, are not part of this model.
- AkComponent.AkComponent.constructor: the two flags set by the constructor body (defined outside the header) are arguments; GetOcclusionCollisionChannel's body is not part of this model.
- AkSettings.ConvertOcclusionCollisionChannel and AkSettings.ConvertFitToGeomCollisionChannel: their bodies are outside the header, so they follow the behaviour the header documents.
- RoomRules.UpdateStep: UpdateSpatialAudioRoom fills an AkRoomParams and then discards it, so no call carries the parameters; the default argument of UpdateSpatialAudioRoom, declared outside the modelled files, is taken to be false.
- The locks around the listener set are not modelled; the model is sequential.
- AkSettings.SurfacePropertiesEqual: only ASCII letters are folded when texture names are compared; how an FName compares other letters is not modelled.
- AkSettings.SurfacePropertiesEqualIsEquivalence: occlusion values are reals, so there is no NaN; for a NaN OcclusionValue the source's comparison is not reflexive.
- AkSettings.AsTArrayRoundTrip: absorption values are reals; where FVector4 holds doubles, the float getters narrow them and equal arrays need not mean equal vectors.
- RoomRules.RemoveStep: with an owner, the source reads the world type without checking for a world. The model takes a missing world as not a game world, so it skips StopSounds and goes on with the remove; the source's failure in that case is not modelled.
- RoomRules.GeometrySendCalls: the geometry component's "has been sent" flags are a snapshot taken when the geometry is set (RoomRules.SetGeometryStep). Nothing updates them after a send or a removal, so a later add sends the same parts again. The geometry component's own bookkeeping is not part of this model.
