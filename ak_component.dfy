/**
 * The inline state operations of the game-object component: snapping a
 * reverb fade control to its target, the listener set maintained on
 * listener registration events, the auto-destroy flag, and the member
 * defaults that decide occlusion and reverb-volume behaviour.
 */
module AkComponent {

  import opened Wrappers
  import opened AkSettings

  /** AkReverbFadeControl: the fade state of one reverb aux send. */
  class ReverbFadeControl {
    var auxBusId: uint32
    var isFadingOut: bool
    /** Identity of the late-reverb component the control follows. */
    var fadeControlUniqueId: nat
    var currentControlValue: real
    var targetControlValue: real
    var fadeRate: real
    var priority: real

    /** Builds a control from explicit field values; the constructor that
        reads them from a late-reverb component is not part of this model. */
    constructor (auxBusId: uint32, uniqueId: nat, current: real, target: real, fadeRate: real, priority: real)
      ensures this.auxBusId == auxBusId && !isFadingOut && fadeControlUniqueId == uniqueId
      ensures currentControlValue == current && targetControlValue == target
      ensures this.fadeRate == fadeRate && this.priority == priority
    {
      this.auxBusId := auxBusId;
      isFadingOut := false;
      fadeControlUniqueId := uniqueId;
      currentControlValue := current;
      targetControlValue := target;
      this.fadeRate := fadeRate;
      this.priority := priority;
    }

    /** Snaps the current value to the target; every other field is kept. */
    method ForceCurrentToTargetValue()
      modifies this`currentControlValue
      ensures currentControlValue == targetControlValue
      ensures targetControlValue == old(targetControlValue)
      ensures auxBusId == old(auxBusId) && isFadingOut == old(isFadingOut)
      ensures fadeControlUniqueId == old(fadeControlUniqueId)
      ensures fadeRate == old(fadeRate) && priority == old(priority)
    {
      currentControlValue := targetControlValue;
    }
  }

  /** UAkComponent, restricted to the members its header defines inline. */
  class AkComponent {
    var occlusionCollisionChannel: AkCollisionChannel
    var enableSpotReflectors: bool
    var outerRadius: real
    var innerRadius: real
    var stopWhenOwnerDestroyed: bool
    /** Seconds between two obstruction/occlusion refreshes; 0 turns them off. */
    var occlusionRefreshInterval: real
    var useReverbVolumes: bool
    var isListener: bool
    var isDefaultListener: bool
    var autoDestroy: bool
    var useDefaultListeners: bool
    /** The components this one is heard by. */
    var listeners: set<AkComponent>

    /** The header's member initialisers. The two flags the constructor body
        sets are taken as arguments, since that body is not part of this model. */
    constructor (useDefaultListeners: bool, autoDestroy: bool)
      ensures occlusionCollisionChannel == UseIntegrationSettingsDefault
      ensures !enableSpotReflectors && outerRadius == 0.0 && innerRadius == 0.0
      ensures !stopWhenOwnerDestroyed
      ensures occlusionRefreshInterval == 0.0 && !OcclusionEnabled()
      ensures useReverbVolumes
      ensures !isListener && !isDefaultListener
      ensures this.useDefaultListeners == useDefaultListeners && this.autoDestroy == autoDestroy
      ensures listeners == {}
    {
      occlusionCollisionChannel := UseIntegrationSettingsDefault;
      enableSpotReflectors := false;
      outerRadius := 0.0;
      innerRadius := 0.0;
      stopWhenOwnerDestroyed := false;
      occlusionRefreshInterval := 0.0;
      useReverbVolumes := true;
      isListener := false;
      isDefaultListener := false;
      this.autoDestroy := autoDestroy;
      this.useDefaultListeners := useDefaultListeners;
      listeners := {};
    }

    /** Obstruction and occlusion are computed only with a non-zero interval. */
    predicate OcclusionEnabled()
      reads this`occlusionRefreshInterval
    {
      occlusionRefreshInterval != 0.0
    }

    method SetAutoDestroy(inAutoDestroy: bool)
      modifies this`autoDestroy
      ensures autoDestroy == inAutoDestroy
    {
      autoDestroy := inAutoDestroy;
    }

    function UseDefaultListeners(): (r: bool)
      reads this`useDefaultListeners
      ensures r == useDefaultListeners
    {
      useDefaultListeners
    }

    /** A listener that goes away is dropped; every other listener stays. */
    method OnListenerUnregistered(listener: AkComponent)
      modifies this`listeners
      ensures listener !in listeners
      ensures listeners == old(listeners) - {listener}
    {
      listeners := listeners - {listener};
    }

    /** A new default listener is heard only by components that use the
        default listeners; otherwise the set is left as it was. */
    method OnDefaultListenerAdded(listener: AkComponent)
      modifies this`listeners
      ensures useDefaultListeners ==> listeners == old(listeners) + {listener}
      ensures !useDefaultListeners ==> listeners == old(listeners)
    {
      if UseDefaultListeners() {
        listeners := listeners + {listener};
      }
    }
  }

  /** A listener that was added as a default listener and then unregistered
      is gone, and the rest of the set is what it was before the add. */
  method DefaultListenerLifecycle(c: AkComponent, listener: AkComponent)
    modifies c`listeners
    ensures listener !in c.listeners
    ensures c.listeners == old(c.listeners) - {listener}
  {
    c.OnDefaultListenerAdded(listener);
    c.OnListenerUnregistered(listener);
  }

  /** A component left at its defaults traces occlusion on the Visibility
      channel when the settings are left at theirs. */
  method DefaultOcclusionChannel(useDefaultListeners: bool, autoDestroy: bool) returns (ch: CollisionChannel)
    ensures AkChannelOf(ch) == Some(Visibility)
  {
    var c := new AkComponent(useDefaultListeners, autoDestroy);
    ch := ConvertOcclusionCollisionChannel(c.occlusionCollisionChannel, DefaultSettings());
  }
}
