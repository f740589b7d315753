/**
 * The environment classifier of the power patches: which power interfaces
 * have a location, and whether that location is in radiation.
 *
 * The game's radiation geometry is not modelled; it is handed to every
 * operation as a predicate over locations.
 */
module Radiation {
  import opened Wrappers

  /** A position in the world; stands for a Unity transform. */
  datatype Location = Location(x: real, y: real, z: real)

  /** The host's "is this location inside any radiation zone" test. */
  type RadiationTest = Location -> bool

  /**
   * The power interfaces the game passes to the base hooks. A
   * BasePowerRelay is a PowerRelay whose `isBaseRelay` is set; every other
   * implementation of the interface is `OtherInterface`, which has no
   * transform the patch can find.
   */
  datatype PowerInterface =
    | BatterySource(at: Location, power: real)
    | PowerSource(at: Location, power: real)
    | PowerRelay(at: Location, power: real, isBaseRelay: bool)
    | OtherInterface(power: real)
  {
    /** The power currently available at the interface. */
    function GetPower(): real {
      power
    }

    /** True only for the relay of a fixed base. */
    predicate IsBasePowerRelay() {
      PowerRelay? && isBaseRelay
    }
  }

  /** The location of a power interface, or None when it has none. */
  function GetTransform(pi: PowerInterface): (t: Option<Location>)
    ensures t.Some? <==> !pi.OtherInterface?
    ensures t.Some? ==> t.value == pi.at
  {
    match pi
    case BatterySource(at, _) => Some(at)
    case PowerSource(at, _) => Some(at)
    case PowerRelay(at, _, _) => Some(at)
    case OtherInterface(_) => None
  }

  /** A missing location is never in radiation; a present one asks the host. */
  function IsTransformInRadiation(inRadiation: RadiationTest, t: Option<Location>): (r: bool)
    ensures t.None? ==> !r
    ensures t.Some? ==> (r <==> inRadiation(t.value))
  {
    if t.None? then false else inRadiation(t.value)
  }

  /** Whether a power interface currently sits in radiation. */
  function IsPowerInRadiation(inRadiation: RadiationTest, pi: PowerInterface): (r: bool)
    ensures pi.OtherInterface? ==> !r
    ensures !pi.OtherInterface? ==> (r <==> inRadiation(pi.at))
  {
    IsTransformInRadiation(inRadiation, GetTransform(pi))
  }
}
