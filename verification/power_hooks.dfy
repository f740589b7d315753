/**
 * The power hooks: the prefixes on the base, tool and vehicle power calls
 * that rewrite the requested amount with the adjustment rules, and the veto
 * on a base consumption made while crafting.
 *
 * The host's own ConsumeEnergy on a base is a parameter (`HostConsumeFn`),
 * so that what happens to the stored power when the hook vetoes the call can
 * be stated.
 */
module PowerHooks {
  import opened Wrappers
  import opened Radiation
  import opened Semaphores
  import opened PowerRules

  /** The message shown when a craft is refused for lack of power. */
  const NotEnoughPower := "Not Enough Power"

  /** What the base consumption prefix decides: whether the host call runs,
      the amount it runs with, and the message log. */
  datatype BaseHook = BaseHook(runOriginal: bool, amount: real, log: seq<string>)

  /** Prefix on a base's consumption: adjust the amount, then refuse the call
      outright when crafting and the interface holds less than the adjusted
      amount. */
  function ConsumeEnergyBase(tier: Tier, flags: Flags, inRadiation: RadiationTest,
                             pi: PowerInterface, amount: real, log: seq<string>): (h: BaseHook)
    ensures h.amount == AdjustConsumeEnergy(amount, IsPowerInRadiation(inRadiation, pi),
                                            pi.IsBasePowerRelay(), flags, tier)
    ensures !h.runOriginal <==> flags.crafting && pi.GetPower() < h.amount
    ensures !h.runOriginal ==> h.log == log + [NotEnoughPower]
    ensures h.runOriginal ==> h.log == log
  {
    var adjusted := AdjustConsumeEnergy(amount, IsPowerInRadiation(inRadiation, pi),
                                        pi.IsBasePowerRelay(), flags, tier);
    if flags.crafting && pi.GetPower() < adjusted then
      BaseHook(false, adjusted, log + [NotEnoughPower])
    else
      BaseHook(true, adjusted, log)
  }

  /** Prefix on energy added to a base. */
  function AddEnergyBase(tier: Tier, inRadiation: RadiationTest, pi: PowerInterface, amount: real): (r: real)
    ensures tier == Normal ==> r == amount
    ensures pi.OtherInterface? ==> r == AdjustAddEnergy(amount, false, tier)
    ensures !pi.OtherInterface? ==> r == AdjustAddEnergy(amount, inRadiation(pi.at), tier)
    ensures amount >= 0.0 ==> 0.0 <= r <= amount
  {
    AdjustAddEnergy(amount, IsPowerInRadiation(inRadiation, pi), tier)
  }

  /** A store that moves with its owner: a handheld tool, judged at the
      player, or a vehicle, judged at the vehicle. Neither is ever a base. */
  datatype Mobile = Tool(player: Location) | Vehicle(vehicle: Location)
  {
    /** Where radiation is judged for this store. */
    function Where(): Location {
      match this
      case Tool(p) => p
      case Vehicle(v) => v
    }
  }

  /** Prefix on a tool's or a vehicle's consumption. */
  function ConsumeEnergyMobile(tier: Tier, flags: Flags, inRadiation: RadiationTest,
                               m: Mobile, amount: real): (r: real)
    ensures r == AdjustConsumeEnergy(amount, inRadiation(m.Where()), false, flags, tier)
    // corollaries of the line above, spelled out for the reader
    ensures !inRadiation(m.Where()) && !flags.AnyRaised() ==> r == amount
    ensures inRadiation(m.Where()) ==> r == AdjustConsumeEnergy(amount, true, false, AllLowered, tier)
    ensures amount >= 0.0 ==> r >= amount
  {
    match m
    case Tool(player) =>
      AdjustConsumeEnergy(amount, IsTransformInRadiation(inRadiation, Some(player)), false, flags, tier)
    case Vehicle(vehicle) =>
      AdjustConsumeEnergy(amount, IsTransformInRadiation(inRadiation, Some(vehicle)), false, flags, tier)
  }

  /** Prefix on energy added to a tool or a vehicle. */
  function AddEnergyMobile(tier: Tier, inRadiation: RadiationTest, m: Mobile, amount: real): (r: real)
    ensures r == AdjustAddEnergy(amount, inRadiation(m.Where()), tier)
    ensures amount >= 0.0 ==> 0.0 <= r <= amount
  {
    match m
    case Tool(player) => AdjustAddEnergy(amount, IsTransformInRadiation(inRadiation, Some(player)), tier)
    case Vehicle(vehicle) => AdjustAddEnergy(amount, IsTransformInRadiation(inRadiation, Some(vehicle)), tier)
  }

  /** An interface without a transform is never in radiation: both base
      hooks take the non-radiation branch (and such an interface is no base). */
  lemma NoTransformNoRadiation(tier: Tier, flags: Flags, inRadiation: RadiationTest,
                               pi: PowerInterface, amount: real, log: seq<string>)
    requires GetTransform(pi).None?
    ensures ConsumeEnergyBase(tier, flags, inRadiation, pi, amount, log).amount
         == AdjustConsumeEnergy(amount, false, false, flags, tier)
    ensures AddEnergyBase(tier, inRadiation, pi, amount) == AdjustAddEnergy(amount, false, tier)
  {
  }

  /** Only a base relay counts as a base: a tool, a vehicle, and a non-base
      interface at the same place all pay the same; outside radiation with no
      semaphore raised they pay the request, while a base relay there pays
      more under DEATHRUN or HARD. */
  lemma OnlyBaseRelaysAreBases(tier: Tier, flags: Flags, inRadiation: RadiationTest,
                               at: Location, power: real, amount: real, log: seq<string>)
    ensures ConsumeEnergyMobile(tier, flags, inRadiation, Tool(at), amount)
         == ConsumeEnergyMobile(tier, flags, inRadiation, Vehicle(at), amount)
         == ConsumeEnergyBase(tier, flags, inRadiation, BatterySource(at, power), amount, log).amount
         == ConsumeEnergyBase(tier, flags, inRadiation, PowerSource(at, power), amount, log).amount
         == ConsumeEnergyBase(tier, flags, inRadiation, PowerRelay(at, power, false), amount, log).amount
    ensures !inRadiation(at) && !flags.AnyRaised() && tier != Normal && amount > 0.0 ==>
      ConsumeEnergyMobile(tier, flags, inRadiation, Tool(at), amount) == amount
      < ConsumeEnergyBase(tier, flags, inRadiation, PowerRelay(at, power, true), amount, log).amount
  {
  }

  /** The host's own consumption on a base: whether it succeeded and the
      power left at the interface afterwards. */
  datatype HostConsume = HostConsume(success: bool, power: real)

  type HostConsumeFn = (PowerInterface, real) -> HostConsume

  /** A base consumption as the game sees it: the prefix, then the host call
      unless the prefix skipped it. A skipped call reports failure. */
  datatype BaseCall = BaseCall(ran: bool, requested: real, success: bool, power: real, log: seq<string>)

  function ConsumeOnBase(tier: Tier, flags: Flags, inRadiation: RadiationTest, pi: PowerInterface,
                         amount: real, log: seq<string>, host: HostConsumeFn): (c: BaseCall)
    ensures c.requested == ConsumeEnergyBase(tier, flags, inRadiation, pi, amount, log).amount
    ensures !c.ran <==> flags.crafting && pi.GetPower() < c.requested
    ensures !c.ran ==> !c.success && c.power == pi.GetPower()
    ensures !c.ran ==> |c.log| == |log| + 1 && c.log[..|log|] == log && c.log[|log|] == NotEnoughPower
    ensures c.ran ==> HostConsume(c.success, c.power) == host(pi, c.requested) && c.log == log
  {
    var h := ConsumeEnergyBase(tier, flags, inRadiation, pi, amount, log);
    if h.runOriginal then
      var o := host(pi, h.amount);
      BaseCall(true, h.amount, o.success, o.power, h.log)
    else
      BaseCall(false, h.amount, false, pi.GetPower(), h.log)
  }

  /** The outcome of a fabricator's consumption and the semaphores after it. */
  datatype CraftCall = CraftCall(call: BaseCall, flags: Flags)

  /** A fabricator's consumption from a relay: the crafting prefix, the base
      consumption it brackets, and the crafting postfix. */
  function ConsumeForCrafting(tier: Tier, flags: Flags, inRadiation: RadiationTest, relay: PowerInterface,
                              amount: real, log: seq<string>, host: HostConsumeFn): (c: CraftCall)
    ensures !c.flags.crafting
    ensures forall a :: a != Crafting ==> c.flags.Get(a) == flags.Get(a)
    ensures !IsPowerInRadiation(inRadiation, relay) && tier == Deathrun ==> c.call.requested == amount * 3.0
    ensures !IsPowerInRadiation(inRadiation, relay) && tier == Hard ==> c.call.requested == amount * 2.0
    ensures IsPowerInRadiation(inRadiation, relay) && tier == Deathrun ==> c.call.requested == amount * 5.0
    ensures IsPowerInRadiation(inRadiation, relay) && tier == Hard ==> c.call.requested == amount * 3.0
    ensures tier == Normal ==> c.call.requested == amount
    ensures !c.call.ran <==> relay.GetPower() < c.call.requested
    ensures !c.call.ran ==> !c.call.success && c.call.power == relay.GetPower()
    ensures !c.call.ran ==> c.call.log == log + [NotEnoughPower]
    ensures c.call.ran ==> HostConsume(c.call.success, c.call.power) == host(relay, c.call.requested)
                           && c.call.log == log
  {
    var raised := ActivityPrefix(flags, Crafting);
    var call := ConsumeOnBase(tier, raised.flags, inRadiation, relay, amount, log, host);
    CraftCall(call, ActivityPostfix(raised.flags, Crafting))
  }

  /** The refused craft: 4 units stored, a request of 5 that DEATHRUN triples
      to 15 at a base relay outside radiation. The craft fails, the 4 units
      stay, and exactly one message is shown. */
  lemma VetoKeepsPower(inRadiation: RadiationTest, at: Location, host: HostConsumeFn)
    requires !inRadiation(at)
    ensures var c := ConsumeForCrafting(Deathrun, AllLowered, inRadiation, PowerRelay(at, 4.0, true), 5.0, [], host);
      && c.call.requested == 15.0
      && !c.call.ran && !c.call.success
      && c.call.power == 4.0
      && c.call.log == [NotEnoughPower]
      && c.flags == AllLowered
  {
    var c := ConsumeForCrafting(Deathrun, AllLowered, inRadiation, PowerRelay(at, 4.0, true), 5.0, [], host);
    assert forall a :: !c.flags.Get(a);
    assert !c.flags.Get(Filtration) && !c.flags.Get(Scanning) && !c.flags.Get(Charging);
  }

  /** The allowed consumption: a request of 1 at the Normal tier outside
      radiation and any activity is passed to the host unchanged. */
  lemma NormalRequestPassesThrough(inRadiation: RadiationTest, at: Location, host: HostConsumeFn)
    requires !inRadiation(at)
    ensures var c := ConsumeOnBase(Normal, AllLowered, inRadiation, PowerSource(at, 4.0), 1.0, [], host);
      && c.ran && c.requested == 1.0 && c.log == []
      && HostConsume(c.success, c.power) == host(PowerSource(at, 4.0), 1.0)
  {
  }
}
