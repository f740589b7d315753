/**
 * The power adjustment rules: how much energy is actually added to, or
 * drained from, a power store, given the requested amount, whether the store
 * is in radiation, whether it is a base, the activity semaphores and the
 * powerCosts difficulty setting.
 */
module PowerRules {
  import opened Semaphores

  /**
   * The powerCosts setting. The patch only distinguishes DEATHRUN and HARD;
   * every other setting behaves as Normal.
   */
  datatype Tier = Deathrun | Hard | Normal

  /** Energy gained, e.g. from a solar panel or thermal plant. */
  function AdjustAddEnergy(amount: real, radiation: bool, tier: Tier): (r: real)
    ensures tier == Normal ==> r == amount
    ensures tier == Deathrun ==> r * (if radiation then 4.0 else 3.0) == amount
    ensures tier == Hard ==> r * (if radiation then 3.0 else 2.0) == amount
  {
    if radiation then
      if tier == Deathrun then amount / 4.0
      else if tier == Hard then amount / 3.0
      else amount
    else if tier == Deathrun then amount / 3.0
    else if tier == Hard then amount / 2.0
    else amount
  }

  /** True when the consumption is in the elevated (non-radiation) context:
      a base, or any activity semaphore raised. */
  predicate Elevated(isBase: bool, flags: Flags) {
    isBase || flags.AnyRaised()
  }

  /** Energy spent doing anything. */
  function AdjustConsumeEnergy(amount: real, radiation: bool, isBase: bool, flags: Flags, tier: Tier): (r: real)
    ensures tier == Normal ==> r == amount
    ensures radiation && tier == Deathrun ==> r == amount * 5.0
    ensures radiation && tier == Hard ==> r == amount * 3.0
    ensures !radiation && Elevated(isBase, flags) && tier == Deathrun ==> r == amount * 3.0
    ensures !radiation && Elevated(isBase, flags) && tier == Hard ==> r == amount * 2.0
    ensures !radiation && !Elevated(isBase, flags) ==> r == amount
  {
    if radiation then
      if tier == Deathrun then amount * 5.0
      else if tier == Hard then amount * 3.0
      else amount
    else if isBase || (flags.charging || flags.crafting || flags.scanner || flags.filter) then
      if tier == Deathrun then amount * 3.0
      else if tier == Hard then amount * 2.0
      else amount
    else amount
  }

  /** In radiation the cost is the same whatever the base flag and the
      semaphores say: the radiation branch takes priority. */
  lemma RadiationDominates(amount: real, isBase: bool, flags: Flags, isBase': bool, flags': Flags, tier: Tier)
    ensures AdjustConsumeEnergy(amount, true, isBase, flags, tier)
         == AdjustConsumeEnergy(amount, true, isBase', flags', tier)
  {
  }

  /** Outside radiation the cost differs from the request exactly when the
      context is elevated and the tier is DEATHRUN or HARD (for a nonzero request). */
  lemma ElevatedGatesConsumption(amount: real, isBase: bool, flags: Flags, tier: Tier)
    requires amount != 0.0
    ensures AdjustConsumeEnergy(amount, false, isBase, flags, tier) != amount
        <==> Elevated(isBase, flags) && tier != Normal
  {
  }

  /** Radiation never makes gaining energy faster, and never makes spending
      it cheaper, for a nonnegative request. */
  lemma RadiationNeverHelps(amount: real, isBase: bool, flags: Flags, tier: Tier)
    requires amount >= 0.0
    ensures AdjustAddEnergy(amount, true, tier) <= AdjustAddEnergy(amount, false, tier)
    ensures AdjustConsumeEnergy(amount, true, isBase, flags, tier)
         >= AdjustConsumeEnergy(amount, false, isBase, flags, tier)
  {
  }

  /** A harder tier never gains more nor spends less, for a nonnegative request:
      Normal, then Hard, then Deathrun. */
  lemma TiersAreOrdered(amount: real, radiation: bool, isBase: bool, flags: Flags)
    requires amount >= 0.0
    ensures AdjustAddEnergy(amount, radiation, Deathrun) <= AdjustAddEnergy(amount, radiation, Hard)
    ensures AdjustAddEnergy(amount, radiation, Hard) <= AdjustAddEnergy(amount, radiation, Normal)
    ensures AdjustConsumeEnergy(amount, radiation, isBase, flags, Normal)
         <= AdjustConsumeEnergy(amount, radiation, isBase, flags, Hard)
    ensures AdjustConsumeEnergy(amount, radiation, isBase, flags, Hard)
         <= AdjustConsumeEnergy(amount, radiation, isBase, flags, Deathrun)
  {
  }

  /** Both rules are proportional: scaling the request scales the result. */
  lemma RulesAreLinear(amount: real, k: real, radiation: bool, isBase: bool, flags: Flags, tier: Tier)
    ensures AdjustAddEnergy(k * amount, radiation, tier) == k * AdjustAddEnergy(amount, radiation, tier)
    ensures AdjustConsumeEnergy(k * amount, radiation, isBase, flags, tier)
         == k * AdjustConsumeEnergy(amount, radiation, isBase, flags, tier)
  {
  }

  /** Raising a semaphore never lowers the cost of a nonnegative request. */
  lemma RaisingNeverLowersCost(amount: real, radiation: bool, isBase: bool, flags: Flags, a: Activity, tier: Tier)
    requires amount >= 0.0
    ensures AdjustConsumeEnergy(amount, radiation, isBase, flags, tier)
         <= AdjustConsumeEnergy(amount, radiation, isBase, ActivityPrefix(flags, a).flags, tier)
  {
  }
}
