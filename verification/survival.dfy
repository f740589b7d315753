/**
 * The survival patches: a First Aid Kit (Use) or a raw Boomerang (Eat)
 * purges nitrogen, and a death after the first five minutes no longer
 * refills food and water.
 *
 * The game's clock, the item's tech type and the host's own Use/Eat results
 * are inputs; messages are appended to the state's log.
 */
module Survival {
  import opened Wrappers

  /** The item types the patches tell apart. */
  datatype TechType = FirstAidKit | Boomerang | LavaBoomerang | OtherTech

  /**
   * Everything the survival patches read or write: the saved nitrogen safe
   * depth, the player's nitrogen level, the Use patch's semaphore and notice
   * clock, the Eat patch's own notice clock, the Survival instance's food and
   * water, and the message log.
   */
  datatype SurvivalState = SurvivalState(
    safeDepth: real,
    nitrogenLevel: real,
    usedSemaphore: bool,
    useTicksNotice: real,
    eatTicksNotice: real,
    food: real,
    water: real,
    log: seq<string>)

  const FirstAidNotice := "First Aid Kit helps purge Nitrogen from your bloodstream."
  const BoomerangNotice := "The tasty raw Boomerang helps purge Nitrogen from your bloodstream!"

  /** Seconds that must pass between two notices of the same patch. */
  const NoticeInterval: real := 60.0

  /** The safe depth above which an item halves it. */
  const PurgeDepth: real := 10.0

  /** True when a notice last shown at `ticks` may be shown again at `now`. */
  predicate NoticeDue(ticks: real, now: real) {
    now - ticks > NoticeInterval
  }

  /** The safe depth and nitrogen level after halving a safe depth above 10:
      a halved depth below 10 also pins nitrogen to ten times the depth. */
  function Halve(safeDepth: real, nitrogenLevel: real): (real, real) {
    var d := safeDepth / 2.0;
    (d, if d < PurgeDepth then d * 10.0 else nitrogenLevel)
  }

  /** What a prefix hands back to the host: run the original or not. */
  datatype Hooked = Hooked(runOriginal: bool, state: SurvivalState)

  /** Prefix on Survival.Use. */
  function UsePrefix(s: SurvivalState, useObj: Option<TechType>, now: real): (h: Hooked)
    ensures h.runOriginal
    // only the nitrogen fields, the semaphore, the Use clock and the log move
    ensures h.state.food == s.food && h.state.water == s.water
    ensures h.state.eatTicksNotice == s.eatTicksNotice
    // the semaphore records exactly whether the item did anything
    ensures h.state.usedSemaphore <==>
      h.state.safeDepth != s.safeDepth || h.state.nitrogenLevel != s.nitrogenLevel
    ensures useObj != Some(FirstAidKit) ==> h.state == s.(usedSemaphore := false)
    ensures useObj == Some(FirstAidKit) && s.safeDepth > PurgeDepth ==>
      && h.state.safeDepth * 2.0 == s.safeDepth
      && (h.state.safeDepth < PurgeDepth ==> h.state.nitrogenLevel == h.state.safeDepth * 10.0)
      && (h.state.safeDepth >= PurgeDepth ==> h.state.nitrogenLevel == s.nitrogenLevel)
    ensures useObj == Some(FirstAidKit) && s.safeDepth <= PurgeDepth ==>
      && h.state.safeDepth == s.safeDepth
      && (s.nitrogenLevel > 0.0 ==> h.state.nitrogenLevel == 0.0)
      && (s.nitrogenLevel <= 0.0 ==> h.state == s.(usedSemaphore := false))
    // the notice throttle
    ensures var shown := useObj == Some(FirstAidKit) && s.safeDepth > PurgeDepth && NoticeDue(s.useTicksNotice, now);
      && (shown ==> h.state.useTicksNotice == now && h.state.log == s.log + [FirstAidNotice])
      && (!shown ==> h.state.useTicksNotice == s.useTicksNotice && h.state.log == s.log)
  {
    var s0 := s.(usedSemaphore := false);
    if useObj == Some(FirstAidKit) then
      if s0.safeDepth > PurgeDepth then
        var s1 := s0.(usedSemaphore := true);
        var s2 := if NoticeDue(s1.useTicksNotice, now)
                  then s1.(useTicksNotice := now, log := s1.log + [FirstAidNotice])
                  else s1;
        var (d, n) := Halve(s2.safeDepth, s2.nitrogenLevel);
        Hooked(true, s2.(safeDepth := d, nitrogenLevel := n))
      else if s0.nitrogenLevel > 0.0 then
        Hooked(true, s0.(nitrogenLevel := 0.0, usedSemaphore := true))
      else
        Hooked(true, s0)
    else
      Hooked(true, s0)
  }

  /** Postfix on Survival.Use: a used kit always reports success. */
  function UsePostfix(s: SurvivalState, hostResult: bool): (r: bool)
    ensures s.usedSemaphore ==> r
    ensures !s.usedSemaphore ==> r == hostResult
  {
    if s.usedSemaphore then true else hostResult
  }

  /** The state after a whole Use or Eat call and the result the game sees. */
  datatype SurvivalCall = SurvivalCall(state: SurvivalState, result: bool)

  /** A whole Use call: prefix, the host's Use (its result is an input), postfix. */
  function UseItem(s: SurvivalState, useObj: Option<TechType>, now: real, hostResult: bool): (c: SurvivalCall)
    ensures c.result <==>
      hostResult || c.state.safeDepth != s.safeDepth || c.state.nitrogenLevel != s.nitrogenLevel
    ensures useObj != Some(FirstAidKit) ==> c.result == hostResult && c.state == s.(usedSemaphore := false)
    // the postfix only rewrites the result: the state is the prefix's
    ensures c.state == UsePrefix(s, useObj, now).state
  {
    var h := UsePrefix(s, useObj, now);
    SurvivalCall(h.state, UsePostfix(h.state, hostResult))
  }

  /** Prefix on Survival.Eat. Its diet-challenge messages are not modelled;
      it always lets the host run. `useObj` is kept so that the signature
      matches the hook's, though only those messages read it. */
  function EatPrefix(s: SurvivalState, useObj: Option<TechType>): (h: Hooked)
    ensures h.runOriginal && h.state == s
  {
    Hooked(true, s)
  }

  /** Postfix on Survival.Eat: a Boomerang that was eaten purges nitrogen. */
  function EatPostfix(s: SurvivalState, useObj: Option<TechType>, now: real, hostResult: bool): (t: SurvivalState)
    ensures t.food == s.food && t.water == s.water
    ensures t.usedSemaphore == s.usedSemaphore && t.useTicksNotice == s.useTicksNotice
    ensures !hostResult || useObj !in {Some(Boomerang), Some(LavaBoomerang)} ==> t == s
    ensures hostResult && useObj in {Some(Boomerang), Some(LavaBoomerang)} ==>
      && (s.safeDepth > PurgeDepth ==> t.safeDepth * 2.0 == s.safeDepth)
      && (s.safeDepth > PurgeDepth && t.safeDepth < PurgeDepth ==> t.nitrogenLevel == t.safeDepth * 10.0)
      && (s.safeDepth > PurgeDepth && t.safeDepth >= PurgeDepth ==> t.nitrogenLevel == s.nitrogenLevel)
      && (s.safeDepth <= PurgeDepth ==> t.safeDepth == s.safeDepth && t.nitrogenLevel == 0.0)
    ensures var shown := hostResult && useObj in {Some(Boomerang), Some(LavaBoomerang)}
                         && s.safeDepth > PurgeDepth && NoticeDue(s.eatTicksNotice, now);
      && (shown ==> t.eatTicksNotice == now && t.log == s.log + [BoomerangNotice])
      && (!shown ==> t.eatTicksNotice == s.eatTicksNotice && t.log == s.log)
  {
    if hostResult && useObj.Some? && (useObj.value == Boomerang || useObj.value == LavaBoomerang) then
      if s.safeDepth > PurgeDepth then
        var s1 := if NoticeDue(s.eatTicksNotice, now)
                  then s.(eatTicksNotice := now, log := s.log + [BoomerangNotice])
                  else s;
        var (d, n) := Halve(s1.safeDepth, s1.nitrogenLevel);
        s1.(safeDepth := d, nitrogenLevel := n)
      else
        s.(nitrogenLevel := 0.0)
    else
      s
  }

  /** A whole Eat call: prefix, the host's Eat (its result is an input), postfix. */
  function EatItem(s: SurvivalState, useObj: Option<TechType>, now: real, hostResult: bool): (c: SurvivalCall)
    ensures c.result == hostResult
    ensures !hostResult ==> c.state == s
    // the prefix changes nothing: the postfix alone decides the state
    ensures c.state == EatPostfix(s, useObj, now, hostResult)
  {
    var h := EatPrefix(s, useObj);
    SurvivalCall(EatPostfix(h.state, useObj, now, hostResult), hostResult)
  }

  /** Unity's Mathf.Clamp. */
  function Clamp(value: real, lo: real, hi: real): (r: real)
    ensures lo <= hi ==> lo <= r <= hi
    ensures lo <= value <= hi ==> r == value
  {
    if value < lo then lo else if value > hi then hi else value
  }

  const ResetFloor: real := 12.0
  const ResetCeiling: real := 90.5
  /** Seconds after the start of the game during which a death still refills. */
  const GraceSeconds: real := 300.0

  /** The reduced refill on death: 90% of what was left, kept within [12, 90.5]. */
  function ReducedRefill(x: real): real {
    Clamp(x * 0.9, ResetFloor, ResetCeiling)
  }

  /** Prefix on Survival.Reset (the respawn refill). `startedGame` and
      `timePassed` are the saved game start and the day-night clock. */
  function ResetPrefix(s: SurvivalState, startedGame: real, timePassed: real): (h: Hooked)
    ensures !h.runOriginal <==> startedGame > 0.0 && timePassed >= startedGame + GraceSeconds
    ensures h.runOriginal ==> h.state == s
    ensures !h.runOriginal ==>
      && h.state == s.(food := h.state.food, water := h.state.water)
      && ResetFloor <= h.state.food <= ResetCeiling && ResetFloor <= h.state.water <= ResetCeiling
      && h.state.food == ReducedRefill(s.food) && h.state.water == ReducedRefill(s.water)
  {
    if startedGame > 0.0 && timePassed >= startedGame + GraceSeconds then
      Hooked(false, s.(food := ReducedRefill(s.food), water := ReducedRefill(s.water)))
    else
      Hooked(true, s)
  }

  /** A death never hands out a bonus: after the reduced refill a stat is at
      most what it was (or the floor of 12), and within the range it is 90% of it. */
  lemma RefillIsNoBonus(x: real)
    ensures ReducedRefill(x) <= if x > ResetFloor then x else ResetFloor
    ensures ResetFloor <= x * 0.9 <= ResetCeiling ==> ReducedRefill(x) == x * 0.9
  {
  }

  /** Two Use calls at most 60 seconds apart show at most one notice. */
  lemma UseNoticeThrottled(s: SurvivalState, a: Option<TechType>, b: Option<TechType>, t1: real, t2: real)
    requires t2 <= t1 + NoticeInterval
    ensures var s1 := UsePrefix(s, a, t1).state;
            |UsePrefix(s1, b, t2).state.log| <= |s.log| + 1
  {
  }

  /** Two Eat calls at most 60 seconds apart show at most one notice. */
  lemma EatNoticeThrottled(s: SurvivalState, a: Option<TechType>, b: Option<TechType>,
                           t1: real, t2: real, r1: bool, r2: bool)
    requires t2 <= t1 + NoticeInterval
    ensures var s1 := EatPostfix(s, a, t1, r1);
            |EatPostfix(s1, b, t2, r2).log| <= |s.log| + 1
  {
  }

  /** The Use and Eat throttles are independent: eating never moves the Use clock, and using never moves the Eat clock. */
  lemma ThrottlesAreSeparate(s: SurvivalState, a: Option<TechType>, now: real, r: bool)
    ensures EatPostfix(s, a, now, r).useTicksNotice == s.useTicksNotice
    ensures UsePrefix(s, a, now).state.eatTicksNotice == s.eatTicksNotice
  {
  }

  /** One call the game makes into the patched Survival. */
  datatype SurvivalEvent =
    | Use(useObj: Option<TechType>, at: real, hostResult: bool)
    | Eat(useObj: Option<TechType>, at: real, hostResult: bool)
    | Reset(startedGame: real, timePassed: real)

  /** The effect of one call on the patched state. The game's own Reset
      refill and the nourishment of its own Eat are not modelled: where they
      would run, food and water are left as they were. */
  function Apply(s: SurvivalState, e: SurvivalEvent): SurvivalState {
    match e
    case Use(o, at, r) => UseItem(s, o, at, r).state
    case Eat(o, at, r) => EatItem(s, o, at, r).state
    case Reset(g, t) => ResetPrefix(s, g, t).state
  }

  /** The state after a sequence of calls. */
  function Replay(s: SurvivalState, events: seq<SurvivalEvent>): SurvivalState
    decreases |events|
  {
    if events == [] then s else Replay(Apply(s, events[0]), events[1..])
  }

  /** The nitrogen part of a state is sane: nothing negative. */
  predicate NitrogenSane(s: SurvivalState) {
    s.safeDepth >= 0.0 && s.nitrogenLevel >= 0.0
  }

  /** Over any sequence of calls, from any state, the safe depth never rises. */
  lemma {:induction false} ReplayNeverRaisesSafeDepth(s: SurvivalState, events: seq<SurvivalEvent>)
    ensures Replay(s, events).safeDepth <= s.safeDepth
    decreases |events|
  {
    if events != [] {
      ReplayNeverRaisesSafeDepth(Apply(s, events[0]), events[1..]);
    }
  }

  /** Over any sequence of calls a sane nitrogen state stays sane. */
  lemma {:induction false} ReplayKeepsNitrogenSane(s: SurvivalState, events: seq<SurvivalEvent>)
    requires NitrogenSane(s)
    ensures NitrogenSane(Replay(s, events))
    decreases |events|
  {
    if events != [] {
      ReplayKeepsNitrogenSane(Apply(s, events[0]), events[1..]);
    }
  }

  /** Food and water are only ever changed by the reduced refill: a sequence
      of Use and Eat calls leaves them alone. */
  lemma {:induction false} ItemsLeaveFoodAndWater(s: SurvivalState, events: seq<SurvivalEvent>)
    requires forall i :: 0 <= i < |events| ==> !events[i].Reset?
    ensures Replay(s, events).food == s.food && Replay(s, events).water == s.water
    decreases |events|
  {
    if events != [] {
      ItemsLeaveFoodAndWater(Apply(s, events[0]), events[1..]);
    }
  }

  /** A call is within the interval when it is a reset, or a Use or Eat made
      no more than 60 seconds after both notice clocks. */
  predicate WithinInterval(s: SurvivalState, e: SurvivalEvent) {
    e.Reset? || (e.at <= s.useTicksNotice + NoticeInterval && e.at <= s.eatTicksNotice + NoticeInterval)
  }

  /** While every Use and Eat call comes within 60 seconds of both notice
      clocks, a whole sequence of calls shows no notice and moves neither clock. */
  lemma {:induction false} ReplayQuietWithinInterval(s: SurvivalState, events: seq<SurvivalEvent>)
    requires forall i :: 0 <= i < |events| ==> WithinInterval(s, events[i])
    ensures Replay(s, events).log == s.log
    ensures Replay(s, events).useTicksNotice == s.useTicksNotice
    ensures Replay(s, events).eatTicksNotice == s.eatTicksNotice
    decreases |events|
  {
    if events != [] {
      var s1 := Apply(s, events[0]);
      assert WithinInterval(s, events[0]);
      assert s1.log == s.log && s1.useTicksNotice == s.useTicksNotice && s1.eatTicksNotice == s.eatTicksNotice;
      forall i | 0 <= i < |events[1..]|
        ensures WithinInterval(s1, events[1..][i])
      {
        assert WithinInterval(s, events[i + 1]);
      }
      ReplayQuietWithinInterval(s1, events[1..]);
    }
  }

  /** The state at load time: both notice clocks at 0 and the semaphore
      lowered, as the static initialisers set them, with an empty log. The
      saved safe depth, the nitrogen level, food and water come from the game. */
  function Start(safeDepth: real, nitrogenLevel: real, food: real, water: real): SurvivalState {
    SurvivalState(safeDepth, nitrogenLevel, false, 0.0, 0.0, food, water, [])
  }

  /** No notice can appear while every Use and Eat call comes at clock time
      60 seconds or earlier. */
  lemma NoNoticeInFirstMinute(safeDepth: real, nitrogenLevel: real, food: real, water: real,
                              events: seq<SurvivalEvent>)
    requires forall i :: 0 <= i < |events| ==> events[i].Reset? || events[i].at <= NoticeInterval
    ensures Replay(Start(safeDepth, nitrogenLevel, food, water), events).log == []
  {
    var s := Start(safeDepth, nitrogenLevel, food, water);
    assert forall i :: 0 <= i < |events| ==> WithinInterval(s, events[i]);
    ReplayQuietWithinInterval(s, events);
  }
}
