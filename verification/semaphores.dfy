/**
 * The four activity semaphores (crafting, filter, scanner, charging) and the
 * prefix/postfix hook pairs that raise and lower them around a host call.
 *
 * A run of hook calls is a trace; its effect on the flags is characterised
 * by the last call that touched each activity.
 */
module Semaphores {
  import opened Wrappers

  /** The host activity each prefix/postfix pair brackets. */
  datatype Activity = Crafting | Filtration | Scanning | Charging

  /** The process-wide semaphore record. */
  datatype Flags = Flags(crafting: bool, filter: bool, scanner: bool, charging: bool)
  {
    /** The semaphore that belongs to an activity. */
    function Get(a: Activity): bool {
      match a
      case Crafting => crafting
      case Filtration => filter
      case Scanning => scanner
      case Charging => charging
    }

    /** True when any semaphore is raised. */
    predicate AnyRaised() {
      charging || crafting || scanner || filter
    }
  }

  /** The initial (and intended terminal) state: every semaphore lowered. */
  const AllLowered := Flags(false, false, false, false)

  /** Sets the semaphore of one activity and leaves the others alone. */
  function Set(f: Flags, a: Activity, v: bool): (g: Flags)
    ensures g.Get(a) == v
    ensures forall b :: b != a ==> g.Get(b) == f.Get(b)
  {
    match a
    case Crafting => f.(crafting := v)
    case Filtration => f.(filter := v)
    case Scanning => f.(scanner := v)
    case Charging => f.(charging := v)
  }

  /** `AnyRaised` is exactly "some activity's semaphore is raised". */
  lemma AnyRaisedIsSomeActivity(f: Flags)
    ensures f.AnyRaised() <==> exists a :: f.Get(a)
  {
    if f.crafting { assert f.Get(Crafting); }
    if f.filter { assert f.Get(Filtration); }
    if f.scanner { assert f.Get(Scanning); }
    if f.charging { assert f.Get(Charging); }
  }

  /** What a prefix hook hands back to the host: run the original or not. */
  datatype PrefixResult = PrefixResult(runOriginal: bool, flags: Flags)

  /** The prefix of an activity's host call: raise its semaphore. */
  function ActivityPrefix(f: Flags, a: Activity): (r: PrefixResult)
    ensures r.runOriginal
    ensures r.flags.Get(a)
    ensures forall b :: b != a ==> r.flags.Get(b) == f.Get(b)
    ensures r.flags.AnyRaised()
  {
    PrefixResult(true, Set(f, a, true))
  }

  /** The postfix of an activity's host call: lower its semaphore. */
  function ActivityPostfix(f: Flags, a: Activity): (g: Flags)
    ensures !g.Get(a)
    ensures forall b :: b != a ==> g.Get(b) == f.Get(b)
  {
    Set(f, a, false)
  }

  /** A matched prefix/postfix pair restores the semaphore to what it was
      when it started lowered, and leaves every other semaphore alone. */
  lemma PairRestores(f: Flags, a: Activity)
    requires !f.Get(a)
    ensures ActivityPostfix(ActivityPrefix(f, a).flags, a) == f
  {
  }

  /** One hook invocation in a trace. */
  datatype HookCall = Prefix(a: Activity) | Postfix(a: Activity)

  function Step(f: Flags, c: HookCall): Flags {
    match c
    case Prefix(a) => ActivityPrefix(f, a).flags
    case Postfix(a) => ActivityPostfix(f, a)
  }

  /** The flags after a trace of hook calls, applied left to right. */
  function Run(f: Flags, t: seq<HookCall>): Flags
    decreases |t|
  {
    if t == [] then f else Run(Step(f, t[0]), t[1..])
  }

  /** The kind of the last call in `t` that touched activity `a`:
      Some(true) for a prefix, Some(false) for a postfix, None if none did. */
  function LastTouch(t: seq<HookCall>, a: Activity): Option<bool>
    decreases |t|
  {
    if t == [] then None
    else if t[|t| - 1].a == a then Some(t[|t| - 1].Prefix?)
    else LastTouch(t[..|t| - 1], a)
  }

  /** Running a trace extended by one call is one more step. */
  lemma {:induction false} RunSnoc(f: Flags, t: seq<HookCall>, c: HookCall)
    ensures Run(f, t + [c]) == Step(Run(f, t), c)
    decreases |t|
  {
    if t == [] {
      assert [c][1..] == [];
    } else {
      assert (t + [c])[1..] == t[1..] + [c];
      RunSnoc(Step(f, t[0]), t[1..], c);
    }
  }

  /** The state machine per semaphore: after a trace, a semaphore is raised
      exactly when the last hook touching its activity was the prefix (or,
      if no hook touched it, when it was raised to begin with). */
  lemma {:induction false} RunLastTouch(f: Flags, t: seq<HookCall>, a: Activity)
    ensures Run(f, t).Get(a) == match LastTouch(t, a) case Some(v) => v case None => f.Get(a)
    decreases |t|
  {
    if t != [] {
      var init, c := t[..|t| - 1], t[|t| - 1];
      assert t == init + [c];
      RunSnoc(f, init, c);
      RunLastTouch(f, init, a);
    }
  }

  /** Every prefix in the trace is matched by a later postfix of the same activity. */
  ghost predicate Balanced(t: seq<HookCall>) {
    forall i :: 0 <= i < |t| && t[i].Prefix? ==>
      exists j :: i < j < |t| && t[j] == Postfix(t[i].a)
  }

  /** Every prefix of activity `a` in the trace is matched by a later postfix of `a`. */
  ghost predicate BalancedFor(t: seq<HookCall>, a: Activity) {
    forall i :: 0 <= i < |t| && t[i] == Prefix(a) ==>
      exists j :: i < j < |t| && t[j] == Postfix(a)
  }

  /** In a trace balanced for `a`, the last call touching `a` is never its prefix. */
  lemma {:induction false} BalancedLastTouch(t: seq<HookCall>, a: Activity)
    requires BalancedFor(t, a)
    ensures LastTouch(t, a) != Some(true)
    decreases |t|
  {
    if t != [] {
      var n := |t| - 1;
      if t[n].a != a {
        var init := t[..n];
        forall i | 0 <= i < |init| && init[i] == Prefix(a)
          ensures exists j :: i < j < |init| && init[j] == Postfix(a)
        {
          assert t[i] == Prefix(a);
          var j :| i < j < |t| && t[j] == Postfix(a);
          assert j != n;
          assert init[j] == Postfix(a);
        }
        BalancedLastTouch(init, a);
      }
    }
  }

  /** A balanced trace started with every semaphore lowered ends with every
      semaphore lowered, however the activities nest or overlap. */
  lemma BalancedReturnsToLowered(t: seq<HookCall>)
    requires Balanced(t)
    ensures Run(AllLowered, t) == AllLowered
  {
    forall a | true
      ensures !Run(AllLowered, t).Get(a)
    {
      assert BalancedFor(t, a);
      BalancedLastTouch(t, a);
      RunLastTouch(AllLowered, t, a);
    }
    var g := Run(AllLowered, t);
    assert !g.Get(Crafting) && !g.Get(Filtration) && !g.Get(Scanning) && !g.Get(Charging);
  }
}
