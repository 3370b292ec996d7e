/**
 * The lifecycle of the test listener container as a value: its four
 * "invoked" flags, the four lifecycle calls, the guard each call checks,
 * and what a call (or a whole history of calls) does to the flags.
 * The class in container.dfy is proved against `Step`.
 */
module Lifecycle {

  /** Outcome of one lifecycle call: it either succeeds or throws IllegalStateException. */
  datatype Outcome = Ok | IllegalState

  /** The four lifecycle calls of the container. */
  datatype Call = Start | AfterPropertiesSet | Stop | Destroy

  /** The four flags the container keeps. */
  datatype Flags = Flags(
    startInvoked: bool,
    initializationInvoked: bool,
    stopInvoked: bool,
    destroyInvoked: bool)

  /** A freshly constructed container: no call has been made yet. */
  const Fresh := Flags(false, false, false, false)

  /** The flag that call `c` records. */
  function Flag(f: Flags, c: Call): bool
  {
    match c
    case Start => f.startInvoked
    case AfterPropertiesSet => f.initializationInvoked
    case Stop => f.stopInvoked
    case Destroy => f.destroyInvoked
  }

  /** isRunning: started and not yet stopped. */
  predicate Running(f: Flags)
  {
    f.startInvoked && !f.stopInvoked
  }

  /** isStarted: started and initialized. */
  predicate Started(f: Flags)
  {
    f.startInvoked && f.initializationInvoked
  }

  /** isStopped: stopped and destroyed. */
  predicate Stopped(f: Flags)
  {
    f.stopInvoked && f.destroyInvoked
  }

  /** Initialization is only recorded after a start, destruction only after a stop. */
  predicate Consistent(f: Flags)
  {
    (f.initializationInvoked ==> f.startInvoked) &&
    (f.destroyInvoked ==> f.stopInvoked)
  }

  /** Every flag set in `f` is still set in `g`: no flag was reset. */
  predicate Below(f: Flags, g: Flags)
  {
    forall c :: Flag(f, c) ==> Flag(g, c)
  }

  /**
   * The guard of each call: start and stop refuse a second invocation,
   * afterPropertiesSet refuses to run before start, destroy before stop.
   */
  predicate Refuses(f: Flags, c: Call)
  {
    match c
    case Start => f.startInvoked
    case AfterPropertiesSet => !f.startInvoked
    case Stop => f.stopInvoked
    case Destroy => !f.stopInvoked
  }

  /** The flags after call `c` has recorded itself. */
  function Raise(f: Flags, c: Call): (r: Flags)
    ensures Flag(r, c)
    ensures forall other :: other != c ==> Flag(r, other) == Flag(f, other)
  {
    match c
    case Start => f.(startInvoked := true)
    case AfterPropertiesSet => f.(initializationInvoked := true)
    case Stop => f.(stopInvoked := true)
    case Destroy => f.(destroyInvoked := true)
  }

  /**
   * One lifecycle call: refused calls fail and leave every flag as it was;
   * accepted calls set exactly their own flag.
   */
  function Step(f: Flags, c: Call): (r: (Outcome, Flags))
    ensures r.0 == IllegalState <==> Refuses(f, c)
    ensures r.0 == IllegalState ==> r.1 == f
    ensures r.0 == Ok ==> Flag(r.1, c) && forall other :: other != c ==> Flag(r.1, other) == Flag(f, other)
    ensures Below(f, r.1)
    ensures Consistent(f) ==> Consistent(r.1)
  {
    if Refuses(f, c) then (IllegalState, f) else (Ok, Raise(f, c))
  }

  /** The flags after a history of calls, whatever each call's outcome. */
  function Run(f: Flags, calls: seq<Call>): (r: Flags)
    ensures Below(f, r)
    ensures Consistent(f) ==> Consistent(r)
    decreases |calls|
  {
    if calls == [] then f else Run(Step(f, calls[0]).1, calls[1..])
  }

  /** The outcomes of a history of calls, one per call. */
  function Outcomes(f: Flags, calls: seq<Call>): (r: seq<Outcome>)
    ensures |r| == |calls|
    decreases |calls|
  {
    if calls == [] then []
    else [Step(f, calls[0]).0] + Outcomes(Step(f, calls[0]).1, calls[1..])
  }

  /** How many entries of `calls` are call `c` with outcome `Ok` in `outcomes`. */
  function CountOk(calls: seq<Call>, outcomes: seq<Outcome>, c: Call): (n: nat)
    requires |outcomes| == |calls|
    ensures n <= |calls|
    decreases |calls|
  {
    if calls == [] then 0
    else (if calls[0] == c && outcomes[0] == Ok then 1 else 0) + CountOk(calls[1..], outcomes[1..], c)
  }

  /** How many times call `c` succeeded in a history. */
  function Successes(f: Flags, calls: seq<Call>, c: Call): nat
  {
    CountOk(calls, Outcomes(f, calls), c)
  }

  /**
   * Entry `i` of the outcomes is the outcome of call `i` in the state the
   * first `i` calls lead to.
   */
  lemma {:induction false} OutcomesAt(f: Flags, calls: seq<Call>, i: nat)
    requires i < |calls|
    ensures Outcomes(f, calls)[i] == Step(Run(f, calls[..i]), calls[i]).0
    decreases i
  {
    if i > 0 {
      OutcomesAt(Step(f, calls[0]).1, calls[1..], i - 1);
      assert calls[1..][..i - 1] == calls[..i][1..];
      assert calls[..i][0] == calls[0];
    } else {
      assert calls[..0] == [];
    }
  }

  /** Running a concatenated history is running its parts one after the other. */
  lemma {:induction false} RunAppend(f: Flags, a: seq<Call>, b: seq<Call>)
    ensures Run(f, a + b) == Run(Run(f, a), b)
    decreases |a|
  {
    if a == [] {
      assert a + b == b;
    } else {
      assert (a + b)[0] == a[0];
      assert (a + b)[1..] == a[1..] + b;
      RunAppend(Step(f, a[0]).1, a[1..], b);
    }
  }

  /**
   * start and stop succeed at most once in any history: a success is
   * counted exactly when the history took the flag from unset to set.
   */
  lemma {:induction false} StartStopSucceedAtMostOnce(f: Flags, calls: seq<Call>, c: Call)
    requires c == Start || c == Stop
    ensures Successes(f, calls, c) == if !Flag(f, c) && Flag(Run(f, calls), c) then 1 else 0
    ensures Successes(f, calls, c) <= 1
    decreases |calls|
  {
    if calls != [] {
      StartStopSucceedAtMostOnce(Step(f, calls[0]).1, calls[1..], c);
    }
  }

  /** `n` calls of `c` in a row. */
  function Repeat(c: Call, n: nat): (r: seq<Call>)
    ensures |r| == n
    ensures forall i :: 0 <= i < n ==> r[i] == c
  {
    if n == 0 then [] else [c] + Repeat(c, n - 1)
  }

  /**
   * afterPropertiesSet and destroy are not guarded against repeats: once
   * their guard passes, any number of calls all succeed, and together they
   * do exactly what one call does.
   */
  lemma {:induction false} HooksRepeatable(f: Flags, c: Call, n: nat)
    requires c == AfterPropertiesSet || c == Destroy
    requires !Refuses(f, c)
    ensures forall i :: 0 <= i < n ==> Outcomes(f, Repeat(c, n))[i] == Ok
    ensures Run(f, Repeat(c, n)) == if n == 0 then f else Step(f, c).1
    decreases n
  {
    if n > 0 {
      var g := Step(f, c).1;
      assert !Refuses(g, c);
      HooksRepeatable(g, c, n - 1);
      assert Raise(g, c) == g;
      var rest := Repeat(c, n - 1);
      assert Repeat(c, n) == [c] + rest;
      assert ([c] + rest)[1..] == rest;
      forall i | 0 <= i < n
        ensures Outcomes(f, Repeat(c, n))[i] == Ok
      {
        if i > 0 {
          assert Outcomes(f, Repeat(c, n))[i] == Outcomes(g, rest)[i - 1];
        }
      }
    }
  }

  /** A state some history of calls leads to from a fresh container. */
  ghost predicate Reachable(f: Flags)
  {
    exists calls :: Run(Fresh, calls) == f
  }

  /**
   * The states a container can reach are exactly the consistent ones:
   * initializationInvoked implies startInvoked, destroyInvoked implies
   * stopInvoked, and nothing else is forced (in particular stop does not
   * need start).
   */
  lemma ReachableIffConsistent(f: Flags)
    ensures Reachable(f) <==> Consistent(f)
  {
    if Consistent(f) {
      var s := if f.startInvoked then [Start] else [];
      var i := if f.initializationInvoked then [AfterPropertiesSet] else [];
      var p := if f.stopInvoked then [Stop] else [];
      var d := if f.destroyInvoked then [Destroy] else [];
      RunAppend(Fresh, s, i);
      RunAppend(Fresh, s + i, p);
      RunAppend(Fresh, s + i + p, d);
      assert Run(Fresh, s + i + p + d) == f;
    }
  }
}
