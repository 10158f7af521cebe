/** The runs of the failover engine, execution by execution: when it retries, where it goes next and what it records. */
module FailoverRuns {
  import opened Wrappers
  import opened Selections
  import opened Failover

  // ----- Where a failed sub-group hands over to -----

  /** The first candidate at or behind the cursor that was not tried. */
  predicate FirstUntried(pool: seq<Name>, cursor: nat, tried: set<Name>, k: int) {
    cursor <= k < |pool| && pool[k] !in tried && forall j :: cursor <= j < k ==> pool[j] in tried
  }

  /** The first member the selector offers that was not tried. */
  predicate FirstOffered(env: Env, names: seq<Name>, tried: set<Name>, k: int) {
    && 0 <= k < |names| && names[k] in env.members && names[k] !in tried
    && forall j :: 0 <= j < k ==> names[j] !in env.members || names[j] in tried
  }

  /** Before the n-th execution the request goes to `next`, if anywhere, and the cursor to `moved`. */
  ghost predicate GoesTo(env: Env, n: nat, cursor: nat, tried: set<Name>, next: Option<Name>, moved: nat) {
    && (forall k :: FirstUntried(env.pool, cursor, tried, k) ==> moved == k + 1)
    && ((forall k :: !FirstUntried(env.pool, cursor, tried, k)) ==> moved == if cursor < |env.pool| then |env.pool| else cursor)
    && (forall k :: FirstUntried(env.pool, cursor, tried, k) && env.reachable(n, env.pool[k]) ==> next == Some(env.pool[k]))
    && ((forall k :: FirstUntried(env.pool, cursor, tried, k) ==> !env.reachable(n, env.pool[k])) ==>
          && (forall k :: FirstOffered(env, env.eligible(n), tried, k) ==>
                next == if env.reachable(n, env.eligible(n)[k]) then Some(env.eligible(n)[k]) else None)
          && ((forall k :: !FirstOffered(env, env.eligible(n), tried, k)) ==> next == None))
  }

  lemma {:induction false} CandidateIs(pool: seq<Name>, cursor: nat, tried: set<Name>)
    ensures var (cand, moved) := NextCandidate(pool, cursor, tried);
            && (forall k :: FirstUntried(pool, cursor, tried, k) ==> cand == Some(pool[k]) && moved == k + 1)
            && ((forall k :: !FirstUntried(pool, cursor, tried, k)) ==> cand == None && moved == if cursor < |pool| then |pool| else cursor)
    decreases |pool| - cursor
  {
    if cursor < |pool| {
      if pool[cursor] !in tried {
        assert FirstUntried(pool, cursor, tried, cursor);
      } else {
        var next := cursor + 1;
        CandidateIs(pool, next, tried);
        forall k
          ensures FirstUntried(pool, cursor, tried, k) <==> FirstUntried(pool, next, tried, k)
        {
        }
        hide FirstUntried;
      }
    }
  }

  lemma {:induction false} OfferedIs(env: Env, names: seq<Name>, tried: set<Name>)
    ensures forall k :: FirstOffered(env, names, tried, k) ==> FirstEligible(env, names, tried) == Some(names[k])
    ensures (forall k :: !FirstOffered(env, names, tried, k)) ==> FirstEligible(env, names, tried) == None
  {
    if names != [] {
      if names[0] in env.members && names[0] !in tried {
        assert FirstOffered(env, names, tried, 0);
      } else {
        OfferedIs(env, names[1..], tried);
        forall k
          ensures FirstOffered(env, names, tried, k) <==> FirstOffered(env, names[1..], tried, k - 1)
        {
          if FirstOffered(env, names[1..], tried, k - 1) {
            assert forall j :: 0 < j < k ==> names[j] == names[1..][j - 1];
          }
        }
        forall k | FirstOffered(env, names[1..], tried, k)
          ensures FirstOffered(env, names, tried, k + 1)
        {
          assert FirstOffered(env, names[1..], tried, k + 1 - 1);
        }
      }
    }
  }

  /** The pool of candidates comes first; the selector is asked when it has none that can be reached. */
  lemma {:induction false} SwitchGoes(env: Env, s: State, g: Name)
    requires g in s.attempted
    ensures GoesTo(env, s.N(), s.cursor, s.attempted, Switch(env, s, g).0, Switch(env, s, g).1)
  {
    CandidateIs(env.pool, s.cursor, s.attempted);
    OfferedIs(env, env.eligible(s.N()), s.attempted);
    hide FirstUntried, FirstOffered, NextCandidate, FirstEligible;
  }

  // ----- Runs -----

  /** One execution: of which group, how often it was retried, what was tried before, and what it records. */
  datatype Step = Step(group: Name, retry: nat, cursor: nat, tried: set<Name>, events: seq<Event>)

  /** What an upstream attempt records on its own; only an aggregate's breaker hears of a sub-group. */
  function AttemptEvents(env: Env, g: Name, o: Outcome): seq<Event> {
    match o
    case NoKey => []
    case Unbuildable => []
    case BadRedirect => []
    case ClientGone => [Attempt(g, o)]
    case Failed(_, _) => [Attempt(g, o)]
    case Succeeded => [Attempt(g, o)] + (if env.aggregate && g != env.original then [BreakerOk(g)] else [])
    case StreamFailed(_, _) => [Attempt(g, o)] + (if env.aggregate && g != env.original then [BreakerOk(g)] else [])
  }

  /** The allowance of the group is used up. */
  predicate Exhausted(env: Env, a: Step) {
    a.retry >= env.maxRetries(a.group)
  }

  /** The n-th execution, `a`, and the one that follows it, if any. */
  ghost predicate Continues(env: Env, n: nat, a: Step, b: Option<Step>) {
    var o, m := env.outcome(n), n + 1;
    if !FailedAttempt(o) then
      b.None? && a.events == AttemptEvents(env, a.group, o) + (if o.Unbuildable? then [] else [FinalLog])
    else if Exhausted(env, a) && env.aggregate && !o.written then
      var tried := a.tried + {a.group};
      if b.Some? then
        && GoesTo(env, m, a.cursor, tried, Some(b.value.group), b.value.cursor)
        && b.value.retry == 0 && b.value.tried == tried
        && a.events == AttemptEvents(env, a.group, o) + [BreakerFail(a.group), Switched(b.value.group), RetryLog]
      else
        && (exists moved :: GoesTo(env, m, a.cursor, tried, None, moved))
        && a.events == AttemptEvents(env, a.group, o) + [BreakerFail(a.group), FinalLog]
    else if Exhausted(env, a) || (o.requestError && !env.aggregate && !env.routed) then
      && b.None?
      && a.events == AttemptEvents(env, a.group, o) + [FinalLog]
                     + (if env.aggregate && a.group != env.original then [BreakerFail(a.group)] else [])
    else
      && b.Some? && b.value.group == a.group && b.value.retry == a.retry + 1
      && b.value.cursor == a.cursor && b.value.tried == a.tried
      && a.events == AttemptEvents(env, a.group, o) + [RetryLog]
  }

  ghost predicate IsRun(env: Env, n: nat, run: seq<Step>) {
    run != [] && forall i :: 0 <= i < |run| ==> StepIs(env, n, run, i)
  }

  /** The i-th execution of the run, i after the n-th. */
  ghost predicate StepIs(env: Env, n: nat, run: seq<Step>, i: nat)
    requires i < |run|
  {
    Continues(env, n + i, run[i], if i + 1 < |run| then Some(run[i + 1]) else None)
  }

  function Groups(run: seq<Step>): seq<Name> {
    seq(|run|, i requires 0 <= i < |run| => run[i].group)
  }

  function Records(run: seq<Step>): seq<seq<Event>> {
    seq(|run|, i requires 0 <= i < |run| => run[i].events)
  }

  /** The engine went from `s` to `r` by the executions `run`, the first of which is that of `g` after `retry` retries. */
  ghost predicate RanAs(env: Env, s: State, r: State, g: Name, retry: nat, run: seq<Step>) {
    && IsRun(env, s.N(), run)
    && run[0].group == g && run[0].retry == retry && run[0].cursor == s.cursor && run[0].tried == s.attempted
    && r.ran == s.ran + Groups(run) && r.trace == s.trace + Flat(Records(run))
  }

  lemma {:induction false} FlatFront<T>(x: seq<T>, ss: seq<seq<T>>)
    ensures Flat([x] + ss) == x + Flat(ss)
  {
    if ss == [] {
      assert [x] + ss == [x] && [x][..0] == [] && Flat([[x][0]][..0]) == [];
      assert Flat([x]) == x + [];
    } else {
      var front, last := ss[..|ss| - 1], ss[|ss| - 1];
      FlatFront(x, front);
      assert ([x] + ss)[..|ss|] == [x] + front;
      assert (x + Flat(front)) + last == x + (Flat(front) + last);
    }
  }

  lemma {:induction false} RunAlone(env: Env, n: nat, a: Step)
    requires Continues(env, n, a, None)
    ensures IsRun(env, n, [a]) && Groups([a]) == [a.group] && Flat(Records([a])) == a.events
  {
    hide Continues;
    assert Records([a]) == [a.events] + [];
    FlatFront(a.events, []);
    hide Flat;
    assert a.events + Flat([]) == a.events by { NothingFlat<Event>(); }
  }

  lemma {:induction false} NothingFlat<T>()
    ensures Flat<T>([]) == []
  {
  }

  lemma {:induction false} RunLonger(env: Env, n: nat, a: Step, rest: seq<Step>)
    requires IsRun(env, n + 1, rest) && Continues(env, n, a, Some(rest[0]))
    ensures IsRun(env, n, [a] + rest) && Groups([a] + rest) == [a.group] + Groups(rest)
    ensures Flat(Records([a] + rest)) == a.events + Flat(Records(rest))
  {
    hide Continues;
    var run := [a] + rest;
    assert run[0] == a && run[1] == rest[0];
    forall i | 0 <= i < |run|
      ensures StepIs(env, n, run, i)
    {
      if i > 0 {
        assert StepIs(env, n + 1, rest, i - 1);
        assert run[i] == rest[i - 1] && (i < |rest| ==> run[i + 1] == rest[i]);
      }
    }
    assert Records(run) == [a.events] + Records(rest);
    FlatFront(a.events, Records(rest));
  }

  // ----- The engine runs so -----

  /** The trace of an attempt, up to what its failure leads to. */
  lemma {:induction false} AttemptRecords(env: Env, s: State, g: Name)
    requires FailedAttempt(env.outcome(s.N()))
    ensures var t := AfterAttempt(env, s, g);
            && t.ran == s.ran + [g] && t.cursor == s.cursor && t.attempted == s.attempted
            && t.trace == s.trace + AttemptEvents(env, g, env.outcome(s.N()))
  {
  }

  lemma {:induction false} StopRecords(env: Env, s: State, g: Name, retry: nat)
    requires !FailedAttempt(env.outcome(s.N()))
    ensures var o, r := env.outcome(s.N()), Execute(env, s, g, retry);
            && r.ran == s.ran + [g]
            && r.trace == s.trace + (AttemptEvents(env, g, o) + (if o.Unbuildable? then [] else [FinalLog]))
  {
    ExecuteNotes(env, s, g, retry);
    hide Execute;
  }

  lemma {:induction false} ExecuteIsRun(env: Env, s: State, g: Name, retry: nat) returns (run: seq<Step>)
    ensures RanAs(env, s, Execute(env, s, g, retry), g, retry, run)
    decreases Fresh(env, s, g), RetriesLeft(env, g, retry), 2
  {
    hide Execute, Fail, Fresh, RetriesLeft;
    var o := env.outcome(s.N());
    if FailedAttempt(o) {
      var t := AfterAttempt(env, s, g);
      AttemptRecords(env, s, g);
      ExecuteIsFail(env, s, g, retry);
      SameFresh(env, s, t, g);
      run := FailIsRun(env, s, t, g, retry);
    } else {
      StopRecords(env, s, g, retry);
      var a := Step(g, retry, s.cursor, s.attempted, AttemptEvents(env, g, o) + (if o.Unbuildable? then [] else [FinalLog]));
      run := [a];
      RunAlone(env, s.N(), a);
    }
  }

  lemma {:induction false} SameFresh(env: Env, s: State, t: State, g: Name)
    requires t.attempted == s.attempted
    ensures Fresh(env, t, g) == Fresh(env, s, g)
  {
  }

  /** `t` is the state after the failed attempt that started in `s`. */
  lemma {:induction false} FailIsRun(env: Env, s: State, t: State, g: Name, retry: nat) returns (run: seq<Step>)
    requires FailedAttempt(env.outcome(s.N())) && t.ran == s.ran + [g] && t.cursor == s.cursor && t.attempted == s.attempted
    requires t.trace == s.trace + AttemptEvents(env, g, env.outcome(s.N()))
    ensures var o := env.outcome(s.N());
            RanAs(env, s, Fail(env, t, g, retry, o.written, o.requestError), g, retry, run)
    decreases Fresh(env, t, g), RetriesLeft(env, g, retry), 1
  {
    hide Execute, Fail, Fresh, RetriesLeft;
    var o := env.outcome(s.N());
    if Switches(env, g, retry, o.written) {
      run := SwitchIsRun(env, s, t, g, retry);
    } else if GivesUp(env, g, retry, o.requestError) {
      run := EndIsRun(env, s, t, g, retry);
    } else {
      run := RetryIsRun(env, s, t, g, retry);
    }
  }

  lemma {:induction false} RetryIsRun(env: Env, s: State, t: State, g: Name, retry: nat) returns (run: seq<Step>)
    requires FailedAttempt(env.outcome(s.N())) && t.ran == s.ran + [g] && t.cursor == s.cursor && t.attempted == s.attempted
    requires t.trace == s.trace + AttemptEvents(env, g, env.outcome(s.N()))
    requires !GivesUp(env, g, retry, env.outcome(s.N()).requestError)
    ensures var o := env.outcome(s.N());
            RanAs(env, s, Fail(env, t, g, retry, o.written, o.requestError), g, retry, run)
    decreases Fresh(env, t, g), RetriesLeft(env, g, retry), 0
  {
    hide Execute, Fail, Fresh, RetriesLeft, AttemptEvents, Flat, GoesTo;
    var o, u := env.outcome(s.N()), Note(t, [RetryLog]);
    FailRetriesIs(env, t, g, retry, o.written, o.requestError);
    SameFresh(env, t, u, g);
    var rest := ExecuteIsRun(env, u, g, retry + 1);
    var a := Step(g, retry, s.cursor, s.attempted, AttemptEvents(env, g, o) + [RetryLog]);
    assert Continues(env, s.N(), a, Some(rest[0]));
    hide Continues, IsRun;
    RunLonger(env, s.N(), a, rest);
    run := [a] + rest;
    assert s.trace + a.events == u.trace;
  }

  lemma {:induction false} FailRetriesIs(env: Env, s: State, g: Name, retry: nat, written: bool, requestError: bool)
    requires !GivesUp(env, g, retry, requestError)
    ensures Fail(env, s, g, retry, written, requestError) == Execute(env, Note(s, [RetryLog]), g, retry + 1)
    ensures RetriesLeft(env, g, retry + 1) < RetriesLeft(env, g, retry)
  {
    FailRetries(env, s, g, retry, written, requestError, Retry);
    hide Execute, Fail, Added;
  }

  lemma {:induction false} EndIsRun(env: Env, s: State, t: State, g: Name, retry: nat) returns (run: seq<Step>)
    requires FailedAttempt(env.outcome(s.N())) && t.ran == s.ran + [g] && t.cursor == s.cursor && t.attempted == s.attempted
    requires t.trace == s.trace + AttemptEvents(env, g, env.outcome(s.N()))
    requires !Switches(env, g, retry, env.outcome(s.N()).written) && GivesUp(env, g, retry, env.outcome(s.N()).requestError)
    ensures var o := env.outcome(s.N());
            RanAs(env, s, Fail(env, t, g, retry, o.written, o.requestError), g, retry, run)
  {
    var o := env.outcome(s.N());
    var tail := if env.aggregate && g != env.original then [BreakerFail(g)] else [];
    var a := Step(g, retry, s.cursor, s.attempted, AttemptEvents(env, g, o) + [FinalLog] + tail);
    FailEndsIs(env, t, g, retry, o.written, o.requestError);
    hide Execute, Fail, AttemptEvents, Flat, GoesTo;
    assert Continues(env, s.N(), a, None);
    hide *;
    RunAlone(env, s.N(), a);
    run := [a];
    EndsAs(env, s, t, a, tail);
  }

  lemma {:induction false} EndsAs(env: Env, s: State, t: State, a: Step, tail: seq<Event>)
    requires IsRun(env, s.N(), [a]) && Groups([a]) == [a.group] && Flat(Records([a])) == a.events
    requires a.cursor == s.cursor && a.tried == s.attempted && t.ran == s.ran + [a.group]
    requires t.trace == s.trace + AttemptEvents(env, a.group, env.outcome(s.N()))
    requires a.events == AttemptEvents(env, a.group, env.outcome(s.N())) + [FinalLog] + tail
    ensures RanAs(env, s, Note(t, [FinalLog] + tail), a.group, a.retry, [a])
  {
    hide IsRun, Groups, Flat, Records, AttemptEvents;
    var e := AttemptEvents(env, a.group, env.outcome(s.N()));
    assert (s.trace + e) + ([FinalLog] + tail) == s.trace + (e + [FinalLog] + tail);
  }

  lemma {:induction false} FailEndsIs(env: Env, s: State, g: Name, retry: nat, written: bool, requestError: bool)
    requires !Switches(env, g, retry, written) && GivesUp(env, g, retry, requestError)
    ensures Fail(env, s, g, retry, written, requestError)
         == Note(s, [FinalLog] + (if env.aggregate && g != env.original then [BreakerFail(g)] else []))
  {
    hide Execute;
  }

  lemma {:induction false} SwitchIsRun(env: Env, s: State, t: State, g: Name, retry: nat) returns (run: seq<Step>)
    requires FailedAttempt(env.outcome(s.N())) && t.ran == s.ran + [g] && t.cursor == s.cursor && t.attempted == s.attempted
    requires t.trace == s.trace + AttemptEvents(env, g, env.outcome(s.N()))
    requires Switches(env, g, retry, env.outcome(s.N()).written)
    ensures var o := env.outcome(s.N());
            RanAs(env, s, Fail(env, t, g, retry, o.written, o.requestError), g, retry, run)
    decreases Fresh(env, t, g), RetriesLeft(env, g, retry), 0
  {
    hide Execute, Fail, AttemptEvents, GoesTo, Flat;
    var o := env.outcome(s.N());
    var (next, moved) := Handover(env, t, g);
    HandoverGoes(env, t, g);
    FailSwitches(env, t, g, retry, o.written, o.requestError);
    var tried := s.attempted + {g};
    if next.None? {
      var a := Step(g, retry, s.cursor, s.attempted, AttemptEvents(env, g, o) + [BreakerFail(g), FinalLog]);
      RunAlone(env, s.N(), a);
      run := [a];
      assert s.trace + a.events == (s.trace + AttemptEvents(env, g, o) + [BreakerFail(g)]) + [FinalLog];
    } else {
      var u := HandedOver(env, t, g);
      var rest := ExecuteIsRun(env, u, next.value, 0);
      var a := Step(g, retry, s.cursor, s.attempted, AttemptEvents(env, g, o) + [BreakerFail(g), Switched(next.value), RetryLog]);
      RunLonger(env, s.N(), a, rest);
      run := [a] + rest;
      assert s.trace + a.events == (s.trace + AttemptEvents(env, g, o) + [BreakerFail(g)]) + [Switched(next.value), RetryLog];
    }
  }

  lemma {:induction false} HandoverGoes(env: Env, t: State, g: Name)
    ensures var (next, moved) := Handover(env, t, g);
            && GoesTo(env, t.N(), t.cursor, t.attempted + {g}, next, moved)
            && HandedOver(env, t, g).ran == t.ran && HandedOver(env, t, g).cursor == moved
            && HandedOver(env, t, g).attempted == t.attempted + {g}
            && HandedOver(env, t, g).trace
               == (t.trace + [BreakerFail(g)]) + (if next.Some? then [Switched(next.value), RetryLog] else [FinalLog])
  {
    SwitchGoes(env, Note(t.(attempted := t.attempted + {g}), [BreakerFail(g)]), g);
    hide Switch, GoesTo;
  }

  // ----- Main results -----

  /**
   * Every request is a run: an execution that does not fail ends it; a failed one is retried until its group's
   * allowance is used up, unless the request itself was at fault and nothing else could serve it; then an
   * aggregate that has written nothing goes on to the next candidate, or to what its selector offers.
   */
  lemma {:induction false} RequestRuns(env: Env, attempted: set<Name>, cursor: nat, g: Name) returns (run: seq<Step>)
    ensures RanAs(env, Start(attempted, cursor), Execute(env, Start(attempted, cursor), g, 0), g, 0, run)
  {
    run := ExecuteIsRun(env, Start(attempted, cursor), g, 0);
  }

  /** The next group and the cursor are determined. */
  lemma {:induction false} GoesToOne(env: Env, n: nat, cursor: nat, tried: set<Name>, a: Option<Name>, i: nat, b: Option<Name>, j: nat)
    requires GoesTo(env, n, cursor, tried, a, i) && GoesTo(env, n, cursor, tried, b, j)
    ensures a == b && i == j
  {
    hide FirstUntried, FirstOffered;
    if k :| FirstUntried(env.pool, cursor, tried, k) {
      FirstIsOne(env.pool, cursor, tried);
      assert i == j == k + 1;
    }
    if k :| FirstOffered(env, env.eligible(n), tried, k) {
    }
  }

  lemma {:induction false} FirstIsOne(pool: seq<Name>, cursor: nat, tried: set<Name>)
    ensures forall k, l :: FirstUntried(pool, cursor, tried, k) && FirstUntried(pool, cursor, tried, l) ==> k == l
  {
  }

  predicate SameStart(a: Step, b: Step) {
    a.group == b.group && a.retry == b.retry && a.cursor == b.cursor && a.tried == b.tried
  }

  lemma {:induction false} StepIsOne(env: Env, n: nat, a: Step, b: Option<Step>, c: Step, d: Option<Step>)
    requires SameStart(a, c) && Continues(env, n, a, b) && Continues(env, n, c, d)
    ensures a == c && b.Some? == d.Some? && (b.Some? ==> SameStart(b.value, d.value))
  {
    hide GoesTo, AttemptEvents;
    var m, tried := n + 1, a.tried + {a.group};
    if FailedAttempt(env.outcome(n)) && Exhausted(env, a) && env.aggregate && !env.outcome(n).written {
      var i := if b.Some? then b.value.cursor else var moved :| GoesTo(env, m, a.cursor, tried, None, moved); moved;
      var j := if d.Some? then d.value.cursor else var moved :| GoesTo(env, m, a.cursor, tried, None, moved); moved;
      GoesToOne(env, m, a.cursor, tried, if b.Some? then Some(b.value.group) else None, i,
                if d.Some? then Some(d.value.group) else None, j);
    }
  }

  lemma {:induction false} RunRest(env: Env, n: nat, run: seq<Step>)
    requires IsRun(env, n, run) && |run| > 1
    ensures IsRun(env, n + 1, run[1..])
  {
    hide Continues;
    var m, rest := n + 1, run[1..];
    forall i | 0 <= i < |rest|
      ensures StepIs(env, m, rest, i)
    {
      assert StepIs(env, n, run, i + 1);
    }
  }

  /** A run is determined by how it starts. */
  lemma {:induction false} RunIsOne(env: Env, n: nat, run: seq<Step>, other: seq<Step>)
    requires IsRun(env, n, run) && IsRun(env, n, other) && SameStart(run[0], other[0])
    ensures run == other
    decreases |run|
  {
    assert StepIs(env, n, run, 0) && StepIs(env, n, other, 0);
    hide Continues;
    StepIsOne(env, n, run[0], if 0 + 1 < |run| then Some(run[0 + 1]) else None, other[0], if 0 + 1 < |other| then Some(other[0 + 1]) else None);
    if |run| > 1 {
      RunRest(env, n, run);
      RunRest(env, n, other);
      RunIsOne(env, n + 1, run[1..], other[1..]);
      assert run == [run[0]] + run[1..] && other == [other[0]] + other[1..];
    }
  }

  /** A request that ends on a used-up allowance, with nothing written, had nowhere left to go. */
  lemma {:induction false} GivesUpWhenNoneLeft(env: Env, n: nat, run: seq<Step>)
    requires IsRun(env, n, run)
    ensures var last, m := run[|run| - 1], n + |run|;
            var o, tried, offered := env.outcome(m - 1), last.tried + {last.group}, env.eligible(m);
            FailedAttempt(o) && env.aggregate && !o.written ==>
              && Exhausted(env, last)
              && (forall k :: FirstUntried(env.pool, last.cursor, tried, k) ==> !env.reachable(m, env.pool[k]))
              && (forall k :: FirstOffered(env, offered, tried, k) ==> !env.reachable(m, offered[k]))
  {
    hide FirstUntried, FirstOffered, AttemptEvents, FailedAttempt;
    assert StepIs(env, n, run, |run| - 1);
  }
}
