/** The retry and failover engine, with the upstream and the selection of sub-groups as oracles. */
module Failover {
  import opened Wrappers

  type Name = string

  /** What happens to one execution: refused before it starts, or an upstream attempt and its result. */
  datatype Outcome =
    | NoKey
    | Unbuildable
    | BadRedirect
    | ClientGone
    | Succeeded
    | StreamFailed(written: bool, requestError: bool)
    | Failed(written: bool, requestError: bool)

  datatype Event =
    | Attempt(group: Name, outcome: Outcome)
    | BreakerOk(group: Name)
    | BreakerFail(group: Name)
    | Switched(group: Name)
    | FinalLog
    | RetryLog

  /**
   * `outcome(n)` is the fate of the n-th execution. `eligible(n)` are the members the selector could
   * return at that moment, best first, and `reachable(n, g)` says whether group g and its channel load.
   */
  datatype Env = Env(
    aggregate: bool, original: Name, routed: bool, pool: seq<Name>, members: set<Name>,
    maxRetries: Name -> int, outcome: nat -> Outcome, eligible: nat -> seq<Name>, reachable: (nat, Name) -> bool)

  /** `ran` lists the groups executed so far; `cursor` is the position in the candidate pool. */
  datatype State = State(attempted: set<Name>, cursor: nat, ran: seq<Name>, trace: seq<Event>) {
    function N(): nat {
      |ran|
    }
  }

  // ----- Choosing where to go next -----

  function NextCandidate(pool: seq<Name>, cursor: nat, attempted: set<Name>): (r: (Option<Name>, nat))
    ensures r.0.Some? ==> r.0.value in pool && r.0.value !in attempted
    decreases |pool| - cursor
  {
    if cursor >= |pool| then (None, cursor)
    else if pool[cursor] !in attempted then (Some(pool[cursor]), cursor + 1)
    else NextCandidate(pool, cursor + 1, attempted)
  }

  function FirstEligible(env: Env, names: seq<Name>, attempted: set<Name>): (r: Option<Name>)
    ensures r.Some? ==> r.value in env.members && r.value !in attempted
  {
    if names == [] then None
    else if names[0] in env.members && names[0] !in attempted then Some(names[0])
    else FirstEligible(env, names[1..], attempted)
  }

  /** The pool of resolved candidates first, then the selector of the aggregate. */
  function Switch(env: Env, s: State, g: Name): (r: (Option<Name>, nat))
    requires g in s.attempted
    ensures r.0.Some? ==> r.0.value in Universe(env) && r.0.value !in s.attempted
  {
    var (cand, cursor) := NextCandidate(env.pool, s.cursor, s.attempted);
    if cand.Some? && env.reachable(s.N(), cand.value) then (cand, cursor)
    else
      var next := FirstEligible(env, env.eligible(s.N()), s.attempted);
      (if next.Some? && env.reachable(s.N(), next.value) then next else None, cursor)
  }

  ghost function Universe(env: Env): set<Name> {
    env.members + set g | g in env.pool
  }

  // ----- Specification of the recursion -----

  function Note(s: State, events: seq<Event>): State {
    s.(trace := s.trace + events)
  }

  /** The circuit breaker hears of a sub-group's success only within an aggregate. */
  function OkEvents(env: Env, g: Name): seq<Event> {
    if env.aggregate && g != env.original then [BreakerOk(g)] else []
  }

  /** Members and candidates neither attempted nor current: what is left to switch to. */
  ghost function Fresh(env: Env, s: State, g: Name): set<Name> {
    Universe(env) - s.attempted - {g}
  }

  function RetriesLeft(env: Env, g: Name, retry: nat): nat {
    if env.maxRetries(g) > retry then env.maxRetries(g) - retry else 0
  }

  ghost function Execute(env: Env, s: State, g: Name, retry: nat): State
    decreases Fresh(env, s, g), RetriesLeft(env, g, retry), 1
  {
    var o, t := env.outcome(s.N()), s.(ran := s.ran + [g]);
    match o
    case NoKey => Note(t, [FinalLog])
    case Unbuildable => t
    case BadRedirect => Note(t, [FinalLog])
    case ClientGone => Note(t, [Attempt(g, o), FinalLog])
    case Succeeded => Note(t, [Attempt(g, o)] + OkEvents(env, g) + [FinalLog])
    case StreamFailed(written, requestError) =>
      Fail(env, Note(t, [Attempt(g, o)] + OkEvents(env, g)), g, retry, written, requestError)
    case Failed(written, requestError) =>
      Fail(env, Note(t, [Attempt(g, o)]), g, retry, written, requestError)
  }

  ghost function Fail(env: Env, s: State, g: Name, retry: nat, written: bool, requestError: bool): State
    decreases Fresh(env, s, g), RetriesLeft(env, g, retry), 0
  {
    var exhausted := retry >= env.maxRetries(g);
    if exhausted && env.aggregate && !written then
      var s1 := Note(s.(attempted := s.attempted + {g}), [BreakerFail(g)]);
      var (next, cursor) := Switch(env, s1, g);
      var s2 := s1.(cursor := cursor);
      if next.Some? then
        FreshShrinks(env, s, g, next.value);
        Execute(env, Note(s2, [Switched(next.value), RetryLog]), next.value, 0)
      else Note(s2, [FinalLog])
    else if exhausted || (requestError && !env.aggregate && !env.routed) then
      Note(s, [FinalLog] + (if env.aggregate && g != env.original then [BreakerFail(g)] else []))
    else Execute(env, Note(s, [RetryLog]), g, retry + 1)
  }

  /** Moving on uses up a member for good. */
  lemma {:induction false} FreshShrinks(env: Env, s: State, g: Name, next: Name)
    requires next in Universe(env) && next !in s.attempted + {g}
    ensures Universe(env) - (s.attempted + {g}) - {next} < Fresh(env, s, g)
  {
    assert next in Fresh(env, s, g);
  }

  // ----- The engine -----

  class RequestRun {
    const env: Env
    var attempted: set<Name>
    var cursor: nat
    var ran: seq<Name>
    var trace: seq<Event>

    ghost function View(): State
      reads this
    {
      State(attempted, cursor, ran, trace)
    }

    constructor (env: Env, attempted: set<Name>, cursor: nat)
      ensures View() == State(attempted, cursor, [], []) && this.env == env
    {
      this.env := env;
      this.attempted, this.cursor := attempted, cursor;
      ran, trace := [], [];
    }

    method Record(events: seq<Event>)
      modifies this`trace
      ensures View() == Note(old(View()), events)
    {
      trace := trace + events;
    }

    method NextP4Candidate() returns (cand: Option<Name>)
      modifies this`cursor
      ensures (cand, cursor) == NextCandidate(env.pool, old(cursor), attempted)
    {
      while cursor < |env.pool|
        invariant NextCandidate(env.pool, cursor, attempted) == NextCandidate(env.pool, old(cursor), attempted)
      {
        var name := env.pool[cursor];
        cursor := cursor + 1;
        if name !in attempted {
          return Some(name);
        }
      }
      cand := None;
    }

    /** Where the failed sub-group `g` hands over to, if anywhere. */
    method SwitchGroup(g: Name) returns (next: Option<Name>)
      requires g in attempted
      modifies this`cursor
      ensures View() == old(View()).(cursor := cursor)
      ensures (next, cursor) == Switch(env, old(View()), g)
    {
      next := NextP4Candidate();
      if next.Some? && env.reachable(|ran|, next.value) {
        return;
      }
      next := FirstEligible(env, env.eligible(|ran|), attempted);
      if next.None? || !env.reachable(|ran|, next.value) {
        next := None;
      }
    }

    method ExecuteRequestWithRetry(g: Name, retry: nat)
      modifies this
      ensures View() == Execute(env, old(View()), g, retry)
      decreases Fresh(env, View(), g), RetriesLeft(env, g, retry), 1
    {
      var o := env.outcome(|ran|);
      ran := ran + [g];
      match o {
        case NoKey =>
          Record([FinalLog]);
        case Unbuildable =>
        case BadRedirect =>
          Record([FinalLog]);
        case ClientGone =>
          Record([Attempt(g, o), FinalLog]);
        case Succeeded =>
          Record([Attempt(g, o)] + OkEvents(env, g) + [FinalLog]);
        case StreamFailed(written, requestError) =>
          Record([Attempt(g, o)] + OkEvents(env, g));
          HandleAttemptFailure(g, retry, written, requestError);
        case Failed(written, requestError) =>
          Record([Attempt(g, o)]);
          HandleAttemptFailure(g, retry, written, requestError);
      }
    }

    method HandleAttemptFailure(g: Name, retry: nat, written: bool, requestError: bool)
      modifies this
      ensures View() == Fail(env, old(View()), g, retry, written, requestError)
      decreases Fresh(env, View(), g), RetriesLeft(env, g, retry), 0
    {
      var exhausted := retry >= env.maxRetries(g);
      var recorded := false;
      if exhausted && env.aggregate && !written {
        attempted := attempted + {g};
        Record([BreakerFail(g)]);
        recorded := true;
        var next := SwitchGroup(g);
        if next.Some? {
          Record([Switched(next.value), RetryLog]);
          FreshShrinks(env, old(View()), g, next.value);
          ExecuteRequestWithRetry(next.value, 0);
          return;
        }
      }
      var failFast := requestError && !env.aggregate && !env.routed;
      if exhausted || failFast {
        Record([FinalLog]);
        if env.aggregate && g != env.original && !recorded {
          Record([BreakerFail(g)]);
        }
        return;
      }
      Record([RetryLog]);
      ExecuteRequestWithRetry(g, retry + 1);
    }
  }

  // ----- Counting events -----

  datatype Kind =
    | AnyAttempt
    | AttemptOn(group: Name)
    | OkRecord(group: Name)
    | FailRecord(group: Name)
    | SwitchTo(group: Name)
    | Final
    | Retry

  predicate Is(e: Event, k: Kind) {
    match k
    case AnyAttempt => e.Attempt?
    case AttemptOn(g) => e.Attempt? && e.group == g
    case OkRecord(g) => e == BreakerOk(g)
    case FailRecord(g) => e == BreakerFail(g)
    case SwitchTo(g) => e == Switched(g)
    case Final => e == FinalLog
    case Retry => e == RetryLog
  }

  function Count(trace: seq<Event>, k: Kind): nat {
    if trace == [] then 0
    else Count(trace[..|trace| - 1], k) + (if Is(trace[|trace| - 1], k) then 1 else 0)
  }

  /** How many events of kind `k` were recorded on the way from `s` to `r`. */
  function Added(s: State, r: State, k: Kind): int {
    Count(r.trace, k) - Count(s.trace, k)
  }

  lemma {:induction false} CountAppend(a: seq<Event>, b: seq<Event>, k: Kind)
    ensures Count(a + b, k) == Count(a, k) + Count(b, k)
  {
    if b == [] {
      assert a + b == a;
    } else {
      assert (a + b)[..|a + b| - 1] == a + b[..|b| - 1];
      CountAppend(a, b[..|b| - 1], k);
    }
  }

  function One(e: Event, k: Kind): nat {
    if Is(e, k) then 1 else 0
  }

  lemma {:induction false} CountFew(k: Kind)
    ensures Count([], k) == 0
    ensures forall e :: Count([e], k) == One(e, k)
    ensures forall e, f :: Count([e, f], k) == One(e, k) + One(f, k)
  {
    forall e, f
      ensures Count([e], k) == One(e, k) && Count([e, f], k) == One(e, k) + One(f, k)
    {
      assert [e][..0] == [] && [e, f][..1] == [e];
    }
  }

  /** What `Note` adds, for the short lists of events the engine records. */
  lemma {:induction false} Noted(s: State, events: seq<Event>, k: Kind)
    ensures Count(Note(s, events).trace, k) == Count(s.trace, k) + Count(events, k)
  {
    CountAppend(s.trace, events, k);
  }

  /** The events of an attempt that reached the upstream, up to what its success or failure leads to. */
  lemma {:induction false} NotedAttempt(env: Env, s: State, g: Name, o: Outcome, ok: bool, last: seq<Event>, k: Kind)
    requires last == [] || last == [FinalLog]
    ensures Count(Note(s, [Attempt(g, o)] + (if ok then OkEvents(env, g) else []) + last).trace, k)
         == Count(s.trace, k) + One(Attempt(g, o), k)
            + (if ok && env.aggregate && g != env.original then One(BreakerOk(g), k) else 0)
            + (if last == [] then 0 else One(FinalLog, k))
  {
    CountFew(k);
    var oks := if ok then OkEvents(env, g) else [];
    CountAppend([Attempt(g, o)], oks, k);
    CountAppend([Attempt(g, o)] + oks, last, k);
    Noted(s, [Attempt(g, o)] + oks + last, k);
  }

  // ----- The recursion, one step at a time -----

  /** The attempt reached the upstream and failed there. */
  predicate FailedAttempt(o: Outcome) {
    o.StreamFailed? || o.Failed?
  }

  function AfterAttempt(env: Env, s: State, g: Name): State {
    var o := env.outcome(s.N());
    Note(s.(ran := s.ran + [g]), [Attempt(g, o)] + (if o.StreamFailed? then OkEvents(env, g) else []) + [])
  }

  function Oks(env: Env, g: Name, o: Outcome, k: Kind): nat {
    if (o.StreamFailed? || o.Succeeded?) && env.aggregate && g != env.original then One(BreakerOk(g), k) else 0
  }

  /** What an execution that does not fail records. */
  function StopCount(env: Env, g: Name, o: Outcome, k: Kind): nat {
    (if o.ClientGone? || o.Succeeded? then One(Attempt(g, o), k) + Oks(env, g, o, k) else 0)
    + (if o.Unbuildable? then 0 else One(FinalLog, k))
  }

  /** The trace of an execution that does not fail. */
  function StopEvents(env: Env, g: Name, o: Outcome): seq<Event> {
    match o
    case Unbuildable => []
    case ClientGone => [Attempt(g, o)] + [] + [FinalLog]
    case Succeeded => [Attempt(g, o)] + OkEvents(env, g) + [FinalLog]
    case _ => [FinalLog]
  }

  lemma {:induction false} ExecuteNotes(env: Env, s: State, g: Name, retry: nat)
    requires !FailedAttempt(env.outcome(s.N()))
    ensures Execute(env, s, g, retry) == Note(s.(ran := s.ran + [g]), StopEvents(env, g, env.outcome(s.N())))
  {
    hide Fail;
    assert [Attempt(g, env.outcome(s.N()))] + [] + [FinalLog] == [Attempt(g, env.outcome(s.N())), FinalLog];
    assert s.trace + [] == s.trace;
  }

  lemma {:induction false} ExecuteStops(env: Env, s: State, g: Name, retry: nat, k: Kind)
    requires !FailedAttempt(env.outcome(s.N()))
    ensures var r := Execute(env, s, g, retry);
            r.ran == s.ran + [g] && Added(s, r, k) == StopCount(env, g, env.outcome(s.N()), k)
  {
    var o, t := env.outcome(s.N()), s.(ran := s.ran + [g]);
    ExecuteNotes(env, s, g, retry);
    hide *;
    StopNoted(env, t, g, o, k);
    StopAdded(env, s, t, g, o, k);
  }

  lemma {:induction false} StopAdded(env: Env, s: State, t: State, g: Name, o: Outcome, k: Kind)
    requires t == s.(ran := s.ran + [g])
    requires Count(Note(t, StopEvents(env, g, o)).trace, k) == Count(t.trace, k) + StopCount(env, g, o, k)
    ensures Note(t, StopEvents(env, g, o)).ran == s.ran + [g]
    ensures Added(s, Note(t, StopEvents(env, g, o)), k) == StopCount(env, g, o, k)
  {
    hide Count, StopEvents, StopCount;
  }

  lemma {:induction false} StopNoted(env: Env, t: State, g: Name, o: Outcome, k: Kind)
    requires !FailedAttempt(o)
    ensures Count(Note(t, StopEvents(env, g, o)).trace, k) == Count(t.trace, k) + StopCount(env, g, o, k)
  {
    hide Count, Is, OkEvents, Note;
    match o
    case ClientGone => NotedAttempt(env, t, g, o, false, [FinalLog], k);
    case Succeeded => NotedAttempt(env, t, g, o, true, [FinalLog], k);
    case Unbuildable =>
      CountFew(k);
      Noted(t, [], k);
    case NoKey =>
      CountFew(k);
      Noted(t, [FinalLog], k);
    case BadRedirect =>
      CountFew(k);
      Noted(t, [FinalLog], k);
  }

  lemma {:induction false} ExecuteFails(env: Env, s: State, g: Name, retry: nat, k: Kind)
    requires FailedAttempt(env.outcome(s.N()))
    ensures var o, t := env.outcome(s.N()), AfterAttempt(env, s, g);
            && Execute(env, s, g, retry) == Fail(env, t, g, retry, o.written, o.requestError)
            && Added(s, t, k) == One(Attempt(g, o), k) + Oks(env, g, o, k)
  {
    ExecuteIsFail(env, s, g, retry);
    AttemptAdded(env, s, g, k);
    hide *;
  }

  lemma {:induction false} ExecuteIsFail(env: Env, s: State, g: Name, retry: nat)
    requires FailedAttempt(env.outcome(s.N()))
    ensures var o := env.outcome(s.N());
            Execute(env, s, g, retry) == Fail(env, AfterAttempt(env, s, g), g, retry, o.written, o.requestError)
  {
    var o := env.outcome(s.N());
    var events := [Attempt(g, o)] + (if o.StreamFailed? then OkEvents(env, g) else []);
    assert events + [] == events;
    assert [Attempt(g, o)] + [] == [Attempt(g, o)];
    hide Fail, OkEvents;
  }

  lemma {:induction false} AttemptAdded(env: Env, s: State, g: Name, k: Kind)
    requires FailedAttempt(env.outcome(s.N()))
    ensures var o := env.outcome(s.N());
            Added(s, AfterAttempt(env, s, g), k) == One(Attempt(g, o), k) + Oks(env, g, o, k)
  {
    var o := env.outcome(s.N());
    NotedAttempt(env, s.(ran := s.ran + [g]), g, o, o.StreamFailed?, [], k);
    hide Count, Is, OkEvents, Note;
  }

  predicate Switches(env: Env, g: Name, retry: nat, written: bool) {
    retry >= env.maxRetries(g) && env.aggregate && !written
  }

  predicate GivesUp(env: Env, g: Name, retry: nat, requestError: bool) {
    retry >= env.maxRetries(g) || (requestError && !env.aggregate && !env.routed)
  }

  function Handover(env: Env, s: State, g: Name): (Option<Name>, nat) {
    Switch(env, Note(s.(attempted := s.attempted + {g}), [BreakerFail(g)]), g)
  }

  /** The state in which the next group, if any, is entered. */
  function HandedOver(env: Env, s: State, g: Name): State {
    var (next, cursor) := Handover(env, s, g);
    Note(Note(s.(attempted := s.attempted + {g}), [BreakerFail(g)]).(cursor := cursor),
         if next.Some? then [Switched(next.value), RetryLog] else [FinalLog])
  }

  lemma {:induction false} HandedOverCounts(env: Env, s: State, g: Name, k: Kind)
    ensures var next := Handover(env, s, g).0;
            && HandedOver(env, s, g).ran == s.ran
            && Added(s, HandedOver(env, s, g), k)
               == One(BreakerFail(g), k) + (if next.Some? then One(Switched(next.value), k) + One(RetryLog, k) else One(FinalLog, k))
  {
    CountFew(k);
    var (next, cursor) := Handover(env, s, g);
    var t := Note(s.(attempted := s.attempted + {g}), [BreakerFail(g)]);
    Noted(s.(attempted := s.attempted + {g}), [BreakerFail(g)], k);
    Noted(t.(cursor := cursor), if next.Some? then [Switched(next.value), RetryLog] else [FinalLog], k);
    hide Handover, Count;
  }

  lemma {:induction false} FailSwitches(env: Env, s: State, g: Name, retry: nat, written: bool, requestError: bool)
    requires Switches(env, g, retry, written)
    ensures var next, r := Handover(env, s, g).0, Fail(env, s, g, retry, written, requestError);
            if next.None? then r == HandedOver(env, s, g)
            else && next.value in Fresh(env, s, g)
                 && Fresh(env, HandedOver(env, s, g), next.value) == Fresh(env, s, g) - {next.value}
                 && r == Execute(env, HandedOver(env, s, g), next.value, 0)
  {
    hide Execute;
  }

  lemma {:induction false} FailEnds(env: Env, s: State, g: Name, retry: nat, written: bool, requestError: bool, k: Kind)
    requires !Switches(env, g, retry, written) && GivesUp(env, g, retry, requestError)
    ensures var r := Fail(env, s, g, retry, written, requestError);
            && r.ran == s.ran
            && Added(s, r, k) == One(FinalLog, k) + (if env.aggregate && g != env.original then One(BreakerFail(g), k) else 0)
  {
    CountFew(k);
    Noted(s, [FinalLog], k);
    Noted(s, [FinalLog, BreakerFail(g)], k);
    assert [FinalLog] + [BreakerFail(g)] == [FinalLog, BreakerFail(g)];
    assert [FinalLog] + [] == [FinalLog];
    hide Execute;
  }

  lemma {:induction false} FailRetries(env: Env, s: State, g: Name, retry: nat, written: bool, requestError: bool, k: Kind)
    requires !GivesUp(env, g, retry, requestError)
    ensures var t := Note(s, [RetryLog]);
            && Fail(env, s, g, retry, written, requestError) == Execute(env, t, g, retry + 1)
            && Added(s, t, k) == One(RetryLog, k)
            && RetriesLeft(env, g, retry) > 0 && RetriesLeft(env, g, retry + 1) == RetriesLeft(env, g, retry) - 1
  {
    CountFew(k);
    Noted(s, [RetryLog], k);
    hide Execute;
  }

  // ----- Exactly one final log -----

  /** Whether the run from `s` on ended in a request that could not even be built. */
  predicate EndedUnbuilt(env: Env, r: State) {
    r.N() > 0 && env.outcome(r.N() - 1).Unbuildable?
  }

  lemma {:induction false} ExecuteLogs(env: Env, s: State, g: Name, retry: nat)
    ensures var r := Execute(env, s, g, retry);
            && r.N() > s.N()
            && Added(s, r, Retry) == r.N() - s.N() - 1
            && Added(s, r, Final) == (if EndedUnbuilt(env, r) then 0 else 1)
    decreases Fresh(env, s, g), RetriesLeft(env, g, retry), 1
  {
    hide Execute, Fail, Count, Note;
    if FailedAttempt(env.outcome(s.N())) {
      var t := AfterAttempt(env, s, g);
      ExecuteFails(env, s, g, retry, Retry);
      ExecuteFails(env, s, g, retry, Final);
      AfterAttemptIs(env, s, g);
      FailLogs(env, t, g, retry, env.outcome(s.N()).written, env.outcome(s.N()).requestError);
    } else {
      ExecuteStops(env, s, g, retry, Retry);
      ExecuteStops(env, s, g, retry, Final);
    }
  }

  lemma {:induction false} AfterAttemptIs(env: Env, s: State, g: Name)
    ensures var t := AfterAttempt(env, s, g);
            t.ran == s.ran + [g] && t.attempted == s.attempted && t.cursor == s.cursor && Fresh(env, t, g) == Fresh(env, s, g)
  {
  }

  lemma {:induction false} FailLogs(env: Env, s: State, g: Name, retry: nat, written: bool, requestError: bool)
    requires s.N() > 0 && FailedAttempt(env.outcome(s.N() - 1))
    ensures var r := Fail(env, s, g, retry, written, requestError);
            && r.N() >= s.N()
            && Added(s, r, Retry) == r.N() - s.N()
            && Added(s, r, Final) == (if EndedUnbuilt(env, r) then 0 else 1)
    decreases Fresh(env, s, g), RetriesLeft(env, g, retry), 0
  {
    hide Execute, Fail, Count;
    if Switches(env, g, retry, written) {
      FailSwitches(env, s, g, retry, written, requestError);
      var next := Handover(env, s, g).0;
      HandedOverCounts(env, s, g, Retry);
      HandedOverCounts(env, s, g, Final);
      hide Handover;
      if next.Some? {
        ExecuteLogs(env, HandedOver(env, s, g), next.value, 0);
      }
    } else if GivesUp(env, g, retry, requestError) {
      FailEnds(env, s, g, retry, written, requestError, Retry);
      FailEnds(env, s, g, retry, written, requestError, Final);
    } else {
      FailRetries(env, s, g, retry, written, requestError, Retry);
      FailRetries(env, s, g, retry, written, requestError, Final);
      ExecuteLogs(env, Note(s, [RetryLog]), g, retry + 1);
    }
  }

  // ----- What one group can cost -----

  /** How many attempts group `x` can still get when `g` is the current group at retry `retry`. */
  ghost function Allowance(env: Env, s: State, g: Name, retry: nat, x: Name): nat {
    if x == g then RetriesLeft(env, g, retry) + 1
    else if x in Fresh(env, s, g) then RetriesLeft(env, x, 0) + 1
    else 0
  }

  lemma {:induction false} ExecuteAttempts(env: Env, s: State, g: Name, retry: nat, x: Name)
    ensures Added(s, Execute(env, s, g, retry), AttemptOn(x)) <= Allowance(env, s, g, retry, x)
    decreases Fresh(env, s, g), RetriesLeft(env, g, retry), 1
  {
    hide Execute, Fail, Count, Note;
    if FailedAttempt(env.outcome(s.N())) {
      ExecuteFails(env, s, g, retry, AttemptOn(x));
      AfterAttemptIs(env, s, g);
      FailAttempts(env, AfterAttempt(env, s, g), g, retry, env.outcome(s.N()).written, env.outcome(s.N()).requestError, x);
    } else {
      ExecuteStops(env, s, g, retry, AttemptOn(x));
    }
  }

  lemma {:induction false} FailAttempts(env: Env, s: State, g: Name, retry: nat, written: bool, requestError: bool, x: Name)
    ensures Added(s, Fail(env, s, g, retry, written, requestError), AttemptOn(x))
         <= Allowance(env, s, g, retry, x) - (if x == g then 1 else 0)
    decreases Fresh(env, s, g), RetriesLeft(env, g, retry), 0
  {
    hide Execute, Fail, Count;
    if Switches(env, g, retry, written) {
      FailSwitches(env, s, g, retry, written, requestError);
      HandedOverCounts(env, s, g, AttemptOn(x));
      var next := Handover(env, s, g).0;
      hide Handover;
      if next.Some? {
        ExecuteAttempts(env, HandedOver(env, s, g), next.value, 0, x);
      }
    } else if GivesUp(env, g, retry, requestError) {
      FailEnds(env, s, g, retry, written, requestError, AttemptOn(x));
    } else {
      FailRetries(env, s, g, retry, written, requestError, AttemptOn(x));
      ExecuteAttempts(env, Note(s, [RetryLog]), g, retry + 1, x);
    }
  }

  /** Each group is switched to at most once, and never one that was attempted or is current. */
  lemma {:induction false} ExecuteSwitches(env: Env, s: State, g: Name, retry: nat, x: Name)
    ensures Added(s, Execute(env, s, g, retry), SwitchTo(x)) <= if x in Fresh(env, s, g) then 1 else 0
    decreases Fresh(env, s, g), RetriesLeft(env, g, retry), 1
  {
    hide Execute, Fail, Count, Note;
    if FailedAttempt(env.outcome(s.N())) {
      ExecuteFails(env, s, g, retry, SwitchTo(x));
      AfterAttemptIs(env, s, g);
      FailSwitchesOnce(env, AfterAttempt(env, s, g), g, retry, env.outcome(s.N()).written, env.outcome(s.N()).requestError, x);
    } else {
      ExecuteStops(env, s, g, retry, SwitchTo(x));
    }
  }

  lemma {:induction false} FailSwitchesOnce(env: Env, s: State, g: Name, retry: nat, written: bool, requestError: bool, x: Name)
    ensures Added(s, Fail(env, s, g, retry, written, requestError), SwitchTo(x)) <= if x in Fresh(env, s, g) then 1 else 0
    decreases Fresh(env, s, g), RetriesLeft(env, g, retry), 0
  {
    hide Execute, Fail, Count;
    if Switches(env, g, retry, written) {
      FailSwitches(env, s, g, retry, written, requestError);
      HandedOverCounts(env, s, g, SwitchTo(x));
      var next := Handover(env, s, g).0;
      hide Handover;
      if next.Some? {
        ExecuteSwitches(env, HandedOver(env, s, g), next.value, 0, x);
      }
    } else if GivesUp(env, g, retry, requestError) {
      FailEnds(env, s, g, retry, written, requestError, SwitchTo(x));
    } else {
      FailRetries(env, s, g, retry, written, requestError, SwitchTo(x));
      ExecuteSwitches(env, Note(s, [RetryLog]), g, retry + 1, x);
    }
  }

  /** A group is closed by at most one failure record. */
  lemma {:induction false} ExecuteCloses(env: Env, s: State, g: Name, retry: nat, x: Name)
    ensures Added(s, Execute(env, s, g, retry), FailRecord(x)) <= if x == g || x in Fresh(env, s, g) then 1 else 0
    decreases Fresh(env, s, g), RetriesLeft(env, g, retry), 1
  {
    hide Execute, Fail, Count, Note;
    if FailedAttempt(env.outcome(s.N())) {
      ExecuteFails(env, s, g, retry, FailRecord(x));
      AfterAttemptIs(env, s, g);
      FailCloses(env, AfterAttempt(env, s, g), g, retry, env.outcome(s.N()).written, env.outcome(s.N()).requestError, x);
    } else {
      ExecuteStops(env, s, g, retry, FailRecord(x));
    }
  }

  lemma {:induction false} FailCloses(env: Env, s: State, g: Name, retry: nat, written: bool, requestError: bool, x: Name)
    ensures Added(s, Fail(env, s, g, retry, written, requestError), FailRecord(x)) <= if x == g || x in Fresh(env, s, g) then 1 else 0
    decreases Fresh(env, s, g), RetriesLeft(env, g, retry), 0
  {
    hide Execute, Fail, Count;
    if Switches(env, g, retry, written) {
      FailSwitches(env, s, g, retry, written, requestError);
      HandedOverCounts(env, s, g, FailRecord(x));
      var next := Handover(env, s, g).0;
      hide Handover;
      if next.Some? {
        ExecuteCloses(env, HandedOver(env, s, g), next.value, 0, x);
      }
    } else if GivesUp(env, g, retry, requestError) {
      FailEnds(env, s, g, retry, written, requestError, FailRecord(x));
    } else {
      FailRetries(env, s, g, retry, written, requestError, FailRecord(x));
      ExecuteCloses(env, Note(s, [RetryLog]), g, retry + 1, x);
    }
  }

  // ----- The order of the executions -----

  /** The executions of each group follow one another without a gap. */
  ghost predicate InStretches(ran: seq<Name>) {
    forall i, j, k :: 0 <= i < j < k < |ran| && ran[i] == ran[k] ==> ran[j] == ran[i]
  }

  /** All executions from the n-th on failed, save the last. */
  predicate FailedUpToLast(env: Env, n: nat, ran: seq<Name>) {
    forall i :: n <= i < |ran| - 1 ==> FailedAttempt(env.outcome(i))
  }

  /** From `s`, where `g` is current, the executions `more` followed: of `g` and of groups left to switch to. */
  ghost predicate RunsOn(env: Env, s: State, r: State, g: Name, more: seq<Name>) {
    && r.ran == s.ran + more
    && InStretches([g] + more)
    && (forall x :: x in more ==> x == g || x in Fresh(env, s, g))
    && FailedUpToLast(env, |s.ran|, r.ran)
  }

  lemma {:induction false} ExecuteRuns(env: Env, s: State, g: Name, retry: nat) returns (more: seq<Name>)
    ensures RunsOn(env, s, Execute(env, s, g, retry), g, more)
    ensures more != [] && more[0] == g
    decreases Fresh(env, s, g), RetriesLeft(env, g, retry), 1
  {
    hide Execute, Fail, Count, Note, Fresh;
    more := [g];
    if FailedAttempt(env.outcome(s.N())) {
      ExecuteFails(env, s, g, retry, Final);
      AfterAttemptIs(env, s, g);
      var t := AfterAttempt(env, s, g);
      var rest := FailRuns(env, t, g, retry, env.outcome(s.N()).written, env.outcome(s.N()).requestError);
      more := [g] + rest;
      RunsLonger(env, s, t, Execute(env, s, g, retry), g, rest);
    } else {
      ExecuteStops(env, s, g, retry, Final);
    }
  }

  lemma {:induction false} FailRuns(env: Env, s: State, g: Name, retry: nat, written: bool, requestError: bool)
      returns (more: seq<Name>)
    ensures RunsOn(env, s, Fail(env, s, g, retry, written, requestError), g, more)
    decreases Fresh(env, s, g), RetriesLeft(env, g, retry), 0
  {
    hide Execute, Fail, Count;
    more := [];
    if Switches(env, g, retry, written) {
      FailSwitches(env, s, g, retry, written, requestError);
      HandedOverCounts(env, s, g, Final);
      var next := Handover(env, s, g).0;
      hide Handover, HandedOver;
      if next.Some? {
        more := ExecuteRuns(env, HandedOver(env, s, g), next.value, 0);
        RunsElsewhere(env, s, HandedOver(env, s, g), Fail(env, s, g, retry, written, requestError), g, next.value, more);
      }
    } else if GivesUp(env, g, retry, requestError) {
      FailEnds(env, s, g, retry, written, requestError, Final);
    } else {
      FailRetries(env, s, g, retry, written, requestError, Final);
      var t := Note(s, [RetryLog]);
      more := ExecuteRuns(env, t, g, retry + 1);
      assert Fresh(env, t, g) == Fresh(env, s, g) && t.ran == s.ran;
    }
  }

  lemma {:induction false} RunsLonger(env: Env, s: State, t: State, r: State, g: Name, rest: seq<Name>)
    requires RunsOn(env, t, r, g, rest)
    requires t.ran == s.ran + [g] && Fresh(env, t, g) == Fresh(env, s, g) && FailedAttempt(env.outcome(|s.ran|))
    ensures RunsOn(env, s, r, g, [g] + rest)
  {
    hide Fresh, FailedAttempt;
    var more := [g] + rest;
    assert s.ran + more == s.ran + [g] + rest;
    forall i, j, k | 0 <= i < j < k < |[g] + more| && ([g] + more)[i] == ([g] + more)[k]
      ensures ([g] + more)[j] == ([g] + more)[i]
    {
      assert j > 1 ==> ([g] + more)[j] == more[j - 1] && ([g] + more)[k] == more[k - 1];
      assert ([g] + more)[i] == more[if i == 0 then 0 else i - 1];
    }
  }

  /** The next group's executions, seen from the group before: it does not come back. */
  lemma {:induction false} RunsElsewhere(env: Env, s: State, t: State, r: State, g: Name, next: Name, more: seq<Name>)
    requires RunsOn(env, t, r, next, more) && more != [] && more[0] == next && t.ran == s.ran
    requires next in Fresh(env, s, g) && Fresh(env, t, next) == Fresh(env, s, g) - {next}
    ensures RunsOn(env, s, r, g, more)
  {
    assert g !in Fresh(env, s, g);
    hide Fresh, FailedAttempt;
    forall i, j, k | 0 <= i < j < k < |[g] + more| && ([g] + more)[i] == ([g] + more)[k]
      ensures ([g] + more)[j] == ([g] + more)[i]
    {
      assert ([g] + more)[k] == more[k - 1] && more[k - 1] in more && g !in more;
      assert ([next] + more)[k] == more[k - 1] && ([next] + more)[j] == more[j - 1] == ([g] + more)[j];
      assert ([next] + more)[i] == more[i - 1] == ([g] + more)[i];
    }
  }

  // ----- What the circuit breaker hears -----

  /** How many executions of `x` broke their stream after the headers had come. */
  function Broken(env: Env, ran: seq<Name>, x: Name): nat {
    if ran == [] then 0
    else
      var last := |ran| - 1;
      Broken(env, ran[..last], x) + (if ran[last] == x && env.outcome(last).StreamFailed? then 1 else 0)
  }

  /** An execution that neither succeeded nor failed: no key, no request, a bad redirect, or the client had gone. */
  predicate Quiet(o: Outcome) {
    !FailedAttempt(o) && !o.Succeeded?
  }

  predicate EndsQuietly(env: Env, ran: seq<Name>, x: Name) {
    ran != [] && ran[|ran| - 1] == x && Quiet(env.outcome(|ran| - 1))
  }

  /** From `s` to `r` the breaker heard of `x` once for every broken stream, and once more if `x` came to an end. */
  ghost predicate Heard(env: Env, s: State, r: State, x: Name, entered: bool) {
    Added(s, r, OkRecord(x)) + Added(s, r, FailRecord(x))
    == Broken(env, r.ran, x) - Broken(env, s.ran, x) + (if entered && !EndsQuietly(env, r.ran, x) then 1 else 0)
  }

  lemma {:induction false} BrokenPush(env: Env, ran: seq<Name>, g: Name, x: Name)
    ensures Broken(env, ran + [g], x) == Broken(env, ran, x) + (if g == x && env.outcome(|ran|).StreamFailed? then 1 else 0)
  {
    assert (ran + [g])[..|ran|] == ran;
  }

  lemma {:induction false} ExecuteHeard(env: Env, s: State, g: Name, retry: nat, x: Name) returns (more: seq<Name>)
    requires env.aggregate && x != env.original
    ensures RunsOn(env, s, Execute(env, s, g, retry), g, more)
    ensures Heard(env, s, Execute(env, s, g, retry), x, x in more)
    ensures more != [] && more[0] == g
    decreases Fresh(env, s, g), RetriesLeft(env, g, retry), 1
  {
    hide Execute, Fail, Count, Note, Fresh, RunsOn, Broken;
    more := ExecuteRuns(env, s, g, retry);
    BrokenPush(env, s.ran, g, x);
    var o := env.outcome(s.N());
    if FailedAttempt(o) {
      ExecuteFails(env, s, g, retry, OkRecord(x));
      ExecuteFails(env, s, g, retry, FailRecord(x));
      AfterAttemptIs(env, s, g);
      var t := AfterAttempt(env, s, g);
      hide AfterAttempt;
      var rest := FailHeard(env, t, g, retry, o.written, o.requestError, x);
      SameRun(env, s, t, Execute(env, s, g, retry), g, more, rest);
    } else {
      ExecuteStops(env, s, g, retry, OkRecord(x));
      ExecuteStops(env, s, g, retry, FailRecord(x));
      StoppedRun(env, s, Execute(env, s, g, retry), g, more);
    }
  }

  lemma {:induction false} StoppedRun(env: Env, s: State, r: State, g: Name, more: seq<Name>)
    requires RunsOn(env, s, r, g, more) && r.ran == s.ran + [g]
    ensures more == [g]
  {
    assert |more| == 1 && r.ran[|s.ran|] == more[0];
  }

  lemma {:induction false} SameRun(env: Env, s: State, t: State, r: State, g: Name, more: seq<Name>, rest: seq<Name>)
    requires RunsOn(env, s, r, g, more) && RunsOn(env, t, r, g, rest) && t.ran == s.ran + [g]
    ensures more == [g] + rest
  {
    assert r.ran[|s.ran|..] == more && r.ran[|t.ran|..] == rest;
    assert r.ran == s.ran + ([g] + rest);
    assert (s.ran + ([g] + rest))[|s.ran|..] == [g] + rest;
  }

  lemma {:induction false} FailHeard(env: Env, s: State, g: Name, retry: nat, written: bool, requestError: bool, x: Name)
      returns (more: seq<Name>)
    requires env.aggregate && x != env.original
    requires s.ran != [] && s.ran[|s.ran| - 1] == g && FailedAttempt(env.outcome(|s.ran| - 1))
    ensures RunsOn(env, s, Fail(env, s, g, retry, written, requestError), g, more)
    ensures Heard(env, s, Fail(env, s, g, retry, written, requestError), x, x == g || x in more)
    decreases Fresh(env, s, g), RetriesLeft(env, g, retry), 0
  {
    hide Execute, Fail, Count, RunsOn, Broken;
    more := FailRuns(env, s, g, retry, written, requestError);
    var r := Fail(env, s, g, retry, written, requestError);
    if Switches(env, g, retry, written) {
      FailSwitches(env, s, g, retry, written, requestError);
      HandedOverCounts(env, s, g, OkRecord(x));
      HandedOverCounts(env, s, g, FailRecord(x));
      var next := Handover(env, s, g).0;
      hide Handover, HandedOver;
      if next.Some? {
        var t := HandedOver(env, s, g);
        var on := ExecuteHeard(env, t, next.value, 0, x);
        HandedRun(env, s, t, r, g, next.value, more, on);
      } else {
        NoRun(env, s, r, g, more);
      }
    } else if GivesUp(env, g, retry, requestError) {
      FailEnds(env, s, g, retry, written, requestError, OkRecord(x));
      FailEnds(env, s, g, retry, written, requestError, FailRecord(x));
      NoRun(env, s, r, g, more);
    } else {
      FailRetries(env, s, g, retry, written, requestError, OkRecord(x));
      FailRetries(env, s, g, retry, written, requestError, FailRecord(x));
      var t := Note(s, [RetryLog]);
      var on := ExecuteHeard(env, t, g, retry + 1, x);
      HandedRun(env, s, t, r, g, g, more, on);
    }
  }

  lemma {:induction false} NoRun(env: Env, s: State, r: State, g: Name, more: seq<Name>)
    requires RunsOn(env, s, r, g, more) && r.ran == s.ran
    ensures more == []
  {
  }

  lemma {:induction false} HandedRun(env: Env, s: State, t: State, r: State, g: Name, next: Name, more: seq<Name>, on: seq<Name>)
    requires RunsOn(env, s, r, g, more) && RunsOn(env, t, r, next, on) && t.ran == s.ran
    requires on != [] && on[0] == next && (next == g || next in Fresh(env, s, g))
    requires next == g || Fresh(env, t, next) == Fresh(env, s, g) - {next}
    ensures more == on
    ensures next == g ==> g in more
    ensures next != g ==> g !in more && r.ran != [] && r.ran[|r.ran| - 1] != g
  {
    assert r.ran[|s.ran|..] == more && r.ran[|t.ran|..] == on;
    assert g !in Fresh(env, s, g);
    hide Fresh;
    assert r.ran[|r.ran| - 1] == on[|on| - 1] && on[|on| - 1] in on;
  }

  // ----- What a whole request can cost -----

  /** The attempts a set of groups allows together. */
  ghost function Budget(env: Env, gs: set<Name>): nat {
    if gs == {} then 0
    else
      var x :| x in gs;
      RetriesLeft(env, x, 0) + 1 + Budget(env, gs - {x})
  }

  lemma {:induction false} BudgetWithout(env: Env, gs: set<Name>, x: Name)
    requires x in gs
    ensures Budget(env, gs) == RetriesLeft(env, x, 0) + 1 + Budget(env, gs - {x})
    decreases |gs|
  {
    var y :| y in gs && Budget(env, gs) == RetriesLeft(env, y, 0) + 1 + Budget(env, gs - {y});
    if y != x {
      BudgetWithout(env, gs - {y}, x);
      BudgetWithout(env, gs - {x}, y);
      assert gs - {x} - {y} == gs - {y} - {x};
    }
  }

  lemma {:induction false} ExecuteTotal(env: Env, s: State, g: Name, retry: nat)
    ensures Added(s, Execute(env, s, g, retry), AnyAttempt) <= RetriesLeft(env, g, retry) + 1 + Budget(env, Fresh(env, s, g))
    decreases Fresh(env, s, g), RetriesLeft(env, g, retry), 1
  {
    hide Execute, Fail, Count, Note, Budget;
    if FailedAttempt(env.outcome(s.N())) {
      ExecuteFails(env, s, g, retry, AnyAttempt);
      AfterAttemptIs(env, s, g);
      FailTotal(env, AfterAttempt(env, s, g), g, retry, env.outcome(s.N()).written, env.outcome(s.N()).requestError);
    } else {
      ExecuteStops(env, s, g, retry, AnyAttempt);
    }
  }

  lemma {:induction false} FailTotal(env: Env, s: State, g: Name, retry: nat, written: bool, requestError: bool)
    ensures Added(s, Fail(env, s, g, retry, written, requestError), AnyAttempt)
         <= RetriesLeft(env, g, retry) + Budget(env, Fresh(env, s, g))
    decreases Fresh(env, s, g), RetriesLeft(env, g, retry), 0
  {
    hide Execute, Fail, Count, Budget;
    if Switches(env, g, retry, written) {
      FailSwitches(env, s, g, retry, written, requestError);
      HandedOverCounts(env, s, g, AnyAttempt);
      var next := Handover(env, s, g).0;
      hide Handover;
      if next.Some? {
        BudgetWithout(env, Fresh(env, s, g), next.value);
        ExecuteTotal(env, HandedOver(env, s, g), next.value, 0);
      }
    } else if GivesUp(env, g, retry, requestError) {
      FailEnds(env, s, g, retry, written, requestError, AnyAttempt);
    } else {
      FailRetries(env, s, g, retry, written, requestError, AnyAttempt);
      assert Fresh(env, Note(s, [RetryLog]), g) == Fresh(env, s, g);
      ExecuteTotal(env, Note(s, [RetryLog]), g, retry + 1);
    }
  }

  // ----- Main results -----

  /** A request starts in group `g`, which it may already have marked as attempted. */
  function Start(attempted: set<Name>, cursor: nat): State {
    State(attempted, cursor, [], [])
  }

  /**
   * Every request ends, after at most the attempts that all groups allow together; no group is switched
   * to twice or gets more than its own share; there is one retry log for every execution but the last
   * and one final log, unless the last request could not even be built.
   */
  lemma {:induction false} RequestIsBounded(env: Env, attempted: set<Name>, cursor: nat, g: Name, x: Name)
    ensures var s := Start(attempted, cursor);
            var r := Execute(env, s, g, 0);
            && Count(r.trace, AnyAttempt) <= Budget(env, Universe(env) - attempted + {g})
            && Count(r.trace, AttemptOn(x)) <= RetriesLeft(env, x, 0) + 1
            && (x in attempted && x != g ==> Count(r.trace, AttemptOn(x)) == 0)
            && Count(r.trace, SwitchTo(x)) <= 1 && Count(r.trace, SwitchTo(g)) == 0
            && Count(r.trace, Retry) == r.N() - 1
            && Count(r.trace, Final) == (if EndedUnbuilt(env, r) then 0 else 1)
  {
    var s := Start(attempted, cursor);
    ExecuteTotal(env, s, g, 0);
    ExecuteAttempts(env, s, g, 0, x);
    ExecuteSwitches(env, s, g, 0, x);
    ExecuteSwitches(env, s, g, 0, g);
    ExecuteLogs(env, s, g, 0);
    CountNothing();
    hide Execute, Count, Budget;
    BudgetWithout(env, Universe(env) - attempted + {g}, g);
    assert Universe(env) - attempted + {g} - {g} == Fresh(env, s, g);
  }

  lemma {:induction false} CountNothing()
    ensures forall k :: Count([], k) == 0
  {
  }

  /**
   * In an aggregate the executions of a sub-group follow one another, and all executions but the last of
   * the request failed. The breaker hears of the sub-group once for every stream that broke after its
   * headers, and once more unless the request ended quietly there. So it hears at most once exactly when
   * no stream of the sub-group broke, or one did and the request then ended quietly on the sub-group.
   */
  lemma {:induction false} BreakerRecordsOnceIff(env: Env, attempted: set<Name>, cursor: nat, g: Name, x: Name)
    requires env.aggregate && x != env.original
    ensures var r := Execute(env, Start(attempted, cursor), g, 0);
            var records, broken := Count(r.trace, OkRecord(x)) + Count(r.trace, FailRecord(x)), Broken(env, r.ran, x);
            && InStretches(r.ran) && FailedUpToLast(env, 0, r.ran)
            && Count(r.trace, FailRecord(x)) <= 1
            && records == broken + (if x in r.ran && !EndsQuietly(env, r.ran, x) then 1 else 0)
            && (records <= 1 <==> broken == 0 || (broken == 1 && EndsQuietly(env, r.ran, x)))
  {
    var s := Start(attempted, cursor);
    ExecuteCloses(env, s, g, 0, x);
    var more := ExecuteHeard(env, s, g, 0, x);
    CountNothing();
    var r := Execute(env, s, g, 0);
    hide Execute, Count;
    assert r.ran == more && Broken(env, s.ran, x) == 0;
    assert forall i :: 0 <= i < |more| ==> more[i] == ([g] + more)[i + 1];
    BrokenOn(env, r.ran, x);
  }

  lemma {:induction false} BrokenOn(env: Env, ran: seq<Name>, x: Name)
    ensures x !in ran ==> Broken(env, ran, x) == 0
  {
    if ran != [] {
      BrokenOn(env, ran[..|ran| - 1], x);
    }
  }

  /** A stream that breaks before its first byte is recorded as a success and then as a failure. */
  lemma {:induction false} BrokenStreamRecordsTwice(env: Env, g: Name)
    requires env.aggregate && g != env.original && env.maxRetries(g) <= 0
    requires env.pool == [] && env.eligible(1) == []
    requires env.outcome(0) == StreamFailed(false, false)
    ensures Execute(env, Start({g}, 0), g, 0).trace
         == [Attempt(g, StreamFailed(false, false)), BreakerOk(g), BreakerFail(g), FinalLog]
  {
    var s := Start({g}, 0);
    var t := AfterAttempt(env, s, g);
    ExecuteFails(env, s, g, 0, Final);
    FailSwitches(env, t, g, 0, false, false);
    assert Handover(env, t, g) == (None, 0);
    hide Execute, Fail;
  }
}
