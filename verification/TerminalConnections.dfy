/** The limit on web terminal sessions per user, project and cluster.  Checking the counter and
    increasing it are two critical sections, and a background task empties the counter map while
    sessions are open.  Handlers interleave between critical sections. */
module TerminalConnections {

  type Counters = map<string, int>

  function Count(active: Counters, key: string): int
  {
    if key in active then active[key] else 0
  }

  function Increased(active: Counters, key: string): Counters
  {
    active[key := Count(active, key) + 1]
  }

  /** Never below zero; a missing key is created with 0. */
  function Decreased(active: Counters, key: string): Counters
  {
    active[key := if Count(active, key) > 0 then Count(active, key) - 1 else Count(active, key)]
  }

  /** The counter map behind its mutex: each method is one critical section. */
  class Connections {
    var active: Counters

    constructor ()
      ensures active == map[]
    {
      active := map[];
    }

    method GetActiveConnections(key: string) returns (n: int)
      ensures n == Count(active, key)
    {
      n := if key in active then active[key] else 0;
    }

    method IncreaseActiveConnections(key: string)
      modifies this
      ensures active == Increased(old(active), key)
    {
      if key !in active {
        active := active[key := 0];
      }
      active := active[key := active[key] + 1];
    }

    method DecreaseActiveConnections(key: string)
      modifies this
      ensures active == Decreased(old(active), key)
    {
      if key !in active {
        active := active[key := 0];
      }
      if active[key] > 0 {
        active := active[key := active[key] - 1];
      }
    }

    method ReleaseMemory()
      modifies this
      ensures active == map[]
    {
      var keys := active.Keys;
      while keys != {}
        invariant active.Keys == keys
        decreases |keys|
      {
        var key :| key in keys;
        active := active - {key};
        keys := keys - {key};
      }
    }
  }

  // ----- the protocol -----

  datatype Phase = Checked | Holding

  datatype Handler = Handler(key: string, phase: Phase)

  /** Handlers that have not checked yet, were refused or are done are not in the map. */
  datatype State = State(active: Counters, handlers: map<nat, Handler>)

  datatype Step =
    | Check(id: nat, key: string)
    | Increase(id: nat)
    | Close(id: nat)
    | Release

  const START: State := State(map[], map[])

  function Next(s: State, step: Step, max: int): State
  {
    match step
    case Check(id, key) =>
      if id in s.handlers || Count(s.active, key) >= max then s
      else s.(handlers := s.handlers[id := Handler(key, Checked)])
    case Increase(id) =>
      if id in s.handlers && s.handlers[id].phase == Checked then
        State(Increased(s.active, s.handlers[id].key), s.handlers[id := s.handlers[id].(phase := Holding)])
      else s
    case Close(id) =>
      if id in s.handlers && s.handlers[id].phase == Holding then
        State(Decreased(s.active, s.handlers[id].key), s.handlers - {id})
      else s
    case Release => s.(active := map[])
  }

  function Run(steps: seq<Step>, max: int): State
  {
    if steps == [] then START else Next(Run(steps[..|steps| - 1], max), steps[|steps| - 1], max)
  }

  function InPhase(s: State, key: string, phase: Phase): set<nat>
  {
    set id | id in s.handlers && s.handlers[id] == Handler(key, phase)
  }

  /** The sessions of a key that are really open. */
  function Open(s: State, key: string): nat { |InPhase(s, key, Holding)| }

  /** The handlers of a key between their check and their increase. */
  function Between(s: State, key: string): nat { |InPhase(s, key, Checked)| }

  function Releases(steps: seq<Step>): nat
  {
    if steps == [] then 0
    else Releases(steps[..|steps| - 1]) + (if steps[|steps| - 1].Release? then 1 else 0)
  }

  /** At no point of the run are more than n handlers of the key between check and increase. */
  predicate OverlapAtMost(steps: seq<Step>, max: int, key: string, n: nat)
  {
    forall k :: 0 <= k <= |steps| ==> Between(Run(steps[..k], max), key) <= n
  }

  /** The handler of one request, running the protocol against the shared counters. */
  class Terminal {
    const max: int

    const connections: Connections
    ghost var handlers: map<nat, Handler>

    ghost function Now(): State
      reads this, connections
    {
      State(connections.active, handlers)
    }

    constructor (max: int)
      ensures this.max == max && fresh(connections) && Now() == START
    {
      this.max := max;
      connections := new Connections();
      handlers := map[];
    }

    method CheckLimit(ghost id: nat, key: string) returns (admitted: bool)
      requires id !in handlers
      modifies this
      ensures admitted <==> Count(connections.active, key) < max
      ensures Now() == Next(old(Now()), Check(id, key), max)
    {
      var n := connections.GetActiveConnections(key);
      admitted := n < max;
      if admitted {
        handlers := handlers[id := Handler(key, Checked)];
      }
    }

    method OpenSession(ghost id: nat, key: string)
      requires id in handlers && handlers[id] == Handler(key, Checked)
      modifies this, connections
      ensures Now() == Next(old(Now()), Increase(id), max)
    {
      connections.IncreaseActiveConnections(key);
      handlers := handlers[id := Handler(key, Holding)];
    }

    method CloseSession(ghost id: nat, key: string)
      requires id in handlers && handlers[id] == Handler(key, Holding)
      modifies this, connections
      ensures Now() == Next(old(Now()), Close(id), max)
    {
      connections.DecreaseActiveConnections(key);
      handlers := handlers - {id};
    }

    method Clean()
      modifies this, connections
      ensures Now() == Next(old(Now()), Release, max)
    {
      connections.ReleaseMemory();
    }
  }

  // ----- how a step changes the numbers of a key -----

  lemma PhaseAfterUpdate(s: State, id: nat, h: Handler, key: string, phase: Phase)
    requires id !in s.handlers || s.handlers[id] != h
    ensures var t := s.(handlers := s.handlers[id := h]);
            |InPhase(t, key, phase)| == |InPhase(s, key, phase)|
              + (if h == Handler(key, phase) then 1 else 0)
              - (if id in s.handlers && s.handlers[id] == Handler(key, phase) then 1 else 0)
  {
    var t := s.(handlers := s.handlers[id := h]);
    if h == Handler(key, phase) {
      assert InPhase(t, key, phase) == InPhase(s, key, phase) + {id};
    } else {
      assert InPhase(t, key, phase) == InPhase(s, key, phase) - {id};
    }
  }

  lemma PhaseAfterRemoval(s: State, id: nat, key: string, phase: Phase)
    requires id in s.handlers
    ensures var t := s.(handlers := s.handlers - {id});
            |InPhase(t, key, phase)| == |InPhase(s, key, phase)|
              - (if s.handlers[id] == Handler(key, phase) then 1 else 0)
  {
    var t := s.(handlers := s.handlers - {id});
    assert InPhase(t, key, phase) == InPhase(s, key, phase) - {id};
  }

  /** The numbers of one key: counter, open sessions, handlers in between. */
  datatype Numbers = Numbers(count: int, open: nat, between: nat)

  function NumbersOf(s: State, key: string): Numbers
  {
    Numbers(Count(s.active, key), Open(s, key), Between(s, key))
  }

  /** The moves of the numbers of one key; steps of other keys leave them alone. */
  predicate Moves(a: Numbers, b: Numbers, max: int, released: bool)
  {
    if released then b == a.(count := 0)
    else
      || b == a
      || (a.count < max && b == a.(between := a.between + 1))
      || (a.between > 0 && b == Numbers(a.count + 1, a.open + 1, a.between - 1))
      || (a.open > 0 && b == Numbers(if a.count > 0 then a.count - 1 else a.count, a.open - 1, a.between))
  }

  lemma SamePhases(s: State, t: State, key: string)
    requires s.handlers == t.handlers
    ensures Open(s, key) == Open(t, key) && Between(s, key) == Between(t, key)
  {
  }

  lemma StepMoves(s: State, step: Step, max: int, key: string)
    ensures Moves(NumbersOf(s, key), NumbersOf(Next(s, step, max), key), max, step.Release?)
  {
    match step
    case Check(id, k) =>
      if id !in s.handlers && Count(s.active, k) < max {
        PhaseAfterUpdate(s, id, Handler(k, Checked), key, Checked);
        PhaseAfterUpdate(s, id, Handler(k, Checked), key, Holding);
      }
    case Increase(id) =>
      if id in s.handlers && s.handlers[id].phase == Checked {
        var h := Handler(s.handlers[id].key, Holding);
        PhaseAfterUpdate(s, id, h, key, Checked);
        PhaseAfterUpdate(s, id, h, key, Holding);
        assert s.handlers[id].(phase := Holding) == h;
        SamePhases(Next(s, step, max), s.(handlers := s.handlers[id := h]), key);
      }
    case Close(id) =>
      if id in s.handlers && s.handlers[id].phase == Holding {
        PhaseAfterRemoval(s, id, key, Checked);
        PhaseAfterRemoval(s, id, key, Holding);
        SamePhases(Next(s, step, max), s.(handlers := s.handlers - {id}), key);
      }
    case Release =>
      SamePhases(Next(s, step, max), s, key);
  }

  // ----- safety over every run -----

  /** The counter is never negative and never above the sessions that are really open; so a key
      without open sessions counts 0. */
  lemma {:induction false} CounterNeverOverstates(steps: seq<Step>, max: int, key: string)
    ensures 0 <= Count(Run(steps, max).active, key) <= Open(Run(steps, max), key)
  {
    if steps != [] {
      CounterNeverOverstates(steps[..|steps| - 1], max, key);
      StepMoves(Run(steps[..|steps| - 1], max), steps[|steps| - 1], max, key);
    }
  }

  /** As long as the counters are not released, the counter is the number of open sessions. */
  lemma {:induction false} CounterIsExactWithoutRelease(steps: seq<Step>, max: int, key: string)
    requires Releases(steps) == 0
    ensures Count(Run(steps, max).active, key) == Open(Run(steps, max), key)
  {
    if steps != [] {
      CounterIsExactWithoutRelease(steps[..|steps| - 1], max, key);
      StepMoves(Run(steps[..|steps| - 1], max), steps[|steps| - 1], max, key);
    }
  }

  /** A request is refused only when at least max sessions really are open. */
  lemma RefusalMeansFull(steps: seq<Step>, max: int, id: nat, key: string)
    requires id !in Run(steps, max).handlers
    requires Run(steps + [Check(id, key)], max) == Run(steps, max)
    ensures Open(Run(steps, max), key) >= max
  {
    CounterNeverOverstates(steps, max, key);
    assert (steps + [Check(id, key)])[..|steps|] == steps;
  }

  /** The bound on the counter: the configured limit and the overlap beyond one handler. */
  function Bound(max: int, n: nat): nat
  {
    if max + n - 1 < 0 then 0 else max + n - 1
  }

  lemma OneMoreTimes(r: nat, b: nat)
    ensures (r + 1) * b == r * b + b
  {
  }

  /** The bounds that hold with at most n handlers in between at any time, after any run. */
  lemma {:induction false} BoundsHold(steps: seq<Step>, max: int, key: string, n: nat)
    requires OverlapAtMost(steps, max, key, n)
    ensures Count(Run(steps, max).active, key) + Between(Run(steps, max), key) <= Bound(max, n)
    ensures Open(Run(steps, max), key) - Count(Run(steps, max).active, key) <= Releases(steps) * Bound(max, n)
  {
    if steps != [] {
      var before := steps[..|steps| - 1];
      assert forall k :: 0 <= k <= |before| ==> before[..k] == steps[..k];
      assert steps[..|steps|] == steps;
      BoundsHold(before, max, key, n);
      CounterNeverOverstates(before, max, key);
      StepMoves(Run(before, max), steps[|steps| - 1], max, key);
      OneMoreTimes(Releases(before), Bound(max, n));
    }
  }

  /** With at most n handlers in between and R releases, at most (R + 1) * (max + n - 1) sessions are
      open and the counter is at most max + n - 1. */
  lemma OpenSessionsAreBounded(steps: seq<Step>, max: int, key: string, n: nat)
    requires OverlapAtMost(steps, max, key, n)
    ensures Count(Run(steps, max).active, key) <= Bound(max, n)
    ensures Open(Run(steps, max), key) <= (Releases(steps) + 1) * Bound(max, n)
  {
    BoundsHold(steps, max, key, n);
    OneMoreTimes(Releases(steps), Bound(max, n));
  }

  // ----- the bound is reached -----

  /** A run within the allowed overlap, with r releases and these numbers at its end. */
  ghost predicate Reaches(steps: seq<Step>, max: int, key: string, n: nat, r: nat, numbers: Numbers)
  {
    && NumbersOf(Run(steps, max), key) == numbers
    && OverlapAtMost(steps, max, key, n)
    && Releases(steps) == r
  }

  lemma {:induction false} AboveAll(ids: set<nat>) returns (bound: nat)
    ensures forall id :: id in ids ==> id < bound
  {
    bound := 0;
    if ids != {} {
      var id :| id in ids;
      var rest := AboveAll(ids - {id});
      bound := if id < rest then rest else id + 1;
      assert forall x :: x in ids ==> x == id || x in ids - {id};
    }
  }

  lemma OneMoreStep(steps: seq<Step>, step: Step, max: int, key: string, n: nat)
    requires OverlapAtMost(steps, max, key, n)
    requires Between(Next(Run(steps, max), step, max), key) <= n
    ensures Run(steps + [step], max) == Next(Run(steps, max), step, max)
    ensures OverlapAtMost(steps + [step], max, key, n)
    ensures Releases(steps + [step]) == Releases(steps) + (if step.Release? then 1 else 0)
  {
    var more := steps + [step];
    assert more[..|steps|] == steps;
    forall k | 0 <= k <= |more| ensures Between(Run(more[..k], max), key) <= n {
      if k <= |steps| {
        assert more[..k] == steps[..k];
      } else {
        assert more[..k] == more;
      }
    }
  }

  lemma CheckNext(steps: seq<Step>, max: int, key: string, n: nat, r: nat, now: Numbers) returns (more: seq<Step>)
    requires Reaches(steps, max, key, n, r, now) && now.count < max && now.between < n
    ensures Reaches(more, max, key, n, r, now.(between := now.between + 1))
  {
    var s := Run(steps, max);
    var id := AboveAll(s.handlers.Keys);
    PhaseAfterUpdate(s, id, Handler(key, Checked), key, Checked);
    PhaseAfterUpdate(s, id, Handler(key, Checked), key, Holding);
    OneMoreStep(steps, Check(id, key), max, key, n);
    more := steps + [Check(id, key)];
  }

  lemma IncreaseNext(steps: seq<Step>, max: int, key: string, n: nat, r: nat, now: Numbers) returns (more: seq<Step>)
    requires Reaches(steps, max, key, n, r, now) && 0 < now.between <= n
    ensures Reaches(more, max, key, n, r, Numbers(now.count + 1, now.open + 1, now.between - 1))
  {
    var s := Run(steps, max);
    assert InPhase(s, key, Checked) != {};
    var id :| id in InPhase(s, key, Checked);
    var h := Handler(key, Holding);
    PhaseAfterUpdate(s, id, h, key, Checked);
    PhaseAfterUpdate(s, id, h, key, Holding);
    SamePhases(Next(s, Increase(id), max), s.(handlers := s.handlers[id := h]), key);
    OneMoreStep(steps, Increase(id), max, key, n);
    more := steps + [Increase(id)];
  }

  lemma ReleaseNext(steps: seq<Step>, max: int, key: string, n: nat, r: nat, now: Numbers) returns (more: seq<Step>)
    requires Reaches(steps, max, key, n, r, now) && now.between <= n
    ensures Reaches(more, max, key, n, r + 1, now.(count := 0))
  {
    var s := Run(steps, max);
    SamePhases(Next(s, Release, max), s, key);
    OneMoreStep(steps, Release, max, key, n);
    more := steps + [Release];
  }

  /** Admitting i handlers one by one, as long as the counter is below the limit. */
  lemma {:induction false} AdmitOneByOne(steps: seq<Step>, max: int, key: string, n: nat, r: nat, now: Numbers, i: nat)
    returns (more: seq<Step>)
    requires n >= 1 && now.count + i <= max && now.between == 0 && Reaches(steps, max, key, n, r, now)
    ensures Reaches(more, max, key, n, r, Numbers(now.count + i, now.open + i, 0))
    decreases i
  {
    more := steps;
    if i > 0 {
      more := CheckNext(steps, max, key, n, r, now);
      more := IncreaseNext(more, max, key, n, r, now.(between := 1));
      more := AdmitOneByOne(more, max, key, n, r, Numbers(now.count + 1, now.open + 1, 0), i - 1);
    }
  }

  /** Several handlers check before any of them increases. */
  lemma {:induction false} CheckTogether(steps: seq<Step>, max: int, key: string, n: nat, r: nat, now: Numbers, c: nat)
    returns (more: seq<Step>)
    requires now.count < max && now.between == 0 && c <= n && Reaches(steps, max, key, n, r, now)
    ensures Reaches(more, max, key, n, r, now.(between := c))
    decreases c
  {
    more := steps;
    if c > 0 {
      more := CheckTogether(steps, max, key, n, r, now, c - 1);
      more := CheckNext(more, max, key, n, r, now.(between := c - 1));
    }
  }

  lemma {:induction false} IncreaseTogether(steps: seq<Step>, max: int, key: string, n: nat, r: nat, now: Numbers)
    returns (more: seq<Step>)
    requires now.between <= n && Reaches(steps, max, key, n, r, now)
    ensures Reaches(more, max, key, n, r, Numbers(now.count + now.between, now.open + now.between, 0))
    decreases now.between
  {
    more := steps;
    if now.between > 0 {
      more := IncreaseNext(steps, max, key, n, r, now);
      more := IncreaseTogether(more, max, key, n, r, Numbers(now.count + 1, now.open + 1, now.between - 1));
    }
  }

  /** One epoch: fill up to max - 1 one by one, let n handlers check together, let them all in. */
  lemma FillEpoch(steps: seq<Step>, max: int, key: string, n: nat, r: nat, open: nat) returns (more: seq<Step>)
    requires max >= 1 && n >= 1
    requires Reaches(steps, max, key, n, r, Numbers(0, open, 0))
    ensures Reaches(more, max, key, n, r, Numbers(Bound(max, n), open + Bound(max, n), 0))
  {
    more := AdmitOneByOne(steps, max, key, n, r, Numbers(0, open, 0), max - 1);
    more := CheckTogether(more, max, key, n, r, Numbers(max - 1, open + (max - 1), 0), n);
    more := IncreaseTogether(more, max, key, n, r, Numbers(max - 1, open + (max - 1), n));
  }

  /** The bounds cannot be improved: for every positive limit and overlap and every number of releases
      some run reaches them. */
  lemma {:induction false} BoundsAreReached(max: int, key: string, n: nat, r: nat) returns (steps: seq<Step>)
    requires max >= 1 && n >= 1
    ensures OverlapAtMost(steps, max, key, n) && Releases(steps) == r
    ensures Open(Run(steps, max), key) == (r + 1) * Bound(max, n)
    ensures Count(Run(steps, max).active, key) == Bound(max, n)
    ensures Between(Run(steps, max), key) == 0
    decreases r
  {
    var b := Bound(max, n);
    OneMoreTimes(r, b);
    if r == 0 {
      assert InPhase(START, key, Holding) == {} && InPhase(START, key, Checked) == {};
      assert Reaches([], max, key, n, 0, Numbers(0, 0, 0));
      steps := FillEpoch([], max, key, n, 0, 0);
    } else {
      steps := BoundsAreReached(max, key, n, r - 1);
      steps := ReleaseNext(steps, max, key, n, r - 1, Numbers(b, r * b, 0));
      steps := FillEpoch(steps, max, key, n, r, r * b);
    }
  }

  /** In every run with at most n handlers in between and r releases, no more than max sessions are
      open. */
  ghost predicate LimitHolds(max: int, key: string, n: nat, r: nat)
  {
    forall steps :: OverlapAtMost(steps, max, key, n) && Releases(steps) == r ==> Open(Run(steps, max), key) <= max
  }

  /** The configured limit is a limit if and only if handlers never overlap and nothing is released. */
  lemma LimitHoldsIff(max: int, key: string, n: nat, r: nat)
    requires max >= 1 && n >= 1
    ensures LimitHolds(max, key, n, r) <==> n == 1 && r == 0
  {
    if n == 1 && r == 0 {
      forall steps | OverlapAtMost(steps, max, key, n) && Releases(steps) == r
        ensures Open(Run(steps, max), key) <= max
      {
        OpenSessionsAreBounded(steps, max, key, n);
      }
    } else {
      var steps := BoundsAreReached(max, key, n, r);
      OneMoreTimes(r, Bound(max, n));
      assert r > 0 ==> r * Bound(max, n) >= 1;
      assert Open(Run(steps, max), key) > max;
    }
  }
}
