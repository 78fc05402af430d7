/** The webhook's bounded worker set (`internal/webhook/handler.go`): any number of requests hand their
    alerts to worker goroutines through one channel used as a semaphore, and drop what does not fit. */
module Admission {
  import opened Text

  /** Alert `index` of webhook request `request`. */
  datatype Job = Job(request: nat, index: nat)

  /** Where an alert is, once its request has got to it: its slot is taken but no goroutine runs yet; the
      goroutine exists; it is inside ProcessAlert; ProcessAlert has returned; the slot is given back; or
      it was dropped. */
  datatype Phase = Admitted | Spawned | Running | Returned | Released | Dropped

  /** A request inside `ServeHTTP`: it has settled `next` of its alerts, `spawning` when it has taken a
      slot for the next one. */
  datatype Request = Request(alerts: nat, next: nat, spawning: bool, answered: bool)

  /** `sem` is the channel's length, `calls` the calls of ProcessAlert in order, `dropped` the metric. */
  datatype State = State(sem: nat, requests: seq<Request>, phase: map<Job, Phase>, calls: seq<Job>, dropped: nat)

  datatype Action =
    | Arrive(alerts: nat)
    | Select(request: nat)
    | Spawn(request: nat)
    | Answer(request: nat)
    | Begin(job: Job)
    | Return(job: Job)
    | Release(job: Job)

  const START: State := State(0, [], map[], [], 0)

  predicate Handling(s: State, r: nat) { r < |s.requests| && !s.requests[r].answered }

  predicate InPhase(s: State, j: Job, p: Phase) { j in s.phase && s.phase[j] == p }

  predicate Enabled(s: State, a: Action) {
    match a
    case Arrive(_) => true
    case Select(r) => Handling(s, r) && !s.requests[r].spawning && s.requests[r].next < s.requests[r].alerts
    case Spawn(r) => Handling(s, r) && s.requests[r].spawning
    case Answer(r) => Handling(s, r) && !s.requests[r].spawning && s.requests[r].next == s.requests[r].alerts
    case Begin(j) => InPhase(s, j, Spawned)
    case Return(j) => InPhase(s, j, Running)
    case Release(j) => InPhase(s, j, Returned) && s.sem > 0
  }

  /** The alert a request is at. */
  function Current(s: State, r: nat): Job
    requires r < |s.requests|
  {
    Job(r, s.requests[r].next)
  }

  function Apply(capacity: nat, s: State, a: Action): State
    requires Enabled(s, a)
  {
    match a
    case Arrive(n) => s.(requests := s.requests + [Request(n, 0, false, false)])
    case Select(r) =>
      var q := s.requests[r];
      if s.sem < capacity then
        s.(sem := s.sem + 1, phase := s.phase[Current(s, r) := Admitted], requests := s.requests[r := q.(spawning := true)])
      else
        s.(dropped := s.dropped + 1, phase := s.phase[Current(s, r) := Dropped], requests := s.requests[r := q.(next := q.next + 1)])
    case Spawn(r) =>
      var q := s.requests[r];
      s.(phase := s.phase[Current(s, r) := Spawned], requests := s.requests[r := q.(next := q.next + 1, spawning := false)])
    case Answer(r) => s.(requests := s.requests[r := s.requests[r].(answered := true)])
    case Begin(j) => s.(phase := s.phase[j := Running], calls := s.calls + [j])
    case Return(j) => s.(phase := s.phase[j := Returned])
    case Release(j) => s.(phase := s.phase[j := Released], sem := s.sem - 1)
  }

  predicate Feasible(capacity: nat, s: State, acts: seq<Action>)
    decreases |acts|
  {
    acts == [] || (Enabled(s, acts[0]) && Feasible(capacity, Apply(capacity, s, acts[0]), acts[1..]))
  }

  function Exec(capacity: nat, s: State, acts: seq<Action>): State
    requires Feasible(capacity, s, acts)
    decreases |acts|
  {
    if acts == [] then s else Exec(capacity, Apply(capacity, s, acts[0]), acts[1..])
  }

  // ---------------------------------------------------------------------
  // Counting alerts by phase

  /** Does an alert in this phase hold a slot? */
  predicate Holds(p: Phase) { !p.Released? && !p.Dropped? }

  predicate IsReleased(p: Phase) { p.Released? }

  predicate IsDropped(p: Phase) { p.Dropped? }

  ghost function Those(phase: map<Job, Phase>, such: Phase -> bool): set<Job> { set j | j in phase && such(phase[j]) }

  /** The alerts that are being worked on. */
  ghost function InFlight(s: State): set<Job> { Those(s.phase, Holds) }

  ghost function Finished(s: State): set<Job> { Those(s.phase, IsReleased) }

  ghost function Lost(s: State): set<Job> { Those(s.phase, IsDropped) }

  /** How many alerts the requests have got to. */
  function Reached(q: Request): nat { q.next + if q.spawning then 1 else 0 }

  function Received(requests: seq<Request>): nat {
    if requests == [] then 0 else Received(requests[..|requests| - 1]) + Reached(requests[|requests| - 1])
  }

  lemma Recount(phase: map<Job, Phase>, j: Job, p: Phase, such: Phase -> bool)
    ensures |Those(phase[j := p], such)| ==
            |Those(phase, such)| - (if j in phase && such(phase[j]) then 1 else 0) + (if such(p) then 1 else 0)
  {
    var before, after := Those(phase, such), Those(phase[j := p], such);
    var rest := before - {j};
    assert after == if such(p) then rest + {j} else rest;
    assert before == if j in phase && such(phase[j]) then rest + {j} else rest;
  }

  lemma {:induction false} ReceivedUpdate(requests: seq<Request>, r: nat, q: Request)
    requires r < |requests|
    ensures Received(requests[r := q]) == Received(requests) - Reached(requests[r]) + Reached(q)
  {
    var n := |requests| - 1;
    if r < n {
      ReceivedUpdate(requests[..n], r, q);
      assert requests[r := q][..n] == requests[..n][r := q];
    } else {
      assert requests[r := q][..n] == requests[..n];
    }
  }

  // ---------------------------------------------------------------------
  // The invariant

  /** Slots and counters agree with the phases. */
  ghost predicate Balanced(capacity: nat, s: State) {
    && s.sem == |InFlight(s)| <= capacity
    && s.dropped == |Lost(s)|
    && |s.phase| == Received(s.requests)
  }

  /** The alerts that have a phase are those the requests have got to, and a slot without a goroutine
      belongs to a request that is about to start one. */
  ghost predicate Placed(s: State) {
    && (forall r :: 0 <= r < |s.requests| ==> Reached(s.requests[r]) <= s.requests[r].alerts)
    && (forall r :: 0 <= r < |s.requests| ==> s.requests[r].answered ==> s.requests[r].next == s.requests[r].alerts)
    && (forall j :: j in s.phase <==> j.request < |s.requests| && j.index < Reached(s.requests[j.request]))
    && (forall j :: j in s.phase ==>
          (s.phase[j].Admitted? <==> s.requests[j.request].spawning && j.index == s.requests[j.request].next))
  }

  predicate Started(p: Phase) { p.Running? || p.Returned? || p.Released? }

  /** The calls of ProcessAlert are the started alerts, each once. */
  ghost predicate Once(s: State) {
    && (forall i, k :: 0 <= i < k < |s.calls| ==> s.calls[i] != s.calls[k])
    && (forall j :: j in s.calls <==> j in s.phase && Started(s.phase[j]))
  }

  ghost predicate Inv(capacity: nat, s: State) { Balanced(capacity, s) && Placed(s) && Once(s) }

  lemma WorkerBalanced(capacity: nat, s: State, a: Action)
    requires Balanced(capacity, s) && Enabled(s, a) && (a.Begin? || a.Return? || a.Release?)
    ensures Balanced(capacity, Apply(capacity, s, a))
  {
    var t := Apply(capacity, s, a);
    Recount(s.phase, a.job, t.phase[a.job], Holds);
    Recount(s.phase, a.job, t.phase[a.job], IsDropped);
    assert t.phase.Keys == s.phase.Keys;
  }

  lemma WorkerPlaced(capacity: nat, s: State, a: Action)
    requires Placed(s) && Enabled(s, a) && (a.Begin? || a.Return? || a.Release?)
    ensures Placed(Apply(capacity, s, a))
  {
  }

  lemma SelectTakes(capacity: nat, s: State, r: nat)
    requires Balanced(capacity, s) && Enabled(s, Select(r)) && Current(s, r) !in s.phase && s.sem < capacity
    ensures Balanced(capacity, Apply(capacity, s, Select(r)))
  {
    var j := Current(s, r);
    Recount(s.phase, j, Admitted, Holds);
    Recount(s.phase, j, Admitted, IsDropped);
    assert s.phase[j := Admitted].Keys == s.phase.Keys + {j};
    ReceivedUpdate(s.requests, r, s.requests[r].(spawning := true));
  }

  lemma SelectDrops(capacity: nat, s: State, r: nat)
    requires Balanced(capacity, s) && Enabled(s, Select(r)) && Current(s, r) !in s.phase && s.sem >= capacity
    ensures Balanced(capacity, Apply(capacity, s, Select(r)))
  {
    var j, q := Current(s, r), s.requests[r];
    Recount(s.phase, j, Dropped, Holds);
    Recount(s.phase, j, Dropped, IsDropped);
    assert s.phase[j := Dropped].Keys == s.phase.Keys + {j};
    ReceivedUpdate(s.requests, r, q.(next := q.next + 1));
  }

  lemma SpawnStep(capacity: nat, s: State, r: nat)
    requires Balanced(capacity, s) && Placed(s) && Enabled(s, Spawn(r))
    ensures Balanced(capacity, Apply(capacity, s, Spawn(r)))
  {
    var t, j := Apply(capacity, s, Spawn(r)), Current(s, r);
    Recount(s.phase, j, Spawned, Holds);
    Recount(s.phase, j, Spawned, IsDropped);
    assert j in s.phase && t.phase.Keys == s.phase.Keys;
    ReceivedUpdate(s.requests, r, t.requests[r]);
  }

  lemma TakenPlaced(capacity: nat, s: State, r: nat)
    requires Placed(s) && Enabled(s, Select(r)) && s.sem < capacity
    ensures Placed(Apply(capacity, s, Select(r)))
  {
  }

  lemma DroppedPlaced(capacity: nat, s: State, r: nat)
    requires Placed(s) && Enabled(s, Select(r)) && s.sem >= capacity
    ensures Placed(Apply(capacity, s, Select(r)))
  {
  }

  lemma SpawnPlaced(capacity: nat, s: State, r: nat)
    requires Placed(s) && Enabled(s, Spawn(r))
    ensures Placed(Apply(capacity, s, Spawn(r)))
  {
  }

  lemma ArriveStep(capacity: nat, s: State, n: nat)
    requires Balanced(capacity, s) && Placed(s)
    ensures Balanced(capacity, Apply(capacity, s, Arrive(n))) && Placed(Apply(capacity, s, Arrive(n)))
  {
    var t := Apply(capacity, s, Arrive(n));
    assert t.requests[..|t.requests| - 1] == s.requests;
  }

  lemma AnswerStep(capacity: nat, s: State, r: nat)
    requires Balanced(capacity, s) && Placed(s) && Enabled(s, Answer(r))
    ensures Balanced(capacity, Apply(capacity, s, Answer(r))) && Placed(Apply(capacity, s, Answer(r)))
  {
    ReceivedUpdate(s.requests, r, Apply(capacity, s, Answer(r)).requests[r]);
  }

  lemma OnceStep(capacity: nat, s: State, a: Action)
    requires Placed(s) && Once(s) && Enabled(s, a)
    ensures Once(Apply(capacity, s, a))
  {
  }

  lemma ApplyInv(capacity: nat, s: State, a: Action)
    requires Inv(capacity, s) && Enabled(s, a)
    ensures Inv(capacity, Apply(capacity, s, a))
  {
    OnceStep(capacity, s, a);
    match a
    case Arrive(n) => ArriveStep(capacity, s, n);
    case Answer(r) => AnswerStep(capacity, s, r);
    case Select(r) =>
      if s.sem < capacity {
        TakenPlaced(capacity, s, r);
        SelectTakes(capacity, s, r);
      } else {
        DroppedPlaced(capacity, s, r);
        SelectDrops(capacity, s, r);
      }
    case Spawn(r) =>
      SpawnPlaced(capacity, s, r);
      SpawnStep(capacity, s, r);
    case _ =>
      WorkerPlaced(capacity, s, a);
      WorkerBalanced(capacity, s, a);
  }

  lemma {:induction false} ExecInv(capacity: nat, s: State, acts: seq<Action>)
    requires Inv(capacity, s) && Feasible(capacity, s, acts)
    ensures Inv(capacity, Exec(capacity, s, acts))
    decreases |acts|
  {
    if acts != [] {
      ApplyInv(capacity, s, acts[0]);
      ExecInv(capacity, Apply(capacity, s, acts[0]), acts[1..]);
    }
  }

  // ---------------------------------------------------------------------
  // What holds in every reachable state

  /** Every alert a request has got to is dropped, being worked on or finished, and nothing else. */
  lemma EveryAlertSomewhere(phase: map<Job, Phase>)
    ensures |phase| == |Those(phase, IsDropped)| + |Those(phase, Holds)| + |Those(phase, IsReleased)|
  {
    var lost, flying, done := Those(phase, IsDropped), Those(phase, Holds), Those(phase, IsReleased);
    assert phase.Keys == lost + flying + done;
    assert lost !! flying && (lost + flying) !! done;
    assert |phase| == |phase.Keys|;
  }

  /** For every interleaving: the alerts in flight are exactly as many as the occupied slots and never
      more than the capacity; received is dropped plus in flight plus finished; and no alert is handed to
      ProcessAlert twice, or without having been received. */
  lemma Bounded(capacity: nat, acts: seq<Action>)
    requires Feasible(capacity, START, acts)
    ensures var s := Exec(capacity, START, acts);
            && |InFlight(s)| == s.sem <= capacity
            && Received(s.requests) == s.dropped + |InFlight(s)| + |Finished(s)|
            && (forall i, k :: 0 <= i < k < |s.calls| ==> s.calls[i] != s.calls[k])
            && (forall j :: j in s.calls ==> j.request < |s.requests| && j.index < s.requests[j.request].alerts && !InPhase(s, j, Dropped))
  {
    var s := Exec(capacity, START, acts);
    assert Inv(capacity, START);
    ExecInv(capacity, START, acts);
    EveryAlertSomewhere(s.phase);
  }

  /** Once every request is answered and every worker is done, each alert has been either dropped or
      processed, exactly once. */
  lemma Settled(capacity: nat, acts: seq<Action>)
    requires Feasible(capacity, START, acts)
    requires var s := Exec(capacity, START, acts);
             s.sem == 0 && forall r :: 0 <= r < |s.requests| ==> s.requests[r].answered
    ensures var s := Exec(capacity, START, acts);
            forall r, i :: 0 <= r < |s.requests| && 0 <= i < s.requests[r].alerts ==>
              (Job(r, i) in s.calls <==> !InPhase(s, Job(r, i), Dropped))
  {
    var s := Exec(capacity, START, acts);
    assert Inv(capacity, START);
    ExecInv(capacity, START, acts);
    forall r, i | 0 <= r < |s.requests| && 0 <= i < s.requests[r].alerts
      ensures Job(r, i) in s.calls <==> !InPhase(s, Job(r, i), Dropped)
    {
      SettledJob(capacity, s, Job(r, i));
    }
  }

  lemma SettledJob(capacity: nat, s: State, j: Job)
    requires Inv(capacity, s) && s.sem == 0
    requires j.request < |s.requests| && s.requests[j.request].answered && j.index < s.requests[j.request].alerts
    ensures j in s.calls <==> !InPhase(s, j, Dropped)
  {
    assert j in s.phase;
    assert j !in InFlight(s);
  }

  /** An alert is dropped exactly when as many alerts as the capacity allows are in flight. */
  lemma DroppedOnlyWhenFull(capacity: nat, acts: seq<Action>, r: nat)
    requires Feasible(capacity, START, acts) && Enabled(Exec(capacity, START, acts), Select(r))
    ensures var s := Exec(capacity, START, acts);
            InPhase(Apply(capacity, s, Select(r)), Current(s, r), Dropped) <==> |InFlight(s)| == capacity
  {
    assert Inv(capacity, START);
    ExecInv(capacity, START, acts);
  }

  /** Giving a slot back never blocks: the channel always holds the worker's token. */
  lemma ReleaseNeverBlocks(capacity: nat, acts: seq<Action>, j: Job)
    requires Feasible(capacity, START, acts) && InPhase(Exec(capacity, START, acts), j, Returned)
    ensures Enabled(Exec(capacity, START, acts), Release(j))
  {
    assert Inv(capacity, START);
    ExecInv(capacity, START, acts);
    assert j in InFlight(Exec(capacity, START, acts));
  }

  // ---------------------------------------------------------------------
  // Admission never waits

  /** The step a request takes next by itself. */
  function Own(s: State, r: nat): Action
    requires Handling(s, r)
  {
    var q := s.requests[r];
    if q.spawning then Spawn(r) else if q.next < q.alerts then Select(r) else Answer(r)
  }

  predicate IsOwn(a: Action, r: nat) { (a.Select? || a.Spawn? || a.Answer?) && a.request == r }

  /** The steps a request may still have to take. */
  function Owed(s: State, r: nat): int
    requires r < |s.requests|
  {
    var q := s.requests[r];
    2 * (q.alerts - q.next) + (if q.answered then 0 else 1) - if q.spawning then 1 else 0
  }

  function OwnSteps(acts: seq<Action>, r: nat): nat {
    if acts == [] then 0 else (if IsOwn(acts[0], r) then 1 else 0) + OwnSteps(acts[1..], r)
  }

  lemma OwedStep(capacity: nat, s: State, a: Action, r: nat)
    requires Inv(capacity, s) && r < |s.requests| && Enabled(s, a)
    ensures var t := Apply(capacity, s, a);
            && r < |t.requests| && Owed(t, r) <= Owed(s, r) - if IsOwn(a, r) then 1 else 0
  {
  }

  lemma {:induction false} OwedRun(capacity: nat, s: State, acts: seq<Action>, r: nat)
    requires Inv(capacity, s) && Feasible(capacity, s, acts) && r < |s.requests|
    ensures var t := Exec(capacity, s, acts); r < |t.requests| && Owed(t, r) + OwnSteps(acts, r) <= Owed(s, r)
    decreases |acts|
  {
    if acts != [] {
      OwedStep(capacity, s, acts[0], r);
      ApplyInv(capacity, s, acts[0]);
      OwedRun(capacity, Apply(capacity, s, acts[0]), acts[1..], r);
    }
  }

  /** In every reachable state, whatever the workers and the other requests are doing, a request that is
      not answered has a step of its own it can take at once, and after at most two such steps for each
      alert that is left and one more it is answered. */
  lemma NeverWaits(capacity: nat, acts: seq<Action>, more: seq<Action>, r: nat)
    requires Feasible(capacity, START, acts) && Handling(Exec(capacity, START, acts), r)
    requires Feasible(capacity, Exec(capacity, START, acts), more)
    ensures var s := Exec(capacity, START, acts);
            && Enabled(s, Own(s, r)) && IsOwn(Own(s, r), r)
            && OwnSteps(more, r) <= 2 * (s.requests[r].alerts - s.requests[r].next) + 1
            && (OwnSteps(more, r) >= Owed(s, r) ==> !Handling(Exec(capacity, s, more), r))
  {
    var s := Exec(capacity, START, acts);
    assert Inv(capacity, START);
    ExecInv(capacity, START, acts);
    ExecInv(capacity, s, more);
    OwedRun(capacity, s, more, r);
  }

  // ---------------------------------------------------------------------
  // The object

  /** `t` is where the run `acts` from `s` ends. */
  ghost predicate Ran(capacity: nat, s: State, acts: seq<Action>, t: State) {
    Feasible(capacity, s, acts) && Exec(capacity, s, acts) == t
  }

  lemma {:induction false} Extend(capacity: nat, s: State, acts: seq<Action>, t: State, a: Action)
    requires Ran(capacity, s, acts, t) && Enabled(t, a)
    ensures Ran(capacity, s, acts + [a], Apply(capacity, t, a))
    decreases |acts|
  {
    var all := acts + [a];
    if acts == [] {
      assert all[1..] == [];
    } else {
      assert all[0] == acts[0] && all[1..] == acts[1..] + [a];
      Extend(capacity, Apply(capacity, s, acts[0]), acts[1..], t, a);
    }
  }

  /** The limit `NewHandler` settles on. */
  function Capacity(maxConcurrent: int): nat { if maxConcurrent <= 0 then 50 else maxConcurrent }

  class Handler {
    const capacity: nat
    /** The channel, the workers and the counters, which all goroutines share. */
    var state: State
    /** All the steps so far, of every goroutine. */
    ghost var run: seq<Action>

    /** The state comes from a run of the step system, so that all that holds of every run holds of it. */
    ghost predicate Valid()
      reads this
    {
      Ran(capacity, START, run, state)
    }

    /** `NewHandler` */
    constructor (maxConcurrent: int)
      ensures Valid() && capacity == (if maxConcurrent <= 0 then 50 else maxConcurrent) && state == START
    {
      capacity := Capacity(maxConcurrent);
      state, run := START, [];
    }

    /** One step of some goroutine. */
    method Do(a: Action)
      requires Valid() && Enabled(state, a)
      modifies this
      ensures Valid() && state == Apply(capacity, old(state), a) && run == old(run) + [a]
    {
      Extend(capacity, START, run, state, a);
      state, run := Apply(capacity, state, a), run + [a];
    }

    /** Other goroutines run between two steps of request `r`; a listed step that cannot be taken is
        passed over. */
    method LetOthersRun(r: nat, acts: seq<Action>)
      requires Valid() && r < |state.requests|
      modifies this
      ensures Valid() && old(run) <= run && r < |state.requests| && state.requests[r] == old(state).requests[r]
    {
      for i := 0 to |acts|
        invariant Valid() && old(run) <= run && r < |state.requests| && state.requests[r] == old(state).requests[r]
      {
        if Enabled(state, acts[i]) && !IsOwn(acts[i], r) { Do(acts[i]); }
      }
    }

    /** One turn of the loop: take a slot and start a worker, or drop the alert. */
    method Settle(r: nat, before: seq<Action>, between: seq<Action>)
      requires Valid() && Enabled(state, Select(r))
      modifies this
      ensures Valid() && old(run) <= run && r < |state.requests|
      ensures var q := old(state).requests[r]; state.requests[r] == q.(next := q.next + 1)
    {
      LetOthersRun(r, before);
      Do(Select(r));
      if state.requests[r].spawning {
        LetOthersRun(r, between);
        Do(Spawn(r));
      }
    }

    /** `ServeHTTP` for a request whose body, if it can be read and parsed, lists `alerts` alerts, with
        the other goroutines running as `others` says: a request that is not a POST with such a body
        changes nothing; any other is answered 200 with all its alerts settled. */
    method ServeHTTP(post: bool, alerts: Option<nat>, others: nat -> seq<Action>) returns (status: int)
      requires Valid()
      modifies this
      ensures Valid() && old(run) <= run
      ensures status == if !post then 405 else if alerts.None? then 400 else 200
      ensures status != 200 ==> state == old(state)
      ensures var r := |old(state).requests|;
              status == 200 ==> r < |state.requests| && state.requests[r] == Request(alerts.value, alerts.value, false, true)
    {
      if !post { return 405; }
      if alerts.None? { return 400; }
      var r, n := |state.requests|, alerts.value;
      Do(Arrive(n));
      for k := 0 to n
        invariant Valid() && old(run) <= run && r < |state.requests| && state.requests[r] == Request(n, k, false, false)
      {
        Settle(r, others(2 * k), others(2 * k + 1));
      }
      Do(Answer(r));
      return 200;
    }
  }
}
