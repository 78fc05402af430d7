/** Hot reload of the client keypair while the renewal job rotates the files
    (`internal/auth/reloader.go` against `WriteMaterial` of `internal/auth/keypair.go`).

    Any number of handshakes run `GetClientCertificate` at once.  Each of their steps -- a stat, a file
    read, a load or a store of the shared cache -- is one action here, and a run is any interleaving
    of such actions with those of the writer. */
module Reloader {
  import opened Text

  type Time = nat

  /** Which rotation wrote a file; certificate and key belong together when their generations agree. */
  type Gen = nat

  datatype CertState = CertState(cert: Gen, key: Gen, mtime: Time)

  datatype Why = FirstStat | SecondStat | KeyPair

  datatype Outcome = Served(cert: Gen, key: Gen) | Failed(why: Why)

  /** Where a call stands: what it has seen so far and what it does next. */
  datatype Pc =
    | Start                            // first stat
    | StatFailed                       // load the cache, or fail
    | Seen(mtime: Time)                // load the cache and compare
    | Loading                          // second stat
    | Loading2(mtime: Time)            // read the certificate file
    | HaveCert(mtime: Time, cert: Gen) // read the key file
    | HavePair(mtime: Time, cert: Gen, key: Gen) // store to the cache
    | PairFailed                       // load the cache, or fail
    | Done(outcome: Outcome)

  type Id = nat

  /** `times[g]` is the mtime the certificate file got with generation `g`; the file now holds the last
      one.  `key` is the generation of the key file. */
  datatype State = State(times: seq<Time>, key: Gen, cached: Option<CertState>, calls: map<Id, Pc>)

  datatype Action =
    | RenameCert(mtime: Time)          // the writer moves a new certificate into place
    | RenameKey                        // and then the key that belongs to it
    | Call(id: Id)                     // GetClientCertificate
    | Preload(id: Id)                  // load, called by NewClientReloader
    | Step(id: Id, ok: bool)           // next step of a call; ok is the result of its file access

  predicate Sane(s: State) { |s.times| > 0 }

  function CertGen(s: State): Gen
    requires Sane(s)
  {
    |s.times| - 1
  }

  function CertTime(s: State): Time
    requires Sane(s)
  {
    s.times[|s.times| - 1]
  }

  predicate Enabled(s: State, a: Action) {
    Sane(s) &&
    match a
    case RenameCert(_) => true
    case RenameKey => s.key != CertGen(s)
    case Call(id) => id !in s.calls
    case Preload(id) => id !in s.calls
    case Step(id, ok) => id in s.calls && !s.calls[id].Done?
  }

  function ServeCached(s: State, why: Why): Pc {
    match s.cached
    case Some(c) => Done(Served(c.cert, c.key))
    case None => Done(Failed(why))
  }

  /** The next position of a call that stands at `pc`. */
  function NextPc(s: State, pc: Pc, ok: bool): Pc
    requires Sane(s) && !pc.Done?
  {
    match pc
    case Start => if ok then Seen(CertTime(s)) else StatFailed
    case StatFailed => ServeCached(s, FirstStat)
    case Seen(m) =>
      if s.cached.Some? && !(m > s.cached.value.mtime) then ServeCached(s, FirstStat) else Loading
    case Loading => if ok then Loading2(CertTime(s)) else Done(Failed(SecondStat))
    case Loading2(m) => if ok then HaveCert(m, CertGen(s)) else PairFailed
    case HaveCert(m, c) => if ok && s.key == c then HavePair(m, c, s.key) else PairFailed
    case HavePair(m, c, k) => Done(Served(c, k))
    case PairFailed => ServeCached(s, KeyPair)
  }

  function Apply(s: State, a: Action): State
    requires Enabled(s, a)
  {
    match a
    case RenameCert(t) => s.(times := s.times + [t])
    case RenameKey => s.(key := CertGen(s))
    case Call(id) => s.(calls := s.calls[id := Start])
    case Preload(id) => s.(calls := s.calls[id := Loading])
    case Step(id, ok) =>
      var pc := s.calls[id];
      State(s.times, s.key,
            if pc.HavePair? then Some(CertState(pc.cert, pc.key, pc.mtime)) else s.cached,
            s.calls[id := NextPc(s, pc, ok)])
  }

  predicate Feasible(s: State, acts: seq<Action>)
    decreases |acts|
  {
    acts == [] || (Enabled(s, acts[0]) && Feasible(Apply(s, acts[0]), acts[1..]))
  }

  function Exec(s: State, acts: seq<Action>): (t: State)
    requires Feasible(s, acts)
    ensures Sane(s) ==> Sane(t)
    decreases |acts|
  {
    if acts == [] then s else Exec(Apply(s, acts[0]), acts[1..])
  }

  /** `t` is where the run `acts` from `s` ends. */
  ghost predicate Ran(s: State, acts: seq<Action>, t: State) { Feasible(s, acts) && Exec(s, acts) == t }

  lemma {:induction false} Extend(s: State, acts: seq<Action>, t: State, a: Action)
    requires Ran(s, acts, t) && Enabled(t, a)
    ensures Ran(s, acts + [a], Apply(t, a))
    decreases |acts|
  {
    var all := acts + [a];
    if acts == [] {
      assert all[1..] == [];
    } else {
      assert all[0] == acts[0] && all[1..] == acts[1..] + [a];
      Extend(Apply(s, acts[0]), acts[1..], t, a);
    }
  }

  /** One more step at the end of a run in two parts. */
  lemma Further(s: State, first: seq<Action>, acts: seq<Action>, t: State, a: Action) returns (more: seq<Action>, t': State)
    requires Ran(s, first + acts, t) && Enabled(t, a)
    ensures more == acts + [a] && t' == Apply(t, a) && Ran(s, first + more, t')
  {
    Extend(s, first + acts, t, a);
    more, t' := acts + [a], Apply(t, a);
    assert first + acts + [a] == first + more;
  }

  // ---------------------------------------------------------------------
  // What every reachable state satisfies

  /** A certificate generation, and an mtime that the file had with it or earlier. */
  ghost predicate Backed(s: State, cert: Gen, mtime: Time) {
    cert < |s.times| && exists g :: 0 <= g <= cert && s.times[g] == mtime
  }

  ghost predicate PcInv(s: State, pc: Pc)
    requires Sane(s)
  {
    match pc
    case Seen(m) => Backed(s, CertGen(s), m)
    case Loading2(m) => Backed(s, CertGen(s), m)
    case HaveCert(m, c) => Backed(s, c, m)
    case HavePair(m, c, k) => Backed(s, c, m) && k == c
    case Done(Served(c, k)) => c < |s.times| && k == c
    case _ => true
  }

  /** The cached pair is a matched one, recorded with an mtime of its own certificate or an earlier one; so
      is every pair a call is about to store, and what a call has been served is matched. */
  ghost predicate Inv(s: State) {
    && Sane(s)
    && s.key < |s.times|
    && (s.cached.Some? ==> s.cached.value.key == s.cached.value.cert && Backed(s, s.cached.value.cert, s.cached.value.mtime))
    && (forall id :: id in s.calls ==> PcInv(s, s.calls[id]))
  }

  predicate Initial(s: State) {
    |s.times| == 1 && s.key == 0 && s.cached.None? && s.calls == map[]
  }

  lemma InitialInv(s: State)
    requires Initial(s)
    ensures Inv(s)
  {
  }

  lemma NextPcInv(s: State, pc: Pc, ok: bool)
    requires Inv(s) && !pc.Done? && PcInv(s, pc)
    ensures PcInv(s, NextPc(s, pc, ok))
  {
  }

  lemma BackedStays(s: State, s': State, cert: Gen, mtime: Time)
    requires s.times <= s'.times && Backed(s, cert, mtime)
    ensures Backed(s', cert, mtime)
    ensures Sane(s) && cert == CertGen(s) ==> Backed(s', CertGen(s'), mtime)
  {
    var g :| 0 <= g <= cert && s.times[g] == mtime;
    assert s'.times[g] == mtime;
  }

  lemma PcInvStays(s: State, s': State, pc: Pc)
    requires Sane(s) && s.times <= s'.times && PcInv(s, pc)
    ensures PcInv(s', pc)
  {
    match pc
    case Seen(m) => BackedStays(s, s', CertGen(s), m);
    case Loading2(m) => BackedStays(s, s', CertGen(s), m);
    case HaveCert(m, c) => BackedStays(s, s', c, m);
    case HavePair(m, c, k) => BackedStays(s, s', c, m);
    case _ =>
  }

  /** Every action of every party keeps the invariant. */
  lemma ApplyInv(s: State, a: Action)
    requires Inv(s) && Enabled(s, a)
    ensures Inv(Apply(s, a))
  {
    var s' := Apply(s, a);
    if s.cached.Some? { BackedStays(s, s', s.cached.value.cert, s.cached.value.mtime); }
    if a.Step? { NextPcInv(s, s.calls[a.id], a.ok); }
    forall id | id in s'.calls ensures PcInv(s', s'.calls[id]) {
      if a.Step? && a.id == id {
        PcInvStays(s, s', s'.calls[id]);
      } else if id in s.calls {
        PcInvStays(s, s', s.calls[id]);
      }
    }
  }

  lemma {:induction false} ExecInv(s: State, acts: seq<Action>)
    requires Inv(s) && Feasible(s, acts)
    ensures Inv(Exec(s, acts))
    decreases |acts|
  {
    if acts != [] {
      ApplyInv(s, acts[0]);
      ExecInv(Apply(s, acts[0]), acts[1..]);
    }
  }

  /** The mtimes never go back. */
  predicate Rising(times: seq<Time>) { forall i, j :: 0 <= i <= j < |times| ==> times[i] <= times[j] }

  /** Under every interleaving: the cache, once filled, holds a matched pair, whatever a call was served is a
      matched pair, and if the mtimes never go back, the recorded mtime is at most that of the certificate. */
  lemma ReachableIsMatched(s: State, acts: seq<Action>)
    requires Initial(s) && Feasible(s, acts)
    ensures var t := Exec(s, acts);
            && (t.cached.Some? ==>
                  var c := t.cached.value;
                  c.key == c.cert && c.cert < |t.times| && (Rising(t.times) ==> c.mtime <= t.times[c.cert]))
            && (forall id :: id in t.calls && t.calls[id].Done? && t.calls[id].outcome.Served? ==>
                  t.calls[id].outcome.key == t.calls[id].outcome.cert)
  {
    InitialInv(s);
    ExecInv(s, acts);
    var t := Exec(s, acts);
    forall id | id in t.calls && t.calls[id].Done? && t.calls[id].outcome.Served?
      ensures t.calls[id].outcome.key == t.calls[id].outcome.cert
    {
      assert PcInv(t, t.calls[id]);
    }
  }

  // ---------------------------------------------------------------------
  // A call that starts after a rotation serves the new certificate

  /** The disk is left alone and the file accesses of call `id` succeed. */
  predicate QuietFor(id: Id, acts: seq<Action>) {
    forall i :: 0 <= i < |acts| ==>
      !acts[i].RenameCert? && !acts[i].RenameKey? && (acts[i].Step? && acts[i].id == id ==> acts[i].ok)
  }

  /** A call on the way to the current pair: nothing it has seen is older than the disk. */
  predicate OnTrack(s: State, pc: Pc)
    requires Sane(s)
  {
    match pc
    case Start => true
    case Seen(m) => m == CertTime(s)
    case Loading => true
    case Loading2(m) => m == CertTime(s)
    case HaveCert(m, c) => c == CertGen(s)
    case HavePair(m, c, k) => c == k == CertGen(s)
    case Done(o) => o == Served(CertGen(s), CertGen(s))
    case _ => false
  }

  /** A pair that is not the one on the disk but was recorded with an mtime that reaches the disk's. */
  predicate Outdated(s: State, cert: Gen, mtime: Time)
    requires Sane(s)
  {
    cert != CertGen(s) && CertTime(s) <= mtime
  }

  /** Such a pair is cached, or a call is about to store one. */
  ghost predicate Deceptive(s: State)
    requires Sane(s)
  {
    || (s.cached.Some? && Outdated(s, s.cached.value.cert, s.cached.value.mtime))
    || (exists id :: id in s.calls && s.calls[id].HavePair? && Outdated(s, s.calls[id].cert, s.calls[id].mtime))
  }

  lemma QuietStep(s: State, a: Action, id: Id)
    requires Inv(s) && Enabled(s, a) && s.key == CertGen(s) && !Deceptive(s) && QuietFor(id, [a])
    requires id in s.calls && OnTrack(s, s.calls[id])
    ensures var t := Apply(s, a);
            t.times == s.times && t.key == s.key && !Deceptive(t) && id in t.calls && OnTrack(t, t.calls[id])
  {
    assert [a][0] == a;
  }

  lemma {:induction false} QuietRun(s: State, acts: seq<Action>, id: Id)
    requires Inv(s) && Feasible(s, acts) && s.key == CertGen(s) && !Deceptive(s) && QuietFor(id, acts)
    requires id in s.calls && OnTrack(s, s.calls[id])
    ensures var t := Exec(s, acts);
            t.times == s.times && id in t.calls && OnTrack(t, t.calls[id])
    decreases |acts|
  {
    if acts != [] {
      assert QuietFor(id, [acts[0]]);
      ApplyInv(s, acts[0]);
      QuietStep(s, acts[0], id);
      QuietRun(Apply(s, acts[0]), acts[1..], id);
    }
  }

  /** If call `id` starts in `m` and the disk stays quiet for it during `acts`, it is served the pair on the
      disk, once it is done. */
  ghost predicate PickedUp(m: State, id: Id, acts: seq<Action>)
    requires Sane(m) && id !in m.calls
  {
    Feasible(m, [Call(id)] + acts) && QuietFor(id, acts) ==>
      var t := Exec(m, [Call(id)] + acts);
      id in t.calls && (t.calls[id].Done? ==> t.calls[id].outcome == Served(CertGen(m), CertGen(m)))
  }

  lemma ClearIsPickedUp(m: State, id: Id, acts: seq<Action>)
    requires Inv(m) && m.key == CertGen(m) && id !in m.calls && !Deceptive(m)
    ensures PickedUp(m, id, acts)
  {
    var all := [Call(id)] + acts;
    assert all[0] == Call(id) && all[1..] == acts;
    if Feasible(m, all) && QuietFor(id, acts) {
      var m' := Apply(m, Call(id));
      ApplyInv(m, Call(id));
      assert forall w :: w in m'.calls && m'.calls[w].HavePair? ==> w in m.calls && m.calls[w] == m'.calls[w];
      QuietRun(m', acts, id);
    }
  }

  /** A call on a quiet disk that is served an outdated pair. */
  lemma DeceptiveIsMissed(m: State, id: Id) returns (acts: seq<Action>)
    requires Inv(m) && id !in m.calls && Deceptive(m)
    ensures !PickedUp(m, id, acts)
  {
    var t := Apply(m, Call(id));
    acts := [];
    Extend(m, [], m, Call(id));
    assert [] + [Call(id)] == [Call(id)] + acts;
    if !(m.cached.Some? && Outdated(m, m.cached.value.cert, m.cached.value.mtime)) {
      var w :| w in m.calls && m.calls[w].HavePair? && Outdated(m, m.calls[w].cert, m.calls[w].mtime);
      acts, t := Further(m, [Call(id)], acts, t, Step(w, true));
    }
    acts, t := Further(m, [Call(id)], acts, t, Step(id, true));
    acts, t := Further(m, [Call(id)], acts, t, Step(id, true));
  }

  /** The exact condition, after any history with any mtimes: every call that starts now, on a completely
      rotated and quiet disk and without an I/O error of its own, is served the new pair under every
      interleaving with the others if and only if no outdated pair is cached or about to be. */
  lemma PickedUpIff(s: State, past: seq<Action>, id: Id)
    requires Initial(s) && Feasible(s, past)
    requires var m := Exec(s, past); m.key == CertGen(m) && id !in m.calls
    ensures var m := Exec(s, past); (forall acts :: PickedUp(m, id, acts)) <==> !Deceptive(m)
  {
    var m := Exec(s, past);
    InitialInv(s);
    ExecInv(s, past);
    if Deceptive(m) {
      var acts := DeceptiveIsMissed(m, id);
    } else {
      forall acts ensures PickedUp(m, id, acts) { ClearIsPickedUp(m, id, acts); }
    }
  }

  predicate Increasing(times: seq<Time>) { forall i, j :: 0 <= i < j < |times| ==> times[i] < times[j] }

  /** With mtimes that increase, a recorded mtime that reaches the disk's belongs to the pair on the disk. */
  lemma IncreasingIsClear(s: State)
    requires Inv(s) && Increasing(s.times)
    ensures !Deceptive(s)
  {
    if s.cached.Some? { NotOutdated(s, s.cached.value.cert, s.cached.value.mtime); }
    forall id | id in s.calls && s.calls[id].HavePair? ensures !Outdated(s, s.calls[id].cert, s.calls[id].mtime) {
      assert PcInv(s, s.calls[id]);
      NotOutdated(s, s.calls[id].cert, s.calls[id].mtime);
    }
  }

  lemma NotOutdated(s: State, cert: Gen, mtime: Time)
    requires Sane(s) && Increasing(s.times) && Backed(s, cert, mtime)
    ensures !Outdated(s, cert, mtime)
  {
    var g :| 0 <= g <= cert && s.times[g] == mtime;
    assert g < CertGen(s) ==> s.times[g] < s.times[CertGen(s)];
  }

  /** After any history with increasing mtimes, and any number of other calls in flight (including ones
      that hold or store an older pair), a call that starts on a completely rotated, quiet disk and meets no
      I/O error of its own can only be served the new certificate. */
  lemma RotationIsPickedUp(s: State, past: seq<Action>, acts: seq<Action>, id: Id)
    requires Initial(s) && Feasible(s, past) && Increasing(Exec(s, past).times)
    requires var m := Exec(s, past);
             && m.key == CertGen(m)
             && id !in m.calls && Feasible(m, [Call(id)] + acts) && QuietFor(id, acts)
    ensures var m := Exec(s, past);
            var t := Exec(m, [Call(id)] + acts);
            && id in t.calls
            && (t.calls[id].Done? ==> t.calls[id].outcome == Served(CertGen(m), CertGen(m)))
  {
    InitialInv(s);
    ExecInv(s, past);
    IncreasingIsClear(Exec(s, past));
    ClearIsPickedUp(Exec(s, past), id, acts);
  }

  // ---------------------------------------------------------------------
  // How a call can fail

  /** The cache, once filled, is never cleared. */
  lemma {:induction false} CacheStays(s: State, acts: seq<Action>)
    requires Feasible(s, acts) && s.cached.Some?
    ensures Exec(s, acts).cached.Some?
    decreases |acts|
  {
    if acts != [] { CacheStays(Apply(s, acts[0]), acts[1..]); }
  }

  predicate FailsOnlyBySecondStat(pc: Pc) {
    pc.Done? && pc.outcome.Failed? ==> pc.outcome.why == SecondStat
  }

  /** With a populated cache, a call that starts now can fail only through the second stat. */
  lemma {:induction false} OnlySecondStatFails(s: State, acts: seq<Action>, id: Id)
    requires Feasible(s, acts) && s.cached.Some?
    requires id in s.calls ==> FailsOnlyBySecondStat(s.calls[id])
    ensures var t := Exec(s, acts);
            id in t.calls ==> FailsOnlyBySecondStat(t.calls[id])
    decreases |acts|
  {
    if acts != [] { OnlySecondStatFails(Apply(s, acts[0]), acts[1..], id); }
  }

  /** And that failure does happen, although a cached certificate exists. */
  lemma SecondStatFailsDespiteCache(s: State, id: Id)
    requires Inv(s) && s.cached.Some? && CertTime(s) > s.cached.value.mtime && id !in s.calls
    ensures var acts := [Call(id), Step(id, true), Step(id, true), Step(id, false)];
            && Feasible(s, acts)
            && id in Exec(s, acts).calls
            && Exec(s, acts).calls[id] == Done(Failed(SecondStat))
  {
    var acts, t := [], s;
    acts, t := Further(s, [], acts, t, Call(id));
    acts, t := Further(s, [], acts, t, Step(id, true));
    acts, t := Further(s, [], acts, t, Step(id, true));
    acts, t := Further(s, [], acts, t, Step(id, false));
    assert [] + acts == acts == [Call(id), Step(id, true), Step(id, true), Step(id, false)];
  }

  // ---------------------------------------------------------------------
  // A call never waits

  function Rank(pc: Pc): nat {
    match pc
    case Start => 6
    case Seen(_) => 5
    case Loading => 4
    case Loading2(_) => 3
    case HaveCert(_, _) => 2
    case HavePair(_, _, _) => 1
    case StatFailed => 1
    case PairFailed => 1
    case Done(_) => 0
  }

  /** An unfinished call can always step, whatever the others do, and no action of anyone lengthens it:
      it is over after at most six steps of its own. */
  lemma CallsFinish(s: State, a: Action, id: Id)
    requires Inv(s) && Enabled(s, a) && id in s.calls
    ensures !s.calls[id].Done? ==> Enabled(s, Step(id, true)) && Enabled(s, Step(id, false))
    ensures var t := Apply(s, a);
            && id in t.calls
            && Rank(t.calls[id]) + (if a.Step? && a.id == id then 1 else 0) <= Rank(s.calls[id])
  {
  }

  // ---------------------------------------------------------------------
  // A slow call can put an older pair back

  /** A preload on a quiet, complete disk, up to the point where it is about to store. */
  lemma ReadPair(s: State, past: seq<Action>, m: State, id: Id) returns (acts: seq<Action>, t: State)
    requires Ran(s, past, m) && Sane(m) && m.key == CertGen(m) && id !in m.calls
    ensures Ran(s, acts, t) && t == m.(calls := m.calls[id := HavePair(CertTime(m), CertGen(m), CertGen(m))])
  {
    assert [] + past == past;
    acts, t := Further(s, [], past, m, Preload(id));
    acts, t := Further(s, [], acts, t, Step(id, true));
    acts, t := Further(s, [], acts, t, Step(id, true));
    acts, t := Further(s, [], acts, t, Step(id, true));
    assert [] + acts == acts;
    assert t.calls == m.calls[id := HavePair(CertTime(m), CertGen(m), CertGen(m))];
  }

  /** A complete rotation. */
  lemma Rotate(s: State, past: seq<Action>, m: State, mtime: Time) returns (acts: seq<Action>, t: State)
    requires Ran(s, past, m) && Sane(m) && m.key < |m.times|
    ensures Ran(s, acts, t) && t == m.(times := m.times + [mtime], key := |m.times|)
  {
    assert [] + past == past;
    acts, t := Further(s, [], past, m, RenameCert(mtime));
    acts, t := Further(s, [], acts, t, RenameKey);
    assert [] + acts == acts;
  }

  lemma Store(s: State, past: seq<Action>, m: State, id: Id) returns (acts: seq<Action>, t: State)
    requires Ran(s, past, m) && Sane(m) && id in m.calls && m.calls[id].HavePair?
    ensures acts == past + [Step(id, true)] && Ran(s, acts, t)
    ensures var pc := m.calls[id];
            t == m.(cached := Some(CertState(pc.cert, pc.key, pc.mtime)), calls := m.calls[id := Done(Served(pc.cert, pc.key))])
  {
    Extend(s, past, m, Step(id, true));
    acts, t := past + [Step(id, true)], Apply(m, Step(id, true));
  }

  /** From every start-up there is a run in which the cache holds the rotated pair and then, one
      step later, the pair from before the rotation again. */
  lemma OlderPairCanReturn(s: State) returns (acts: seq<Action>)
    requires Initial(s)
    ensures Feasible(s, acts) && Exec(s, acts).cached == Some(CertState(1, 1, CertTime(s) + 1))
    ensures Feasible(s, acts + [Step(0, true)])
    ensures Exec(s, acts + [Step(0, true)]).cached == Some(CertState(0, 0, CertTime(s)))
  {
    var t;
    acts, t := ReadPair(s, [], s, 0);
    acts, t := Rotate(s, acts, t, CertTime(s) + 1);
    acts, t := ReadPair(s, acts, t, 1);
    acts, t := Store(s, acts, t, 1);
    var again, t' := Store(s, acts, t, 0);
  }

  /** The mtimes have to advance: from every start-up there is a run with a complete rotation that leaves
      the mtime as it was, after which a call on a quiet disk is served the old pair. */
  lemma SameMtimeHidesRotation(s: State) returns (past: seq<Action>, acts: seq<Action>)
    requires Initial(s)
    ensures Feasible(s, past) && Exec(s, past).times == [CertTime(s), CertTime(s)] && Exec(s, past).key == 1
    ensures 1 !in Exec(s, past).calls && !PickedUp(Exec(s, past), 1, acts)
  {
    var t;
    past, t := ReadPair(s, [], s, 0);
    past, t := Store(s, past, t, 0);
    past, t := Rotate(s, past, t, CertTime(s));
    InitialInv(s);
    ExecInv(s, past);
    acts := DeceptiveIsMissed(t, 1);
  }

  // ---------------------------------------------------------------------
  // The object, for one call at a time

  /** Which of a call's four file accesses succeed. */
  datatype Io = Io(stat1: bool, stat2: bool, cert: bool, key: bool)

  function OkFor(pc: Pc, io: Io): bool {
    match pc
    case Start => io.stat1
    case Loading => io.stat2
    case Loading2(_) => io.cert
    case HaveCert(_, _) => io.key
    case _ => true
  }

  /** Call 0 run to its end with nobody else acting: a run of the system above. */
  function Solo(s: State, io: Io): (t: State)
    requires Sane(s) && 0 in s.calls
    ensures 0 in t.calls && t.calls[0].Done?
    decreases Rank(s.calls[0])
  {
    if s.calls[0].Done? then s else Solo(Apply(s, Step(0, OkFor(s.calls[0], io))), io)
  }

  /** Such a solo call is one of the runs. */
  lemma {:induction false} SoloIsRun(s: State, io: Io) returns (acts: seq<Action>)
    requires Sane(s) && 0 in s.calls
    ensures Feasible(s, acts) && Exec(s, acts) == Solo(s, io)
    decreases Rank(s.calls[0])
  {
    acts := [];
    if !s.calls[0].Done? {
      var a := Step(0, OkFor(s.calls[0], io));
      var rest := SoloIsRun(Apply(s, a), io);
      acts := [a] + rest;
      assert acts[0] == a && acts[1..] == rest;
    }
  }

  /** What a call that loads ends with when nobody interferes. */
  lemma SoloLoad(s: State, io: Io)
    requires Sane(s) && 0 in s.calls && s.calls[0] == Loading
    ensures var t := Solo(s, io);
            var good := io.stat2 && io.cert && io.key && s.key == CertGen(s);
            && t.cached == (if good then Some(CertState(CertGen(s), s.key, CertTime(s))) else s.cached)
            && t.calls[0] == (if !io.stat2 then Done(Failed(SecondStat))
                              else if good then Done(Served(CertGen(s), s.key))
                              else ServeCached(s, KeyPair))
  {
    var s1 := Apply(s, Step(0, io.stat2));
    if io.stat2 {
      var s2 := Apply(s1, Step(0, io.cert));
      if io.cert {
        var s3 := Apply(s2, Step(0, io.key));
        var s4 := Apply(s3, Step(0, true));
        assert Solo(s3, io) == s4;
        assert Solo(s2, io) == s4;
      } else {
        assert Solo(s2, io) == Apply(s2, Step(0, true));
      }
    }
  }

  class ClientReloader {
    const certFile: string
    const keyFile: string
    var cached: Option<CertState>

    constructor (certFile: string, keyFile: string)
      ensures this.certFile == certFile && this.keyFile == keyFile && cached == None
    {
      this.certFile, this.keyFile, cached := certFile, keyFile, None;
    }

    /** `NewClientReloader`: no object without both paths and a pair that loads. */
    static method New(certFile: string, keyFile: string, times: seq<Time>, key: Gen, io: Io)
      returns (r: ClientReloader?, why: Option<Why>)
      requires |times| > 0
      ensures r != null ==> fresh(r) && r.cached.Some? && why.None? && r.cached.value.cert == r.cached.value.key == key == |times| - 1
      ensures r != null <==> certFile != "" && keyFile != "" && io.stat2 && io.cert && io.key && key == |times| - 1
    {
      if certFile == "" || keyFile == "" { return null, None; }
      var reloader := new ClientReloader(certFile, keyFile);
      var out := reloader.Load(times, key, io);
      if out.Failed? { return null, Some(out.why); }
      return reloader, None;
    }

    /** The cache and the files as a state of the step system with one call in it. */
    ghost function View(times: seq<Time>, key: Gen, pc: Pc): State
      reads this
    {
      State(times, key, cached, map[0 := pc])
    }

    /** `load` */
    method Load(times: seq<Time>, key: Gen, io: Io) returns (out: Outcome)
      requires |times| > 0
      modifies this`cached
      ensures var t := Solo(old(View(times, key, Loading)), io);
              t.calls[0] == Done(out) && cached == t.cached
      ensures out.Failed? ==> cached == old(cached)
      ensures old(cached).None? ==> (out.Served? <==> io.stat2 && io.cert && io.key && key == |times| - 1)
      ensures old(cached).None? && out.Served? ==> cached == Some(CertState(key, key, times[key]))
    {
      SoloLoad(View(times, key, Loading), io);
      if !io.stat2 { return Failed(SecondStat); }
      var mtime := times[|times| - 1];
      var cert := |times| - 1;
      if !io.cert || !io.key || key != cert {
        if cached.Some? { return Served(cached.value.cert, cached.value.key); }
        return Failed(KeyPair);
      }
      cached := Some(CertState(cert, key, mtime));
      return Served(cert, key);
    }

    /** `GetClientCertificate`: on a quiet disk the method ends where the step system ends. */
    method GetClientCertificate(times: seq<Time>, key: Gen, io: Io) returns (out: Outcome)
      requires |times| > 0
      modifies this`cached
      ensures var t := Solo(old(View(times, key, Start)), io);
              t.calls[0] == Done(out) && cached == t.cached
    {
      ghost var s0 := View(times, key, Start);
      ghost var s1 := Apply(s0, Step(0, io.stat1));
      ghost var s2 := Apply(s1, Step(0, true));
      assert Solo(s0, io) == Solo(s1, io) == Solo(s2, io);
      if !io.stat1 {
        if cached.Some? { return Served(cached.value.cert, cached.value.key); }
        return Failed(FirstStat);
      }
      var mtime := times[|times| - 1];
      if cached.Some? && !(mtime > cached.value.mtime) {
        return Served(cached.value.cert, cached.value.key);
      }
      assert s2 == View(times, key, Loading);
      out := Load(times, key, io);
    }
  }
}
