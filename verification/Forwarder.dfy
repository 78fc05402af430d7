/** Delivery of one alert with bounded retries (`internal/forwarder/forwarder.go`), over gRPC or over the
    signed client with its own retry. */
module Forwarder {
  import opened Text
  import opened SignedClient

  /** gRPC status codes; an error that carries none counts as Unknown. */
  datatype Code =
    | Canceled | Unknown | InvalidArgument | DeadlineExceeded | NotFound | AlreadyExists | PermissionDenied
    | ResourceExhausted | FailedPrecondition | Aborted | OutOfRange | Unimplemented | Internal | Unavailable
    | DataLoss | Unauthenticated

  datatype SendError = Rpc(code: Code) | Signed(failure: Failure)

  const ATTEMPTS: nat := 3

  /** `isPermanent` */
  predicate IsPermanent(e: SendError) {
    match e
    case Signed(Http(error)) => Permanent(error)
    case Signed(Other) => false
    case Rpc(code) =>
      code in {InvalidArgument, Unauthenticated, PermissionDenied, FailedPrecondition, NotFound, Unimplemented}
  }

  /** What the outside does during one attempt.  `cancelled` says that the context ended after so many
      seconds of the backoff before it; `cert` whether the client certificate loads. */
  datatype Try = Try(cancelled: Option<real>, cert: bool, now1: int, first: Brain, now2: int, second: Brain, rpc: Option<Code>)

  /** The transport: gRPC, or the signed client with its key cache. */
  datatype Path = Grpc | Sealed(cache: Cache, kidOf: string -> string)

  function ErrOf(f: Option<Failure>): Option<SendError> { if f.None? then None else Some(Signed(f.value)) }

  /** What one `send` comes to: the transport it leaves, its outcome, the number of requests made. */
  ghost function SendOn(p: Path, t: Try): (Path, Option<SendError>, nat) {
    match p
    case Grpc => (p, if t.rpc.None? then None else Some(Rpc(t.rpc.value)), 1)
    case Sealed(cache, kidOf) =>
      if !t.cert then (p, Some(Signed(Other)), 0)
      else
        var run := Whole(cache, t.now1, t.first, t.now2, t.second, kidOf);
        (Sealed(run.cache, kidOf), ErrOf(run.err), |run.posted|)
  }

  /** The transport before send `k`, counted from 0. */
  ghost function PathAt(p: Path, tries: nat -> Try, k: nat): Path {
    if k == 0 then p else SendOn(PathAt(p, tries, k - 1), tries(k - 1)).0
  }

  /** The course of a delivery: how send `k` would end and how many requests it would post, and after
      how many seconds the backoff before it is cut short, if it is. */
  datatype Course = Course(outcome: nat -> Option<SendError>, posts: nat -> nat, cut: nat -> Option<real>)

  /** `c` is the course that the outside and the transport give. */
  ghost predicate Follows(c: Course, p: Path, tries: nat -> Try) {
    && (forall k: nat {:trigger c.outcome(k)} :: c.outcome(k) == SendOn(PathAt(p, tries, k), tries(k)).1)
    && (forall k: nat {:trigger c.posts(k)} :: c.posts(k) == SendOn(PathAt(p, tries, k), tries(k)).2)
    && (forall k: nat {:trigger c.cut(k)} :: c.cut(k) == tries(k).cancelled)
  }

  ghost function CourseOf(p: Path, tries: nat -> Try): (c: Course)
    ensures Follows(c, p, tries)
  {
    Course((k: nat) => SendOn(PathAt(p, tries, k), tries(k)).1,
           (k: nat) => SendOn(PathAt(p, tries, k), tries(k)).2,
           (k: nat) => tries(k).cancelled)
  }

  /** Send `k` failed in a way that is worth another attempt. */
  ghost predicate Transient(c: Course, k: nat) { c.outcome(k).Some? && !IsPermanent(c.outcome(k).value) }

  /** Is send `k` the last one? */
  ghost predicate Last(c: Course, k: nat) { !Transient(c, k) || k + 1 >= ATTEMPTS || c.cut(k + 1).Some? }

  /** Did the delivery end in a cancelled backoff after `n` sends? */
  ghost predicate CutShort(c: Course, n: nat) { 1 <= n < ATTEMPTS && Transient(c, n - 1) && c.cut(n).Some? }

  /** The requests posted by the first `n` sends. */
  ghost function Posts(c: Course, n: nat): nat { if n == 0 then 0 else Posts(c, n - 1) + c.posts(n - 1) }

  /** Two to the `k`. */
  function Pow2(k: nat): nat { if k == 0 then 1 else 2 * Pow2(k - 1) }

  /** The seconds waited before sends `1` to `n - 1`, none of them cut short. */
  function Waits(n: nat): real { if n <= 1 then 0.0 else Waits(n - 1) + Pow2(n - 1) as real }

  /** A cut backoff lasts no longer than a whole one. */
  ghost predicate Timely(c: Course) {
    forall k :: 1 <= k < ATTEMPTS && c.cut(k).Some? ==> 0.0 <= c.cut(k).value <= Pow2(k) as real
  }

  /** How a delivery went: sends, requests made, seconds waited, backoffs entered. */
  datatype Delivery = Delivery(sends: nat, posts: nat, waited: real, retries: nat) {
    function Plus(d: Delivery): Delivery {
      Delivery(sends + d.sends, posts + d.posts, waited + d.waited, retries + d.retries)
    }
  }

  /** The sends are those up to the first last one, and the rest follows from their number. */
  ghost predicate Conducted(c: Course, d: Delivery) {
    var n := d.sends;
    && 1 <= n <= ATTEMPTS
    && (forall k :: 0 <= k < n - 1 ==> !Last(c, k))
    && Last(c, n - 1)
    && d.posts == Posts(c, n)
    && d.waited == Waits(n) + (if CutShort(c, n) then c.cut(n).value else 0.0)
    && d.retries == (if CutShort(c, n) then n else n - 1)
  }

  /** A delivery that is over: what the caller is told. */
  ghost predicate Ended(c: Course, d: Delivery, err: Option<SendError>, cancelled: bool) {
    Conducted(c, d) && err == c.outcome(d.sends - 1) && (cancelled <==> CutShort(c, d.sends))
  }

  /** The last `n` sends are those of the course. */
  ghost predicate Sent(c: Course, before: seq<Option<SendError>>, after: seq<Option<SendError>>, n: nat) {
    |after| == |before| + n && before <= after && forall k :: 0 <= k < n ==> after[|before| + k] == c.outcome(k)
  }

  /** What `n` sends with whole backoffs between them come to. */
  ghost function SoFar(c: Course, n: nat): Delivery {
    Delivery(n, Posts(c, n), Waits(n), if n == 0 then 0 else n - 1)
  }

  /** The transport, all that has been done and the two counters. */
  datatype Shot = Shot(path: Path, log: Delivery, sent: seq<Option<SendError>>, ok: nat, errors: nat)

  /** Before attempt `k` of a delivery that began at `s0`. */
  ghost predicate Going(c: Course, p: Path, tries: nat -> Try, k: nat, s0: Shot, s: Shot, err: Option<SendError>) {
    && k <= ATTEMPTS
    && s.path == PathAt(p, tries, k) && s.log == s0.log.Plus(SoFar(c, k)) && Sent(c, s0.sent, s.sent, k)
    && s.ok == s0.ok && s.errors == s0.errors
    && (k > 0 ==> Transient(c, k - 1) && err == c.outcome(k - 1))
    && forall i :: 0 <= i < k - 1 ==> !Last(c, i)
  }

  /** After a delivery `d` that began at `s0`. */
  ghost predicate Over(c: Course, p: Path, tries: nat -> Try, s0: Shot, s: Shot, d: Delivery, err: Option<SendError>, cancelled: bool) {
    && Ended(c, d, err, cancelled)
    && s.path == PathAt(p, tries, d.sends) && s.log == s0.log.Plus(d) && Sent(c, s0.sent, s.sent, d.sends)
    && s.ok == s0.ok + (if err.None? then 1 else 0) && s.errors == s0.errors + (if err.None? then 0 else 1)
  }

  /** The state after the backoff before send `k` and the send itself. */
  ghost function Onward(c: Course, p: Path, tries: nat -> Try, k: nat, s: Shot): Shot {
    var pause := if k == 0 then Delivery(0, 0, 0.0, 0) else Delivery(0, 0, Pow2(k) as real, 1);
    Shot(PathAt(p, tries, k + 1), s.log.Plus(pause).Plus(Delivery(1, c.posts(k), 0.0, 0)), s.sent + [c.outcome(k)], s.ok, s.errors)
  }

  /** The state after a backoff that was cut short. */
  ghost function Halted(c: Course, k: nat, s: Shot): Shot
    requires c.cut(k).Some?
  {
    s.(log := s.log.Plus(Delivery(0, 0, c.cut(k).value, 1)))
  }

  lemma OnwardLog(c: Course, p: Path, tries: nat -> Try, k: nat, s0: Shot, s: Shot, err: Option<SendError>)
    requires Going(c, p, tries, k, s0, s, err) && k < ATTEMPTS
    ensures var t := Onward(c, p, tries, k, s); t.log == s0.log.Plus(SoFar(c, k + 1)) && Sent(c, s0.sent, t.sent, k + 1)
  {
  }

  lemma GoOn(c: Course, p: Path, tries: nat -> Try, k: nat, s0: Shot, s: Shot, err: Option<SendError>)
    requires Going(c, p, tries, k, s0, s, err) && k < ATTEMPTS && (k > 0 ==> c.cut(k).None?) && Transient(c, k)
    ensures Going(c, p, tries, k + 1, s0, Onward(c, p, tries, k, s), c.outcome(k))
  {
    OnwardLog(c, p, tries, k, s0, s, err);
    assert k > 0 ==> !Last(c, k - 1);
  }

  lemma UsedUp(c: Course, p: Path, tries: nat -> Try, s0: Shot, s: Shot, err: Option<SendError>)
    requires Going(c, p, tries, ATTEMPTS, s0, s, err)
    ensures Over(c, p, tries, s0, s.(errors := s.errors + 1), SoFar(c, ATTEMPTS), err, false)
  {
  }

  lemma Stop(c: Course, p: Path, tries: nat -> Try, k: nat, s0: Shot, s: Shot, err: Option<SendError>)
    requires Going(c, p, tries, k, s0, s, err) && k < ATTEMPTS && (k > 0 ==> c.cut(k).None?) && !Transient(c, k)
    ensures var t := Onward(c, p, tries, k, s);
            Over(c, p, tries, s0, if c.outcome(k).None? then t.(ok := t.ok + 1) else t.(errors := t.errors + 1), SoFar(c, k + 1), c.outcome(k), false)
  {
    OnwardLog(c, p, tries, k, s0, s, err);
    assert k > 0 ==> !Last(c, k - 1);
  }

  lemma CutOff(c: Course, p: Path, tries: nat -> Try, k: nat, s0: Shot, s: Shot, err: Option<SendError>)
    requires Going(c, p, tries, k, s0, s, err) && 0 < k < ATTEMPTS && c.cut(k).Some?
    ensures var t := Halted(c, k, s);
            Over(c, p, tries, s0, t.(errors := t.errors + 1), SoFar(c, k).(waited := Waits(k) + c.cut(k).value, retries := k), err, true)
  {
  }

  class Forwarder {
    /** The signed client, or null for gRPC. */
    const signed: SignedClient?
    var ok: nat
    var errors: nat
    var retries: nat
    /** The outcomes of all sends, in order. */
    ghost var sent: seq<Option<SendError>>
    /** How many gRPC calls were made. */
    ghost var calls: nat
    /** The seconds spent in backoffs. */
    ghost var waited: real

    constructor (signed: SignedClient?)
      ensures this.signed == signed && ok == errors == retries == 0 && sent == [] && calls == 0 && waited == 0.0
    {
      this.signed := signed;
      ok, errors, retries, sent, calls, waited := 0, 0, 0, [], 0, 0.0;
    }

    ghost function View(): Path
      reads signed
    {
      if signed == null then Grpc else Sealed(signed.View(), signed.kidOf)
    }

    /** All that has been done so far. */
    ghost function Log(): Delivery
      reads this, signed
    {
      Delivery(|sent|, if signed == null then calls else |signed.posted|, waited, retries)
    }

    /** The gRPC call. */
    method Ingest(rpc: Option<Code>) returns (err: Option<SendError>)
      modifies this`calls
      ensures err == (if rpc.None? then None else Some(Rpc(rpc.value))) && calls == old(calls) + 1
    {
      calls := calls + 1;
      return if rpc.None? then None else Some(Rpc(rpc.value));
    }

    /** `send` */
    method Send(t: Try) returns (err: Option<SendError>)
      modifies this`sent, this`calls, signed
      ensures (View(), err) == (SendOn(old(View()), t).0, SendOn(old(View()), t).1)
      ensures sent == old(sent) + [err] && Log() == old(Log()).Plus(Delivery(1, SendOn(old(View()), t).2, 0.0, 0))
    {
      if signed != null {
        if !t.cert {
          err := Some(Signed(Other));
        } else {
          var failure := signed.Call(t.now1, t.first, t.now2, t.second);
          err := ErrOf(failure);
        }
      } else {
        err := Ingest(t.rpc);
      }
      sent := sent + [err];
    }

    ghost function Now(): Shot
      reads this, signed
    {
      Shot(View(), Log(), sent, ok, errors)
    }

    /** The wait before a retry, which the end of the context can cut short. */
    method Backoff(seconds: nat, cut: Option<real>) returns (cancelled: bool)
      modifies this`waited, this`retries
      ensures cancelled <==> cut.Some?
      ensures Log() == old(Log()).Plus(Delivery(0, 0, if cut.Some? then cut.value else seconds as real, 1))
    {
      retries := retries + 1;
      waited := waited + if cut.Some? then cut.value else seconds as real;
      return cut.Some?;
    }

    /** The backoff before a retry, and the send unless that was cut short. */
    method Attempt(tries: nat -> Try, k: nat, backoff: nat, ghost p: Path, ghost c: Course) returns (err: Option<SendError>, cancelled: bool)
      requires Follows(c, p, tries) && View() == PathAt(p, tries, k) && backoff == Pow2(k)
      modifies this, signed
      ensures cancelled <==> k > 0 && c.cut(k).Some?
      ensures cancelled ==> Now() == Halted(c, k, old(Now()))
      ensures !cancelled ==> Now() == Onward(c, p, tries, k, old(Now())) && err == c.outcome(k)
    {
      err, cancelled := None, false;
      if k > 0 {
        cancelled := Backoff(backoff, tries(k).cancelled);
        if cancelled { return; }
      }
      err := Send(tries(k));
    }

    /** The same as a step of a delivery that began at `s0`. */
    method Turn(tries: nat -> Try, k: nat, backoff: nat, ghost p: Path, ghost c: Course, ghost s0: Shot, last: Option<SendError>)
      returns (err: Option<SendError>, cancelled: bool, ghost d: Delivery)
      requires Follows(c, p, tries) && Going(c, p, tries, k, s0, Now(), last) && k < ATTEMPTS && backoff == Pow2(k)
      modifies this, signed
      ensures cancelled ==> err == last
      ensures !cancelled && err.Some? && !IsPermanent(err.value) ==> Going(c, p, tries, k + 1, s0, Now(), err)
      ensures cancelled || err.None? || IsPermanent(err.value) ==>
                var s := Now();
                Over(c, p, tries, s0, if !cancelled && err.None? then s.(ok := s.ok + 1) else s.(errors := s.errors + 1), d, err, cancelled)
    {
      ghost var s := Now();
      err, cancelled := Attempt(tries, k, backoff, p, c);
      d := SoFar(c, k + 1);
      if cancelled {
        CutOff(c, p, tries, k, s0, s, last);
        d := SoFar(c, k).(waited := Waits(k) + c.cut(k).value, retries := k);
        err := last;
      } else if Transient(c, k) {
        GoOn(c, p, tries, k, s0, s, last);
      } else {
        Stop(c, p, tries, k, s0, s, last);
      }
    }

    /** One increment of the ok or the error counter. */
    method Count(success: bool)
      modifies this`ok, this`errors
      ensures var s := old(Now()); Now() == if success then s.(ok := s.ok + 1) else s.(errors := s.errors + 1)
    {
      if success { ok := ok + 1; } else { errors := errors + 1; }
    }

    /** `Forward`: a success counts as one ok, everything else as one error; the caller gets no error
        exactly when the last send succeeded.  `d` is what the logs have grown by, and `CourseOf` gives
        the course of every delivery. */
    method Forward(tries: nat -> Try, ghost c: Course) returns (err: Option<SendError>, cancelled: bool, ghost d: Delivery)
      requires Follows(c, View(), tries)
      modifies this, signed
      ensures Over(c, old(View()), tries, old(Now()), Now(), d, err, cancelled)
    {
      ghost var p, s0 := View(), Now();
      err, cancelled := None, false;
      var attempt, backoff := 0, 1;
      while attempt < ATTEMPTS
        invariant Going(c, p, tries, attempt, s0, Now(), err) && backoff == Pow2(attempt) && !cancelled
      {
        err, cancelled, d := Turn(tries, attempt, backoff, p, c, s0, err);
        if cancelled {
          Count(false);
          return;
        }
        if err.None? {
          Count(true);
          return;
        }
        if IsPermanent(err.value) {
          Count(false);
          return;
        }
        attempt := attempt + 1;
        backoff := 2 * backoff;
      }
      UsedUp(c, p, tries, s0, Now(), err);
      Count(false);
      d := SoFar(c, ATTEMPTS);
    }
  }

  // ---------------------------------------------------------------------
  // What holds of every delivery

  lemma {:induction false} PostsBound(c: Course, p: Path, tries: nat -> Try, n: nat)
    requires Follows(c, p, tries)
    requires p.Sealed? ==> Genuine(p.cache, p.kidOf)
    ensures Posts(c, n) <= 2 * n
    ensures var q := PathAt(p, tries, n); q.Sealed? ==> Genuine(q.cache, q.kidOf)
  {
    if n > 0 {
      PostsBound(c, p, tries, n - 1);
      var q, t := PathAt(p, tries, n - 1), tries(n - 1);
      if q.Sealed? { CallBounds(q.cache, t.now1, t.first, t.now2, t.second, q.kidOf); }
    }
  }

  /** What `Forward` has done when it is over: at most three sends and six requests, at most six seconds
      of waiting and two retries; nothing was sent after a success, after a permanent error or after a
      cancelled backoff; exactly one of ok and error was counted, ok exactly when the last send succeeded;
      and a delivery that gives up with an error that is neither permanent nor cut short has used all its
      attempts. */
  lemma DeliveryBounds(c: Course, p: Path, tries: nat -> Try, s0: Shot, s: Shot, d: Delivery, err: Option<SendError>, cancelled: bool)
    requires Follows(c, p, tries) && Over(c, p, tries, s0, s, d, err, cancelled)
    requires Timely(c) && (p.Sealed? ==> Genuine(p.cache, p.kidOf))
    ensures |s0.sent| < |s.sent| <= |s0.sent| + 3 && s.log.posts <= s0.log.posts + 6
    ensures s0.log.waited <= s.log.waited <= s0.log.waited + 6.0 && s.log.retries <= s0.log.retries + 2
    ensures forall i :: |s0.sent| <= i < |s.sent| - 1 ==> s.sent[i].Some? && !IsPermanent(s.sent[i].value)
    ensures forall k :: 1 <= k < d.sends ==> tries(k).cancelled.None?
    ensures s.ok + s.errors == s0.ok + s0.errors + 1 && (s.ok == s0.ok + 1 <==> s.sent[|s.sent| - 1].None?)
    ensures err.Some? && !IsPermanent(err.value) && !cancelled ==> |s.sent| == |s0.sent| + 3
  {
    PostsBound(c, p, tries, d.sends);
    WaitsBound(c, d);
    OnlyTheLastIsFinal(c, d, s0.sent, s.sent);
    NoneCutShort(c, p, tries, d);
    UsedAttempts(c, d, err, cancelled);
  }

  lemma NoneCutShort(c: Course, p: Path, tries: nat -> Try, d: Delivery)
    requires Follows(c, p, tries) && Conducted(c, d)
    ensures forall k :: 1 <= k < d.sends ==> tries(k).cancelled.None?
  {
    forall k | 1 <= k < d.sends ensures tries(k).cancelled.None? {
      assert !Last(c, k - 1) && c.cut(k) == tries(k).cancelled;
    }
  }

  lemma UsedAttempts(c: Course, d: Delivery, err: Option<SendError>, cancelled: bool)
    requires Ended(c, d, err, cancelled)
    ensures err.Some? && !IsPermanent(err.value) && !cancelled ==> d.sends == 3
  {
  }

  lemma OnlyTheLastIsFinal(c: Course, d: Delivery, before: seq<Option<SendError>>, after: seq<Option<SendError>>)
    requires Conducted(c, d) && Sent(c, before, after, d.sends)
    ensures forall i :: |before| <= i < |after| - 1 ==> after[i].Some? && !IsPermanent(after[i].value)
    ensures after[|after| - 1] == c.outcome(d.sends - 1)
  {
    assert after[|before| + (d.sends - 1)] == c.outcome(d.sends - 1);
    forall i | |before| <= i < |after| - 1 ensures after[i].Some? && !IsPermanent(after[i].value) {
      assert after[|before| + (i - |before|)] == c.outcome(i - |before|) && !Last(c, i - |before|);
    }
  }

  /** Nothing, two seconds, or two and four, and what has passed of a backoff that was cut short. */
  lemma WaitsBound(c: Course, d: Delivery)
    requires Conducted(c, d)
    ensures d.waited == (if d.sends == 1 then 0.0 else if d.sends == 2 then 2.0 else 6.0)
                        + if CutShort(c, d.sends) then c.cut(d.sends).value else 0.0
    ensures Timely(c) ==> 0.0 <= d.waited <= 6.0
  {
    assert Pow2(1) == 2 && Pow2(2) == 4;
    assert Waits(1) == 0.0 && Waits(2) == 2.0 && Waits(3) == 6.0;
  }

  /** The rules settle the whole delivery. */
  lemma DeliveryUnique(c: Course, d: Delivery, e: Delivery)
    requires Conducted(c, d) && Conducted(c, e)
    ensures d == e
  {
  }

  // ---------------------------------------------------------------------
  // When an alert counts as delivered, from the outside alone

  /** Which errors end a delivery. */
  lemma PermanentIff(e: SendError)
    ensures IsPermanent(e) <==>
              || (e.Rpc? && (e.code.InvalidArgument? || e.code.Unauthenticated? || e.code.PermissionDenied? || e.code.FailedPrecondition?
                             || e.code.NotFound? || e.code.Unimplemented?))
              || (e.Signed? && e.failure.Http?
                  && e.failure.error.status in {400, 401, 403, 404, 412, 413, 415})
  {
  }

  /** A gRPC send succeeds exactly when the call does, and else fails with its code. */
  lemma GrpcSend(t: Try)
    ensures SendOn(Grpc, t) == (Grpc, if t.rpc.None? then None else Some(Rpc(t.rpc.value)), 1)
  {
  }

  /** A signed send succeeds exactly when the certificate loads and the call does: the first request is granted,
      or it is disowned (or the key fetch is) and the one to the first key of a fresh list is granted. */
  lemma SignedSend(cache: Cache, kidOf: string -> string, t: Try)
    ensures var fetch := cache.keys == [] || t.now1 - cache.fetched > 86400;
            var fetched := t.first.reply.Listed? && UsableKeys(t.first.reply.entries, kidOf) != [];
            var kid := if !fetch then cache.keys[0].kid else if fetched then UsableKeys(t.first.reply.entries, kidOf)[0].kid else "";
            var again := t.second.reply.Listed? && UsableKeys(t.second.reply.entries, kidOf) != []
                         && Grants(t.second, UsableKeys(t.second.reply.entries, kidOf)[0].kid);
            SendOn(Sealed(cache, kidOf), t).1.None? <==>
              t.cert && if !fetch || fetched then Grants(t.first, kid) || (Disowns(t.first, kid) && again)
                        else FetchDisowned(t.first.reply) && again
  {
    SucceedsIff(cache, t.now1, t.first, t.now2, t.second, kidOf);
  }

  /** Send `k` fails in a way worth a retry, and the backoff behind it is not cut short. */
  ghost predicate GoesOn(c: Course, k: nat) { Transient(c, k) && c.cut(k + 1).None? }

  ghost predicate SucceedsAt(c: Course, k: nat) { k < 3 && c.outcome(k).None? && forall j :: 0 <= j < k ==> GoesOn(c, j) }

  lemma FirstLast(c: Course, k: nat)
    requires SucceedsAt(c, k)
    ensures Last(c, k) && forall j :: 0 <= j < k ==> !Last(c, j)
  {
    forall j | 0 <= j < k ensures !Last(c, j) { assert GoesOn(c, j); }
  }

  /** An alert counts as delivered exactly when one of the three sends succeeds in that way. */
  lemma OkIff(c: Course, p: Path, tries: nat -> Try, s0: Shot, s: Shot, d: Delivery, err: Option<SendError>, cancelled: bool)
    requires Over(c, p, tries, s0, s, d, err, cancelled)
    ensures s.ok == s0.ok + 1 <==> exists k: nat :: SucceedsAt(c, k)
  {
    var n := d.sends - 1;
    if err.None? {
      forall j | 0 <= j < n ensures GoesOn(c, j) { assert !Last(c, j); }
      assert SucceedsAt(c, n);
    }
    if k: nat :| SucceedsAt(c, k) {
      FirstLast(c, k);
      assert Last(c, k) && Last(c, n);
    }
  }

  /** A code that is worth a retry. */
  predicate WorthARetry(rpc: Option<Code>) {
    rpc.Some? && !(rpc.value.InvalidArgument? || rpc.value.Unauthenticated? || rpc.value.PermissionDenied? || rpc.value.FailedPrecondition?
                   || rpc.value.NotFound? || rpc.value.Unimplemented?)
  }

  /** Call `k` fails that way, and the backoff behind it is not cut short. */
  predicate Retried(tries: nat -> Try, k: nat) { WorthARetry(tries(k).rpc) && tries(k + 1).cancelled.None? }

  predicate GrpcSucceedsAt(tries: nat -> Try, k: nat) {
    k < 3 && tries(k).rpc.None? && forall j :: 0 <= j < k ==> Retried(tries, j)
  }

  lemma GrpcCourse(c: Course, tries: nat -> Try, k: nat)
    requires Follows(c, Grpc, tries)
    ensures c.outcome(k).None? <==> tries(k).rpc.None?
    ensures Transient(c, k) <==> WorthARetry(tries(k).rpc)
    ensures c.cut(k) == tries(k).cancelled
  {
    StaysGrpc(tries, k);
    GrpcSend(tries(k));
  }

  lemma GrpcRetried(c: Course, tries: nat -> Try, k: nat)
    requires Follows(c, Grpc, tries)
    ensures Retried(tries, k) <==> GoesOn(c, k)
  {
    GrpcCourse(c, tries, k);
    GrpcCourse(c, tries, k + 1);
  }

  lemma GrpcSucceeds(c: Course, tries: nat -> Try, k: nat)
    requires Follows(c, Grpc, tries)
    ensures SucceedsAt(c, k) <==> GrpcSucceedsAt(tries, k)
  {
    GrpcCourse(c, tries, k);
    if SucceedsAt(c, k) {
      forall j | 0 <= j < k ensures Retried(tries, j) { GrpcRetried(c, tries, j); }
    }
    if GrpcSucceedsAt(tries, k) {
      forall j | 0 <= j < k ensures GoesOn(c, j) { GrpcRetried(c, tries, j); }
    }
  }

  /** Over gRPC that is: one of the first three calls succeeds, those before it fail with a code that is worth
      a retry, and no backoff in between is cut short. */
  lemma GrpcOkIff(c: Course, tries: nat -> Try, s0: Shot, s: Shot, d: Delivery, err: Option<SendError>, cancelled: bool)
    requires Follows(c, Grpc, tries) && Over(c, Grpc, tries, s0, s, d, err, cancelled)
    ensures s.ok == s0.ok + 1 <==> exists k: nat :: GrpcSucceedsAt(tries, k)
  {
    OkIff(c, Grpc, tries, s0, s, d, err, cancelled);
    forall k: nat ensures SucceedsAt(c, k) <==> GrpcSucceedsAt(tries, k) { GrpcSucceeds(c, tries, k); }
  }

  lemma {:induction false} StaysGrpc(tries: nat -> Try, k: nat)
    ensures PathAt(Grpc, tries, k) == Grpc
  {
    if k > 0 { StaysGrpc(tries, k - 1); }
  }

  /** The documented error table of the signed transport and the documented gRPC codes: not to be retried. */
  predicate DocumentedFinal(e: SendError) {
    match e
    case Signed(Http(h)) => (h.status == 400 && h.code != KEY_UNKNOWN) || h.status == 401 || h.status == 403 || h.status == 415
    case Signed(Other) => false
    case Rpc(code) => code.InvalidArgument? || code.Unauthenticated? || code.PermissionDenied?
  }

  /** The documented errors that are retried. */
  predicate DocumentedRetry(e: SendError) {
    match e
    case Signed(Http(h)) => 500 <= h.status <= 599
    case Signed(Other) => false
    case Rpc(code) => code.Unavailable? || code.DeadlineExceeded?
  }

  /** A delivery follows the documentation: a final error is the last one, and a delivery that ends with an
      error to be retried has used its attempts or was cancelled. */
  lemma AsDocumented(c: Course, d: Delivery, k: nat, e: SendError)
    requires Conducted(c, d) && k < d.sends && c.outcome(k) == Some(e)
    ensures DocumentedFinal(e) ==> k == d.sends - 1 && !CutShort(c, d.sends)
    ensures DocumentedRetry(e) && k == d.sends - 1 ==> d.sends == ATTEMPTS || CutShort(c, d.sends)
  {
    assert k < d.sends - 1 ==> !Last(c, k);
  }

  /** The first send settles a delivery when it succeeds or fails for good. */
  lemma SettledAtOnce(c: Course, p: Path, tries: nat -> Try, d: Delivery)
    requires Follows(c, p, tries) && Conducted(c, d)
    requires var e := SendOn(p, tries(0)).1; e.None? || IsPermanent(e.value)
    ensures d == Delivery(1, SendOn(p, tries(0)).2, 0.0, 0)
  {
    assert PathAt(p, tries, 0) == p;
    assert Last(c, 0);
    assert Posts(c, 1) == Posts(c, 0) + c.posts(0);
  }

  /** A cached key that the brain no longer holds when the first request arrives. */
  ghost predicate KeyDropped(p: Path, t: Try) {
    && p.Sealed? && t.cert
    && !Stale(p.cache, false, t.now1) && t.first.early.None? && p.cache.keys[0].kid !in t.first.held
  }

  /** That costs no retry: when the brain is consistent from the refetch on and then accepts, the first
      send succeeds, with two requests and no waiting. */
  lemma DroppedKeyCostsNoRetry(c: Course, p: Path, tries: nat -> Try, d: Delivery)
    requires Follows(c, p, tries) && Conducted(c, d) && KeyDropped(p, tries(0))
    requires var b := tries(0).second; Consistent(b, p.kidOf) && b.early.None? && b.answer.None?
    ensures SendOn(p, tries(0)).1.None? && d == Delivery(1, 2, 0.0, 0)
  {
    var t := tries(0);
    DroppedKeyIsDetected(p.cache, t.now1, t.first, p.kidOf);
    CallRecovers(p.cache, t.now1, t.first, t.now2, t.second, p.kidOf);
    SettledAtOnce(c, p, tries, d);
  }

  /** But a brain that does not hold the key it has just listed first loses the alert: the second
      refusal carries status 400, which is permanent, so there is no further attempt. */
  lemma KeyUnknownTwiceIsFinal(c: Course, p: Path, tries: nat -> Try, d: Delivery)
    requires Follows(c, p, tries) && Conducted(c, d) && KeyDropped(p, tries(0))
    requires var b := tries(0).second;
             && Fetchable(b.reply, p.kidOf) && b.early.None? && UsableKeys(b.reply.entries, p.kidOf)[0].kid !in b.held
    ensures SendOn(p, tries(0)).1 == Some(Signed(Http(HttpError(400, KEY_UNKNOWN)))) && d == Delivery(1, 2, 0.0, 0)
  {
    DroppedKeyIsDetected(p.cache, tries(0).now1, tries(0).first, p.kidOf);
    SettledAtOnce(c, p, tries, d);
  }
}
