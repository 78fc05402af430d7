/** The client's HPKE key cache against a brain that rotates its keys, in time
    (`activeKey` and `fetchKeysLocked` in `internal/auth/signedclient.go`, rotation as in
    `docs/signed-transport.md`).  Local work takes no time; a fetch or a post takes at most `timeout`. */
module KeyRotation {
  import opened Text

  type Kid = nat
  type Time = nat

  /** How long keys are cached, how long a call may take, and how long the operator waits before
      removing a key that is no longer advertised first. */
  datatype Policy = Policy(ttl: nat, timeout: nat, grace: nat)

  /** The first key of a fetched list, when the list arrived and when the brain sent it. */
  datatype Cache = Cache(kid: Kid, fetched: Time, advertised: Time)

  /** A fetch under the mutex: when it began and, once the brain has answered, what and when. */
  datatype Fetch = Fetch(started: Time, answer: Option<(Kid, Time)>)

  /** A request on its way: the key it is sealed to, when it was sealed, when that key was advertised. */
  datatype Post = Post(kid: Kid, sealed: Time, advertised: Time)

  datatype State = State(
    now: Time,
    order: seq<Kid>,               // the brain's keys, advertised one first
    lastFirst: map<Kid, Time>,     // when a key last stopped being first
    cache: Option<Cache>,
    fetch: Option<Fetch>,
    posts: set<Post>)

  datatype Action =
    | Tick(d: nat)
    | Roll(order: seq<Kid>)        // the brain restarts with another key file
    | FetchStart
    | FetchAnswer
    | FetchEnd
    | FetchFail
    | Seal                         // activeKey without a fetch, then seal and send
    | Arrive(post: Post)
    | PostFail(post: Post)

  predicate Sane(s: State) { |s.order| > 0 }

  /** A key may leave the file only when it is not the first one and, if it ever was, only after the grace. */
  predicate MayDrop(p: Policy, s: State, k: Kid)
    requires Sane(s)
  {
    k != s.order[0] && (k in s.lastFirst ==> s.now > s.lastFirst[k] + p.grace)
  }

  ghost predicate Enabled(p: Policy, s: State, a: Action) {
    Sane(s) &&
    match a
    case Tick(_) => true
    case Roll(order) => |order| > 0 && forall k :: k in s.order && k !in order ==> MayDrop(p, s, k)
    case FetchStart => s.fetch.None?
    case FetchAnswer => s.fetch.Some? && s.fetch.value.answer.None?
    case FetchEnd => s.fetch.Some? && s.fetch.value.answer.Some? && s.now <= s.fetch.value.started + p.timeout
    case FetchFail => s.fetch.Some?
    case Seal => s.fetch.None? && s.cache.Some? && s.now - s.cache.value.fetched <= p.ttl
    case Arrive(x) => x in s.posts && s.now <= x.sealed + p.timeout
    case PostFail(x) => x in s.posts
  }

  ghost function Apply(p: Policy, s: State, a: Action): State
    requires Enabled(p, s, a)
  {
    match a
    case Tick(d) => s.(now := s.now + d)
    case Roll(order) =>
      s.(order := order, lastFirst := if order[0] == s.order[0] then s.lastFirst else s.lastFirst[s.order[0] := s.now])
    case FetchStart => s.(fetch := Some(Fetch(s.now, None)))
    case FetchAnswer => s.(fetch := Some(Fetch(s.fetch.value.started, Some((s.order[0], s.now)))))
    case FetchEnd =>
      var (kid, at) := s.fetch.value.answer.value;
      s.(fetch := None, cache := Some(Cache(kid, s.now, at)))
    case FetchFail => s.(fetch := None)
    case Seal => s.(posts := s.posts + {Post(s.cache.value.kid, s.now, s.cache.value.advertised)})
    case Arrive(x) => s.(posts := s.posts - {x})
    case PostFail(x) => s.(posts := s.posts - {x})
  }

  ghost predicate Feasible(p: Policy, s: State, acts: seq<Action>)
    decreases |acts|
  {
    acts == [] || (Enabled(p, s, acts[0]) && Feasible(p, Apply(p, s, acts[0]), acts[1..]))
  }

  ghost function Exec(p: Policy, s: State, acts: seq<Action>): State
    requires Feasible(p, s, acts)
    decreases |acts|
  {
    if acts == [] then s else Exec(p, Apply(p, s, acts[0]), acts[1..])
  }

  predicate Initial(s: State) {
    |s.order| > 0 && s.lastFirst == map[] && s.cache.None? && s.fetch.None? && s.posts == {}
  }

  /** The brain holds the key that the client would seal to now, and the key of every request that can
      still arrive. */
  ghost predicate Safe(p: Policy, s: State) {
    && (s.cache.Some? && s.now - s.cache.value.fetched <= p.ttl ==> s.cache.value.kid in s.order)
    && (forall x :: x in s.posts && s.now <= x.sealed + p.timeout ==> x.kid in s.order)
  }

  // ---------------------------------------------------------------------
  // Enough grace makes every run safe

  /** `k` was first at time `at`: it still is or stopped being so later, and if the brain has dropped it,
      the grace has passed since. */
  ghost predicate Tracked(p: Policy, s: State, k: Kid, at: Time)
    requires Sane(s)
  {
    && at <= s.now
    && (k == s.order[0] || (k in s.lastFirst && at <= s.lastFirst[k] <= s.now))
    && (k !in s.order ==> k in s.lastFirst && s.now > s.lastFirst[k] + p.grace)
  }

  ghost predicate Inv(p: Policy, s: State) {
    && Sane(s)
    && (s.cache.Some? ==>
          var c := s.cache.value;
          Tracked(p, s, c.kid, c.advertised) && c.advertised <= c.fetched <= c.advertised + p.timeout && c.fetched <= s.now)
    && (s.fetch.Some? ==> s.fetch.value.started <= s.now)
    && (s.fetch.Some? && s.fetch.value.answer.Some? ==>
          var (k, at) := s.fetch.value.answer.value;
          Tracked(p, s, k, at) && s.fetch.value.started <= at)
    && (forall x :: x in s.posts ==>
          Tracked(p, s, x.kid, x.advertised) && x.sealed <= x.advertised + p.timeout + p.ttl && x.sealed <= s.now)
  }

  lemma TrackedStep(p: Policy, s: State, a: Action, k: Kid, at: Time)
    requires Enabled(p, s, a) && Tracked(p, s, k, at)
    ensures Tracked(p, Apply(p, s, a), k, at)
  {
  }

  lemma PostsStep(p: Policy, s: State, a: Action)
    requires Inv(p, s) && Enabled(p, s, a)
    ensures var t := Apply(p, s, a);
            forall x :: x in t.posts ==> Tracked(p, t, x.kid, x.advertised) && x.sealed <= x.advertised + p.timeout + p.ttl && x.sealed <= t.now
  {
    var t := Apply(p, s, a);
    forall x | x in t.posts
      ensures Tracked(p, t, x.kid, x.advertised) && x.sealed <= x.advertised + p.timeout + p.ttl && x.sealed <= t.now
    {
      if x in s.posts {
        TrackedStep(p, s, a, x.kid, x.advertised);
      } else {
        TrackedStep(p, s, a, s.cache.value.kid, s.cache.value.advertised);
      }
    }
  }

  lemma ApplyInv(p: Policy, s: State, a: Action)
    requires Inv(p, s) && Enabled(p, s, a)
    ensures Inv(p, Apply(p, s, a))
  {
    PostsStep(p, s, a);
    if s.cache.Some? { TrackedStep(p, s, a, s.cache.value.kid, s.cache.value.advertised); }
    if s.fetch.Some? && s.fetch.value.answer.Some? {
      TrackedStep(p, s, a, s.fetch.value.answer.value.0, s.fetch.value.answer.value.1);
    }
  }

  lemma InvIsSafe(p: Policy, s: State)
    requires Inv(p, s) && p.grace >= p.ttl + 2 * p.timeout
    ensures Safe(p, s)
  {
  }

  lemma {:induction false} ExecInv(p: Policy, s: State, acts: seq<Action>)
    requires Inv(p, s) && Feasible(p, s, acts)
    ensures Inv(p, Exec(p, s, acts))
    decreases |acts|
  {
    if acts != [] {
      ApplyInv(p, s, acts[0]);
      ExecInv(p, Apply(p, s, acts[0]), acts[1..]);
    }
  }

  // ---------------------------------------------------------------------
  // Less grace does not

  lemma Unroll(p: Policy, s: State, a: Action, rest: seq<Action>)
    requires Enabled(p, s, a) && Feasible(p, Apply(p, s, a), rest)
    ensures Feasible(p, s, [a] + rest) && Exec(p, s, [a] + rest) == Exec(p, Apply(p, s, a), rest)
  {
  }

  /** A list that was sent just before another key came first, and arrives as late as a call may take. */
  lemma LateList(p: Policy, s: State) returns (acts: seq<Action>)
    requires s == State(0, [0], map[], None, None, {})
    ensures Feasible(p, s, acts)
    ensures Exec(p, s, acts) == State(p.timeout, [1, 0], map[0 := 0], Some(Cache(0, p.timeout, 0)), None, {})
  {
    var s1 := Apply(p, s, FetchStart);
    var s2 := Apply(p, s1, FetchAnswer);
    var s3 := Apply(p, s2, Roll([1, 0]));
    var s4 := Apply(p, s3, Tick(p.timeout));
    Unroll(p, s4, FetchEnd, []);
    Unroll(p, s3, Tick(p.timeout), [FetchEnd] + []);
    acts := [Tick(p.timeout)] + ([FetchEnd] + []);
    Unroll(p, s2, Roll([1, 0]), acts);
    acts := [Roll([1, 0])] + acts;
    Unroll(p, s1, FetchAnswer, acts);
    acts := [FetchAnswer] + acts;
    Unroll(p, s, FetchStart, acts);
    acts := [FetchStart] + acts;
  }

  /** From there, a request sealed when the cache is about to expire, which arrives as late as a call may take. */
  lemma LateRequest(p: Policy, s: State) returns (acts: seq<Action>)
    requires p.grace < p.ttl + 2 * p.timeout
    requires s == State(p.timeout, [1, 0], map[0 := 0], Some(Cache(0, p.timeout, 0)), None, {})
    ensures Feasible(p, s, acts) && !Safe(p, Exec(p, s, acts))
  {
    var s1 := Apply(p, s, Tick(p.ttl));
    var s2 := Apply(p, s1, Seal);
    var s3 := Apply(p, s2, Tick(p.timeout));
    var s4 := Apply(p, s3, Roll([1]));
    var late := Post(0, p.timeout + p.ttl, 0);
    assert late in s4.posts && late.kid !in s4.order && s4.now <= late.sealed + p.timeout;
    Unroll(p, s3, Roll([1]), []);
    acts := [Roll([1])] + [];
    Unroll(p, s2, Tick(p.timeout), acts);
    acts := [Tick(p.timeout)] + acts;
    Unroll(p, s1, Seal, acts);
    acts := [Seal] + acts;
    Unroll(p, s, Tick(p.ttl), acts);
    acts := [Tick(p.ttl)] + acts;
  }

  lemma {:induction false} ExecConcat(p: Policy, s: State, a: seq<Action>, b: seq<Action>)
    requires Feasible(p, s, a) && Feasible(p, Exec(p, s, a), b)
    ensures Feasible(p, s, a + b) && Exec(p, s, a + b) == Exec(p, Exec(p, s, a), b)
    decreases |a|
  {
    if a == [] {
      assert a + b == b;
    } else {
      assert (a + b)[0] == a[0] && (a + b)[1..] == a[1..] + b;
      ExecConcat(p, Apply(p, s, a[0]), a[1..], b);
    }
  }

  /** The latest possible use of a key. */
  lemma LateUse(p: Policy) returns (s: State, acts: seq<Action>)
    requires p.grace < p.ttl + 2 * p.timeout
    ensures Initial(s) && Feasible(p, s, acts) && !Safe(p, Exec(p, s, acts))
  {
    s := State(0, [0], map[], None, None, {});
    var first := LateList(p, s);
    var second := LateRequest(p, Exec(p, s, first));
    ExecConcat(p, s, first, second);
    acts := first + second;
  }

  ghost predicate AlwaysSafe(p: Policy) {
    forall s, acts :: Initial(s) && Feasible(p, s, acts) ==> Safe(p, Exec(p, s, acts))
  }

  /** No run ever seals to, or has under way, a request for a key the brain has dropped -- exactly when
      the operator waits the cache lifetime plus two call timeouts before removing a key. */
  lemma SafeIffGraceCoversCacheAndCalls(p: Policy)
    ensures AlwaysSafe(p) <==> p.grace >= p.ttl + 2 * p.timeout
  {
    if p.grace >= p.ttl + 2 * p.timeout {
      forall s, acts | Initial(s) && Feasible(p, s, acts) ensures Safe(p, Exec(p, s, acts)) {
        ExecInv(p, s, acts);
        InvIsSafe(p, Exec(p, s, acts));
      }
    } else {
      var s, acts := LateUse(p);
    }
  }

  const SIGNED_KEYS_TTL: nat := 24 * 60 * 60
  const SIGNED_CALL_TIMEOUT: nat := 30

  /** The 24 hours of the documentation fall one minute short of that. */
  lemma DocumentedGraceIsShort()
    ensures !AlwaysSafe(Policy(SIGNED_KEYS_TTL, SIGNED_CALL_TIMEOUT, 24 * 60 * 60))
    ensures AlwaysSafe(Policy(SIGNED_KEYS_TTL, SIGNED_CALL_TIMEOUT, 24 * 60 * 60 + 60))
  {
    SafeIffGraceCoversCacheAndCalls(Policy(SIGNED_KEYS_TTL, SIGNED_CALL_TIMEOUT, 24 * 60 * 60));
    SafeIffGraceCoversCacheAndCalls(Policy(SIGNED_KEYS_TTL, SIGNED_CALL_TIMEOUT, 24 * 60 * 60 + 60));
  }
}
