/** The signed client's key cache and its single refetch (`internal/auth/signedclient.go`). */
module SignedClient {
  import opened Text

  const KEYS_TTL: int := 24 * 60 * 60
  const KEY_UNKNOWN: string := "hpke_key_unknown"

  const KEM: string := "dhkem-x25519-hkdf-sha256"
  const KDF: string := "hkdf-sha256"
  const AEAD: string := "aes-256-gcm"

  datatype PublicKey = PublicKey(kid: string, raw: string)

  /** One key of the brain's list; `raw` is the decoded key, if it decodes and is an X25519 point. */
  datatype Entry = Entry(kid: string, kem: string, kdf: string, aead: string, raw: Option<string>)

  datatype HttpError = HttpError(status: int, code: string)

  /** Why a call fails: the brain answered with an error, or something else went wrong. */
  datatype Failure = Http(error: HttpError) | Other

  /** What a GET of the key list comes to: nothing usable, a status other than 200, or a list whose
      signature and signer have been verified. */
  datatype KeysReply = NoReply | Refused(error: HttpError) | Listed(entries: seq<Entry>)

  /** `HTTPError.Permanent` */
  predicate Permanent(e: HttpError) {
    e.status == 400 || e.status == 401 || e.status == 403 || e.status == 404 || e.status == 412 || e.status == 413 || e.status == 415
  }

  predicate Usable(e: Entry, kidOf: string -> string) {
    e.kem == KEM && e.kdf == KDF && e.aead == AEAD && e.raw.Some? && kidOf(e.raw.value) == e.kid
  }

  /** The usable keys of a list, in its order. */
  function UsableKeys(entries: seq<Entry>, kidOf: string -> string): seq<PublicKey> {
    if entries == [] then []
    else
      var last := entries[|entries| - 1];
      UsableKeys(entries[..|entries| - 1], kidOf) + if Usable(last, kidOf) then [PublicKey(last.kid, last.raw.value)] else []
  }

  lemma {:induction false} UsableKeysMatch(entries: seq<Entry>, kidOf: string -> string)
    ensures forall k :: k in UsableKeys(entries, kidOf) ==>
              && kidOf(k.raw) == k.kid
              && exists i :: 0 <= i < |entries| && entries[i].kid == k.kid && Usable(entries[i], kidOf)
  {
    if entries != [] {
      var init, last := entries[..|entries| - 1], entries[|entries| - 1];
      UsableKeysMatch(init, kidOf);
      forall k | k in UsableKeys(entries, kidOf)
        ensures kidOf(k.raw) == k.kid && exists i :: 0 <= i < |entries| && entries[i].kid == k.kid && Usable(entries[i], kidOf)
      {
        if k in UsableKeys(init, kidOf) {
          var i :| 0 <= i < |init| && init[i].kid == k.kid && Usable(init[i], kidOf);
          assert entries[i] == init[i];
        } else {
          assert entries[|entries| - 1].kid == k.kid;
        }
      }
    }
  }

  lemma UsableIff(e: Entry, kidOf: string -> string)
    ensures Usable(e, kidOf) <==> e.kem == "dhkem-x25519-hkdf-sha256" && e.kdf == "hkdf-sha256" && e.aead == "aes-256-gcm"
                                  && e.raw.Some? && kidOf(e.raw.value) == e.kid
  {
  }

  predicate Rising(at: seq<nat>, n: nat) {
    (forall k :: 0 <= k < |at| ==> at[k] < n) && forall j, k :: 0 <= j < k < |at| ==> at[j] < at[k]
  }

  /** Key `k` is that of entry `at[k]`, and every usable entry is among these. */
  ghost predicate Picks(entries: seq<Entry>, kidOf: string -> string, keys: seq<PublicKey>, at: seq<nat>) {
    && |at| == |keys| && Rising(at, |entries|)
    && (forall k :: 0 <= k < |at| ==>
          Usable(entries[at[k]], kidOf) && keys[k] == PublicKey(entries[at[k]].kid, entries[at[k]].raw.value))
    && (forall i :: 0 <= i < |entries| && Usable(entries[i], kidOf) ==> exists k :: 0 <= k < |at| && at[k] == i)
  }

  lemma PicksNext(entries: seq<Entry>, init: seq<Entry>, last: Entry, kidOf: string -> string, keys: seq<PublicKey>, at: seq<nat>)
    requires entries == init + [last] && Picks(init, kidOf, keys, at)
    ensures !Usable(last, kidOf) ==> Picks(entries, kidOf, keys, at)
    ensures Usable(last, kidOf) ==> Picks(entries, kidOf, keys + [PublicKey(last.kid, last.raw.value)], at + [|init|])
  {
    assert forall i :: 0 <= i < |init| ==> entries[i] == init[i];
    if Usable(last, kidOf) {
      var more := at + [|init|];
      assert more[|at|] == |init| && forall k :: 0 <= k < |at| ==> more[k] == at[k];
    }
  }

  lemma UsableKeysNext(entries: seq<Entry>, init: seq<Entry>, last: Entry, kidOf: string -> string)
    requires entries == init + [last]
    ensures UsableKeys(entries, kidOf) == UsableKeys(init, kidOf) + if Usable(last, kidOf) then [PublicKey(last.kid, last.raw.value)] else []
  {
    assert entries[..|entries| - 1] == init;
  }

  /** The kept keys are those of the usable entries, all of them, in the order of the list. */
  lemma {:induction false} UsableKeysAre(entries: seq<Entry>, kidOf: string -> string) returns (at: seq<nat>)
    ensures Picks(entries, kidOf, UsableKeys(entries, kidOf), at)
    decreases |entries|
  {
    at := [];
    if entries != [] {
      var n := |entries| - 1;
      var init, last := entries[..n], entries[n];
      var keys := UsableKeys(init, kidOf);
      at := UsableKeysAre(init, kidOf);
      PicksNext(entries, init, last, kidOf, keys, at);
      UsableKeysNext(entries, init, last, kidOf);
      if Usable(last, kidOf) { at := at + [n]; } else { assert keys + [] == keys; }
    }
  }

  /** The first usable entry of a list. */
  predicate FirstUsable(entries: seq<Entry>, kidOf: string -> string, i: nat) {
    i < |entries| && Usable(entries[i], kidOf) && forall j :: 0 <= j < i ==> !Usable(entries[j], kidOf)
  }

  /** The key that requests are sealed to after a fetch is that of the first usable entry. */
  lemma ActiveKeyIsFirst(entries: seq<Entry>, kidOf: string -> string, i: nat)
    requires FirstUsable(entries, kidOf, i)
    ensures UsableKeys(entries, kidOf) != [] && UsableKeys(entries, kidOf)[0] == PublicKey(entries[i].kid, entries[i].raw.value)
  {
    var at := UsableKeysAre(entries, kidOf);
    var k :| 0 <= k < |at| && at[k] == i;
    assert at[0] <= at[k];
  }

  /** The brain while one attempt runs: what it answers to a key fetch, which keys it holds when the
      request arrives, an error it may raise before it looks for the key, and its answer after that. */
  datatype Brain = Brain(reply: KeysReply, held: set<string>, early: Option<HttpError>, answer: Option<Failure>)

  /** The outcome of a request sealed to `kid`; nothing stands for success. */
  ghost function PostReply(b: Brain, kid: string): Option<Failure> {
    if b.early.Some? then Some(Http(b.early.value))
    else if kid !in b.held then Some(Http(HttpError(400, KEY_UNKNOWN)))
    else b.answer
  }

  ghost predicate SaysUnknown(f: Option<Failure>) { f.Some? && f.value.Http? && f.value.error.code == KEY_UNKNOWN }

  // ---------------------------------------------------------------------
  // What the client does, on values

  datatype Cache = Cache(keys: seq<PublicKey>, fetched: int)

  /** Every cached key carries its own id. */
  ghost predicate Genuine(c: Cache, kidOf: string -> string) {
    forall i :: 0 <= i < |c.keys| ==> kidOf(c.keys[i].raw) == c.keys[i].kid
  }

  /** A fetch succeeds when a verified list has a usable key. */
  predicate Fetchable(reply: KeysReply, kidOf: string -> string) {
    reply.Listed? && UsableKeys(reply.entries, kidOf) != []
  }

  function FetchFailure(reply: KeysReply): Failure { if reply.Refused? then Http(reply.error) else Other }

  /** Does `activeKey` have to fetch? */
  predicate Stale(c: Cache, refresh: bool, now: int) {
    refresh || c.keys == [] || now - c.fetched > KEYS_TTL
  }

  /** The cache after `activeKey`. */
  function Refreshed(c: Cache, refresh: bool, now: int, reply: KeysReply, kidOf: string -> string): Cache {
    if Stale(c, refresh, now) && Fetchable(reply, kidOf) then Cache(UsableKeys(reply.entries, kidOf), now) else c
  }

  /** An attempt or a whole call: the cache it leaves, its outcome, the key ids of the requests it sent
      and the number of fetches. */
  datatype Run = Run(cache: Cache, err: Option<Failure>, posted: seq<string>, fetches: nat)

  ghost function Attempt(c: Cache, refresh: bool, now: int, b: Brain, kidOf: string -> string): Run {
    var next := Refreshed(c, refresh, now, b.reply, kidOf);
    var fetches := if Stale(c, refresh, now) then 1 else 0;
    if Stale(c, refresh, now) && !Fetchable(b.reply, kidOf) then Run(next, Some(FetchFailure(b.reply)), [], fetches)
    else Run(next, PostReply(b, next.keys[0].kid), [next.keys[0].kid], fetches)
  }

  ghost function Whole(c: Cache, now1: int, first: Brain, now2: int, second: Brain, kidOf: string -> string): Run {
    var one := Attempt(c, false, now1, first, kidOf);
    if !SaysUnknown(one.err) then one
    else
      var two := Attempt(one.cache, true, now2, second, kidOf);
      Run(two.cache, two.err, one.posted + two.posted, one.fetches + two.fetches)
  }

  class SignedClient {
    const kidOf: string -> string
    var keys: seq<PublicKey>
    var fetched: int
    /** How often the key list was fetched. */
    ghost var fetches: nat
    /** The key ids of all the requests that were sent, in order. */
    ghost var posted: seq<string>

    ghost function View(): Cache
      reads this
    {
      Cache(keys, fetched)
    }

    constructor (kidOf: string -> string)
      ensures keys == [] && this.kidOf == kidOf && fetches == 0 && posted == []
    {
      this.kidOf := kidOf;
      keys, fetched := [], 0;
      fetches, posted := 0, [];
    }

    /** `fetchKeysLocked`: a usable list replaces the cache, anything else leaves it as it was. */
    method FetchKeys(reply: KeysReply, now: int) returns (err: Option<Failure>)
      modifies this
      ensures err == if Fetchable(reply, kidOf) then None else Some(FetchFailure(reply))
      ensures View() == if Fetchable(reply, kidOf) then Cache(UsableKeys(reply.entries, kidOf), now) else old(View())
      ensures fetches == old(fetches) + 1 && posted == old(posted)
    {
      fetches := fetches + 1;
      if reply.NoReply? { return Some(Other); }
      if reply.Refused? { return Some(Http(reply.error)); }
      var usable: seq<PublicKey> := [];
      for i := 0 to |reply.entries|
        invariant usable == UsableKeys(reply.entries[..i], kidOf)
        invariant View() == old(View()) && fetches == old(fetches) + 1 && posted == old(posted)
      {
        var k := reply.entries[i];
        assert reply.entries[..i + 1][..i] == reply.entries[..i] && reply.entries[..i + 1][i] == k;
        if k.kem != KEM || k.kdf != KDF || k.aead != AEAD { continue; }
        if k.raw.None? || kidOf(k.raw.value) != k.kid { continue; }
        usable := usable + [PublicKey(k.kid, k.raw.value)];
      }
      assert reply.entries[..|reply.entries|] == reply.entries;
      if |usable| == 0 { return Some(Other); }
      keys := usable;
      fetched := now;
      return None;
    }

    /** `activeKey`: the first key of the cache, after a fetch when that is asked for or the cache is
        missing or too old.  The index is always in range. */
    method ActiveKey(refresh: bool, now: int, reply: KeysReply) returns (key: Result<PublicKey, Failure>)
      modifies this
      ensures View() == Refreshed(old(View()), refresh, now, reply, kidOf)
      ensures fetches == old(fetches) + (if Stale(old(View()), refresh, now) then 1 else 0) && posted == old(posted)
      ensures key.Err? <==> Stale(old(View()), refresh, now) && !Fetchable(reply, kidOf)
      ensures key.Err? ==> key.error == FetchFailure(reply)
      ensures key.Ok? ==> keys != [] && key.value == keys[0]
      ensures var fetch := refresh || |old(keys)| == 0 || now - old(fetched) > 86400;
              && fetches == old(fetches) + (if fetch then 1 else 0)
              && (!fetch ==> key == Ok(old(keys)[0]))
              && (fetch && reply.Listed? ==> forall i: nat :: FirstUsable(reply.entries, kidOf, i) ==>
                    key == Ok(PublicKey(reply.entries[i].kid, reply.entries[i].raw.value)) && fetched == now)
    {
      if reply.Listed? {
        forall i: nat | FirstUsable(reply.entries, kidOf, i)
          ensures UsableKeys(reply.entries, kidOf) != [] && UsableKeys(reply.entries, kidOf)[0] == PublicKey(reply.entries[i].kid, reply.entries[i].raw.value)
        {
          ActiveKeyIsFirst(reply.entries, kidOf, i);
        }
      }
      if refresh || |keys| == 0 || now - fetched > KEYS_TTL {
        var err := FetchKeys(reply, now);
        if err.Some? { return Err(err.value); }
      }
      return Ok(keys[0]);
    }

    /** The request itself, sealed to `kid`. */
    method Post(b: Brain, kid: string) returns (err: Option<Failure>)
      modifies this`posted
      ensures err == PostReply(b, kid) && posted == old(posted) + [kid]
    {
      posted := posted + [kid];
      if b.early.Some? { return Some(Http(b.early.value)); }
      if kid !in b.held { return Some(Http(HttpError(400, KEY_UNKNOWN))); }
      return b.answer;
    }

    /** `once`: fetch if needed, seal to the active key, post. */
    method Once(refresh: bool, now: int, brain: Brain) returns (err: Option<Failure>)
      modifies this
      ensures var run := Attempt(old(View()), refresh, now, brain, kidOf);
              && err == run.err && View() == run.cache
              && posted == old(posted) + run.posted && fetches == old(fetches) + run.fetches
    {
      var key := ActiveKey(refresh, now, brain.reply);
      if key.Err? { return Some(key.error); }
      err := Post(brain, key.value.kid);
    }

    /** `call`: one attempt, and one more with fresh keys when the brain does not know the key. */
    method Call(now1: int, first: Brain, now2: int, second: Brain) returns (err: Option<Failure>)
      modifies this
      ensures var run := Whole(old(View()), now1, first, now2, second, kidOf);
              && err == run.err && View() == run.cache
              && posted == old(posted) + run.posted && fetches == old(fetches) + run.fetches
      ensures |posted| <= |old(posted)| + 2 && fetches <= old(fetches) + 2
    {
      err := Once(false, now1, first);
      if err.Some? && err.value.Http? && err.value.error.code == KEY_UNKNOWN {
        err := Once(true, now2, second);
      }
    }
  }

  // ---------------------------------------------------------------------
  // What holds of every call

  /** A call sends at most two requests and fetches at most twice, the second request only after the
      brain did not know the key of the first; it succeeds only if the last request did, and every
      request goes to a key of the cache whose id belongs to it. */
  lemma CallBounds(c: Cache, now1: int, first: Brain, now2: int, second: Brain, kidOf: string -> string)
    requires Genuine(c, kidOf)
    ensures var r := Whole(c, now1, first, now2, second, kidOf);
            && |r.posted| <= 2 && r.fetches <= 2 && Genuine(r.cache, kidOf)
            && (|r.posted| == 2 ==> SaysUnknown(PostReply(first, r.posted[0])) && r.err == PostReply(second, r.posted[1]))
            && (r.err.None? ==> |r.posted| > 0)
            && (r.posted == [] ==> r.cache == c)
  {
    var one := Attempt(c, false, now1, first, kidOf);
    AttemptGenuine(c, false, now1, first, kidOf);
    if SaysUnknown(one.err) { AttemptGenuine(one.cache, true, now2, second, kidOf); }
  }

  lemma AttemptGenuine(c: Cache, refresh: bool, now: int, b: Brain, kidOf: string -> string)
    requires Genuine(c, kidOf)
    ensures Genuine(Attempt(c, refresh, now, b, kidOf).cache, kidOf)
  {
    var next := Refreshed(c, refresh, now, b.reply, kidOf);
    if next != c {
      UsableKeysMatch(b.reply.entries, kidOf);
      forall i | 0 <= i < |next.keys| ensures kidOf(next.keys[i].raw) == next.keys[i].kid {
        assert next.keys[i] in UsableKeys(b.reply.entries, kidOf);
      }
    }
  }

  /** A brain that lists only keys it holds, at least one of them usable. */
  ghost predicate Consistent(b: Brain, kidOf: string -> string) {
    Fetchable(b.reply, kidOf) && forall i :: 0 <= i < |b.reply.entries| ==> b.reply.entries[i].kid in b.held
  }

  /** Whatever happened to the keys before, if the brain is consistent from the retry on, a call that was
      told that its key is unknown recovers: the second request is sealed to a key the brain holds, so
      the outcome is the brain's own answer. */
  lemma CallRecovers(c: Cache, now1: int, first: Brain, now2: int, second: Brain, kidOf: string -> string)
    requires SaysUnknown(Attempt(c, false, now1, first, kidOf).err) && Consistent(second, kidOf)
    ensures var r := Whole(c, now1, first, now2, second, kidOf);
            && r.posted != [] && r.posted[|r.posted| - 1] in second.held
            && r.err == (if second.early.Some? then Some(Http(second.early.value)) else second.answer)
            && r.fetches == Attempt(c, false, now1, first, kidOf).fetches + 1
  {
    var keys := UsableKeys(second.reply.entries, kidOf);
    UsableKeysMatch(second.reply.entries, kidOf);
    assert keys[0] in keys;
    var i :| 0 <= i < |second.reply.entries| && second.reply.entries[i].kid == keys[0].kid && Usable(second.reply.entries[i], kidOf);
  }

  /** In particular when the brain dropped the cached key at any moment before the first request. */
  lemma DroppedKeyIsDetected(c: Cache, now1: int, first: Brain, kidOf: string -> string)
    requires !Stale(c, false, now1) && first.early.None? && c.keys[0].kid !in first.held
    ensures SaysUnknown(Attempt(c, false, now1, first, kidOf).err)
  {
  }

  /** A second attempt is made exactly after an error with that code, and only then. */
  lemma RetriedIffUnknown(c: Cache, now1: int, first: Brain, now2: int, second: Brain, kidOf: string -> string)
    ensures var one, whole := Attempt(c, false, now1, first, kidOf), Whole(c, now1, first, now2, second, kidOf);
            if one.err.Some? && one.err.value.Http? && one.err.value.error.code == "hpke_key_unknown" then
              var two := Attempt(one.cache, true, now2, second, kidOf);
              whole == Run(two.cache, two.err, one.posted + two.posted, one.fetches + two.fetches)
            else whole == one
  {
  }

  /** The brain holds the key of the request, has nothing against it beforehand and accepts it. */
  predicate Grants(b: Brain, kid: string) { b.early.None? && kid in b.held && b.answer.None? }

  /** The brain answers that it does not know the key, or raises an error with that code. */
  predicate Disowns(b: Brain, kid: string) {
    if b.early.Some? then b.early.value.code == "hpke_key_unknown"
    else if kid !in b.held then true
    else b.answer.Some? && b.answer.value.Http? && b.answer.value.error.code == "hpke_key_unknown"
  }

  /** A key fetch that is refused with that code. */
  predicate FetchDisowned(reply: KeysReply) { reply.Refused? && reply.error.code == "hpke_key_unknown" }

  /** When a call succeeds, from the cache and the brain alone: the first request is granted, or it is disowned
      (or the key fetch is) and the one to the first key of a fresh list is granted. */
  lemma SucceedsIff(c: Cache, now1: int, first: Brain, now2: int, second: Brain, kidOf: string -> string)
    ensures var fetch := c.keys == [] || now1 - c.fetched > 86400;
            var fetched := first.reply.Listed? && UsableKeys(first.reply.entries, kidOf) != [];
            var sent := !fetch || fetched;
            var kid := if !fetch then c.keys[0].kid else if fetched then UsableKeys(first.reply.entries, kidOf)[0].kid else "";
            var again := second.reply.Listed? && UsableKeys(second.reply.entries, kidOf) != []
                         && Grants(second, UsableKeys(second.reply.entries, kidOf)[0].kid);
            Whole(c, now1, first, now2, second, kidOf).err.None? <==>
              if sent then Grants(first, kid) || (Disowns(first, kid) && again) else FetchDisowned(first.reply) && again
  {
  }
}
