/** The sealed envelope (`internal/auth/sealed.go`): a request bound to its path and freshness headers
    with HPKE (section 5 of RFC 9180), a response under a key exported from the same context. */
module Sealed {
  import opened Text
  import opened Decimal

  const VERSION: char := 1 as char
  const ENC_SIZE: nat := 32
  const NONCE_SIZE: nat := 12

  type PrivateKey = nat
  type Context = string

  /** HPKE and AES-256-GCM. */
  datatype Suite = Suite(
    public: PrivateKey -> string,
    encap: (string, string, nat) -> Option<(string, Context)>,  // public key, info, randomness
    decap: (string, PrivateKey, string) -> Option<Context>,     // enc, private key, info
    seal: (Context, string, string) -> string,                  // aad, plaintext
    open: (Context, string, string) -> Option<string>,          // aad, ciphertext
    responseKey: Context -> string,
    gcmSeal: (string, string, string) -> string,                // key, nonce, plaintext
    gcmOpen: (string, string, string) -> Option<string>)

  /** Both sides of an exchange agree. */
  ghost predicate Correct(s: Suite) {
    && (forall pub: string, info: string, rnd: nat :: s.encap(pub, info, rnd).Some? ==> |s.encap(pub, info, rnd).value.0| == ENC_SIZE)
    && (forall k: PrivateKey, info: string, rnd: nat {:trigger s.encap(s.public(k), info, rnd)} ::
          s.encap(s.public(k), info, rnd).Some? ==>
            s.decap(s.encap(s.public(k), info, rnd).value.0, k, info) == Some(s.encap(s.public(k), info, rnd).value.1))
    && (forall c: Context, aad: string, pt: string :: s.open(c, aad, s.seal(c, aad, pt)) == Some(pt))
    && (forall key: string, n: string, pt: string :: s.gcmOpen(key, n, s.gcmSeal(key, n, pt)) == Some(pt))
  }

  /** Ideal HPKE: a ciphertext opens only in its own context and with its own aad, and a context
      belongs to one info string. */
  ghost predicate Ideal(s: Suite) {
    && (forall c: Context, c': Context, aad: string, aad': string, pt: string {:trigger s.open(c', aad', s.seal(c, aad, pt))} ::
          s.open(c', aad', s.seal(c, aad, pt)).Some? ==> c' == c && aad' == aad)
    && (forall pub: string, info: string, rnd: nat, enc: string, k: PrivateKey, info': string {:trigger s.encap(pub, info, rnd), s.decap(enc, k, info')} ::
          s.encap(pub, info, rnd).Some? && s.decap(enc, k, info') == Some(s.encap(pub, info, rnd).value.1) ==> info' == info)
  }

  function Info(path: string): string { "muthur/v1 " + path }

  /** `sealAAD` */
  function Aad(timestamp: string, nonce: string): string { timestamp + ['\n'] + nonce }

  /** The aad determines both headers when the timestamps, or one side entirely, have no line end. */
  lemma AadInjective(t: string, n: string, t': string, n': string)
    requires Aad(t, n) == Aad(t', n')
    requires '\n' !in t && ('\n' !in t' || '\n' !in n)
    ensures t == t' && n == n'
  {
    CutHead(t, '\n', n);
    if '\n' in t' {
      var (a, b) := Cut(t', '\n').value;
      assert t' + ['\n'] + n' == a + ['\n'] + (b + ['\n'] + n');
      CutHead(a, '\n', b + ['\n'] + n');
    } else {
      CutHead(t', '\n', n');
    }
  }

  /** The exact condition: no other headers have the same aad if and only if neither has a line end. */
  lemma AadOnlyReading(t: string, n: string)
    ensures (forall t': string, n': string :: Aad(t', n') == Aad(t, n) ==> t' == t && n' == n) <==> '\n' !in t && '\n' !in n
  {
    if '\n' in t {
      var (a, b) := Cut(t, '\n').value;
      assert Aad(a, b + ['\n'] + n) == Aad(t, n) && |a| < |t|;
    } else if '\n' in n {
      var (a, b) := Cut(n, '\n').value;
      assert Aad(t + ['\n'] + a, b) == Aad(t, n) && |b| < |n|;
    } else {
      forall t': string, n': string | Aad(t', n') == Aad(t, n) ensures t' == t && n' == n {
        AadInjective(t, n, t', n');
      }
    }
  }

  datatype Error = UnknownKey | MalformedBody

  /** `SealRequest`: the body and the key of the matching response. */
  function SealRequest(s: Suite, pub: string, path: string, timestamp: string, nonce: string, pt: string, rnd: nat): Option<(string, string)> {
    match s.encap(pub, Info(path), rnd)
    case None => None
    case Some((enc, ctx)) => Some(([VERSION] + enc + s.seal(ctx, Aad(timestamp, nonce), pt), s.responseKey(ctx)))
  }

  /** `OpenRequest`: the plaintext and the key of the response. */
  function OpenRequest(s: Suite, keys: map<string, PrivateKey>, kid: string, path: string, timestamp: string, nonce: string, body: string)
    : Result<(string, string), Error>
  {
    if kid !in keys then Err(UnknownKey)
    else if |body| < 1 + ENC_SIZE || body[0] != VERSION then Err(MalformedBody)
    else match s.decap(body[1..1 + ENC_SIZE], keys[kid], Info(path))
         case None => Err(MalformedBody)
         case Some(ctx) =>
           match s.open(ctx, Aad(timestamp, nonce), body[1 + ENC_SIZE..])
           case None => Err(MalformedBody)
           case Some(pt) => Ok((pt, s.responseKey(ctx)))
  }

  /** `ResponseSealer.Seal` */
  function SealResponse(s: Suite, key: string, nonce: string, pt: string): string {
    [VERSION] + nonce + s.gcmSeal(key, nonce, pt)
  }

  /** `ResponseOpener.Open` */
  function OpenResponse(s: Suite, key: string, body: string): Option<string> {
    if |body| < 1 + NONCE_SIZE || body[0] != VERSION then None
    else s.gcmOpen(key, body[1..1 + NONCE_SIZE], body[1 + NONCE_SIZE..])
  }

  lemma BodyParts(enc: string, ct: string, n: nat)
    requires |enc| == n
    ensures var body := [VERSION] + enc + ct;
            |body| >= 1 + n && body[0] == VERSION && body[1..1 + n] == enc && body[1 + n..] == ct
  {
  }

  /** Opening undoes sealing for every plaintext, and a response sealed by the opener's side is out
      by the sealer's side: the two hold the same response key. */
  lemma ExchangeRoundTrip(s: Suite, keys: map<string, PrivateKey>, kid: string, path: string, timestamp: string, nonce: string,
                          pt: string, rnd: nat, answer: string, gcmNonce: string)
    requires Correct(s) && kid in keys && |gcmNonce| == NONCE_SIZE
    requires SealRequest(s, s.public(keys[kid]), path, timestamp, nonce, pt, rnd).Some?
    ensures var (body, clientKey) := SealRequest(s, s.public(keys[kid]), path, timestamp, nonce, pt, rnd).value;
            var out := OpenRequest(s, keys, kid, path, timestamp, nonce, body);
            && out.Ok? && out.value.0 == pt
            && OpenResponse(s, clientKey, SealResponse(s, out.value.1, gcmNonce, answer)) == Some(answer)
  {
  }

  /** An envelope whose timestamp has no line end opens for no other path, nor for another timestamp or
      nonce unless those of both sides have line ends, under any key id of any key set; if it opens, it
      opens to what was sealed. */
  lemma EnvelopeIsBound(s: Suite, pub: string, path: string, timestamp: string, nonce: string, pt: string, rnd: nat,
                        keys: map<string, PrivateKey>, kid: string, path': string, timestamp': string, nonce': string)
    requires Correct(s) && Ideal(s) && '\n' !in timestamp && ('\n' !in timestamp' || '\n' !in nonce)
    requires SealRequest(s, pub, path, timestamp, nonce, pt, rnd).Some?
    requires OpenRequest(s, keys, kid, path', timestamp', nonce', SealRequest(s, pub, path, timestamp, nonce, pt, rnd).value.0).Ok?
    ensures path' == path && timestamp' == timestamp && nonce' == nonce
    ensures OpenRequest(s, keys, kid, path', timestamp', nonce', SealRequest(s, pub, path, timestamp, nonce, pt, rnd).value.0).value
         == (pt, SealRequest(s, pub, path, timestamp, nonce, pt, rnd).value.1)
  {
    var (enc, ctx) := s.encap(pub, Info(path), rnd).value;
    var ct := s.seal(ctx, Aad(timestamp, nonce), pt);
    BodyParts(enc, ct, ENC_SIZE);
    var ctx' := s.decap(enc, keys[kid], Info(path')).value;
    assert s.open(ctx', Aad(timestamp', nonce'), ct).Some?;
    AadInjective(timestamp, nonce, timestamp', nonce');
    assert Info(path')[10..] == path' && Info(path)[10..] == path;
  }

  /** What is sent: the version, the encapsulated key and the ciphertext, for the path and the two headers. */
  lemma SealedText(s: Suite, pub: string, path: string, timestamp: string, nonce: string, pt: string, rnd: nat)
    ensures var context := s.encap(pub, "muthur/v1 " + path, rnd);
            var out := SealRequest(s, pub, path, timestamp, nonce, pt, rnd);
            && (out.Some? <==> context.Some?)
            && (context.Some? ==>
                  var (enc, ctx) := context.value;
                  out.value == ([1 as char] + enc + s.seal(ctx, timestamp + ['\n'] + nonce, pt), s.responseKey(ctx)))
  {
  }

  /** Which request is refused why: a key id that is not held comes first, then a body that is too short or of
      another version, or that does not open. */
  lemma OpenErrors(s: Suite, keys: map<string, PrivateKey>, kid: string, path: string, timestamp: string, nonce: string, body: string)
    ensures var r := OpenRequest(s, keys, kid, path, timestamp, nonce, body);
            && (r == Err(UnknownKey) <==> kid !in keys)
            && (kid in keys && (|body| < 33 || body[0] != 1 as char) ==> r == Err(MalformedBody))
            && (r.Err? && kid in keys ==> r.error == MalformedBody)
  {
  }

  /** The response: the version, a nonce and the ciphertext; anything shorter or of another version is refused. */
  lemma ResponseText(s: Suite, key: string, nonce: string, pt: string, body: string)
    ensures SealResponse(s, key, nonce, pt) == [1 as char] + nonce + s.gcmSeal(key, nonce, pt)
    ensures |body| < 13 || body[0] != 1 as char ==> OpenResponse(s, key, body).None?
  {
  }

  /** The exact condition: a sealed request opens for no other timestamp and nonce if and only if neither of
      its own has a line end. */
  lemma EnvelopeBoundIff(s: Suite, keys: map<string, PrivateKey>, kid: string, path: string, timestamp: string, nonce: string, pt: string, rnd: nat)
    requires Correct(s) && Ideal(s) && kid in keys
    requires SealRequest(s, s.public(keys[kid]), path, timestamp, nonce, pt, rnd).Some?
    ensures var body := SealRequest(s, s.public(keys[kid]), path, timestamp, nonce, pt, rnd).value.0;
            (forall t': string, n': string :: OpenRequest(s, keys, kid, path, t', n', body).Ok? ==> t' == timestamp && n' == nonce)
            <==> '\n' !in timestamp && '\n' !in nonce
  {
    var (enc, ctx) := s.encap(s.public(keys[kid]), Info(path), rnd).value;
    var ct := s.seal(ctx, Aad(timestamp, nonce), pt);
    BodyParts(enc, ct, ENC_SIZE);
    forall t': string, n': string
      ensures OpenRequest(s, keys, kid, path, t', n', [VERSION] + enc + ct).Ok? <==> Aad(t', n') == Aad(timestamp, nonce)
    {
      assert s.open(ctx, Aad(t', n'), ct).Some? <==> Aad(t', n') == Aad(timestamp, nonce);
    }
    AadOnlyReading(timestamp, nonce);
  }

  // ---------------------------------------------------------------------
  // The assumed laws can be met

  /** A self-delimiting prefix for a context and an aad. */
  function Tag(ctx: Context, aad: string): string {
    FormatNat(|ctx|) + [':'] + (FormatNat(|aad|) + [':'] + (ctx + aad))
  }

  lemma {:induction false} TagIsPrefixFree(c: Context, aad: string, c': Context, aad': string, rest: string, rest': string)
    requires Tag(c, aad) + rest == Tag(c', aad') + rest'
    ensures c == c' && aad == aad'
  {
    Unfolded(c, aad, rest);
    Unfolded(c', aad', rest');
    NumberFirst(|c|, FormatNat(|aad|) + [':'] + (c + aad + rest), |c'|, FormatNat(|aad'|) + [':'] + (c' + aad' + rest'));
    NumberFirst(|aad|, c + aad + rest, |aad'|, c' + aad' + rest');
    assert (c + aad + rest)[..|c|] == c && (c' + aad' + rest')[..|c|] == c';
    assert (c + aad + rest)[|c|..|c| + |aad|] == aad && (c' + aad' + rest')[|c|..|c| + |aad|] == aad';
  }

  lemma NumberFirst(n: nat, x: string, n': nat, x': string)
    requires FormatNat(n) + [':'] + x == FormatNat(n') + [':'] + x'
    ensures n == n' && x == x'
  {
    CutHead(FormatNat(n), ':', x);
    CutHead(FormatNat(n'), ':', x');
    NatRoundTrip(n);
    NatRoundTrip(n');
  }

  lemma Unfolded(c: Context, aad: string, rest: string)
    ensures Tag(c, aad) + rest == FormatNat(|c|) + [':'] + (FormatNat(|aad|) + [':'] + (c + aad + rest))
  {
  }

  function Strip(ct: string, tag: string): Option<string> {
    if tag <= ct then Some(ct[|tag|..]) else None
  }

  /** A suite that meets both the correctness laws and the ideal ones. */
  lemma SuiteExists() returns (s: Suite)
    ensures Correct(s) && Ideal(s)
  {
    s := Suite(
      (k: PrivateKey) => "",
      (pub: string, info: string, rnd: nat) => Some((seq(ENC_SIZE, i => 'e'), info)),
      (enc: string, k: PrivateKey, info: string) => Some(info),
      (c: Context, aad: string, pt: string) => Tag(c, aad) + pt,
      (c: Context, aad: string, ct: string) => Strip(ct, Tag(c, aad)),
      (c: Context) => "",
      (key: string, n: string, pt: string) => pt,
      (key: string, n: string, ct: string) => Some(ct));
    forall c: Context, aad: string, pt: string ensures s.open(c, aad, s.seal(c, aad, pt)) == Some(pt) {
      assert (Tag(c, aad) + pt)[|Tag(c, aad)|..] == pt;
    }
    forall c: Context, c': Context, aad: string, aad': string, pt: string | s.open(c', aad', s.seal(c, aad, pt)).Some?
      ensures c' == c && aad' == aad
    {
      var ct := s.seal(c, aad, pt);
      assert ct == Tag(c', aad') + ct[|Tag(c', aad')|..];
      TagIsPrefixFree(c, aad, c', aad', pt, ct[|Tag(c', aad')|..]);
    }
  }
}
