/** Signing and verifying requests (`internal/auth/httpsig.go`): the signature base of section 2.5 of
    RFC 9421 over a fixed component list.  SHA-256, ECDSA and base64 are parameters. */
module HttpSig {
  import opened Text
  import opened Decimal
  import opened SignatureParams

  // ---------------------------------------------------------------------
  // Headers, by lower-case name

  type Header = map<string, string>

  const DIGEST: string := "content-digest"
  const TIMESTAMP: string := "x-muthur-timestamp"
  const NONCE: string := "x-muthur-nonce"
  const CERT: string := "x-muthur-cert"
  const KID: string := "x-muthur-hpke-kid"
  const INPUT: string := "signature-input"
  const SIGNATURE: string := "signature"

  function Get(h: Header, name: string): string { if name in h then h[name] else "" }

  /** `strings.ToUpper` on ASCII. */
  function ToUpper(s: string): (r: string)
    ensures |r| == |s|
  {
    seq(|s|, i requires 0 <= i < |s| => Upper(s[i]))
  }

  // ---------------------------------------------------------------------
  // The signature base

  /** The value of a component: derived for the first two, else the trimmed header. */
  function Value(method_: string, path: string, h: Header, name: string): string {
    if name == "@method" then ToUpper(method_)
    else if name == "@path" then path
    else TrimSpace(Get(h, name))
  }

  /** The values of a list of components. */
  function ValuesOf(names: seq<string>, method_: string, path: string, h: Header): (vals: seq<string>)
    ensures |vals| == |names|
    ensures forall i :: 0 <= i < |vals| ==> vals[i] == Value(method_, path, h, names[i])
  {
    seq(|names|, i requires 0 <= i < |names| => Value(method_, path, h, names[i]))
  }

  function Values(method_: string, path: string, h: Header): seq<string> { ValuesOf(Components(), method_, path, h) }

  /** One `"name": value` line per entry, the last one without a line end. */
  function Lines(names: seq<string>, vals: seq<string>): string
    requires |names| == |vals| > 0
    decreases |names|
  {
    if |names| == 1 then Label(names[0]) + vals[0]
    else Label(names[0]) + vals[0] + ['\n'] + Lines(names[1..], vals[1..])
  }

  function Label(name: string): string { Quote(name) + ": " }

  /** The components and, after them, the signature parameters. */
  function Names(): seq<string> { Components() + ["@signature-params"] }

  function Base(method_: string, path: string, h: Header, params: string): string {
    Lines(Names(), Values(method_, path, h) + [params])
  }

  lemma LinesStep(names: seq<string>, vals: seq<string>, i: nat, b: string)
    requires i + 1 < |names| == |vals|
    ensures b + Lines(names[i..], vals[i..])
         == b + (Label(names[i]) + vals[i] + ['\n']) + Lines(names[i + 1..], vals[i + 1..])
  {
  }

  /** The loop of `SignatureBase` over any component list. */
  method BaseOver(names: seq<string>, last: string, method_: string, path: string, h: Header, params: string) returns (b: string)
    ensures b == Lines(names + [last], ValuesOf(names, method_, path, h) + [params])
  {
    ghost var vals := ValuesOf(names, method_, path, h) + [params];
    ghost var all := names + [last];
    b := "";
    assert all[0..] == all && vals[0..] == vals;
    for i := 0 to |names|
      invariant Lines(all, vals) == b + Lines(all[i..], vals[i..])
    {
      LinesStep(all, vals, i, b);
      var v: string;
      if names[i] == "@method" {
        v := ToUpper(method_);
      } else if names[i] == "@path" {
        v := path;
      } else {
        v := TrimSpace(Get(h, names[i]));
      }
      b := b + (Label(names[i]) + v + ['\n']);
    }
    b := b + (Label(last) + params);
  }

  /** `SignatureBase` */
  method SignatureBase(method_: string, path: string, h: Header, params: string) returns (b: string)
    ensures b == Base(method_, path, h, params)
  {
    b := BaseOver(Components(), "@signature-params", method_, path, h, params);
  }

  ghost predicate OneLine(s: string) { '\n' !in s }

  ghost predicate AllOneLine(ss: seq<string>) { forall i :: 0 <= i < |ss| ==> OneLine(ss[i]) }

  lemma LabelOneLine(name: string)
    ensures OneLine(name) ==> OneLine(Label(name))
  {
    assert OneLine("\"") && OneLine(": ");
  }

  lemma SamePrefix(p: string, x: string, y: string)
    requires p + x == p + y
    ensures x == y
  {
    assert (p + x)[|p|..] == x && (p + y)[|p|..] == y;
  }

  // ---------------------------------------------------------------------
  // How many readings a base has

  /** What separates the value before the entry `name` from the one after it. */
  function Sep(name: string): string { ['\n'] + Label(name) }

  predicate OccursAt(s: string, p: string, i: nat) { i + |p| <= |s| && s[i..i + |p|] == p }

  ghost predicate Contains(s: string, p: string) { exists i: nat :: OccursAt(s, p, i) }

  /** Entry `j` or the one after it contains the separator between the two. */
  ghost predicate AmbiguousAt(names: seq<string>, vals: seq<string>, j: nat)
    requires |names| == |vals|
  {
    j + 1 < |names| && (Contains(vals[j], Sep(names[j + 1])) || Contains(vals[j + 1], Sep(names[j + 1])))
  }

  ghost predicate Ambiguous(names: seq<string>, vals: seq<string>)
    requires |names| == |vals|
  {
    exists j: nat :: AmbiguousAt(names, vals, j)
  }

  /** No other values give the same lines. */
  ghost predicate OnlyReading(names: seq<string>, vals: seq<string>)
    requires |names| == |vals| > 0
  {
    forall vals' :: |vals'| == |names| && Lines(names, vals') == Lines(names, vals) ==> vals' == vals
  }

  /** The longer of two tails that begin with a line end ends in the shorter. */
  lemma SameTail(a: string, r: string, b: string, q: string)
    requires a + (['\n'] + r) == b + (['\n'] + q) && |q| < |r|
    ensures r == r[..|r| - |q| - 1] + ['\n'] + q
  {
    var s, n := a + (['\n'] + r), |q| + 1;
    assert s[|s| - n..] == ['\n'] + q && s[|s| - n..] == r[|r| - n..];
  }

  /** A separator that lies between the label and the end of a value lies in the value. */
  lemma InValue(head: string, v: string, rest: string, x: string, alt: string)
    requires head + v + rest == x + (['\n'] + head) + alt && |head| <= |x| && |x| + 1 + |head| <= |head| + |v|
    ensures Contains(v, ['\n'] + head)
  {
    var s, i := head + v + rest, |x| - |head|;
    assert s[|x|..|x| + 1 + |head|] == ['\n'] + head;
    assert s[|x|..|x| + 1 + |head|] == v[i..i + 1 + |head|];
    assert OccursAt(v, ['\n'] + head, i);
  }

  lemma NotInHead(head: string, rest: string, x: string, tail: string)
    requires OneLine(head) && head + rest == x + ['\n'] + tail
    ensures |head| <= |x|
  {
    assert forall i :: 0 <= i < |head| ==> (head + rest)[i] == head[i];
    assert (x + ['\n'] + tail)[|x|] == '\n';
  }

  /** All of the lines but the first label and value. */
  function After(names: seq<string>, vals: seq<string>): string
    requires |names| == |vals| > 0
  {
    if |names| == 1 then "" else ['\n'] + Lines(names[1..], vals[1..])
  }

  lemma FirstOut(names: seq<string>, vals: seq<string>)
    requires |names| == |vals| > 0
    ensures Lines(names, vals) == Label(names[0]) + vals[0] + After(names, vals)
  {
  }

  /** Lines that occur again inside lines of the same names: some value contains its own separator. */
  lemma {:induction false} LaterCut(names: seq<string>, vals: seq<string>, vals': seq<string>, x: string) returns (k: nat)
    requires |names| == |vals| == |vals'| > 0 && AllOneLine(names)
    requires Lines(names, vals) == x + ['\n'] + Lines(names, vals')
    ensures k < |names| && Contains(vals[k], Sep(names[k]))
    decreases |names|
  {
    var head, more, more' := Label(names[0]), After(names, vals), After(names, vals');
    LabelOneLine(names[0]);
    FirstOut(names, vals);
    FirstOut(names, vals');
    Regroup(head, vals[0], more, x, vals'[0], more');
    NotInHead(head, vals[0] + more, x, head + vals'[0] + more');
    if |more'| >= |more| {
      InValue(head, vals[0], more, x, vals'[0] + more');
      k := 0;
    } else {
      var rest, rest' := Lines(names[1..], vals[1..]), Lines(names[1..], vals'[1..]);
      SameTail(head + vals[0], rest, x + (['\n'] + head) + vals'[0], rest');
      k := LaterCut(names[1..], vals[1..], vals'[1..], rest[..|rest| - |rest'| - 1]);
      k := k + 1;
    }
  }

  lemma Regroup(head: string, v: string, more: string, x: string, v': string, more': string)
    requires head + v + more == x + ['\n'] + (head + v' + more')
    ensures head + (v + more) == x + ['\n'] + (head + v' + more')
    ensures head + v + more == x + (['\n'] + head) + (v' + more') == x + (['\n'] + head) + v' + more'
    ensures |more'| >= |more| ==> |x| + 1 + |head| <= |head| + |v|
  {
  }

  /** A shorter first value of another reading: the separator lies inside the first value. */
  lemma EarlierCut(v: string, rest: string, v': string, head: string, alt: string)
    requires v + ['\n'] + rest == v' + (['\n'] + head) + alt && |v'| < |v| && OneLine(head)
    ensures Contains(v, ['\n'] + head)
  {
    var s := v + ['\n'] + rest;
    assert s[|v'|..|v'| + 1 + |head|] == ['\n'] + head;
    assert s[|v|] == '\n' && forall k :: 0 <= k < |head| ==> s[|v'| + 1 + k] == head[k];
    assert |v'| + 1 + |head| <= |v| by {
      assert head == s[|v'| + 1..|v'| + 1 + |head|];
    }
    assert s[|v'|..|v'| + 1 + |head|] == v[|v'|..|v'| + 1 + |head|];
    assert OccursAt(v, ['\n'] + head, |v'|);
  }

  /** Two readings of the same lines: one of the values contains a separator next to it. */
  lemma {:induction false} OtherReading(names: seq<string>, vals: seq<string>, vals': seq<string>) returns (j: nat)
    requires |names| == |vals| == |vals'| > 0 && AllOneLine(names)
    requires Lines(names, vals) == Lines(names, vals') && vals != vals'
    ensures AmbiguousAt(names, vals, j)
    decreases |names|
  {
    j := 0;
    var head := Label(names[0]);
    if |names| == 1 {
      SamePrefix(head, vals[0], vals'[0]);
    } else {
      var rest, rest' := Lines(names[1..], vals[1..]), Lines(names[1..], vals'[1..]);
      assert Lines(names, vals) == head + (vals[0] + ['\n'] + rest) && Lines(names, vals') == head + (vals'[0] + ['\n'] + rest');
      SamePrefix(head, vals[0] + ['\n'] + rest, vals'[0] + ['\n'] + rest');
      j := ReadingStep(names, vals, vals');
    }
  }

  lemma {:induction false} ReadingStep(names: seq<string>, vals: seq<string>, vals': seq<string>) returns (j: nat)
    requires |names| == |vals| == |vals'| > 1 && AllOneLine(names) && vals != vals'
    requires vals[0] + ['\n'] + Lines(names[1..], vals[1..]) == vals'[0] + ['\n'] + Lines(names[1..], vals'[1..])
    ensures AmbiguousAt(names, vals, j)
    decreases |names|, 0
  {
    var v, v' := vals[0], vals'[0];
    var rest, rest' := Lines(names[1..], vals[1..]), Lines(names[1..], vals'[1..]);
    var text := v + ['\n'] + rest;
    if |v| == |v'| {
      assert v == text[..|v|] == v' && rest == text[|v| + 1..] == rest';
      assert vals == [v] + vals[1..] && vals' == [v'] + vals'[1..];
      j := OtherReading(names[1..], vals[1..], vals'[1..]);
      j := j + 1;
    } else if |v'| < |v| {
      var next := Label(names[1]);
      LabelOneLine(names[1]);
      var alt := rest'[|next|..];
      assert rest' == next + alt;
      assert text == v' + (['\n'] + next) + alt;
      EarlierCut(v, rest, v', next, alt);
      j := 0;
    } else {
      var x := v'[|v| + 1..];
      assert rest == text[|v| + 1..] == x + ['\n'] + rest';
      j := LaterCut(names[1..], vals[1..], vals'[1..], x);
    }
  }

  /** The part between two separators belongs to the value before the one or after the other. */
  lemma {:induction false} Shift(names: seq<string>, vals: seq<string>, j: nat, a: string, b: string, c: string)
    requires j + 1 < |names| == |vals|
    ensures Lines(names, vals[j := a + Sep(names[j + 1]) + b][j + 1 := c]) == Lines(names, vals[j := a][j + 1 := b + Sep(names[j + 1]) + c])
    decreases j
  {
    var sep := Sep(names[j + 1]);
    var one, two := vals[j := a + sep + b][j + 1 := c], vals[j := a][j + 1 := b + sep + c];
    if j == 0 {
      FirstOut(names[1..], one[1..]);
      FirstOut(names[1..], two[1..]);
      assert one[1..][1..] == two[1..][1..];
      Reassociate(a, b, c, Label(names[1]), After(names[1..], one[1..]));
    } else {
      Shift(names[1..], vals[1..], j - 1, a, b, c);
      assert one[1..] == vals[1..][j - 1 := a + sep + b][j := c] && two[1..] == vals[1..][j - 1 := a][j := b + sep + c];
    }
  }

  lemma Reassociate(a: string, b: string, c: string, next: string, rest: string)
    ensures var sep := ['\n'] + next;
            (a + sep + b) + ['\n'] + (next + c + rest) == a + ['\n'] + (next + (b + sep + c) + rest)
  {
  }

  lemma PartsOf(s: string, p: string) returns (a: string, b: string)
    requires Contains(s, p) && p != ""
    ensures s == a + p + b && |a| < |s| && |b| < |s|
  {
    var i: nat :| OccursAt(s, p, i);
    a, b := s[..i], s[i + |p|..];
  }

  lemma AnotherReading(names: seq<string>, vals: seq<string>, j: nat) returns (vals': seq<string>)
    requires |names| == |vals| > 0 && AmbiguousAt(names, vals, j)
    ensures |vals'| == |names| && vals' != vals && Lines(names, vals') == Lines(names, vals)
  {
    var sep := Sep(names[j + 1]);
    if Contains(vals[j], sep) {
      var a, b := PartsOf(vals[j], sep);
      vals' := vals[j := a][j + 1 := b + sep + vals[j + 1]];
      SameButMoved(names, vals, vals, vals', j, a, b, vals[j + 1]);
    } else {
      var b, c := PartsOf(vals[j + 1], sep);
      vals' := vals[j := vals[j] + sep + b][j + 1 := c];
      SameButMoved(names, vals, vals', vals, j, vals[j], b, c);
    }
  }

  lemma SameButMoved(names: seq<string>, vals: seq<string>, one: seq<string>, two: seq<string>, j: nat, a: string, b: string, c: string)
    requires j + 1 < |names| == |vals|
    requires one == vals[j := a + Sep(names[j + 1]) + b][j + 1 := c] && two == vals[j := a][j + 1 := b + Sep(names[j + 1]) + c]
    ensures one != two && Lines(names, one) == Lines(names, two)
  {
    Shift(names, vals, j, a, b, c);
    assert |two[j]| < |one[j]|;
  }

  /** The exact condition: lines have one reading if and only if no value contains the separator in front
      of it or behind it. */
  lemma OnlyReadingIff(names: seq<string>, vals: seq<string>)
    requires |names| == |vals| > 0 && AllOneLine(names)
    ensures OnlyReading(names, vals) <==> !Ambiguous(names, vals)
  {
    if Ambiguous(names, vals) {
      var j: nat :| AmbiguousAt(names, vals, j);
      var vals' := AnotherReading(names, vals, j);
      assert !OnlyReading(names, vals);
    } else {
      forall vals' | |vals'| == |names| && Lines(names, vals') == Lines(names, vals) ensures vals' == vals {
        if vals' != vals { var j := OtherReading(names, vals, vals'); }
      }
    }
  }

  /** In particular lines whose values have no line end belong to no other values at all. */
  lemma LinesAreBinding(names: seq<string>, vals: seq<string>)
    requires |names| == |vals| > 0 && AllOneLine(names) && AllOneLine(vals)
    ensures OnlyReading(names, vals)
  {
    OneLinesAreClear(names, vals);
    OnlyReadingIff(names, vals);
  }

  lemma OneLinesAreClear(names: seq<string>, vals: seq<string>)
    requires |names| == |vals| && AllOneLine(vals)
    ensures !Ambiguous(names, vals)
  {
    forall j: nat ensures !AmbiguousAt(names, vals, j) {
      if j + 1 < |names| {
        NoSeparator(vals[j], names[j + 1]);
        NoSeparator(vals[j + 1], names[j + 1]);
      }
    }
  }

  lemma NoSeparator(v: string, name: string)
    requires OneLine(v)
    ensures !Contains(v, Sep(name))
  {
    var p := Sep(name);
    forall i: nat ensures !OccursAt(v, p, i) {
      assert p[0] == '\n' && (i + |p| <= |v| ==> v[i..i + |p|][0] == v[i] && v[i] in v);
    }
  }

  // ---------------------------------------------------------------------
  // Signing and verifying

  datatype PrivateKey = PrivateKey(public: PublicKey)
  datatype PublicKey = PublicKey(id: nat, p256: bool)

  /** The primitives: SHA-256, hex, ECDSA on a digest, base64, and the readers of the parameters. */
  datatype Crypto = Crypto(
    sha: string -> string,
    hex: string -> string,
    sign: (PrivateKey, string, nat) -> Option<string>,
    verify: (PublicKey, string, string) -> bool,
    enc64: string -> string,
    dec64: string -> Option<string>,
    readers: Readers)

  /** The laws of the primitives that signing and verifying rely on. */
  ghost predicate Correct(c: Crypto) {
    && Lawful(c.readers)
    && (forall x: string :: IsHex(c.hex(x)))
    && (forall x: string :: c.dec64(c.enc64(x)) == Some(x))
    && (forall k: PrivateKey, d: string, rnd: nat {:trigger c.sign(k, d, rnd)} ::
          c.sign(k, d, rnd).Some? ==> |c.sign(k, d, rnd).value| == 64 && c.verify(k.public, d, c.sign(k, d, rnd).value))
  }

  datatype Error = KeyType | SignFailed | Missing | Malformed | Invalid | DigestMismatch

  function CertKeyID(c: Crypto, leafDER: string): string { c.hex(c.sha(leafDER)) }

  function ContentDigest(c: Crypto, body: string): string { "sha-256=:" + c.enc64(c.sha(body)) + ":" }

  predicate VerifyContentDigest(c: Crypto, h: Header, body: string) {
    TrimSpace(Get(h, DIGEST)) == ContentDigest(c, body)
  }

  class Request {
    var header: Header

    constructor (h: Header)
      ensures header == h
    {
      header := h;
    }

    /** `SignRequest`: adds the two signature headers over those already present; on an error the
        headers stay as they were. */
    method Sign(c: Crypto, method_: string, path: string, key: Option<PrivateKey>, leafDER: string, created: int, rnd: nat)
      returns (err: Option<Error>)
      modifies this
      ensures err == Some(KeyType) <==> key.None? || !key.value.public.p256
      ensures err.Some? ==> header == old(header)
      ensures err.None? ==>
                var params := Params(created, c.hex(c.sha(leafDER)));
                var sig := c.sign(key.value, c.sha(Base(method_, path, old(header), params)), rnd);
                && sig.Some?
                && header == old(header)["signature-input" := "sig1=" + params]["signature" := "sig1=:" + c.enc64(sig.value) + ":"]
    {
      if key.None? || !key.value.public.p256 { return Some(KeyType); }
      var params := PrintParams(created, CertKeyID(c, leafDER));
      var base := SignatureBase(method_, path, header, params);
      var sig := c.sign(key.value, c.sha(base), rnd);
      if sig.None? { return Some(SignFailed); }
      header := header[INPUT := "sig1=" + params];
      header := header[SIGNATURE := "sig1=:" + c.enc64(sig.value) + ":"];
      return None;
    }
  }

  /** The headers with a signature. */
  function Signed(c: Crypto, h: Header, params: string, sig: string): Header {
    h[INPUT := "sig1=" + params][SIGNATURE := "sig1=:" + c.enc64(sig) + ":"]
  }

  /** `strings.CutPrefix` */
  function CutPrefix(s: string, p: string): (r: Option<string>)
    ensures r.Some? <==> p <= s
    ensures r.Some? ==> s == p + r.value
  {
    if p <= s then Some(s[|p|..]) else None
  }

  /** `VerifyRequest` */
  function VerifyRequest(c: Crypto, method_: string, path: string, h: Header, pub: Option<PublicKey>): Result<Info, Error> {
    if pub.None? || !pub.value.p256 then Err(KeyType)
    else
      var input, sigRaw := TrimSpace(Get(h, INPUT)), TrimSpace(Get(h, SIGNATURE));
      if input == "" || sigRaw == "" then Err(Missing)
      else match CutPrefix(input, "sig1=")
           case None => Err(Malformed)
           case Some(params) =>
             match Parse(params, c.readers)
             case None => Err(Malformed)
             case Some(info) =>
               match SignatureBytes(c, sigRaw)
               case None => Err(Malformed)
               case Some(sig) =>
                 if c.verify(pub.value, c.sha(Base(method_, path, h, params)), sig) then Ok(info) else Err(Invalid)
  }

  /** The 64 bytes inside a signature header. */
  function SignatureBytes(c: Crypto, sigRaw: string): Option<string> {
    match CutPrefix(sigRaw, "sig1=:")
    case None => None
    case Some(rest) =>
      if !HasSuffix(rest, ":") then None
      else match c.dec64(rest[..|rest| - 1])
           case None => None
           case Some(sig) => if |sig| == 64 then Some(sig) else None
  }

  // ---------------------------------------------------------------------
  // What a valid signature proves

  /** The inputs of one `SignRequest`. */
  datatype Job = Job(method_: string, path: string, header: Header, created: int, leafDER: string)

  function JobParams(c: Crypto, q: Job): string { Params(q.created, CertKeyID(c, q.leafDER)) }

  function JobBase(c: Crypto, q: Job): string { Base(q.method_, q.path, q.header, JobParams(c, q)) }

  /** An ideal signature under one key: only digests of the jobs signed with it verify. */
  ghost predicate OnlySigned(c: Crypto, pub: PublicKey, jobs: set<Job>) {
    forall d: string, sig: string :: c.verify(pub, d, sig) ==> exists q :: q in jobs && d == c.sha(JobBase(c, q))
  }

  /** No text collides with one that was signed. */
  ghost predicate NoCollision(c: Crypto, jobs: set<Job>) {
    forall q, x: string :: q in jobs && c.sha(x) == c.sha(JobBase(c, q)) ==> x == JobBase(c, q)
  }

  /** A job whose base has one reading, with a 64-bit time. */
  ghost predicate WellFormed(c: Crypto, q: Job) {
    && MIN64 <= q.created <= MAX64
    && !Ambiguous(Names(), Values(q.method_, q.path, q.header) + [JobParams(c, q)])
  }

  /** What the collector signs is such: path and headers of a request have no line ends. */
  lemma OneLineJobs(c: Crypto, q: Job)
    requires Correct(c) && AllOneLine(Values(q.method_, q.path, q.header)) && MIN64 <= q.created <= MAX64
    ensures WellFormed(c, q)
  {
    ParamsOneLine(q.created, CertKeyID(c, q.leafDER));
    OneLinesAreClear(Names(), Values(q.method_, q.path, q.header) + [JobParams(c, q)]);
  }

  lemma NamesOneLine()
    ensures AllOneLine(Names()) && |Names()| == |Components()| + 1
  {
  }

  lemma TailOneLine(a: string, b: string, d: string)
    requires OneLine(a) && OneLine(b) && OneLine(d)
    ensures OneLine(Tail(a, b, d))
  {
  }

  lemma ParamsOneLine(created: int, keyID: string)
    requires IsHex(keyID)
    ensures OneLine(Params(created, keyID))
  {
    ComponentsAreNames();
    InnerHasNoParen(Components());
    AlgHasNoSemicolon();
    HexIsPlain(keyID);
    assert OneLine("created" + ['='] + FormatInt(created)) && OneLine("keyid" + ['='] + Quote(keyID));
    assert OneLine("alg" + ['='] + Quote(ALG));
    TailOneLine("created" + ['='] + FormatInt(created), "alg" + ['='] + Quote(ALG), "keyid" + ['='] + Quote(keyID));
  }

  predicate SameHeader(h: Header, h': Header, name: string) { TrimSpace(Get(h, name)) == TrimSpace(Get(h', name)) }

  /** The five covered headers agree. */
  predicate SameHeaders(h: Header, h': Header) {
    && SameHeader(h, h', DIGEST) && SameHeader(h, h', TIMESTAMP) && SameHeader(h, h', NONCE)
    && SameHeader(h, h', CERT) && SameHeader(h, h', KID)
  }

  /** If verification succeeds, one signing had the same method up to case, the same path, the same
      five trimmed headers, and the time and key id that were reported. */
  lemma VerifiedMeansSigned(c: Crypto, method_: string, path: string, h: Header, pub: PublicKey, jobs: set<Job>)
    returns (q: Job)
    requires Correct(c) && OnlySigned(c, pub, jobs) && NoCollision(c, jobs)
    requires forall j :: j in jobs ==> WellFormed(c, j)
    requires VerifyRequest(c, method_, path, h, Some(pub)).Ok?
    ensures q in jobs
    ensures ToUpper(method_) == ToUpper(q.method_) && path == q.path
    ensures SameHeaders(h, q.header)
    ensures VerifyRequest(c, method_, path, h, Some(pub)).value == Info(q.created, c.hex(c.sha(q.leafDER)))
  {
    var params := CutPrefix(TrimSpace(Get(h, INPUT)), "sig1=").value;
    var sig := SignatureBytes(c, TrimSpace(Get(h, SIGNATURE))).value;
    var base := Base(method_, path, h, params);
    assert c.verify(pub, c.sha(base), sig);
    q :| q in jobs && c.sha(base) == c.sha(JobBase(c, q));
    BaseBinds(c, q, method_, path, h, params);
    ValuesAre(method_, path, h, q.method_, q.path, q.header);
    ParamsRoundTrip(q.created, CertKeyID(c, q.leafDER), c.readers);
  }

  lemma BaseBinds(c: Crypto, q: Job, method_: string, path: string, h: Header, params: string)
    requires Correct(c) && WellFormed(c, q) && Base(method_, path, h, params) == JobBase(c, q)
    ensures Values(method_, path, h) == Values(q.method_, q.path, q.header) && params == JobParams(c, q)
  {
    NamesOneLine();
    var vals, vals' := Values(q.method_, q.path, q.header), Values(method_, path, h);
    LinesBindLast(Names(), vals, JobParams(c, q), vals', params);
  }

  lemma LinesBindLast(names: seq<string>, vals: seq<string>, x: string, vals': seq<string>, x': string)
    requires |names| == |vals| + 1 == |vals'| + 1 && AllOneLine(names) && !Ambiguous(names, vals + [x])
    requires Lines(names, vals + [x]) == Lines(names, vals' + [x'])
    ensures vals == vals' && x == x'
  {
    var all, all' := vals + [x], vals' + [x'];
    OnlyReadingIff(names, all);
    assert all[..|vals|] == vals && all'[..|vals|] == vals';
    assert all[|vals|] == x && all'[|vals|] == x';
  }

  /** The seven values, one by one. */
  lemma ValuesAre(m: string, p: string, h: Header, m': string, p': string, h': Header)
    requires Values(m, p, h) == Values(m', p', h')
    ensures ToUpper(m) == ToUpper(m') && p == p'
    ensures SameHeaders(h, h')
  {
    SameValue(m, p, h, m', p', h', 0);
    SameValue(m, p, h, m', p', h', 1);
    SameValue(m, p, h, m', p', h', 2);
    SameValue(m, p, h, m', p', h', 3);
    SameValue(m, p, h, m', p', h', 4);
    SameValue(m, p, h, m', p', h', 5);
    SameValue(m, p, h, m', p', h', 6);
  }

  lemma SameValue(m: string, p: string, h: Header, m': string, p': string, h': Header, i: nat)
    requires Values(m, p, h) == Values(m', p', h') && i < 7
    ensures i == 0 ==> ToUpper(m) == ToUpper(m')
    ensures i == 1 ==> p == p'
    ensures i >= 2 ==> SameHeader(h, h', Components()[i])
  {
    assert Values(m, p, h)[i] == Values(m', p', h')[i];
    if i >= 2 { assert Components()[i][0] != '@'; }
  }

  lemma ReplacedValues(m: string, path: string, h: Header, x: string)
    ensures |Values(m, "", h)| == 7 && Values(m, path, h[DIGEST := x]) == Values(m, "", h)[1 := path][2 := TrimSpace(x)]
  {
    var one, two := Values(m, path, h[DIGEST := x]), Values(m, "", h)[1 := path][2 := TrimSpace(x)];
    forall i | 0 <= i < 7 ensures one[i] == two[i] {
      if i > 2 { assert Components()[i] != DIGEST && Components()[i][0] != '@'; }
    }
  }

  /** With line ends the fixed list is ambiguous too: the text between two separators can end the path or
      begin the digest header, for all three parts, and the base is the same. */
  lemma LineEndsMakeItAmbiguous(m: string, h: Header, params: string, a: string, b: string, c: string)
    requires TrimSpace(c) == c && TrimSpace(b + Sep(DIGEST) + c) == b + Sep(DIGEST) + c
    ensures Base(m, a + Sep(DIGEST) + b, h[DIGEST := c], params) == Base(m, a, h[DIGEST := b + Sep(DIGEST) + c], params)
  {
    ReplacedValues(m, a + Sep(DIGEST) + b, h, c);
    ReplacedValues(m, a, h, b + Sep(DIGEST) + c);
    assert Names()[2] == DIGEST;
    ShiftBeforeLast(Names(), Values(m, "", h), params, DIGEST, a, b, c);
  }

  lemma ShiftBeforeLast(names: seq<string>, vals: seq<string>, last: string, name: string, a: string, b: string, c: string)
    requires |names| == |vals| + 1 > 3 && names[2] == name
    ensures Lines(names, vals[1 := a + Sep(name) + b][2 := c] + [last]) == Lines(names, vals[1 := a][2 := b + Sep(name) + c] + [last])
  {
    var all := vals + [last];
    Shift(names, all, 1, a, b, c);
    UpdateBeforeLast(vals, last, a + Sep(name) + b, c);
    UpdateBeforeLast(vals, last, a, b + Sep(name) + c);
  }

  lemma UpdateBeforeLast(vals: seq<string>, last: string, p: string, q: string)
    requires |vals| > 2
    ensures (vals + [last])[1 := p][2 := q] == vals[1 := p][2 := q] + [last]
  {
  }

  /** One such pair. */
  lemma TwoRequestsOneBase(m: string, h: Header, params: string)
    ensures "a" + Sep(DIGEST) + "b" != "a"
    ensures Base(m, "a" + Sep(DIGEST) + "b", h[DIGEST := "c"], params) == Base(m, "a", h[DIGEST := "b" + Sep(DIGEST) + "c"], params)
  {
    TrimFixpoint("c");
    TrimFixpoint("b" + Sep(DIGEST) + "c");
    LineEndsMakeItAmbiguous(m, h, params, "a", "b", "c");
    assert |"a" + Sep(DIGEST) + "b"| > 1;
  }

  /** With the digest header checked against the body, the body is the signed one too. */
  lemma VerifiedBody(c: Crypto, h: Header, body: string, q: Job, signedBody: string)
    requires Correct(c) && SameHeaders(h, q.header)
    requires VerifyContentDigest(c, h, body) && VerifyContentDigest(c, q.header, signedBody)
    requires c.sha(body) == c.sha(signedBody) ==> body == signedBody
    ensures body == signedBody
  {
    var x, y := c.enc64(c.sha(body)), c.enc64(c.sha(signedBody));
    assert ContentDigest(c, body)[9..|ContentDigest(c, body)| - 1] == x;
    assert ContentDigest(c, signedBody)[9..|ContentDigest(c, signedBody)| - 1] == y;
    assert c.dec64(x) == Some(c.sha(body)) && c.dec64(y) == Some(c.sha(signedBody));
  }

  /** A request that was signed verifies under the key's public half, with the method in any case. */
  lemma SignedVerifies(c: Crypto, h: Header, method_: string, m': string, path: string, key: PrivateKey, leafDER: string, created: int, rnd: nat)
    requires Correct(c) && key.public.p256 && MIN64 <= created <= MAX64 && ToUpper(method_) == ToUpper(m')
    requires c.sign(key, c.sha(Base(method_, path, h, Params(created, CertKeyID(c, leafDER)))), rnd).Some?
    ensures var params := Params(created, CertKeyID(c, leafDER));
            var sig := c.sign(key, c.sha(Base(method_, path, h, params)), rnd).value;
            VerifyRequest(c, m', path, Signed(c, h, params, sig), Some(key.public)) == Ok(Info(created, c.hex(c.sha(leafDER))))
  {
    var params := Params(created, CertKeyID(c, leafDER));
    var sig := c.sign(key, c.sha(Base(method_, path, h, params)), rnd).value;
    var h' := Signed(c, h, params, sig);
    SignedHeaders(c, h, params, sig);
    SignatureHeadersAreNotCovered(h, h', method_, m', path);
    ParamsRoundTrip(created, CertKeyID(c, leafDER), c.readers);
    InputHeader(params, created, CertKeyID(c, leafDER));
    SignatureHeader(c, sig);
    VerifyAssembles(c, m', path, h', key.public, Get(h', INPUT), Get(h', SIGNATURE), params, sig, Info(created, CertKeyID(c, leafDER)));
  }

  lemma SignedHeaders(c: Crypto, h: Header, params: string, sig: string)
    ensures var h' := Signed(c, h, params, sig);
            && Get(h', INPUT) == "sig1=" + params
            && Get(h', SIGNATURE) == "sig1=:" + c.enc64(sig) + ":"
            && (forall name :: name != INPUT && name != SIGNATURE ==> Get(h, name) == Get(h', name))
  {
  }

  lemma VerifyAssembles(c: Crypto, method_: string, path: string, h: Header, pub: PublicKey, input: string, sigRaw: string,
                        params: string, sig: string, info: Info)
    requires pub.p256 && TrimSpace(Get(h, INPUT)) == input != "" && TrimSpace(Get(h, SIGNATURE)) == sigRaw != ""
    requires CutPrefix(input, "sig1=") == Some(params) && Parse(params, c.readers) == Some(info)
    requires SignatureBytes(c, sigRaw) == Some(sig) && c.verify(pub, c.sha(Base(method_, path, h, params)), sig)
    ensures VerifyRequest(c, method_, path, h, Some(pub)) == Ok(info)
  {
  }

  lemma SignatureHeadersAreNotCovered(h: Header, h': Header, m: string, m': string, path: string)
    requires ToUpper(m) == ToUpper(m')
    requires forall name :: name != INPUT && name != SIGNATURE ==> Get(h, name) == Get(h', name)
    ensures Values(m', path, h') == Values(m, path, h)
  {
  }

  lemma InputHeader(params: string, created: int, keyID: string)
    requires params == Params(created, keyID)
    ensures TrimSpace("sig1=" + params) == "sig1=" + params
    ensures CutPrefix("sig1=" + params, "sig1=") == Some(params)
  {
  }

  lemma SignatureHeader(c: Crypto, sig: string)
    requires Correct(c) && |sig| == 64
    ensures TrimSpace("sig1=:" + c.enc64(sig) + ":") == "sig1=:" + c.enc64(sig) + ":"
    ensures SignatureBytes(c, "sig1=:" + c.enc64(sig) + ":") == Some(sig)
  {
    var b := c.enc64(sig);
    var raw := "sig1=:" + b + ":";
    TrimFixpoint(raw);
    assert raw == "sig1=:" + (b + ":");
    SamePrefix("sig1=:", CutPrefix(raw, "sig1=:").value, b + ":");
    assert (b + ":")[..|b + ":"| - 1] == b;
  }

  /** For any jobs there are primitives with all the assumed laws, so the laws do not contradict each other. */
  lemma PrimitivesExist(jobs: set<Job>, pub: PublicKey) returns (c: Crypto)
    ensures Correct(c) && OnlySigned(c, pub, jobs) && NoCollision(c, jobs)
  {
    var digests := set q | q in jobs :: Base(q.method_, q.path, q.header, Params(q.created, ""));
    var readers := Readers((s: string) => ParseInt64(s), (s: string) => if |s| >= 2 then Some(s[1..|s| - 1]) else None);
    var sig := seq(64, i => 'x');
    c := Crypto((x: string) => x, (x: string) => "",
                (k: PrivateKey, d: string, rnd: nat) => if d in digests then Some(sig) else None,
                (p: PublicKey, d: string, s: string) => d in digests,
                (x: string) => x, (x: string) => Some(x), readers);
    forall s: string | Plain(s) ensures readers.unquote(Quote(s)) == Some(s) {
      assert Quote(s)[1..|Quote(s)| - 1] == s;
    }
    forall d: string, s: string | c.verify(pub, d, s) ensures exists q :: q in jobs && d == c.sha(JobBase(c, q)) {
      var q :| q in jobs && d == Base(q.method_, q.path, q.header, Params(q.created, ""));
      assert c.sha(JobBase(c, q)) == d;
    }
  }

  // ---------------------------------------------------------------------
  // The texts, spelled out

  /** Two methods are equal in upper case exactly when they differ at most in the case of letters. */
  predicate SameLetter(x: char, y: char) {
    || x == y
    || ('a' <= x <= 'z' && y as int == x as int - 32)
    || ('a' <= y <= 'z' && x as int == y as int - 32)
  }

  lemma ToUpperIff(a: string, b: string)
    ensures ToUpper(a) == ToUpper(b) <==> |a| == |b| && forall i :: 0 <= i < |a| ==> SameLetter(a[i], b[i])
    ensures forall i :: 0 <= i < |a| ==> !('a' <= ToUpper(a)[i] <= 'z') && SameLetter(ToUpper(a)[i], a[i])
  {
    if ToUpper(a) == ToUpper(b) {
      forall i | 0 <= i < |a| ensures SameLetter(a[i], b[i]) { assert ToUpper(a)[i] == ToUpper(b)[i]; }
    }
  }

  /** Split at line ends, the base is one line per entry: the name in quotation marks, a colon, a blank and the value. */
  lemma {:induction false} LinesSplit(names: seq<string>, vals: seq<string>)
    requires |names| == |vals| > 0 && AllOneLine(names) && AllOneLine(vals)
    ensures |Split(Lines(names, vals), '\n')| == |names|
    ensures forall i :: 0 <= i < |names| ==> Split(Lines(names, vals), '\n')[i] == ['"'] + names[i] + ['"', ':', ' '] + vals[i]
    decreases |names|
  {
    LineText(names[0], vals[0]);
    if |names| == 1 {
      OnePart(Label(names[0]) + vals[0], '\n');
    } else {
      var rest := Lines(names[1..], vals[1..]);
      LinesSplit(names[1..], vals[1..]);
      SplitCons(Label(names[0]) + vals[0], '\n', rest);
    }
  }

  lemma LineText(name: string, v: string)
    requires OneLine(name) && OneLine(v)
    ensures OneLine(Label(name) + v) && Label(name) + v == ['"'] + name + ['"', ':', ' '] + v
  {
    LabelOneLine(name);
  }

  lemma LinesSplitLast(names: seq<string>, vals: seq<string>, last: string, i: nat)
    requires |names| == |vals| + 1 && AllOneLine(names) && AllOneLine(vals) && OneLine(last) && i < |names|
    ensures var lines := Split(Lines(names, vals + [last]), '\n');
            |lines| == |names| && lines[i] == ['"'] + names[i] + ['"', ':', ' '] + if i < |vals| then vals[i] else last
  {
    var all := vals + [last];
    assert AllOneLine(all);
    LinesSplit(names, all);
    assert all[i] == if i < |vals| then vals[i] else last;
  }

  lemma ValueAt(m: string, path: string, h: Header, i: nat)
    requires i < 7
    ensures |Values(m, path, h)| == 7
    ensures Values(m, path, h)[i] == if i == 0 then ToUpper(m) else if i == 1 then path else TrimSpace(Get(h, Components()[i]))
  {
    if i >= 2 { assert Components()[i][0] != '@'; }
  }

  /** The base of a request without line ends, line by line: the upper-case method, the path, the five headers
      without the blanks around them, and the parameters. */
  lemma BaseText(m: string, path: string, h: Header, params: string, i: nat)
    requires AllOneLine(Values(m, path, h)) && OneLine(params) && i < 7
    ensures var lines := Split(Base(m, path, h, params), '\n');
            && |lines| == 8
            && lines[i] == ['"'] + Components()[i] + ['"', ':', ' '] + (if i == 0 then ToUpper(m) else if i == 1 then path else TrimSpace(Get(h, Components()[i])))
            && lines[7] == ['"'] + "@signature-params" + ['"', ':', ' '] + params
  {
    NamesOneLine();
    ValueAt(m, path, h, i);
    var vals, names := Values(m, path, h), Names();
    assert |names| == 8 && names[i] == Components()[i] && names[7] == "@signature-params";
    LinesSplitLast(names, vals, params, i);
    LinesSplitLast(names, vals, params, 7);
  }

  /** The digest header of a body passes for another one exactly when their hashes are equal. */
  lemma DigestRoundTrip(c: Crypto, h: Header, body: string, other: string)
    requires Correct(c)
    ensures VerifyContentDigest(c, h[DIGEST := "sha-256=:" + c.enc64(c.sha(body)) + ":"], other) <==> c.sha(other) == c.sha(body)
  {
    var x, y := c.enc64(c.sha(body)), c.enc64(c.sha(other));
    DigestText(x);
    assert ContentDigest(c, other)[9..|ContentDigest(c, other)| - 1] == y;
    assert c.dec64(x) == Some(c.sha(body)) && c.dec64(y) == Some(c.sha(other));
  }

  lemma DigestText(x: string)
    ensures var d := "sha-256=:" + x + ":"; TrimSpace(d) == d && d[9..|d| - 1] == x
  {
    TrimFixpoint("sha-256=:" + x + ":");
  }

  /** The two signature headers carry these parameters and these 64 bytes, behind the label of the only signature. */
  ghost predicate Carries(c: Crypto, input: string, sigRaw: string, params: string, info: Info, b64: string, sig: string) {
    && input == "sig1=" + params && Parse(params, c.readers) == Some(info)
    && sigRaw == "sig1=:" + b64 + ":" && c.dec64(b64) == Some(sig) && |sig| == 64
  }

  lemma SignatureBytesIff(c: Crypto, sigRaw: string, sig: string)
    ensures SignatureBytes(c, sigRaw) == Some(sig) <==> exists b64 :: sigRaw == "sig1=:" + b64 + ":" && c.dec64(b64) == Some(sig) && |sig| == 64
  {
    if SignatureBytes(c, sigRaw) == Some(sig) {
      var rest := CutPrefix(sigRaw, "sig1=:").value;
      var b64 := rest[..|rest| - 1];
      assert rest == b64 + ":";
      assert sigRaw == "sig1=:" + b64 + ":";
    }
    if b64 :| sigRaw == "sig1=:" + b64 + ":" && c.dec64(b64) == Some(sig) && |sig| == 64 {
      assert sigRaw == "sig1=:" + (b64 + ":");
      SamePrefix("sig1=:", CutPrefix(sigRaw, "sig1=:").value, b64 + ":");
      assert (b64 + ":")[..|b64 + ":"| - 1] == b64;
    }
  }

  lemma InputIff(input: string, params: string)
    ensures CutPrefix(input, "sig1=") == Some(params) <==> input == "sig1=" + params
  {
    if input == "sig1=" + params { SamePrefix("sig1=", CutPrefix(input, "sig1=").value, params); }
  }

  /** When a request is accepted, for every request: the key is usable, and the trimmed headers carry parameters
      and bytes that verify over the base. */
  lemma VerifyIff(c: Crypto, m: string, path: string, h: Header, pub: PublicKey, info: Info)
    ensures var input, sigRaw := TrimSpace(Get(h, "signature-input")), TrimSpace(Get(h, "signature"));
            VerifyRequest(c, m, path, h, Some(pub)) == Ok(info) <==>
              pub.p256 && exists params, b64, sig :: Carries(c, input, sigRaw, params, info, b64, sig)
                                                     && c.verify(pub, c.sha(Base(m, path, h, params)), sig)
  {
    var input, sigRaw := TrimSpace(Get(h, INPUT)), TrimSpace(Get(h, SIGNATURE));
    if VerifyRequest(c, m, path, h, Some(pub)) == Ok(info) {
      var params := CutPrefix(input, "sig1=").value;
      var sig := SignatureBytes(c, sigRaw).value;
      InputIff(input, params);
      SignatureBytesIff(c, sigRaw, sig);
      var b64 :| sigRaw == "sig1=:" + b64 + ":" && c.dec64(b64) == Some(sig) && |sig| == 64;
      assert Carries(c, input, sigRaw, params, info, b64, sig);
    }
    if pub.p256 {
      if params, b64, sig :| Carries(c, input, sigRaw, params, info, b64, sig) && c.verify(pub, c.sha(Base(m, path, h, params)), sig) {
        InputIff(input, params);
        SignatureBytesIff(c, sigRaw, sig);
        VerifyAssembles(c, m, path, h, pub, input, sigRaw, params, sig, info);
      }
    }
  }

  /** Which request is refused why. */
  lemma VerifyErrors(c: Crypto, m: string, path: string, h: Header, pub: Option<PublicKey>)
    ensures var r := VerifyRequest(c, m, path, h, pub);
            var usable := pub.Some? && pub.value.p256;
            var present := TrimSpace(Get(h, "signature-input")) != "" && TrimSpace(Get(h, "signature")) != "";
            && (r == Err(KeyType) <==> !usable)
            && (r == Err(Missing) <==> usable && !present)
            && (r.Err? && usable && present ==> r.error == Malformed || r.error == Invalid)
  {
  }
}
