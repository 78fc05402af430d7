/** The signature parameters of section 2.3 of RFC 9421 as the collector prints and parses them
    (`internal/auth/httpsig.go`). */
module SignatureParams {
  import opened Text
  import opened Decimal

  const ALG: string := "ecdsa-p256-sha256"

  /** The covered components, in signing order. */
  function Components(): seq<string> {
    ["@method", "@path", "content-digest", "x-muthur-timestamp", "x-muthur-nonce", "x-muthur-cert", "x-muthur-hpke-kid"]
  }

  /** `%q` and `strconv.Quote` on text that needs no escape, which is all the package quotes. */
  function Quote(s: string): string { "\"" + s + "\"" }

  predicate NameByte(c: char) { 'a' <= c <= 'z' || c == '-' || c == '@' }

  predicate IsName(s: string) { forall i :: 0 <= i < |s| ==> NameByte(s[i]) }

  lemma ComponentsAreNames()
    ensures forall i :: 0 <= i < |Components()| ==> IsName(Components()[i])
  {
  }

  /** The quoted names, separated by blanks. */
  function Inner(names: seq<string>): string {
    if names == [] then ""
    else if |names| == 1 then Quote(names[0])
    else Inner(names[..|names| - 1]) + " " + Quote(names[|names| - 1])
  }

  function List(): string { "(" + Inner(Components()) + ")" }

  /** Three parameters, each behind a semicolon. */
  function Tail(a: string, b: string, c: string): string { "" + [';'] + (a + [';'] + (b + [';'] + c)) }

  function Params(created: int, keyID: string): string {
    List() + Tail("created" + ['='] + FormatInt(created), "alg" + ['='] + Quote(ALG), "keyid" + ['='] + Quote(keyID))
  }

  lemma TailText(a: string, b: string, c: string, s: string)
    ensures s + ";" + a + ";" + b + ";" + c == s + Tail(a, b, c)
  {
  }

  /** `signatureParams` */
  method PrintParams(created: int, keyID: string) returns (b: string)
    ensures b == Params(created, keyID)
  {
    var names := Components();
    b := "(";
    for i := 0 to |names|
      invariant b == "(" + Inner(names[..i])
    {
      assert names[..i + 1][..i] == names[..i] && names[..i + 1][i] == names[i];
      if i > 0 { b := b + " "; }
      b := b + Quote(names[i]);
    }
    assert names[..|names|] == names;
    b := b + ")";
    var a, alg, id := "created" + ['='] + FormatInt(created), "alg" + ['='] + Quote(ALG), "keyid" + ['='] + Quote(keyID);
    TailText(a, alg, id, b);
    b := b + ";" + a + ";" + alg + ";" + id;
  }

  // ---------------------------------------------------------------------
  // Parsing

  datatype Info = Info(created: int, keyID: string)

  /** `strconv.ParseInt(_, 10, 64)` and `strconv.Unquote`. */
  datatype Readers = Readers(number: string -> Option<int>, unquote: string -> Option<string>)

  predicate Plain(s: string) {
    forall i :: 0 <= i < |s| ==> ' ' <= s[i] <= '~' && s[i] != '"' && s[i] != '\\'
  }

  /** All that is known of the readers: numbers are read as in `Decimal`, and unquoting undoes quoting. */
  ghost predicate Lawful(rd: Readers) {
    && (forall s: string :: rd.number(s) == ParseInt64(s))
    && (forall s: string :: Plain(s) ==> rd.unquote(Quote(s)) == Some(s))
  }

  /** A segment between semicolons, by its key. */
  datatype Tok = Blank | Created(text: string) | Alg | KeyID(text: string) | Bad

  function Lex(kv: string): Tok {
    if kv == "" then Blank
    else match Cut(kv, '=')
         case None => Bad
         case Some((k, v)) => LexParam(k, v)
  }

  function LexParam(k: string, v: string): Tok {
    if k == "created" then Created(v)
    else if k == "alg" then if v == Quote(ALG) then Alg else Bad
    else if k == "keyid" then KeyID(v)
    else Bad
  }

  function Lexed(segs: seq<string>): (toks: seq<Tok>)
    ensures |toks| == |segs| && forall i :: 0 <= i < |segs| ==> toks[i] == Lex(segs[i])
  {
    seq(|segs|, i requires 0 <= i < |segs| => Lex(segs[i]))
  }

  /** What has been read so far; a part that is set has been seen. */
  datatype Acc = Acc(created: Option<int>, alg: bool, keyID: Option<string>)

  const EMPTY: Acc := Acc(None, false, None)

  /** One segment; nothing when it is malformed, repeated or unknown. */
  function TakeOne(acc: Acc, tok: Tok, rd: Readers): Option<Acc> {
    match tok
    case Blank => Some(acc)
    case Created(v) => if acc.created.Some? || rd.number(v).None? then None else Some(acc.(created := rd.number(v)))
    case Alg => if acc.alg then None else Some(acc.(alg := true))
    case KeyID(v) => if acc.keyID.Some? || rd.unquote(v).None? then None else Some(acc.(keyID := rd.unquote(v)))
    case Bad => None
  }

  function TakeAll(acc: Acc, toks: seq<Tok>, rd: Readers): Option<Acc>
    decreases |toks|
  {
    if toks == [] then Some(acc)
    else match TakeOne(acc, toks[0], rd)
         case None => None
         case Some(next) => TakeAll(next, toks[1..], rd)
  }

  function Finish(acc: Option<Acc>): Option<Info> {
    if acc.Some? && acc.value.created.Some? && acc.value.alg && acc.value.keyID.Some?
    then Some(Info(acc.value.created.value, acc.value.keyID.value)) else None
  }

  /** The text after the component list, when the list is the expected one. */
  function AfterList(params: string): Option<string> {
    var closing := Find(params, ')');
    if !HasPrefix(params, "(") || closing == |params| || params[..closing + 1] != List() then None
    else Some(params[closing + 1..])
  }

  function Parse(params: string, rd: Readers): Option<Info> {
    match AfterList(params)
    case None => None
    case Some(rest) => Finish(TakeAll(EMPTY, Lexed(Split(rest, ';')), rd))
  }

  /** The parser's variables hold what has been read. */
  ghost predicate Tracks(seen: set<string>, info: Info, acc: Acc) {
    && ("created" in seen <==> acc.created.Some?) && (acc.created.Some? ==> acc.created.value == info.created)
    && ("alg" in seen <==> acc.alg)
    && ("keyid" in seen <==> acc.keyID.Some?) && (acc.keyID.Some? ==> acc.keyID.value == info.keyID)
  }

  /** One parameter of the parser's loop. */
  method TakeParam(k: string, v: string, seen: set<string>, info: Info, rd: Readers, ghost acc: Acc)
    returns (ok: bool, seen': set<string>, info': Info)
    requires Tracks(seen, info, acc)
    ensures ok <==> TakeOne(acc, LexParam(k, v), rd).Some?
    ensures ok ==> Tracks(seen', info', TakeOne(acc, LexParam(k, v), rd).value)
  {
    ok, seen', info' := false, seen, info;
    if k in seen { return; }
    seen' := seen + {k};
    if k == "created" {
      var n := rd.number(v);
      if n.None? { return; }
      info' := info.(created := n.value);
    } else if k == "alg" {
      if v != Quote(ALG) { return; }
    } else if k == "keyid" {
      var id := rd.unquote(v);
      if id.None? { return; }
      info' := info.(keyID := id.value);
    } else {
      return;
    }
    ok := true;
  }

  /** The parser's loop over the segments; nothing stands for an error. */
  method TakeSegments(segs: seq<string>, rd: Readers) returns (read: Option<(set<string>, Info)>)
    ensures read.Some? <==> TakeAll(EMPTY, Lexed(segs), rd).Some?
    ensures read.Some? ==> Tracks(read.value.0, read.value.1, TakeAll(EMPTY, Lexed(segs), rd).value)
  {
    var info := Info(0, "");
    var seen: set<string> := {};
    ghost var toks, acc := Lexed(segs), EMPTY;
    for i := 0 to |segs|
      invariant TakeAll(EMPTY, toks, rd) == TakeAll(acc, toks[i..], rd)
      invariant Tracks(seen, info, acc)
    {
      assert toks[i..][0] == Lex(segs[i]) && toks[i..][1..] == toks[i + 1..];
      var kv := segs[i];
      if kv != "" {
        var cut := Cut(kv, '=');
        if cut.None? { return None; }
        var ok;
        ok, seen, info := TakeParam(cut.value.0, cut.value.1, seen, info, rd, acc);
        if !ok { return None; }
      }
      acc := TakeOne(acc, Lex(kv), rd).value;
    }
    return Some((seen, info));
  }

  lemma Finished(seen: set<string>, info: Info, acc: Acc)
    requires Tracks(seen, info, acc)
    ensures Finish(Some(acc)) == if "created" in seen && "alg" in seen && "keyid" in seen then Some(info) else None
  {
  }

  /** `parseSignatureParams`; nothing stands for ErrSignatureMalformed. */
  method ParseSignatureParams(params: string, rd: Readers) returns (result: Option<Info>)
    ensures result == Parse(params, rd)
  {
    var closing := Find(params, ')');
    if !HasPrefix(params, "(") || closing == |params| { return None; }
    var want := List();
    if params[..closing + 1] != want { return None; }
    var segs := Split(params[closing + 1..], ';');
    var read := TakeSegments(segs, rd);
    ParseRest(params, params[closing + 1..], segs, Lexed(segs), rd);
    if read.None? { return None; }
    var (seen, info) := read.value;
    Finished(seen, info, TakeAll(EMPTY, Lexed(segs), rd).value);
    if "created" !in seen || "alg" !in seen || "keyid" !in seen { return None; }
    return Some(info);
  }

  // ---------------------------------------------------------------------
  // What is accepted, without the order in which it comes

  /** The segments that are not empty, with their multiplicities. */
  ghost function Bag(toks: seq<Tok>): multiset<Tok> {
    if toks == [] then multiset{}
    else (if toks[0].Blank? then multiset{} else multiset{toks[0]}) + Bag(toks[1..])
  }

  /** Tokens of an optional `created`, `alg` and `keyid` parameter each. */
  ghost function Parts(v: Option<string>, alg: bool, w: Option<string>): multiset<Tok> {
    (if v.Some? then multiset{Created(v.value)} else multiset{})
    + (if alg then multiset{Alg} else multiset{})
    + (if w.Some? then multiset{KeyID(w.value)} else multiset{})
  }

  /** Exactly one of each parameter, with values that parse to `info`. */
  ghost predicate Accepted(toks: seq<Tok>, info: Info, rd: Readers) {
    exists v: string, w: string {:trigger rd.number(v), rd.unquote(w)} ::
      && rd.number(v) == Some(info.created)
      && rd.unquote(w) == Some(info.keyID)
      && Bag(toks) == Parts(Some(v), true, Some(w))
  }

  /** A key without `=` in front of the first `=` decides the token. */
  lemma LexOf(k: string, v: string)
    requires '=' !in k
    ensures Lex(k + ['='] + v) == LexParam(k, v)
  {
    CutHead(k, '=', v);
  }

  /** `next` is `acc` with the given parameters added, none of which `acc` had. */
  ghost predicate Reads(acc: Acc, next: Acc, v: Option<string>, alg: bool, w: Option<string>, rd: Readers) {
    && (v.Some? ==> acc.created.None? && next.created.Some? && rd.number(v.value) == next.created)
    && (v.None? ==> next.created == acc.created)
    && (alg ==> !acc.alg && next.alg)
    && (!alg ==> next.alg == acc.alg)
    && (w.Some? ==> acc.keyID.None? && next.keyID.Some? && rd.unquote(w.value) == next.keyID)
    && (w.None? ==> next.keyID == acc.keyID)
  }

  lemma BagStep(toks: seq<Tok>)
    requires toks != []
    ensures toks[0].Blank? ==> Bag(toks) == Bag(toks[1..])
    ensures !toks[0].Blank? ==> Bag(toks) == multiset{toks[0]} + Bag(toks[1..])
  {
  }

  lemma PartsStep(x: string, alg: bool, w: Option<string>)
    ensures Parts(Some(x), alg, w) == multiset{Created(x)} + Parts(None, alg, w)
  {
  }

  lemma AlgStep(v: Option<string>, w: Option<string>)
    ensures Parts(v, true, w) == multiset{Alg} + Parts(v, false, w)
  {
  }

  lemma KeyIDStep(v: Option<string>, alg: bool, x: string)
    ensures Parts(v, alg, Some(x)) == multiset{KeyID(x)} + Parts(v, alg, None)
  {
  }

  /** What a token in a bag of parts says about the parts. */
  lemma PartsHold(v: Option<string>, alg: bool, w: Option<string>, t: Tok)
    ensures t in Parts(v, alg, w) <==> (v.Some? && t == Created(v.value)) || (alg && t == Alg) || (w.Some? && t == KeyID(w.value))
  {
  }

  lemma Cancel(t: Tok, a: multiset<Tok>, b: multiset<Tok>)
    requires multiset{t} + a == multiset{t} + b
    ensures a == b
  {
    assert a == (multiset{t} + a) - multiset{t};
    assert b == (multiset{t} + b) - multiset{t};
  }

  /** The bag of one token. */
  ghost function Single(tok: Tok): multiset<Tok> { if tok.Blank? then multiset{} else multiset{tok} }

  /** A token in front of the parts that were read after it. */
  lemma AddPart(acc: Acc, tok: Tok, last: Acc, v: Option<string>, alg: bool, w: Option<string>, rd: Readers)
    returns (v': Option<string>, alg': bool, w': Option<string>)
    requires TakeOne(acc, tok, rd).Some? && Reads(TakeOne(acc, tok, rd).value, last, v, alg, w, rd)
    ensures Reads(acc, last, v', alg', w', rd) && Parts(v', alg', w') == Single(tok) + Parts(v, alg, w)
  {
    v', alg', w' := v, alg, w;
    match tok
    case Blank =>
    case Created(x) =>
      PartsStep(x, alg, w);
      v' := Some(x);
    case Alg =>
      AlgStep(v, w);
      alg' := true;
    case KeyID(x) =>
      KeyIDStep(v, alg, x);
      w' := Some(x);
  }

  /** One of the parts taken off. */
  lemma TakeOff(acc: Acc, tok: Tok, rest: multiset<Tok>, last: Acc, v: Option<string>, alg: bool, w: Option<string>, rd: Readers)
    returns (next: Acc, v': Option<string>, alg': bool, w': Option<string>)
    requires !tok.Blank? && multiset{tok} + rest == Parts(v, alg, w) && Reads(acc, last, v, alg, w, rd)
    ensures TakeOne(acc, tok, rd) == Some(next) && Reads(next, last, v', alg', w', rd) && rest == Parts(v', alg', w')
  {
    assert tok in multiset{tok} + rest;
    PartsHold(v, alg, w, tok);
    next, v', alg', w' := acc, v, alg, w;
    match tok
    case Created(x) =>
      PartsStep(x, alg, w);
      Cancel(tok, rest, Parts(None, alg, w));
      next, v' := acc.(created := last.created), None;
    case Alg =>
      AlgStep(v, w);
      Cancel(tok, rest, Parts(v, false, w));
      next, alg' := acc.(alg := true), false;
    case KeyID(x) =>
      KeyIDStep(v, alg, x);
      Cancel(tok, rest, Parts(v, alg, None));
      next, w' := acc.(keyID := last.keyID), None;
    case Bad =>
  }

  /** Every run of the parser that does not fail has read each parameter at most once, and nothing else. */
  lemma {:induction false} TakeAllReads(acc: Acc, toks: seq<Tok>, rd: Readers)
    returns (v: Option<string>, alg: bool, w: Option<string>)
    requires TakeAll(acc, toks, rd).Some?
    ensures Bag(toks) == Parts(v, alg, w)
    ensures Reads(acc, TakeAll(acc, toks, rd).value, v, alg, w, rd)
    decreases |toks|
  {
    v, alg, w := None, false, None;
    if toks != [] {
      var next := TakeOne(acc, toks[0], rd).value;
      v, alg, w := TakeAllReads(next, toks[1..], rd);
      BagStep(toks);
      v, alg, w := AddPart(acc, toks[0], TakeAll(acc, toks, rd).value, v, alg, w, rd);
    }
  }

  /** Conversely, parameters that are new to `acc` and parse are all taken, in any order. */
  lemma {:induction false} AllAreTaken(acc: Acc, toks: seq<Tok>, v: Option<string>, alg: bool, w: Option<string>, next: Acc, rd: Readers)
    requires Bag(toks) == Parts(v, alg, w) && Reads(acc, next, v, alg, w, rd)
    ensures TakeAll(acc, toks, rd) == Some(next)
    decreases |toks|
  {
    if toks == [] {
      EmptyParts(v, alg, w);
    } else {
      BagStep(toks);
      if toks[0].Blank? {
        AllAreTaken(acc, toks[1..], v, alg, w, next, rd);
      } else {
        var acc', v', alg', w' := TakeOff(acc, toks[0], Bag(toks[1..]), next, v, alg, w, rd);
        AllAreTaken(acc', toks[1..], v', alg', w', next, rd);
      }
    }
  }

  lemma EmptyParts(v: Option<string>, alg: bool, w: Option<string>)
    ensures Parts(v, alg, w) == multiset{} ==> v.None? && !alg && w.None?
  {
  }

  /** The segments of a parameter text whose component list is the expected one. */
  ghost function Segments(params: string): seq<Tok>
    requires AfterList(params).Some?
  {
    Lexed(Split(AfterList(params).value, ';'))
  }

  /** The parser accepts exactly the expected component list followed by one `created`, one `alg` and
      one `keyid` parameter, in any order, and returns their values. */
  lemma ParseIff(params: string, info: Info, rd: Readers)
    ensures Parse(params, rd) == Some(info)
       <==> AfterList(params).Some? && Accepted(Segments(params), info, rd)
  {
    if AfterList(params).Some? {
      var toks := Segments(params);
      if Parse(params, rd) == Some(info) {
        var v, alg, w := TakeAllReads(EMPTY, toks, rd);
        assert rd.number(v.value) == Some(info.created) && rd.unquote(w.value) == Some(info.keyID);
      }
      if Accepted(toks, info, rd) {
        var v: string, w: string :|
          rd.number(v) == Some(info.created) && rd.unquote(w) == Some(info.keyID) && Bag(toks) == Parts(Some(v), true, Some(w));
        AllAreTaken(EMPTY, toks, Some(v), true, Some(w), Acc(Some(info.created), true, Some(info.keyID)), rd);
      }
    }
  }

  /** Two texts with the same parameters in different order parse alike, accepted or not. */
  lemma OrderDoesNotMatter(p: string, q: string, rd: Readers)
    requires AfterList(p).Some? && AfterList(q).Some? && Bag(Segments(p)) == Bag(Segments(q))
    ensures Parse(p, rd) == Parse(q, rd)
  {
    if Parse(p, rd).Some? {
      ParseIff(p, Parse(p, rd).value, rd);
      ParseIff(q, Parse(p, rd).value, rd);
    } else if Parse(q, rd).Some? {
      ParseIff(q, Parse(q, rd).value, rd);
      ParseIff(p, Parse(q, rd).value, rd);
    }
  }

  /** Fewer or more than three parameters, a repeated key or an unknown one: all are refused. */
  lemma OnlyThreeParameters(params: string, rd: Readers)
    requires AfterList(params).Some?
    requires || |Bag(Segments(params))| != 3
             || Bad in Bag(Segments(params))
             || (exists v, w :: multiset{Created(v), Created(w)} <= Bag(Segments(params)))
             || multiset{Alg, Alg} <= Bag(Segments(params))
             || (exists v, w :: multiset{KeyID(v), KeyID(w)} <= Bag(Segments(params)))
    ensures Parse(params, rd).None?
  {
    if Parse(params, rd).Some? {
      var info := Parse(params, rd).value;
      ParseIff(params, info, rd);
      var v: string, w: string :|
        rd.number(v) == Some(info.created) && rd.unquote(w) == Some(info.keyID) && Bag(Segments(params)) == Parts(Some(v), true, Some(w));
      ExactlyOneEach(Bag(Segments(params)), v, w);
    }
  }

  lemma ExactlyOneEach(bag: multiset<Tok>, v: string, w: string)
    requires bag == Parts(Some(v), true, Some(w))
    ensures |bag| == 3 && Bad !in bag && !(multiset{Alg, Alg} <= bag)
    ensures forall x, y :: !(multiset{Created(x), Created(y)} <= bag)
    ensures forall x, y :: !(multiset{KeyID(x), KeyID(y)} <= bag)
  {
  }

  // ---------------------------------------------------------------------
  // Round trip

  predicate HexByte(c: char) { '0' <= c <= '9' || 'a' <= c <= 'f' }

  predicate IsHex(s: string) { forall i :: 0 <= i < |s| ==> HexByte(s[i]) }

  lemma {:induction false} InnerHasNoParen(names: seq<string>)
    requires forall i :: 0 <= i < |names| ==> IsName(names[i])
    ensures ')' !in Inner(names) && '\n' !in Inner(names)
  {
    if |names| > 1 {
      InnerHasNoParen(names[..|names| - 1]);
    }
  }

  lemma ListThenRest(rest: string)
    ensures AfterList(List() + rest) == Some(rest)
  {
    ComponentsAreNames();
    var inner := Inner(Components());
    InnerHasNoParen(Components());
    assert List() + rest == ("(" + inner) + [')'] + rest;
    FindFirst("(" + inner, ')', rest);
    assert (List() + rest)[..|List()|] == List() && (List() + rest)[|List()|..] == rest;
  }

  lemma {:induction false} SplitCons(head: string, c: char, tail: string)
    requires c !in head
    ensures Split(head + [c] + tail, c) == [head] + Split(tail, c)
  {
    FindFirst(head, c, tail);
    var s := head + [c] + tail;
    assert s[..|head|] == head && s[|head| + 1..] == tail;
  }

  lemma TwoSegments(b: string, c: string)
    requires ';' !in b && ';' !in c
    ensures Split(b + [';'] + c, ';') == [b, c]
  {
    SplitCons(b, ';', c);
    LastSplit(c);
  }

  /** The segments of a printed parameter text. */
  lemma ParamSegments(a: string, b: string, c: string)
    requires ';' !in a && ';' !in b && ';' !in c
    ensures Split(Tail(a, b, c), ';') == ["", a, b, c]
  {
    TwoSegments(b, c);
    FourSegments(a, b + [';'] + c, [b, c]);
  }

  lemma FourSegments(a: string, rest: string, parts: seq<string>)
    requires ';' !in a && Split(rest, ';') == parts
    ensures Split("" + [';'] + (a + [';'] + rest), ';') == ["", a] + parts
  {
    SplitCons(a, ';', rest);
    SplitCons("", ';', a + [';'] + rest);
  }

  lemma LastSplit(c: string)
    requires ';' !in c
    ensures Split(c, ';') == [c]
  {
  }

  lemma AlgHasNoSemicolon()
    ensures ';' !in Quote(ALG) && '\n' !in Quote(ALG)
  {
  }

  lemma HexIsPlain(s: string)
    requires IsHex(s)
    ensures Plain(s) && ';' !in Quote(s) && '\n' !in Quote(s)
  {
  }

  lemma LexCreated(v: string)
    ensures Lex("created" + ['='] + v) == Created(v)
  {
    LexOf("created", v);
  }

  lemma LexAlg()
    ensures Lex("alg" + ['='] + Quote(ALG)) == Alg
  {
    assert '=' !in "alg";
    LexOf("alg", Quote(ALG));
  }

  lemma LexKeyID(w: string)
    ensures Lex("keyid" + ['='] + w) == KeyID(w)
  {
    LexOf("keyid", w);
  }

  /** Parsing what was printed gives back the time and the key id, for every 64-bit time. */
  lemma ParamsRoundTrip(created: int, keyID: string, rd: Readers)
    requires MIN64 <= created <= MAX64 && IsHex(keyID) && Lawful(rd)
    ensures Parse(Params(created, keyID), rd) == Some(Info(created, keyID))
  {
    var v, w := FormatInt(created), Quote(keyID);
    HexIsPlain(keyID);
    var a, b, c := "created" + ['='] + v, "alg" + ['='] + Quote(ALG), "keyid" + ['='] + w;
    PrintedSegments(a, b, c, v, w);
    IntRoundTrip(created);
    TakeFour(v, w, rd);
    ParseTokens(a, b, c, v, w, rd);
  }

  /** Three printed parameters are one of each kind and hold no separator. */
  lemma PrintedSegments(a: string, b: string, c: string, v: string, w: string)
    requires a == "created" + ['='] + v && b == "alg" + ['='] + Quote(ALG) && c == "keyid" + ['='] + w && ';' !in v && ';' !in w
    ensures ';' !in a && ';' !in b && ';' !in c
    ensures Lex(a) == Created(v) && Lex(b) == Alg && Lex(c) == KeyID(w)
  {
    AlgHasNoSemicolon();
    LexCreated(v);
    LexAlg();
    LexKeyID(w);
  }

  lemma ParseTokens(a: string, b: string, c: string, v: string, w: string, rd: Readers)
    requires ';' !in a && ';' !in b && ';' !in c
    requires Lex(a) == Created(v) && Lex(b) == Alg && Lex(c) == KeyID(w)
    ensures Parse(List() + Tail(a, b, c), rd) == Finish(TakeAll(EMPTY, [Blank, Created(v), Alg, KeyID(w)], rd))
  {
    ParamSegments(a, b, c);
    ListThenRest(Tail(a, b, c));
    LexFour(a, b, c, v, w);
    ParseRest(List() + Tail(a, b, c), Tail(a, b, c), ["", a, b, c], [Blank, Created(v), Alg, KeyID(w)], rd);
  }

  lemma LexFour(a: string, b: string, c: string, v: string, w: string)
    requires Lex(a) == Created(v) && Lex(b) == Alg && Lex(c) == KeyID(w)
    ensures Lexed(["", a, b, c]) == [Blank, Created(v), Alg, KeyID(w)]
  {
    var segs := ["", a, b, c];
    FourAre(Lexed(segs), Lex(""), Lex(a), Lex(b), Lex(c));
  }

  lemma FourAre(toks: seq<Tok>, x: Tok, y: Tok, z: Tok, w: Tok)
    requires |toks| == 4 && toks[0] == x && toks[1] == y && toks[2] == z && toks[3] == w
    ensures toks == [x, y, z, w]
  {
  }

  lemma ParseRest(params: string, rest: string, segs: seq<string>, toks: seq<Tok>, rd: Readers)
    requires AfterList(params) == Some(rest) && Split(rest, ';') == segs && Lexed(segs) == toks
    ensures Parse(params, rd) == Finish(TakeAll(EMPTY, toks, rd))
  {
  }

  lemma TakeFour(v: string, w: string, rd: Readers)
    requires rd.number(v).Some? && rd.unquote(w).Some?
    ensures TakeAll(EMPTY, [Blank, Created(v), Alg, KeyID(w)], rd) == Some(Acc(rd.number(v), true, rd.unquote(w)))
  {
    var toks := [Blank, Created(v), Alg, KeyID(w)];
    assert toks[1..] == [Created(v), Alg, KeyID(w)];
    assert toks[1..][1..] == [Alg, KeyID(w)];
    assert toks[1..][1..][1..] == [KeyID(w)];
    assert toks[1..][1..][1..][1..] == [];
    var acc := Acc(rd.number(v), true, None);
    assert TakeAll(acc, [KeyID(w)], rd) == Some(Acc(rd.number(v), true, rd.unquote(w)));
    assert TakeAll(acc.(alg := false), [Alg, KeyID(w)], rd) == TakeAll(acc, [KeyID(w)], rd);
  }

  // ---------------------------------------------------------------------
  // The texts, spelled out

  lemma {:induction false} SplitSnoc(s: string, c: char, last: string)
    requires c !in last
    ensures Split(s + [c] + last, c) == Split(s, c) + [last]
    decreases |s|
  {
    OnePart(last, c);
    if c !in s {
      OnePart(s, c);
      SplitCons(s, c, last);
    } else {
      var (head, rest) := Cut(s, c).value;
      SplitCons(head, c, rest);
      SplitSnoc(rest, c, last);
      SplitCons(head, c, rest + [c] + last);
      Regroup(head, c, rest, last);
    }
  }

  lemma Regroup(a: string, c: char, b: string, d: string)
    ensures a + [c] + b + [c] + d == a + [c] + (b + [c] + d)
  {
  }

  lemma OnePart(s: string, c: char)
    requires c !in s
    ensures Split(s, c) == [s]
  {
  }

  /** The names in quotation marks. */
  function Quoted(names: seq<string>): (q: seq<string>)
    ensures |q| == |names| && forall i :: 0 <= i < |names| ==> q[i] == ['"'] + names[i] + ['"']
  {
    seq(|names|, i requires 0 <= i < |names| => ['"'] + names[i] + ['"'])
  }

  lemma QuotedSnoc(names: seq<string>)
    requires names != []
    ensures Quoted(names) == Quoted(names[..|names| - 1]) + [Quote(names[|names| - 1])]
  {
  }

  /** The inner list has one quoted name per component, in order, and blanks between them. */
  lemma {:induction false} InnerNames(names: seq<string>)
    requires |names| > 0 && forall i :: 0 <= i < |names| ==> ' ' !in names[i]
    ensures Split(Inner(names), ' ') == Quoted(names)
    decreases |names|
  {
    var n := |names| - 1;
    var init, last := names[..n], Quote(names[n]);
    NoBlank(names[n]);
    QuotedSnoc(names);
    if n == 0 {
      OnePart(last, ' ');
    } else {
      InnerNames(init);
      SplitSnoc(Inner(init), ' ', last);
    }
  }

  lemma NoBlank(name: string)
    requires ' ' !in name
    ensures ' ' !in Quote(name)
  {
  }

  /** The list that is printed and the only one that is accepted: in parentheses, the seven components. */
  lemma ListNames()
    ensures |List()| >= 2 && List()[0] == '(' && List()[|List()| - 1] == ')'
    ensures var parts := Split(List()[1..|List()| - 1], ' ');
            parts == Quoted(["@method", "@path", "content-digest", "x-muthur-timestamp", "x-muthur-nonce", "x-muthur-cert", "x-muthur-hpke-kid"])
  {
    ComponentsAreNames();
    InnerNames(Components());
    assert List()[1..|List()| - 1] == Inner(Components());
  }

  lemma ParamsText(created: int, keyID: string)
    ensures Params(created, keyID) == List() + ";" + ("created" + ['='] + FormatInt(created)) + ";" + ("alg" + ['='] + (['"'] + "ecdsa-p256-sha256" + ['"']))
                                      + ";" + ("keyid" + ['='] + (['"'] + keyID + ['"']))
  {
    TailText("created" + ['='] + FormatInt(created), "alg" + ['='] + Quote(ALG), "keyid" + ['='] + Quote(keyID), List());
  }

  /** Exactly the texts that begin with the list have the list in front. */
  lemma AfterListIff(params: string, rest: string)
    ensures AfterList(params) == Some(rest) <==> params == List() + rest
  {
    ListThenRest(rest);
    if AfterList(params) == Some(rest) {
      var closing := Find(params, ')');
      assert params == params[..closing + 1] + params[closing + 1..];
    }
  }

  lemma LexKey(kv: string)
    ensures Lex(kv).Blank? <==> kv == ""
    ensures kv != "" && '=' !in kv ==> Lex(kv).Bad?
    ensures kv != "" && '=' in kv ==> Lex(kv) == LexParam(Cut(kv, '=').value.0, Cut(kv, '=').value.1)
  {
  }

  lemma LexedAs(kv: string, k: string, v: string)
    requires kv != "" && '=' !in k
    ensures kv == k + ['='] + v <==> '=' in kv && Cut(kv, '=').value == (k, v)
  {
    if kv == k + ['='] + v { CutHead(k, '=', v); }
  }

  /** Which segment is read as what, for every segment. */
  lemma LexMeaning(kv: string, v: string)
    ensures Lex(kv).Blank? <==> kv == ""
    ensures Lex(kv) == Created(v) <==> kv == "created" + ['='] + v
    ensures Lex(kv) == KeyID(v) <==> kv == "keyid" + ['='] + v
    ensures Lex(kv).Alg? <==> kv == "alg" + ['='] + (['"'] + "ecdsa-p256-sha256" + ['"'])
  {
    LexKey(kv);
    if kv != "" {
      LexedAs(kv, "created", v);
      LexedAs(kv, "keyid", v);
      LexedAs(kv, "alg", Quote(ALG));
    }
  }
}
