/** The pattern table of `internal/redact/patterns.go`: its order, categories and replacements, the
    languages of the patterns whose removal is permanent, and the pipeline they run in. */
module Patterns {
  import opened Text
  import opened Regex

  datatype Pattern = Pattern(category: string, name: string, matcher: Matcher, replacement: string)

  // ---------------------------------------------------------------------
  // The table

  datatype Rule =
    | Bearer | Jwt | Basic | AwsKey | AwsSecret | PrivateKey | Password | ApiKey
    | Visa | Mastercard | Amex | Discover | Iban
    | Uuid
    | Email | Ssn | Phone | Address
    | Ipv4 | Ipv6

  /** The order of the built-in patterns. */
  const ORDER: seq<Rule> := [
    Bearer, Jwt, Basic, AwsKey, AwsSecret, PrivateKey, Password, ApiKey,
    Visa, Mastercard, Amex, Discover, Iban, Uuid, Email, Ssn, Phone, Address, Ipv4, Ipv6]

  function Category(r: Rule): string {
    match r
    case Bearer | Jwt | Basic | AwsKey | AwsSecret | PrivateKey | Password | ApiKey => "credentials"
    case Visa | Mastercard | Amex | Discover | Iban => "financial"
    case Uuid => "other"
    case Email | Ssn | Phone | Address => "pii"
    case Ipv4 | Ipv6 => "network"
  }

  function Name(r: Rule): string {
    match r
    case Bearer => "bearer" case Jwt => "jwt" case Basic => "basic" case AwsKey => "aws-key"
    case AwsSecret => "aws-secret" case PrivateKey => "private-key" case Password => "password"
    case ApiKey => "apikey" case Visa => "visa" case Mastercard => "mastercard" case Amex => "amex"
    case Discover => "discover" case Iban => "iban" case Uuid => "uuid" case Email => "email"
    case Ssn => "ssn" case Phone => "phone" case Address => "address" case Ipv4 => "ipv4" case Ipv6 => "ipv6"
  }

  function Replacement(r: Rule): string {
    match r
    case Bearer => "[token]"
    case Jwt => "[jwt]"
    case Basic => "[basic]"
    case AwsKey => "[aws-key]"
    case AwsSecret => "[aws-secret]"
    case PrivateKey => "[private-key]"
    case Password => "[password]"
    case ApiKey => "[apikey]"
    case Visa | Mastercard | Amex | Discover => "[card]"
    case Iban => "[iban]"
    case Uuid => "[uuid]"
    case Email => "[email]"
    case Ssn => "[ssn]"
    case Phone => "[phone]"
    case Address => "[address]"
    case Ipv4 | Ipv6 => "[ip]"
  }

  /** The built-in patterns, with the regexp engine's matcher for each rule. */
  function Builtin(engine: Rule -> Matcher): (ps: seq<Pattern>)
    ensures |ps| == |ORDER|
  {
    seq(|ORDER|, i requires 0 <= i < |ORDER| =>
      Pattern(Category(ORDER[i]), Name(ORDER[i]), engine(ORDER[i]), Replacement(ORDER[i])))
  }

  /** Brackets, lower-case letters and hyphens: all that a replacement is made of. */
  predicate WallByte(c: char) { 'a' <= c <= 'z' || c == '-' || c == '[' || c == ']' }

  predicate Wall(t: string) {
    Bracketed(t) && forall i :: 0 <= i < |t| ==> WallByte(t[i])
  }

  lemma ReplacementsAreWalls(r: Rule)
    ensures Wall(Replacement(r))
  {
  }

  // ---------------------------------------------------------------------
  // The expressions without brackets and without word boundaries

  const BLANKS: string := ['\t', '\n', 12 as char, '\r', ' ']

  function Singles(s: string): (cls: seq<Range>)
    ensures |cls| == |s| && forall i :: 0 <= i < |s| ==> cls[i] == Range(s[i], s[i])
  {
    seq(|s|, i requires 0 <= i < |s| => Range(s[i], s[i]))
  }

  /** `\s` */
  function Space(): Regex { One(Singles(BLANKS)) }

  /** Letters, digits and the bytes of `more`. */
  function Alnum(more: string): Regex {
    One([Range('A', 'Z'), Range('a', 'z'), Range('0', '9')] + Singles(more))
  }

  /** The same class under `(?i)`. */
  function FoldAlnum(more: string): Regex { Alt(Alnum(more), Alt(Text(LONG_S), Text(KELVIN))) }

  function Plus(r: Regex): Regex { Cat(r, Star(r)) }

  predicate Permanent(r: Rule) {
    r.Bearer? || r.Jwt? || r.Basic? || r.AwsKey? || r.AwsSecret? || r.PrivateKey? || r.Email?
  }

  /** `(?i)word\s+[...]+=*` */
  function Header(word: string, more: string): Regex {
    Cat(Folded(word), Cat(Plus(Space()), Cat(Plus(FoldAlnum(more)), Star(Text("=")))))
  }

  /** `mark[...]+.mark[...]+.[...]+` */
  function Dotted(mark: string, more: string): Regex {
    Cat(Text(mark), Cat(Plus(Alnum(more)), Cat(Text("." + mark), Cat(Plus(Alnum(more)), Cat(Text("."), Plus(Alnum(more)))))))
  }

  /** `(?:a|b)[A-Z0-9]{n}` */
  function Prefixed(a: string, b: string, n: nat): Regex {
    Cat(Alt(Text(a), Text(b)), Repeat(One([Range('A', 'Z'), Range('0', '9')]), n))
  }

  /** `(?i)(?:a|b)\s*[=:]\s*[...]{n}` */
  function Assignment(a: Regex, b: Regex, more: string, n: nat): Regex {
    Cat(Alt(a, b),
      Cat(Star(Space()), Cat(One(Singles("=:")), Cat(Star(Space()), Repeat(FoldAlnum(more), n)))))
  }

  /** `head(?:kind)?tail` */
  function Framed(head: string, kind: Regex, tail: Regex): Regex {
    Cat(Text(head), Cat(Alt(Eps, kind), tail))
  }

  function Either(a: string, b: string, c: string): Regex { Alt(Text(a), Alt(Text(b), Text(c))) }

  /** `[...]+at[...]+\.[a-zA-Z]{n,}` */
  function Mailbox(user: string, at: string, host: string, n: nat): Regex {
    var letter := One([Range('a', 'z'), Range('A', 'Z')]);
    Cat(Plus(Alnum(user)), Cat(Text(at), Cat(Plus(Alnum(host)), Cat(Text("."), Cat(Repeat(letter, n), Star(letter))))))
  }

  function Language(r: Rule): Regex
    requires Permanent(r)
  {
    match r
    case Bearer => Header("bearer", "-._~+/")
    case Jwt => Dotted("eyJ", "_-")
    case Basic => Header("basic", "+/")
    case AwsKey => Prefixed("AKIA", "ASIA", 16)
    case AwsSecret => Assignment(Cat(Folded("aws_secret_"), Folded("access_key")), Folded("secret_key"), "/+=", 40)
    case PrivateKey => Framed("-----BEGIN ", Either("RSA ", "EC ", "DSA "), Cat(Text("PRIVATE "), Text("KEY-----")))
    case Email => Mailbox("._%+-", "@", ".-", 2)
  }

  /** Bytes such that every word of the language has one of them. */
  function Needs(r: Rule): string
    requires Permanent(r)
  {
    match r
    case Bearer | Basic => BLANKS
    case Jwt => "J"
    case AwsKey => "A"
    case AwsSecret => "_"
    case PrivateKey => "P"
    case Email => "@"
  }

  // ---------------------------------------------------------------------
  // The pipeline: what one line becomes, and how many replacements that takes

  function Stage(p: Pattern, s: string): string { ReplaceAll(p.matcher, s, p.replacement) }

  function Hits(p: Pattern, s: string): nat { |FindAll(p.matcher, s)| }

  function RedactText(ps: seq<Pattern>, s: string): string {
    if ps == [] then s else RedactText(ps[1..], Stage(ps[0], s))
  }

  /** Replacements made on `s` by the patterns of category `cat`. */
  function CategoryHits(ps: seq<Pattern>, s: string, cat: string): nat {
    if ps == [] then 0
    else (if ps[0].category == cat then Hits(ps[0], s) else 0) + CategoryHits(ps[1..], Stage(ps[0], s), cat)
  }

  function TotalHits(ps: seq<Pattern>, s: string): nat {
    if ps == [] then 0 else Hits(ps[0], s) + TotalHits(ps[1..], Stage(ps[0], s))
  }

  /** The text before stage `i` and, at the end, the result. */
  ghost predicate History(ps: seq<Pattern>, s: string, texts: seq<string>) {
    && |texts| == |ps| + 1 && texts[0] == s
    && forall i :: 0 <= i < |ps| ==> texts[i + 1] == ReplaceAll(ps[i].matcher, texts[i], ps[i].replacement)
  }

  /** The matches that the patterns of some categories replace along the way. */
  function HitsAlong(ps: seq<Pattern>, texts: seq<string>, n: nat, cats: string -> bool): nat
    requires n <= |ps| && n <= |texts|
  {
    if n == 0 then 0
    else HitsAlong(ps, texts, n - 1, cats) + if cats(ps[n - 1].category) then |FindAll(ps[n - 1].matcher, texts[n - 1])| else 0
  }

  lemma {:induction false} HitsAlongFront(p: Pattern, ps: seq<Pattern>, s: string, texts: seq<string>, n: nat, cats: string -> bool)
    requires n <= |ps| && |texts| == |ps| + 1
    ensures HitsAlong([p] + ps, [s] + texts, n + 1, cats)
         == (if cats(p.category) then |FindAll(p.matcher, s)| else 0) + HitsAlong(ps, texts, n, cats)
  {
    var all, along := [p] + ps, [s] + texts;
    if n == 0 {
      assert HitsAlong(all, along, 0, cats) == 0 && all[0] == p && along[0] == s;
    } else {
      HitsAlongFront(p, ps, s, texts, n - 1, cats);
      assert all[n] == ps[n - 1] && along[n] == texts[n - 1];
    }
  }

  lemma HistoryFront(ps: seq<Pattern>, s: string, rest: seq<string>)
    requires ps != [] && History(ps[1..], Stage(ps[0], s), rest)
    ensures History(ps, s, [s] + rest)
  {
    var texts := [s] + rest;
    forall i | 0 <= i < |ps| ensures texts[i + 1] == ReplaceAll(ps[i].matcher, texts[i], ps[i].replacement) {
      if i > 0 { assert ps[1..][i - 1] == ps[i] && texts[i] == rest[i - 1] && texts[i + 1] == rest[i - 1 + 1]; }
    }
  }

  /** A line goes through every pattern once, in order, and the counts are those of the matches found on the
      way. */
  lemma {:induction false} LineHistory(ps: seq<Pattern>, s: string, cat: string) returns (texts: seq<string>)
    ensures History(ps, s, texts) && RedactText(ps, s) == texts[|ps|]
    ensures TotalHits(ps, s) == HitsAlong(ps, texts, |ps|, c => true)
    ensures CategoryHits(ps, s, cat) == HitsAlong(ps, texts, |ps|, c => c == cat)
    decreases |ps|
  {
    if ps == [] {
      texts := [s];
    } else {
      var rest := LineHistory(ps[1..], Stage(ps[0], s), cat);
      texts := [s] + rest;
      HistoryFront(ps, s, rest);
      assert ps == [ps[0]] + ps[1..];
      HitsAlongFront(ps[0], ps[1..], s, rest, |ps| - 1, c => true);
      HitsAlongFront(ps[0], ps[1..], s, rest, |ps| - 1, c => c == cat);
    }
  }

  /** A line in which nothing is found stays as it is. */
  lemma {:induction false} NothingFoundNothingChanged(ps: seq<Pattern>, s: string)
    requires TotalHits(ps, s) == 0
    ensures RedactText(ps, s) == s
  {
    if ps != [] { NothingFoundNothingChanged(ps[1..], Stage(ps[0], s)); }
  }

  // ---------------------------------------------------------------------
  // Permanence

  ghost predicate Walls(ps: seq<Pattern>) {
    forall i :: 0 <= i < |ps| ==> Wall(ps[i].replacement)
  }

  ghost predicate Foreign(hit: string) { forall c :: c in hit ==> !WallByte(c) }

  lemma {:induction false} PipelineKeepsFree(ps: seq<Pattern>, r: Regex, hit: string, s: string)
    requires Clean(r, hit) && Walls(ps) && Foreign(hit) && Free(r, s)
    ensures Free(r, RedactText(ps, s))
  {
    if ps != [] {
      StageKeepsFree(ps[0].matcher, r, hit, s, ps[0].replacement);
      PipelineKeepsFree(ps[1..], r, hit, Stage(ps[0], s));
    }
  }

  /** In a pipeline of bracketed replacements, a clean pattern's words are gone from the final text,
      whatever the stages before and after it do. */
  lemma {:induction false} PipelineMakesFree(ps: seq<Pattern>, k: nat, r: Regex, hit: string, s: string)
    requires k < |ps| && Clean(r, hit) && Walls(ps) && Foreign(hit) && Faithful(ps[k].matcher, r)
    ensures Free(r, RedactText(ps, s))
  {
    if k == 0 {
      StageMakesFree(ps[0].matcher, r, hit, s, ps[0].replacement);
      PipelineKeepsFree(ps[1..], r, hit, Stage(ps[0], s));
    } else {
      PipelineMakesFree(ps[1..], k - 1, r, hit, Stage(ps[0], s));
    }
  }

  ghost predicate NoBracket(r: Regex) { NeverUses(r, '[') && NeverUses(r, ']') }

  ghost predicate Unbracketed(t: string) { '[' !in t && ']' !in t }

  lemma Combine(a: Regex, b: Regex)
    requires NoBracket(a) && NoBracket(b)
    ensures NoBracket(Cat(a, b)) && NoBracket(Alt(a, b)) && NoBracket(Star(a)) && NoBracket(Plus(a))
  {
  }

  lemma ClassFacts(more: string)
    requires Unbracketed(more)
    ensures NoBracket(One(Singles(more))) && NoBracket(Plus(Alnum(more)))
    ensures NoBracket(FoldAlnum(more)) && NoBracket(Plus(FoldAlnum(more)))
  {
    assert NoBracket(Alnum(more));
    Combine(Text(LONG_S), Text(KELVIN));
    Combine(Alnum(more), Alt(Text(LONG_S), Text(KELVIN)));
    Combine(FoldAlnum(more), Eps);
  }

  lemma SpaceFacts()
    ensures NoBracket(Plus(Space())) && NoBracket(Star(Space())) && AlwaysHits(Plus(Space()), BLANKS)
  {
  }

  lemma HeaderClean(word: string, more: string)
    requires Unbracketed(word) && Unbracketed(more) && forall c :: c in word ==> 'a' <= c <= 'z'
    ensures Clean(Header(word, more), BLANKS)
  {
    SpaceFacts();
    ClassFacts(more);
    Combine(Text("="), Eps);
    Combine(Plus(FoldAlnum(more)), Star(Text("=")));
    var tail := Cat(Plus(Space()), Cat(Plus(FoldAlnum(more)), Star(Text("="))));
    Combine(Plus(Space()), Cat(Plus(FoldAlnum(more)), Star(Text("="))));
    assert AlwaysHits(tail, BLANKS);
  }

  lemma DottedClean(mark: string, more: string, hit: string)
    requires Unbracketed(mark) && Unbracketed(more) && AlwaysHits(Text(mark), hit)
    ensures Clean(Dotted(mark, more), hit)
  {
    ClassFacts(more);
    var part := Plus(Alnum(more));
    Combine(Text("."), part);
    Combine(part, Cat(Text("."), part));
    Combine(Text("." + mark), Cat(part, Cat(Text("."), part)));
    Combine(part, Cat(Text("." + mark), Cat(part, Cat(Text("."), part))));
  }

  lemma PrefixedClean(a: string, b: string, n: nat, hit: string)
    requires Unbracketed(a) && Unbracketed(b) && AlwaysHits(Text(a), hit) && AlwaysHits(Text(b), hit)
    ensures Clean(Prefixed(a, b, n), hit)
  {
  }

  lemma AssignmentClean(a: Regex, b: Regex, more: string, n: nat, hit: string)
    requires NoBracket(a) && NoBracket(b) && Unbracketed(more) && AlwaysHits(a, hit) && AlwaysHits(b, hit)
    ensures Clean(Assignment(a, b, more, n), hit)
  {
    SpaceFacts();
    ClassFacts(more);
    ClassFacts("=:");
    Combine(a, b);
    assert AlwaysHits(Alt(a, b), hit);
    var value := Repeat(FoldAlnum(more), n);
    assert NoBracket(value);
    Combine(Star(Space()), value);
    Combine(One(Singles("=:")), Cat(Star(Space()), value));
    Combine(Star(Space()), Cat(One(Singles("=:")), Cat(Star(Space()), value)));
  }

  lemma FramedClean(head: string, kind: Regex, tail: Regex, hit: string)
    requires Unbracketed(head) && NoBracket(kind) && NoBracket(tail) && AlwaysHits(tail, hit)
    ensures Clean(Framed(head, kind, tail), hit)
  {
    Combine(Eps, kind);
    Combine(Alt(Eps, kind), tail);
    assert AlwaysHits(Cat(Alt(Eps, kind), tail), hit);
  }

  lemma MailboxClean(user: string, at: string, host: string, n: nat, hit: string)
    requires Unbracketed(user) && Unbracketed(at) && Unbracketed(host) && AlwaysHits(Text(at), hit)
    ensures Clean(Mailbox(user, at, host, n), hit)
  {
    var letter := One([Range('a', 'z'), Range('A', 'Z')]);
    ClassFacts(user);
    ClassFacts(host);
    Combine(letter, Eps);
    Combine(Repeat(letter, n), Star(letter));
    var tld := Cat(Repeat(letter, n), Star(letter));
    Combine(Text("."), tld);
    Combine(Plus(Alnum(host)), Cat(Text("."), tld));
    var domain := Cat(Plus(Alnum(host)), Cat(Text("."), tld));
    Combine(Text(at), domain);
    assert AlwaysHits(Cat(Text(at), domain), hit);
  }

  lemma TextHits(t: string, i: nat, hit: string)
    requires i < |t| && t[i] in hit
    ensures AlwaysHits(Text(t), hit)
  {
  }

  lemma FoldedHitsAt(word: string, i: nat, hit: string)
    requires i < |word| && word[i] in hit && Upper(word[i]) in hit && word[i] != 's' && word[i] != 'k'
    ensures AlwaysHits(Folded(word), hit)
  {
  }

  lemma NameNoBracket(word: string)
    requires forall i :: 0 <= i < |word| ==> 'a' <= word[i] <= 'z' || word[i] == '_'
    ensures NoBracket(Folded(word))
  {
  }

  lemma LongNameFacts(a: Regex)
    requires a == Cat(Folded("aws_secret_"), Folded("access_key"))
    ensures NoBracket(a) && AlwaysHits(a, "_")
  {
    FoldedHitsAt("aws_secret_", 3, "_");
    NameNoBracket("aws_secret_");
    NameNoBracket("access_key");
  }

  lemma ShortNameFacts(b: Regex)
    requires b == Folded("secret_key")
    ensures NoBracket(b) && AlwaysHits(b, "_")
  {
    FoldedHitsAt("secret_key", 6, "_");
    NameNoBracket("secret_key");
  }

  lemma AwsSecretClean(r: Rule, a: Regex, b: Regex)
    requires r.AwsSecret? && Language(r) == Assignment(a, b, "/+=", 40)
    requires NoBracket(a) && NoBracket(b) && AlwaysHits(a, "_") && AlwaysHits(b, "_")
    ensures Clean(Language(r), Needs(r))
  {
    AssignmentClean(a, b, "/+=", 40, "_");
  }

  lemma KeyBlockFacts(kind: Regex, tail: Regex)
    requires kind == Either("RSA ", "EC ", "DSA ") && tail == Cat(Text("PRIVATE "), Text("KEY-----"))
    ensures NoBracket(kind) && NoBracket(tail) && AlwaysHits(tail, "P")
  {
    KeyKinds(kind);
    KeyTail(tail);
  }

  lemma KeyKinds(kind: Regex)
    requires kind == Either("RSA ", "EC ", "DSA ")
    ensures NoBracket(kind)
  {
  }

  lemma KeyTail(tail: Regex)
    requires tail == Cat(Text("PRIVATE "), Text("KEY-----"))
    ensures NoBracket(tail) && AlwaysHits(tail, "P")
  {
    TextHits("PRIVATE ", 0, "P");
    Combine(Text("PRIVATE "), Text("KEY-----"));
  }

  lemma HeadFacts(head: string)
    requires head == "-----BEGIN "
    ensures Unbracketed(head)
  {
  }

  /** All seven expressions are free of brackets and need a byte that no replacement has. */
  lemma PermanentIsClean(r: Rule)
    requires Permanent(r)
    ensures Clean(Language(r), Needs(r))
  {
    match r
    case Bearer => HeaderClean("bearer", "-._~+/");
    case Jwt =>
      TextHits("eyJ", 2, "J");
      DottedClean("eyJ", "_-", "J");
    case Basic => HeaderClean("basic", "+/");
    case AwsKey =>
      TextHits("AKIA", 0, "A");
      TextHits("ASIA", 0, "A");
      PrefixedClean("AKIA", "ASIA", 16, "A");
    case AwsSecret =>
      var a, b := Cat(Folded("aws_secret_"), Folded("access_key")), Folded("secret_key");
      LongNameFacts(a);
      ShortNameFacts(b);
      AwsSecretClean(r, a, b);
    case PrivateKey =>
      var kind, tail := Either("RSA ", "EC ", "DSA "), Cat(Text("PRIVATE "), Text("KEY-----"));
      KeyBlockFacts(kind, tail);
      HeadFacts("-----BEGIN ");
      FramedClean("-----BEGIN ", kind, tail, "P");
    case Email =>
      TextHits("@", 0, "@");
      MailboxClean("._%+-", "@", ".-", 2, "@");
  }

  lemma NeedsAreForeign(r: Rule)
    requires Permanent(r)
    ensures Foreign(Needs(r))
  {
  }

  /** Where a rule stands in the table. */
  function Position(r: Rule): nat {
    match r
    case Bearer => 0 case Jwt => 1 case Basic => 2 case AwsKey => 3 case AwsSecret => 4
    case PrivateKey => 5 case Password => 6 case ApiKey => 7 case Visa => 8 case Mastercard => 9
    case Amex => 10 case Discover => 11 case Iban => 12 case Uuid => 13 case Email => 14
    case Ssn => 15 case Phone => 16 case Address => 17 case Ipv4 => 18 case Ipv6 => 19
  }

  lemma RuleInOrder(r: Rule)
    ensures Position(r) < |ORDER| && ORDER[Position(r)] == r
  {
  }

  /** The table of patterns: each rule at its position, with its category, name, engine and replacement. */
  lemma TableEntry(engine: Rule -> Matcher, r: Rule)
    ensures |Builtin(engine)| == 20 && Position(r) < 20
    ensures Builtin(engine)[Position(r)] == Pattern(Category(r), Name(r), engine(r), Replacement(r))
  {
    RuleInOrder(r);
  }

  /** The redaction guarantee for one text: with the built-in table in its order, any custom patterns
      after it and any engine for the other rules, no bearer token, JWT, basic credential, AWS key,
      AWS secret, private-key header or email address is left anywhere in the redacted text. */
  lemma NothingPermanentSurvives(engine: Rule -> Matcher, extra: seq<Pattern>, r: Rule, s: string)
    requires Permanent(r) && Walls(extra)
    requires Faithful(engine(r), Language(r))
    ensures Free(Language(r), RedactText(Builtin(engine) + extra, s))
  {
    var ps := Builtin(engine) + extra;
    PermanentIsClean(r);
    NeedsAreForeign(r);
    forall i | 0 <= i < |ps| ensures Wall(ps[i].replacement) {
      if i < |ORDER| { ReplacementsAreWalls(ORDER[i]); }
    }
    RuleInOrder(r);
    PipelineMakesFree(ps, Position(r), Language(r), Needs(r), s);
  }

  // ---------------------------------------------------------------------
  // The languages, spelled out

  lemma CatWord(a: Regex, b: Regex, x: string, y: string)
    requires Matches(a, x) && Matches(b, y)
    ensures Matches(Cat(a, b), x + y)
  {
    assert (x + y)[..|x|] == x && (x + y)[|x|..] == y;
  }

  lemma CatParts(a: Regex, b: Regex, w: string) returns (x: string, y: string)
    requires Matches(Cat(a, b), w)
    ensures Matches(a, x) && Matches(b, y) && w == x + y
  {
    var k :| 0 <= k <= |w| && Matches(a, w[..k]) && Matches(b, w[k..]);
    x, y := w[..k], w[k..];
  }

  predicate AllIn(w: string, cls: seq<Range>) { forall i :: 0 <= i < |w| ==> InClass(w[i], cls) }

  lemma {:induction false} StarIff(cls: seq<Range>, w: string)
    ensures Matches(Star(One(cls)), w) <==> AllIn(w, cls)
    decreases |w|
  {
    if w != "" {
      assert w[..1] == [w[0]];
      StarIff(cls, w[1..]);
      if Matches(Star(One(cls)), w) {
        var k :| 0 < k <= |w| && Matches(One(cls), w[..k]) && Matches(Star(One(cls)), w[k..]);
        assert k == 1 && forall i :: 1 <= i < |w| ==> w[i] == w[1..][i - 1];
      }
    }
  }

  lemma PlusIff(cls: seq<Range>, w: string)
    ensures Matches(Plus(One(cls)), w) <==> w != "" && AllIn(w, cls)
  {
    if Matches(Plus(One(cls)), w) {
      var x, y := CatParts(One(cls), Star(One(cls)), w);
      StarIff(cls, y);
    }
    if w != "" && AllIn(w, cls) {
      StarIff(cls, w[1..]);
      CatWord(One(cls), Star(One(cls)), w[..1], w[1..]);
      assert w[..1] + w[1..] == w;
    }
  }

  lemma {:induction false} RepeatIff(cls: seq<Range>, n: nat, w: string)
    ensures MatchesTimes(One(cls), n, w) <==> |w| == n && AllIn(w, cls)
    decreases n
  {
    if n > 0 {
      if MatchesTimes(One(cls), n, w) {
        var k :| 0 <= k <= |w| && Matches(One(cls), w[..k]) && MatchesTimes(One(cls), n - 1, w[k..]);
        RepeatIff(cls, n - 1, w[k..]);
        assert k == 1 && forall i :: 1 <= i < |w| ==> w[i] == w[1..][i - 1];
      }
      if |w| == n && AllIn(w, cls) {
        RepeatIff(cls, n - 1, w[1..]);
        assert w[..1] == [w[0]];
      }
    }
  }

  lemma AtLeastIff(cls: seq<Range>, n: nat, w: string)
    ensures Matches(Cat(Repeat(One(cls), n), Star(One(cls))), w) <==> |w| >= n && AllIn(w, cls)
  {
    if Matches(Cat(Repeat(One(cls), n), Star(One(cls))), w) {
      var x, y := CatParts(Repeat(One(cls), n), Star(One(cls)), w);
      RepeatIff(cls, n, x);
      StarIff(cls, y);
    }
    if |w| >= n && AllIn(w, cls) {
      RepeatIff(cls, n, w[..n]);
      StarIff(cls, w[n..]);
      CatWord(Repeat(One(cls), n), Star(One(cls)), w[..n], w[n..]);
      assert w[..n] + w[n..] == w;
    }
  }

  predicate Letter(c: char) { 'a' <= c <= 'z' || 'A' <= c <= 'Z' }

  predicate Digit(c: char) { '0' <= c <= '9' }

  /** Letters, digits and the bytes of `more`. */
  predicate Plain(w: string, more: string) { forall i :: 0 <= i < |w| ==> Letter(w[i]) || Digit(w[i]) || w[i] in more }

  predicate Letters(w: string) { forall i :: 0 <= i < |w| ==> Letter(w[i]) }

  lemma AlnumIff(w: string, more: string)
    ensures AllIn(w, Alnum(more).cls) <==> Plain(w, more)
  {
    var cls := Alnum(more).cls;
    assert cls[0] == Range('A', 'Z') && cls[1] == Range('a', 'z') && cls[2] == Range('0', '9');
    assert forall k :: 3 <= k < |cls| ==> cls[k] == Range(more[k - 3], more[k - 3]);
    forall i | 0 <= i < |w| ensures InClass(w[i], cls) <==> Letter(w[i]) || Digit(w[i]) || w[i] in more {
      if w[i] in more {
        var k :| 0 <= k < |more| && more[k] == w[i];
        assert cls[k + 3] == Range(more[k], more[k]);
      }
    }
  }

  const LETTERS: seq<Range> := [Range('a', 'z'), Range('A', 'Z')]

  lemma LettersIff(w: string)
    ensures AllIn(w, LETTERS) <==> Letters(w)
  {
    assert LETTERS[0] == Range('a', 'z') && LETTERS[1] == Range('A', 'Z');
  }

  /** A user part, a host part and a top-level part of at least `n` letters. */
  predicate MailParts(user: string, host: string, n: nat, u: string, h: string, t: string) {
    u != "" && Plain(u, user) && h != "" && Plain(h, host) && |t| >= n && Letters(t)
  }

  lemma MailFacts(user: string, host: string, n: nat, u: string, h: string, t: string)
    ensures Matches(Plus(Alnum(user)), u) <==> u != "" && Plain(u, user)
    ensures Matches(Plus(Alnum(host)), h) <==> h != "" && Plain(h, host)
    ensures Matches(Cat(Repeat(One(LETTERS), n), Star(One(LETTERS))), t) <==> |t| >= n && Letters(t)
  {
    PlusIff(Alnum(user).cls, u);
    AlnumIff(u, user);
    PlusIff(Alnum(host).cls, h);
    AlnumIff(h, host);
    AtLeastIff(LETTERS, n, t);
    LettersIff(t);
  }

  lemma MailboxWord(user: string, at: string, host: string, n: nat, u: string, h: string, t: string)
    requires MailParts(user, host, n, u, h, t)
    ensures Matches(Mailbox(user, at, host, n), u + (at + (h + ("." + t))))
  {
    MailFacts(user, host, n, u, h, t);
    var tld := Cat(Repeat(One(LETTERS), n), Star(One(LETTERS)));
    CatWord(Text("."), tld, ".", t);
    CatWord(Plus(Alnum(host)), Cat(Text("."), tld), h, "." + t);
    CatWord(Text(at), Cat(Plus(Alnum(host)), Cat(Text("."), tld)), at, h + ("." + t));
    CatWord(Plus(Alnum(user)), Cat(Text(at), Cat(Plus(Alnum(host)), Cat(Text("."), tld))), u, at + (h + ("." + t)));
  }

  lemma MailboxParts(user: string, at: string, host: string, n: nat, w: string) returns (u: string, h: string, t: string)
    requires Matches(Mailbox(user, at, host, n), w)
    ensures MailParts(user, host, n, u, h, t) && w == u + (at + (h + ("." + t)))
  {
    var tld := Cat(Repeat(One(LETTERS), n), Star(One(LETTERS)));
    var w1, a, w2, dot;
    u, w1 := CatParts(Plus(Alnum(user)), Cat(Text(at), Cat(Plus(Alnum(host)), Cat(Text("."), tld))), w);
    a, w2 := CatParts(Text(at), Cat(Plus(Alnum(host)), Cat(Text("."), tld)), w1);
    h, w1 := CatParts(Plus(Alnum(host)), Cat(Text("."), tld), w2);
    dot, t := CatParts(Text("."), tld, w1);
    MailFacts(user, host, n, u, h, t);
  }

  /** The addresses of the email rule, by their parts. */
  predicate AddressParts(u: string, h: string, t: string) { MailParts("._%+-", ".-", 2, u, h, t) }

  function AddressOf(u: string, h: string, t: string): string { u + ("@" + (h + ("." + t))) }

  /** The words of the email rule are exactly: some letters, digits and `._%+-`, an at sign, some letters,
      digits, dots and hyphens, a dot and at least two letters. */
  lemma AddressIff(w: string)
    ensures Matches(Language(Email), w) <==> exists u, h, t :: AddressParts(u, h, t) && w == AddressOf(u, h, t)
  {
    if Matches(Language(Email), w) {
      var u, h, t := MailboxParts("._%+-", "@", ".-", 2, w);
      assert AddressParts(u, h, t) && w == AddressOf(u, h, t);
    }
    if u, h, t :| AddressParts(u, h, t) && w == AddressOf(u, h, t) {
      MailboxWord("._%+-", "@", ".-", 2, u, h, t);
    }
  }

  predicate TokenParts(more: string, a: string, b: string, c: string) {
    a != "" && Plain(a, more) && b != "" && Plain(b, more) && c != "" && Plain(c, more)
  }

  function DottedOf(mark: string, a: string, b: string, c: string): string {
    mark + (a + (("." + mark) + (b + ("." + c))))
  }

  lemma PartIff(more: string, w: string)
    ensures Matches(Plus(Alnum(more)), w) <==> w != "" && Plain(w, more)
  {
    PlusIff(Alnum(more).cls, w);
    AlnumIff(w, more);
  }

  lemma DottedWord(mark: string, more: string, a: string, b: string, c: string)
    requires TokenParts(more, a, b, c)
    ensures Matches(Dotted(mark, more), DottedOf(mark, a, b, c))
  {
    PartIff(more, a);
    PartIff(more, b);
    PartIff(more, c);
    var part := Plus(Alnum(more));
    CatWord(Text("."), part, ".", c);
    CatWord(part, Cat(Text("."), part), b, "." + c);
    CatWord(Text("." + mark), Cat(part, Cat(Text("."), part)), "." + mark, b + ("." + c));
    CatWord(part, Cat(Text("." + mark), Cat(part, Cat(Text("."), part))), a, ("." + mark) + (b + ("." + c)));
    CatWord(Text(mark), Cat(part, Cat(Text("." + mark), Cat(part, Cat(Text("."), part)))), mark, a + (("." + mark) + (b + ("." + c))));
  }

  lemma DottedParts(mark: string, more: string, w: string) returns (a: string, b: string, c: string)
    requires Matches(Dotted(mark, more), w)
    ensures TokenParts(more, a, b, c) && w == DottedOf(mark, a, b, c)
  {
    var part := Plus(Alnum(more));
    var x, w1, w2;
    x, w1 := CatParts(Text(mark), Cat(part, Cat(Text("." + mark), Cat(part, Cat(Text("."), part)))), w);
    a, w2 := CatParts(part, Cat(Text("." + mark), Cat(part, Cat(Text("."), part))), w1);
    x, w1 := CatParts(Text("." + mark), Cat(part, Cat(Text("."), part)), w2);
    b, w2 := CatParts(part, Cat(Text("."), part), w1);
    x, c := CatParts(Text("."), part, w2);
    PartIff(more, a);
    PartIff(more, b);
    PartIff(more, c);
  }

  /** A JSON web token: three parts of letters, digits, `_` and `-`, the first two opening with `eyJ`. */
  lemma JwtIff(w: string)
    ensures Matches(Language(Jwt), w) <==> exists a, b, c :: TokenParts("_-", a, b, c) && w == DottedOf("eyJ", a, b, c)
  {
    if Matches(Language(Jwt), w) {
      var a, b, c := DottedParts("eyJ", "_-", w);
    }
    if a, b, c :| TokenParts("_-", a, b, c) && w == DottedOf("eyJ", a, b, c) { DottedWord("eyJ", "_-", a, b, c); }
  }

  predicate Capitals(w: string) { forall i :: 0 <= i < |w| ==> 'A' <= w[i] <= 'Z' || Digit(w[i]) }

  lemma EitherTextIff(a: string, b: string, w: string)
    ensures Matches(Alt(Text(a), Text(b)), w) <==> w == a || w == b
  {
    assert Matches(Text(a), w) <==> w == a;
    assert Matches(Text(b), w) <==> w == b;
  }

  ghost predicate KeyParts(a: string, b: string, n: nat, w: string, p: string, x: string) {
    (p == a || p == b) && |x| == n && Capitals(x) && w == p + x
  }

  lemma PrefixedIff(a: string, b: string, n: nat, w: string)
    ensures Matches(Prefixed(a, b, n), w) <==> exists p, x :: KeyParts(a, b, n, w, p, x)
  {
    var cls := [Range('A', 'Z'), Range('0', '9')];
    assert cls[0] == Range('A', 'Z') && cls[1] == Range('0', '9');
    if Matches(Prefixed(a, b, n), w) {
      var p, x := CatParts(Alt(Text(a), Text(b)), Repeat(One(cls), n), w);
      EitherTextIff(a, b, p);
      RepeatIff(cls, n, x);
      assert KeyParts(a, b, n, w, p, x);
    }
    if p, x :| KeyParts(a, b, n, w, p, x) {
      assert AllIn(x, cls);
      EitherTextIff(a, b, p);
      RepeatIff(cls, n, x);
      CatWord(Alt(Text(a), Text(b)), Repeat(One(cls), n), p, x);
    }
  }

  /** An AWS access key: one of two prefixes and sixteen capitals or digits. */
  lemma AwsKeyIff(w: string)
    ensures Matches(Language(AwsKey), w) <==> exists p, x :: KeyParts("AKIA", "ASIA", 16, w, p, x)
  {
    PrefixedIff("AKIA", "ASIA", 16, w);
  }

  lemma KindIff(a: string, b: string, c: string, w: string)
    ensures Matches(Alt(Eps, Either(a, b, c)), w) <==> w == "" || w == a || w == b || w == c
  {
    EitherTextIff(b, c, w);
    assert Matches(Text(a), w) <==> w == a;
    assert Matches(Either(a, b, c), w) <==> w == a || w == b || w == c;
    assert Matches(Eps, w) <==> w == "";
  }

  lemma FramedIff(head: string, a: string, b: string, c: string, t1: string, t2: string, w: string)
    ensures Matches(Framed(head, Either(a, b, c), Cat(Text(t1), Text(t2))), w)
       <==> exists k :: (k == "" || k == a || k == b || k == c) && w == head + (k + (t1 + t2))
  {
    var kind, tail := Alt(Eps, Either(a, b, c)), Cat(Text(t1), Text(t2));
    if Matches(Framed(head, Either(a, b, c), tail), w) {
      var x, w1 := CatParts(Text(head), Cat(kind, tail), w);
      var k, w2 := CatParts(kind, tail, w1);
      KindIff(a, b, c, k);
      var y, z := CatParts(Text(t1), Text(t2), w2);
      assert (k == "" || k == a || k == b || k == c) && w == head + (k + (t1 + t2));
    }
    if k :| (k == "" || k == a || k == b || k == c) && w == head + (k + (t1 + t2)) {
      KindIff(a, b, c, k);
      CatWord(Text(t1), Text(t2), t1, t2);
      CatWord(kind, tail, k, t1 + t2);
      CatWord(Text(head), Cat(kind, tail), head, k + (t1 + t2));
    }
  }

  /** The head of a private key, with or without its kind. */
  lemma PrivateKeyIff(w: string)
    ensures Matches(Language(PrivateKey), w) <==>
              exists k :: (k == "" || k == "RSA " || k == "EC " || k == "DSA ") && w == "-----BEGIN " + (k + ("PRIVATE " + "KEY-----"))
  {
    FramedIff("-----BEGIN ", "RSA ", "EC ", "DSA ", "PRIVATE ", "KEY-----", w);
  }

  /** `w` is the lower-case text `word` in any mixture of cases. */
  predicate AnyCase(word: string, w: string) {
    |w| == |word| && forall i :: 0 <= i < |word| ==> w[i] == word[i] || w[i] == Upper(word[i])
  }

  lemma {:induction false} FoldedWord(word: string, w: string)
    requires AnyCase(word, w)
    ensures MatchesFolded(word, w)
    decreases |word|
  {
    if word != "" {
      assert w[..1] == [w[0]];
      FoldedWord(word[1..], w[1..]);
    }
  }

  lemma {:induction false} FoldStar(more: string, w: string)
    requires Plain(w, more)
    ensures Matches(Star(FoldAlnum(more)), w)
    decreases |w|
  {
    if w != "" {
      FoldOne(more, w[0]);
      FoldStar(more, w[1..]);
      assert w[..1] == [w[0]];
    }
  }

  lemma FoldOne(more: string, c: char)
    requires Letter(c) || Digit(c) || c in more
    ensures Matches(FoldAlnum(more), [c])
  {
    AlnumIff([c], more);
    assert InClass([c][0], Alnum(more).cls);
  }

  lemma {:induction false} FoldTimes(more: string, n: nat, w: string)
    requires |w| == n && Plain(w, more)
    ensures MatchesTimes(FoldAlnum(more), n, w)
    decreases n
  {
    if n > 0 {
      FoldOne(more, w[0]);
      FoldTimes(more, n - 1, w[1..]);
      assert w[..1] == [w[0]];
    }
  }

  predicate Blanks(w: string) { forall i :: 0 <= i < |w| ==> w[i] in BLANKS }

  lemma BlanksAre(w: string)
    requires Blanks(w)
    ensures Matches(Star(Space()), w) && (w != "" ==> Matches(Plus(Space()), w))
  {
    var cls := Singles(BLANKS);
    forall i | 0 <= i < |w| ensures InClass(w[i], cls) {
      var k :| 0 <= k < |BLANKS| && BLANKS[k] == w[i];
      assert cls[k] == Range(w[i], w[i]);
    }
    StarIff(cls, w);
    PlusIff(cls, w);
  }

  predicate Equals(w: string) { forall i :: 0 <= i < |w| ==> w[i] == '=' }

  lemma {:induction false} EqualsAre(w: string)
    requires Equals(w)
    ensures Matches(Star(Text("=")), w)
    decreases |w|
  {
    if w != "" {
      EqualsAre(w[1..]);
      assert w[..1] == "=";
    }
  }

  /** A keyword in any case, blanks, a token and equal signs. */
  lemma HeaderWord(word: string, more: string, k: string, blanks: string, token: string, eq: string)
    requires AnyCase(word, k) && blanks != "" && Blanks(blanks) && token != "" && Plain(token, more) && Equals(eq)
    ensures Matches(Header(word, more), k + (blanks + (token + eq)))
  {
    FoldedWord(word, k);
    BlanksAre(blanks);
    FoldOne(more, token[0]);
    FoldStar(more, token[1..]);
    var one := FoldAlnum(more);
    CatWord(one, Star(one), [token[0]], token[1..]);
    assert [token[0]] + token[1..] == token;
    EqualsAre(eq);
    CatWord(Plus(one), Star(Text("=")), token, eq);
    CatWord(Plus(Space()), Cat(Plus(one), Star(Text("="))), blanks, token + eq);
    CatWord(Folded(word), Cat(Plus(Space()), Cat(Plus(one), Star(Text("=")))), k, blanks + (token + eq));
  }

  lemma BearerIsWord(k: string, blanks: string, token: string, eq: string)
    requires AnyCase("bearer", k) && blanks != "" && Blanks(blanks) && token != "" && Plain(token, "-._~+/") && Equals(eq)
    ensures Matches(Language(Bearer), k + (blanks + (token + eq)))
  {
    HeaderWord("bearer", "-._~+/", k, blanks, token, eq);
  }

  lemma BasicIsWord(k: string, blanks: string, token: string, eq: string)
    requires AnyCase("basic", k) && blanks != "" && Blanks(blanks) && token != "" && Plain(token, "+/") && Equals(eq)
    ensures Matches(Language(Basic), k + (blanks + (token + eq)))
  {
    HeaderWord("basic", "+/", k, blanks, token, eq);
  }

  /** A name, an equals sign or colon with or without blanks around it, and a value of `n` bytes. */
  lemma AssignmentWord(a: Regex, b: Regex, more: string, n: nat, name: string, before: string, sign: char, behind: string, value: string)
    requires (Matches(a, name) || Matches(b, name)) && Blanks(before) && (sign == '=' || sign == ':') && Blanks(behind)
    requires |value| == n && Plain(value, more)
    ensures Matches(Assignment(a, b, more, n), name + (before + ([sign] + (behind + value))))
  {
    BlanksAre(before);
    BlanksAre(behind);
    FoldTimes(more, n, value);
    var eq, val := One(Singles("=:")), Repeat(FoldAlnum(more), n);
    assert Singles("=:")[0] == Range('=', '=') && Singles("=:")[1] == Range(':', ':');
    assert Matches(eq, [sign]) && Matches(Alt(a, b), name);
    CatWord(Star(Space()), val, behind, value);
    CatWord(eq, Cat(Star(Space()), val), [sign], behind + value);
    CatWord(Star(Space()), Cat(eq, Cat(Star(Space()), val)), before, [sign] + (behind + value));
    CatWord(Alt(a, b), Cat(Star(Space()), Cat(eq, Cat(Star(Space()), val))), name, before + ([sign] + (behind + value)));
  }

  lemma LongName(m: string, n: string, x: string, y: string)
    requires AnyCase(m, x) && AnyCase(n, y)
    ensures Matches(Cat(Folded(m), Folded(n)), x + y)
  {
    FoldedWord(m, x);
    FoldedWord(n, y);
    CatWord(Folded(m), Folded(n), x, y);
  }

  /** The languages of both names of a secret, by their parts. */
  lemma NamedWord(m: string, n: string, o: string, more: string, size: nat, x: string, y: string, z: string,
                  before: string, sign: char, behind: string, value: string)
    requires AnyCase(m, x) && AnyCase(n, y) && AnyCase(o, z)
    requires Blanks(before) && (sign == '=' || sign == ':') && Blanks(behind) && |value| == size && Plain(value, more)
    ensures var rest := before + ([sign] + (behind + value));
            var r := Assignment(Cat(Folded(m), Folded(n)), Folded(o), more, size);
            Matches(r, x + y + rest) && Matches(r, z + rest)
  {
    LongName(m, n, x, y);
    FoldedWord(o, z);
    AssignmentWord(Cat(Folded(m), Folded(n)), Folded(o), more, size, x + y, before, sign, behind, value);
    AssignmentWord(Cat(Folded(m), Folded(n)), Folded(o), more, size, z, before, sign, behind, value);
  }

  /** Both names of an AWS secret in any case, a sign with or without blanks, and forty bytes. */
  lemma AwsSecretIsWord(x: string, y: string, z: string, before: string, sign: char, behind: string, value: string)
    requires AnyCase("aws_secret_", x) && AnyCase("access_key", y) && AnyCase("secret_key", z)
    requires Blanks(before) && (sign == '=' || sign == ':') && Blanks(behind) && |value| == 40 && Plain(value, "/+=")
    ensures var rest := before + ([sign] + (behind + value));
            Matches(Language(AwsSecret), x + y + rest) && Matches(Language(AwsSecret), z + rest)
  {
    NamedWord("aws_secret_", "access_key", "secret_key", "/+=", 40, x, y, z, before, sign, behind, value);
  }

  // ---------------------------------------------------------------------
  // The table

  predicate Card(r: Rule) { r.Visa? || r.Mastercard? || r.Amex? || r.Discover? }

  /** The rules are replaced by their own name, but for bearer tokens, cards and addresses of hosts. */
  predicate NamedRight(r: Rule) {
    Replacement(r) == if r.Bearer? then "[token]" else if Card(r) then "[card]" else if r.Ipv4? || r.Ipv6? then "[ip]" else "[" + Name(r) + "]"
  }

  lemma CredentialNames(r: Rule)
    requires Position(r) < 5
    ensures NamedRight(r)
  {
  }

  lemma SecretNames(r: Rule)
    requires 5 <= Position(r) < 13
    ensures NamedRight(r)
  {
  }

  lemma PersonalNames(r: Rule)
    requires 13 <= Position(r)
    ensures NamedRight(r)
  {
  }

  lemma ReplacementNamesItsRule(r: Rule)
    ensures NamedRight(r)
  {
    if Position(r) < 5 { CredentialNames(r); } else if Position(r) < 13 { SecretNames(r); } else { PersonalNames(r); }
  }

  /** Cards, account numbers and UUIDs go before phone numbers, which could eat a part of them; the categories
      stand together. */
  lemma MoreSpecificFirst(r: Rule)
    ensures Category(r) == "financial" || r == Uuid ==> Position(r) < Position(Phone)
    ensures Category(r) == if Position(r) < 8 then "credentials" else if Position(r) < 13 then "financial"
                           else if Position(r) < 14 then "other" else if Position(r) < 18 then "pii" else "network"
  {
  }
}
