/** Regular expressions over bytes, the leftmost non-overlapping search of Go's `regexp`, and what
    a search-and-replace with a bracketed word does to the other patterns of a pipeline. */
module Regex {
  import opened Text

  datatype Range = Range(lo: char, hi: char)

  datatype Regex =
    | Eps
    | One(cls: seq<Range>)
    | Text(text: string)
    | Folded(word: string)
    | Cat(first: Regex, second: Regex)
    | Alt(left: Regex, right: Regex)
    | Star(body: Regex)
    | Repeat(unit: Regex, times: nat)

  predicate InClass(c: char, cls: seq<Range>) {
    exists k :: 0 <= k < |cls| && cls[k].lo <= c <= cls[k].hi
  }

  /** U+017F and U+212A in UTF-8: the two letters outside ASCII that `(?i)` folds to `s` and `k`. */
  const LONG_S: string := [0xC5 as char, 0xBF as char]
  const KELVIN: string := [0xE2 as char, 0x84 as char, 0xAA as char]

  /** Is `x` a form of the lower-case letter or mark `c` under `(?i)`? */
  predicate FoldsTo(c: char, x: string) {
    || x == [c]
    || x == [Upper(c)]
    || (c == 's' && x == LONG_S)
    || (c == 'k' && x == KELVIN)
  }

  predicate MatchesFolded(word: string, w: string)
    decreases |word|
  {
    if word == "" then w == ""
    else exists k :: 0 <= k <= |w| && FoldsTo(word[0], w[..k]) && MatchesFolded(word[1..], w[k..])
  }

  /** The language of a regular expression: does the whole word `w` match? */
  predicate Matches(r: Regex, w: string)
    decreases r, 0, |w|
  {
    match r
    case Eps => w == ""
    case One(cls) => |w| == 1 && InClass(w[0], cls)
    case Text(t) => w == t
    case Folded(word) => MatchesFolded(word, w)
    case Cat(a, b) => exists k :: 0 <= k <= |w| && Matches(a, w[..k]) && Matches(b, w[k..])
    case Alt(a, b) => Matches(a, w) || Matches(b, w)
    case Star(a) => w == "" || exists k :: 0 < k <= |w| && Matches(a, w[..k]) && Matches(r, w[k..])
    case Repeat(a, n) => MatchesTimes(a, n, w)
  }

  predicate MatchesTimes(a: Regex, n: nat, w: string)
    decreases a, n + 1, |w|
  {
    if n == 0 then w == ""
    else exists k :: 0 <= k <= |w| && Matches(a, w[..k]) && MatchesTimes(a, n - 1, w[k..])
  }

  // ---------------------------------------------------------------------
  // Two checks on the expression alone, and what they say of every word

  /** No form of `r` contains the bracket `c`. */
  predicate NeverUses(r: Regex, c: char) {
    match r
    case Eps => true
    case One(cls) => !InClass(c, cls)
    case Text(t) => c !in t
    case Folded(word) => c !in word && c !in LONG_S && c !in KELVIN && forall x :: x in word ==> Upper(x) != c
    case Cat(a, b) => NeverUses(a, c) && NeverUses(b, c)
    case Alt(a, b) => NeverUses(a, c) && NeverUses(b, c)
    case Star(a) => NeverUses(a, c)
    case Repeat(a, n) => NeverUses(a, c)
  }

  /** Every branch of `r` goes through a byte that is in `hit`. */
  predicate AlwaysHits(r: Regex, hit: string) {
    match r
    case Eps => false
    case One(cls) => forall k :: 0 <= k < |cls| ==> cls[k].lo == cls[k].hi && cls[k].lo in hit
    case Text(t) => exists c :: c in t && c in hit
    case Folded(word) => exists c :: c in word && c != 's' && c != 'k' && c in hit && Upper(c) in hit
    case Cat(a, b) => AlwaysHits(a, hit) || AlwaysHits(b, hit)
    case Alt(a, b) => AlwaysHits(a, hit) && AlwaysHits(b, hit)
    case Star(a) => false
    case Repeat(a, n) => n > 0 && AlwaysHits(a, hit)
  }

  lemma FormNeverUses(x: char, form: string, c: char)
    requires FoldsTo(x, form) && c != x && c != Upper(x) && c !in LONG_S && c !in KELVIN
    ensures c !in form
  {
  }

  /** No letter of `word` has `c` as a one-byte form. */
  predicate Avoids(word: string, c: char) { forall i :: 0 <= i < |word| ==> word[i] != c && Upper(word[i]) != c }

  lemma {:induction false} FoldedNeverUses(word: string, w: string, c: char)
    requires Avoids(word, c) && c !in LONG_S && c !in KELVIN && MatchesFolded(word, w)
    ensures c !in w
    decreases |word|
  {
    if word != "" {
      var k :| 0 <= k <= |w| && FoldsTo(word[0], w[..k]) && MatchesFolded(word[1..], w[k..]);
      FormNeverUses(word[0], w[..k], c);
      FoldedNeverUses(word[1..], w[k..], c);
      NotInParts(w, k, c);
    }
  }

  lemma NotInParts(w: string, k: nat, c: char)
    requires k <= |w| && c !in w[..k] && c !in w[k..]
    ensures c !in w
  {
    assert w == w[..k] + w[k..];
  }

  lemma {:induction false} NeverUsesSound(r: Regex, w: string, c: char)
    requires NeverUses(r, c) && Matches(r, w)
    ensures c !in w
    decreases r, 0, |w|
  {
    match r
    case Eps =>
    case One(cls) =>
    case Text(t) =>
    case Folded(word) =>
      assert forall i :: 0 <= i < |word| ==> word[i] in word;
      FoldedNeverUses(word, w, c);
    case Cat(a, b) =>
      var k :| 0 <= k <= |w| && Matches(a, w[..k]) && Matches(b, w[k..]);
      NeverUsesSound(a, w[..k], c);
      NeverUsesSound(b, w[k..], c);
      NotInParts(w, k, c);
    case Alt(a, b) =>
      if Matches(a, w) { NeverUsesSound(a, w, c); } else { NeverUsesSound(b, w, c); }
    case Star(a) =>
      if w != "" {
        var k :| 0 < k <= |w| && Matches(a, w[..k]) && Matches(r, w[k..]);
        NeverUsesSound(a, w[..k], c);
        NeverUsesSound(r, w[k..], c);
        NotInParts(w, k, c);
      }
    case Repeat(a, n) => TimesNeverUses(a, n, w, c);
  }

  lemma {:induction false} TimesNeverUses(a: Regex, n: nat, w: string, c: char)
    requires NeverUses(a, c) && MatchesTimes(a, n, w)
    ensures c !in w
    decreases a, n + 1, |w|
  {
    if n > 0 {
      var k :| 0 <= k <= |w| && Matches(a, w[..k]) && MatchesTimes(a, n - 1, w[k..]);
      NeverUsesSound(a, w[..k], c);
      TimesNeverUses(a, n - 1, w[k..], c);
      NotInParts(w, k, c);
    }
  }

  ghost predicate Shares(w: string, hit: string) { exists c :: c in w && c in hit }

  lemma SharesPart(w: string, k: nat, hit: string)
    requires k <= |w| && (Shares(w[..k], hit) || Shares(w[k..], hit))
    ensures Shares(w, hit)
  {
  }

  lemma {:induction false} FoldedHits(word: string, w: string, hit: string, c: char)
    requires MatchesFolded(word, w)
    requires c in word && c != 's' && c != 'k' && c in hit && Upper(c) in hit
    ensures Shares(w, hit)
  {
    var k :| 0 <= k <= |w| && FoldsTo(word[0], w[..k]) && MatchesFolded(word[1..], w[k..]);
    if word[0] == c {
      assert w[..k][0] in w[..k];
    } else {
      FoldedHits(word[1..], w[k..], hit, c);
    }
    SharesPart(w, k, hit);
  }

  lemma {:induction false} AlwaysHitsSound(r: Regex, w: string, hit: string)
    requires AlwaysHits(r, hit) && Matches(r, w)
    ensures Shares(w, hit)
    decreases r
  {
    match r
    case One(cls) =>
      assert w[0] in w;
    case Text(t) =>
    case Folded(word) =>
      var c :| c in word && c != 's' && c != 'k' && c in hit && Upper(c) in hit;
      FoldedHits(word, w, hit, c);
    case Cat(a, b) =>
      var k :| 0 <= k <= |w| && Matches(a, w[..k]) && Matches(b, w[k..]);
      if AlwaysHits(a, hit) { AlwaysHitsSound(a, w[..k], hit); } else { AlwaysHitsSound(b, w[k..], hit); }
      SharesPart(w, k, hit);
    case Alt(a, b) =>
      if Matches(a, w) { AlwaysHitsSound(a, w, hit); } else { AlwaysHitsSound(b, w, hit); }
    case Repeat(a, n) =>
      var k :| 0 <= k <= |w| && Matches(a, w[..k]) && MatchesTimes(a, n - 1, w[k..]);
      AlwaysHitsSound(a, w[..k], hit);
      SharesPart(w, k, hit);
  }

  /** No word of `r` lies anywhere inside `s`. */
  ghost predicate Free(r: Regex, s: string) {
    forall i, j :: 0 <= i <= j <= |s| ==> !Matches(r, s[i..j])
  }

  /** The shape of a pattern whose removal is permanent: its words contain no bracket, and each of
      them needs a byte of `hit`. */
  ghost predicate Clean(r: Regex, hit: string) {
    NeverUses(r, '[') && NeverUses(r, ']') && AlwaysHits(r, hit)
  }

  predicate Bracketed(t: string) {
    |t| >= 2 && t[0] == '[' && t[|t| - 1] == ']'
  }

  /** A text without any byte of `hit` cannot contain a word of `r`. */
  lemma FreeByBytes(r: Regex, hit: string, t: string)
    requires AlwaysHits(r, hit) && !Shares(t, hit)
    ensures Free(r, t)
  {
    forall i, j | 0 <= i <= j <= |t| ensures !Matches(r, t[i..j]) {
      assert forall c :: c in t[i..j] ==> c in t;
      if Matches(r, t[i..j]) { AlwaysHitsSound(r, t[i..j], hit); }
    }
  }

  lemma Pieces(a: string, m: string, b: string)
    ensures var s := a + m + b;
            s[0..|a|] == a && s[|a|..|a| + |m|] == m && s[|a| + |m|..|s|] == b
  {
  }

  lemma NoWordWithin(r: Regex, s: string, m: nat, n: nat, part: string, i: nat, j: nat)
    requires m <= i <= j <= n <= |s| && s[m..n] == part && Free(r, part)
    ensures !Matches(r, s[i..j])
  {
    SliceOfSlice(s, m, n, i - m, j - m);
    assert part[i - m..j - m] == s[i..j];
  }

  lemma NoWordAcross(r: Regex, s: string, i: nat, j: nat, p: nat, c: char)
    requires i <= p < j <= |s| && s[p] == c && NeverUses(r, c)
    ensures !Matches(r, s[i..j])
  {
    assert s[i..j][p - i] == c;
    if Matches(r, s[i..j]) { NeverUsesSound(r, s[i..j], c); }
  }

  /** A bracketed text is a wall: words without brackets stay on one side of it or inside it. */
  lemma WallFree(r: Regex, hit: string, a: string, wall: string, b: string)
    requires Clean(r, hit) && Bracketed(wall)
    requires Free(r, a) && Free(r, wall) && Free(r, b)
    ensures Free(r, a + wall + b)
  {
    var s := a + wall + b;
    var m, n := |a|, |a| + |wall|;
    Pieces(a, wall, b);
    assert s[m] == '[' && s[n - 1] == ']';
    forall i, j | 0 <= i <= j <= |s| ensures !Matches(r, s[i..j]) {
      if j <= m {
        NoWordWithin(r, s, 0, m, a, i, j);
      } else if n <= i {
        NoWordWithin(r, s, n, |s|, b, i, j);
      } else if m <= i && j <= n {
        NoWordWithin(r, s, m, n, wall, i, j);
      } else if i < m {
        NoWordAcross(r, s, i, j, m, '[');
      } else {
        NoWordAcross(r, s, i, j, n - 1, ']');
      }
    }
  }

  // ---------------------------------------------------------------------
  // Search

  /** What an engine prefers at one start position of one subject: the end of the match there, if any.
      The whole subject is an argument, so word boundaries and anchors are covered too. */
  type Matcher = (string, nat) -> Option<nat>

  datatype Span = Span(start: nat, end: nat)

  /** The match `m` reports at `i`; an end outside the subject counts as no match. */
  function EndAt(m: Matcher, s: string, i: nat): (e: Option<nat>)
    ensures e.Some? ==> i <= e.value <= |s|
  {
    match m(s, i)
    case None => None
    case Some(j) => if i <= j <= |s| then Some(j) else None
  }

  /** Smallest start of a match at or after `pos`; `|s| + 1` when there is none. */
  function FirstStart(m: Matcher, s: string, pos: nat): (i: nat)
    requires pos <= |s| + 1
    ensures pos <= i <= |s| + 1
    ensures i <= |s| ==> EndAt(m, s, i).Some?
    ensures forall k :: pos <= k < i ==> EndAt(m, s, k).None?
    decreases |s| + 1 - pos
  {
    if pos == |s| + 1 || EndAt(m, s, pos).Some? then pos else FirstStart(m, s, pos + 1)
  }

  /** Spans in order, without overlap, between `from` and `n`. */
  predicate Ordered(spans: seq<Span>, from: nat, n: nat) {
    if spans == [] then from <= n
    else from <= spans[0].start <= spans[0].end <= n && Ordered(spans[1..], spans[0].end, n)
  }

  lemma OrderedFrom(spans: seq<Span>, from: nat, to: nat, n: nat)
    requires from <= to && Ordered(spans, to, n)
    ensures Ordered(spans, from, n)
  {
  }

  /** Go's `allMatches` loop from search position `pos`: an empty match that abuts the previous match
      is skipped, and the search moves on by one byte after an empty match at `pos`. */
  function FindFrom(m: Matcher, s: string, pos: nat, prev: int): (spans: seq<Span>)
    requires pos <= |s| + 1
    ensures pos <= |s| ==> Ordered(spans, pos, |s|)
    ensures pos > |s| ==> spans == []
    decreases |s| + 1 - pos
  {
    var i := FirstStart(m, s, pos);
    if i > |s| then []
    else
      var e := EndAt(m, s, i).value;
      if e == pos then
        var rest := FindFrom(m, s, pos + 1, e);
        assert pos < |s| ==> Ordered(rest, pos, |s|) by {
          if pos < |s| { OrderedFrom(rest, pos, pos + 1, |s|); }
        }
        if i == prev then rest else [Span(i, e)] + rest
      else
        [Span(i, e)] + FindFrom(m, s, e, e)
  }

  /** `FindAllStringIndex(s, -1)`. */
  function FindAll(m: Matcher, s: string): (spans: seq<Span>)
    ensures Ordered(spans, 0, |s|)
  {
    FindFrom(m, s, 0, -1)
  }

  // ---------------------------------------------------------------------
  // Replace

  /** The text from `from` on with every span replaced by `repl`. */
  function Weave(s: string, spans: seq<Span>, repl: string, from: nat): string
    requires Ordered(spans, from, |s|)
    decreases |spans|
  {
    if spans == [] then s[from..]
    else s[from..spans[0].start] + repl + Weave(s, spans[1..], repl, spans[0].end)
  }

  /** `ReplaceAllString`; no replacement of the collector contains `$`, so it is inserted as it is. */
  function ReplaceAll(m: Matcher, s: string, repl: string): string {
    Weave(s, FindAll(m, s), repl, 0)
  }

  // ---------------------------------------------------------------------
  // What search and replacement come to

  predicate Reported(m: Matcher, s: string, sp: Span) { EndAt(m, s, sp.start) == Some(sp.end) }

  /** A match at `k` that the span accounts for: the span itself, one that starts inside it, or an empty one
      right behind it. */
  predicate Covers(m: Matcher, s: string, sp: Span, k: nat) {
    sp.start == k || sp.start < k < sp.end || (k == sp.end && EndAt(m, s, k) == Some(k))
  }

  ghost predicate Covered(m: Matcher, s: string, spans: seq<Span>, k: nat) {
    exists i :: 0 <= i < |spans| && Covers(m, s, spans[i], k)
  }

  /** All spans are the engine's matches, and no empty one stands right behind another. */
  ghost predicate Genuine(m: Matcher, s: string, spans: seq<Span>) {
    && (forall i :: 0 <= i < |spans| ==> Reported(m, s, spans[i]))
    && (forall i :: 0 < i < |spans| && spans[i].start == spans[i].end ==> spans[i - 1].end < spans[i].start)
  }

  /** Every match from `pos` on is covered, but for an empty one at `prev`. */
  ghost predicate Complete(m: Matcher, s: string, spans: seq<Span>, pos: nat, prev: int) {
    forall k: nat :: pos <= k <= |s| && EndAt(m, s, k).Some? && !(k == prev && EndAt(m, s, k) == Some(k)) ==> Covered(m, s, spans, k)
  }

  lemma CoveredBehind(m: Matcher, s: string, sp: Span, rest: seq<Span>, k: nat)
    requires Covers(m, s, sp, k) || Covered(m, s, rest, k)
    ensures Covered(m, s, [sp] + rest, k)
  {
    var spans := [sp] + rest;
    assert spans[0] == sp && forall j :: 0 <= j < |rest| ==> spans[j + 1] == rest[j];
  }

  lemma CompleteBehind(m: Matcher, s: string, pos: nat, prev: int, sp: Span, rest: seq<Span>, next: nat)
    requires pos <= sp.start <= sp.end <= |s| && sp.end <= next && (next == sp.end || next == sp.start + 1 == sp.end + 1)
    requires Complete(m, s, rest, next, sp.end) && forall k :: pos <= k < sp.start ==> EndAt(m, s, k).None?
    ensures Complete(m, s, [sp] + rest, pos, prev)
  {
    forall k: nat | pos <= k <= |s| && EndAt(m, s, k).Some? ensures Covered(m, s, [sp] + rest, k) {
      CoveredBehind(m, s, sp, rest, k);
    }
  }

  /** All that `FindFrom` promises of its spans. */
  ghost predicate Sound(m: Matcher, s: string, spans: seq<Span>, pos: nat, prev: int) {
    && Genuine(m, s, spans) && Complete(m, s, spans, pos, prev)
    && (spans != [] ==> pos <= spans[0].start && (spans[0].start == spans[0].end ==> spans[0].start != prev))
  }

  lemma SoundBehind(m: Matcher, s: string, pos: nat, prev: int, sp: Span, rest: seq<Span>, next: nat)
    requires pos <= sp.start <= sp.end <= |s| && (next == sp.end || next == sp.start + 1 == sp.end + 1)
    requires Reported(m, s, sp) && (sp.start == sp.end ==> sp.start != prev)
    requires Sound(m, s, rest, next, sp.end) && forall k :: pos <= k < sp.start ==> EndAt(m, s, k).None?
    ensures Sound(m, s, [sp] + rest, pos, prev)
  {
    CompleteBehind(m, s, pos, prev, sp, rest, next);
    GenuineBehind(m, s, sp, rest);
  }

  lemma GenuineBehind(m: Matcher, s: string, sp: Span, rest: seq<Span>)
    requires Reported(m, s, sp) && Genuine(m, s, rest)
    requires rest != [] && rest[0].start == rest[0].end ==> sp.end < rest[0].start
    ensures Genuine(m, s, [sp] + rest)
  {
    var spans := [sp] + rest;
    forall i | 0 < i < |spans| && spans[i].start == spans[i].end ensures spans[i - 1].end < spans[i].start {
      assert spans[i] == rest[i - 1];
      if i > 1 { assert spans[i - 1] == rest[i - 2]; }
    }
  }

  lemma SoundPast(m: Matcher, s: string, pos: nat, rest: seq<Span>)
    requires pos <= |s| && EndAt(m, s, pos) == Some(pos) && Sound(m, s, rest, pos + 1, pos)
    ensures Sound(m, s, rest, pos, pos)
  {
  }

  lemma {:induction false} FindMeaning(m: Matcher, s: string, pos: nat, prev: int)
    requires prev <= pos <= |s| + 1
    ensures Sound(m, s, FindFrom(m, s, pos, prev), pos, prev)
    decreases |s| + 1 - pos
  {
    var i := FirstStart(m, s, pos);
    if i <= |s| {
      var e := EndAt(m, s, i).value;
      var next := if e == pos then pos + 1 else e;
      FindMeaning(m, s, next, e);
      if e == pos && i == prev {
        SoundPast(m, s, pos, FindFrom(m, s, next, e));
      } else {
        SoundBehind(m, s, pos, prev, Span(i, e), FindFrom(m, s, next, e), next);
      }
    }
  }

  /** The search finds the engine's matches and leaves none out: wherever the engine has a match, that one is
      found, starts inside one that is, or is an empty one right behind it. */
  lemma FindAllMeaning(m: Matcher, s: string)
    ensures Genuine(m, s, FindAll(m, s))
    ensures forall k: nat :: k <= |s| && EndAt(m, s, k).Some? ==> Covered(m, s, FindAll(m, s), k)
  {
    FindMeaning(m, s, 0, -1);
  }

  /** Gaps and words in turn. */
  function Glue(gaps: seq<string>, words: seq<string>): string
    requires |gaps| == |words| + 1
    decreases |words|
  {
    if words == [] then gaps[0] else gaps[0] + words[0] + Glue(gaps[1..], words[1..])
  }

  /** The texts of the spans. */
  function Words(s: string, spans: seq<Span>): (words: seq<string>)
    ensures |words| == |spans|
    ensures forall i :: 0 <= i < |spans| && spans[i].start <= spans[i].end <= |s| ==> words[i] == s[spans[i].start..spans[i].end]
  {
    seq(|spans|, i requires 0 <= i < |spans| =>
      if spans[i].start <= spans[i].end <= |s| then s[spans[i].start..spans[i].end] else "")
  }

  function Copies(repl: string, n: nat): (words: seq<string>)
    ensures |words| == n && forall i :: 0 <= i < n ==> words[i] == repl
  {
    seq(n, i => repl)
  }

  lemma {:induction false} WeaveKeepsTheRest(s: string, spans: seq<Span>, repl: string, from: nat) returns (gaps: seq<string>)
    requires Ordered(spans, from, |s|)
    ensures |gaps| == |spans| + 1 && Glue(gaps, Words(s, spans)) == s[from..] && Glue(gaps, Copies(repl, |spans|)) == Weave(s, spans, repl, from)
    decreases |spans|
  {
    if spans == [] {
      gaps := [s[from..]];
    } else {
      var sp := spans[0];
      var rest := WeaveKeepsTheRest(s, spans[1..], repl, sp.end);
      gaps := [s[from..sp.start]] + rest;
      assert gaps[1..] == rest;
      assert Words(s, spans)[1..] == Words(s, spans[1..]);
      assert Copies(repl, |spans|)[1..] == Copies(repl, |spans| - 1);
      assert s[from..] == s[from..sp.start] + s[sp.start..sp.end] + s[sp.end..];
    }
  }

  /** Replacement touches the matches and nothing else: the subject is gaps and matches in turn, and the
      result the same gaps with the replacement in place of every match. */
  lemma ReplaceKeepsTheRest(m: Matcher, s: string, repl: string) returns (gaps: seq<string>)
    ensures var spans := FindAll(m, s);
            && |gaps| == |spans| + 1
            && Glue(gaps, Words(s, spans)) == s
            && Glue(gaps, Copies(repl, |spans|)) == ReplaceAll(m, s, repl)
  {
    gaps := WeaveKeepsTheRest(s, FindAll(m, s), repl, 0);
    assert s[0..] == s;
  }

  // ---------------------------------------------------------------------
  // What the stages do to the words of a pattern

  ghost predicate GapsFree(r: Regex, s: string, spans: seq<Span>, from: nat)
    requires Ordered(spans, from, |s|)
    decreases |spans|
  {
    if spans == [] then Free(r, s[from..])
    else Free(r, s[from..spans[0].start]) && GapsFree(r, s, spans[1..], spans[0].end)
  }

  lemma {:induction false} WeaveFree(r: Regex, hit: string, s: string, spans: seq<Span>, repl: string, from: nat)
    requires Ordered(spans, from, |s|)
    requires Clean(r, hit) && Bracketed(repl) && Free(r, repl)
    requires GapsFree(r, s, spans, from)
    ensures Free(r, Weave(s, spans, repl, from))
    decreases |spans|
  {
    if spans != [] {
      WeaveFree(r, hit, s, spans[1..], repl, spans[0].end);
      WallFree(r, hit, s[from..spans[0].start], repl, Weave(s, spans[1..], repl, spans[0].end));
    }
  }

  lemma SliceOfSlice(s: string, i: nat, j: nat, a: nat, b: nat)
    requires i <= j <= |s| && a <= b <= j - i
    ensures s[i..j][a..b] == s[i + a..i + b]
  {
    forall k | 0 <= k < b - a ensures s[i..j][a..b][k] == s[i + a..i + b][k] {
      assert s[i..j][a + k] == s[i + a + k];
    }
  }

  lemma FreeSlice(r: Regex, s: string, i: nat, j: nat)
    requires i <= j <= |s| && Free(r, s)
    ensures Free(r, s[i..j])
  {
    forall a, b | 0 <= a <= b <= j - i ensures !Matches(r, s[i..j][a..b]) {
      SliceOfSlice(s, i, j, a, b);
    }
  }

  /** Whatever spans another pattern picks, the gaps between them are slices of the subject. */
  lemma {:induction false} GapsOfFree(r: Regex, s: string, spans: seq<Span>, from: nat)
    requires Ordered(spans, from, |s|) && Free(r, s)
    ensures GapsFree(r, s, spans, from)
    decreases |spans|
  {
    if spans == [] {
      FreeSlice(r, s, from, |s|);
      assert s[from..] == s[from..|s|];
    } else {
      FreeSlice(r, s, from, spans[0].start);
      GapsOfFree(r, s, spans[1..], spans[0].end);
    }
  }

  /** `m` searches for the language of `r`: it finds a match where, and only where, a word starts. */
  ghost predicate Faithful(m: Matcher, r: Regex) {
    forall s: string, i: nat :: i <= |s| ==> FaithfulAt(m, r, s, i)
  }

  ghost predicate FaithfulAt(m: Matcher, r: Regex, s: string, i: nat)
    requires i <= |s|
  {
    && (EndAt(m, s, i).Some? ==> Matches(r, s[i..EndAt(m, s, i).value]))
    && (forall j :: i <= j <= |s| && Matches(r, s[i..j]) ==> EndAt(m, s, i).Some?)
  }

  /** Every expression has a faithful matcher, so the assumption above can always be met. */
  lemma FaithfulExists(r: Regex) returns (m: Matcher)
    ensures Faithful(m, r)
  {
    m := (s: string, i: nat) => LongestFrom(r, s, i, |s|);
    forall s: string, i: nat | i <= |s| ensures FaithfulAt(m, r, s, i) {
      assert m(s, i) == LongestFrom(r, s, i, |s|);
    }
  }

  /** End of the longest word of `r` that starts at `i` and ends by `top`. */
  function LongestFrom(r: Regex, s: string, i: nat, top: nat): (e: Option<nat>)
    requires top <= |s|
    ensures e.Some? ==> i <= e.value <= top && Matches(r, s[i..e.value])
    ensures e.None? ==> forall j :: i <= j <= top ==> !Matches(r, s[i..j])
    decreases top
  {
    if top < i then None
    else if Matches(r, s[i..top]) then Some(top)
    else if top == 0 then None
    else LongestFrom(r, s, i, top - 1)
  }

  /** The leftmost search of a pattern leaves no word of that pattern in the gaps. */
  lemma {:induction false} GapsOfOwnSearch(m: Matcher, r: Regex, hit: string, s: string, pos: nat, prev: int)
    requires pos <= |s| && Faithful(m, r) && AlwaysHits(r, hit)
    ensures GapsFree(r, s, FindFrom(m, s, pos, prev), pos)
    decreases |s| - pos
  {
    var i := FirstStart(m, s, pos);
    forall k, j | pos <= k < i && k <= j <= |s| ensures !Matches(r, s[k..j]) {
      assert FaithfulAt(m, r, s, k);
    }
    var top := if i > |s| then |s| else i;
    forall a, b | 0 <= a <= b <= top - pos ensures !Matches(r, s[pos..top][a..b]) {
      SliceOfSlice(s, pos, top, a, b);
      if pos + a == i && Matches(r, s[pos..top][a..b]) {
        AlwaysHitsSound(r, s[pos + a..pos + b], hit);
      }
    }
    if i > |s| {
      assert s[pos..] == s[pos..top];
    } else {
      var e := EndAt(m, s, i).value;
      assert FaithfulAt(m, r, s, i);
      AlwaysHitsSound(r, s[i..e], hit);
      GapsOfOwnSearch(m, r, hit, s, e, e);
    }
  }

  /** A later stage with a bracketed replacement cannot bring back a removed word. */
  lemma StageKeepsFree(m: Matcher, r: Regex, hit: string, s: string, repl: string)
    requires Clean(r, hit) && Bracketed(repl) && !Shares(repl, hit) && Free(r, s)
    ensures Free(r, ReplaceAll(m, s, repl))
  {
    FreeByBytes(r, hit, repl);
    GapsOfFree(r, s, FindAll(m, s), 0);
    WeaveFree(r, hit, s, FindAll(m, s), repl, 0);
  }

  /** A pattern's own stage removes every word of its language. */
  lemma StageMakesFree(m: Matcher, r: Regex, hit: string, s: string, repl: string)
    requires Clean(r, hit) && Bracketed(repl) && !Shares(repl, hit) && Faithful(m, r)
    ensures Free(r, ReplaceAll(m, s, repl))
  {
    FreeByBytes(r, hit, repl);
    GapsOfOwnSearch(m, r, hit, s, 0, -1);
    WeaveFree(r, hit, s, FindAll(m, s), repl, 0);
  }
}
