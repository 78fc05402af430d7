/** The redactor: size guards, counters and the line loop around the pattern pipeline
    (`internal/redact/redactor.go` and `rules.go`). */
module Redactor {
  import opened Text
  import opened Decimal
  import opened Regex
  import opened Patterns

  const DEFAULT_MAX_LINE: nat := 8 * 1024
  const DEFAULT_MAX_TOTAL: nat := 256 * 1024
  const DEFAULT_MAX_STRING: nat := 16 * 1024

  function DroppedString(): string { "[redacted: string" + " dropped by size guard]" }
  function DroppedLine(): string { "[redacted: line" + " dropped by size guard]" }

  /** The dash is three bytes of UTF-8. */
  const BUDGET_TAIL: string :=
    " further lines dropped " + [0xE2 as char, 0x80 as char, 0x94 as char] + (" payload byte" + " budget reached]")

  function BudgetMarker(n: nat): string { "[redacted: " + FormatNat(n) + BUDGET_TAIL }

  // ---------------------------------------------------------------------
  // Custom patterns

  /** `regexp.Compile`: a matcher, or nothing for an expression it rejects. */
  type Compiler = string -> Option<Matcher>

  /** What one part of the list contributes. */
  function CustomOne(compile: Compiler, part: string): seq<Pattern> {
    var p := TrimSpace(part);
    if p == "" || compile(p).None? then [] else [CustomPattern(p, compile(p).value)]
  }

  function CustomPattern(expr: string, m: Matcher): Pattern { Pattern("custom", expr, m, "[redacted]") }

  function Custom(compile: Compiler, parts: seq<string>): seq<Pattern> {
    if parts == [] then []
    else Custom(compile, parts[..|parts| - 1]) + CustomOne(compile, parts[|parts| - 1])
  }

  lemma CustomOneWalls(compile: Compiler, part: string)
    ensures Walls(CustomOne(compile, part))
  {
  }

  lemma {:induction false} CustomWalls(compile: Compiler, parts: seq<string>)
    ensures Walls(Custom(compile, parts))
  {
    if parts != [] {
      CustomWalls(compile, parts[..|parts| - 1]);
      CustomOneWalls(compile, parts[|parts| - 1]);
    }
  }

  /** What a list of custom patterns comes to: part by part, a pattern for every part that is not blank and
      compiles, and nothing for the others. */
  lemma {:induction false} CustomMeaning(compile: Compiler, parts: seq<string>, more: seq<string>, part: string)
    ensures Custom(compile, parts + more) == Custom(compile, parts) + Custom(compile, more)
    ensures var p := TrimSpace(part);
            Custom(compile, [part]) == if p != "" && compile(p).Some? then [Pattern("custom", p, compile(p).value, "[redacted]")] else []
    decreases |more|
  {
    assert [part][..0] == [];
    if more == [] {
      assert parts + more == parts;
    } else {
      var init := more[..|more| - 1];
      assert (parts + more)[..|parts + more| - 1] == parts + init;
      CustomMeaning(compile, parts, init, part);
    }
  }

  lemma CustomStep(compile: Compiler, parts: seq<string>, i: nat)
    requires i < |parts|
    ensures Custom(compile, parts[..i + 1]) == Custom(compile, parts[..i]) + CustomOne(compile, parts[i])
  {
    assert parts[..i + 1][..i] == parts[..i] && parts[..i + 1][i] == parts[i];
  }

  /** `parseExtraPatterns`: blank parts and parts that do not compile are skipped, the rest keep their
      order, and each gets the bracketed replacement. */
  method ParseExtraPatterns(raw: string, compile: Compiler) returns (extra: seq<Pattern>)
    ensures raw == "" ==> extra == []
    ensures raw != "" ==> extra == Custom(compile, Split(raw, ','))
  {
    extra := [];
    if raw == "" { return; }
    var parts := Split(raw, ',');
    for i := 0 to |parts|
      invariant extra == Custom(compile, parts[..i])
    {
      CustomStep(compile, parts, i);
      var p := TrimSpace(parts[i]);
      if p != "" {
        var re := compile(p);
        if re.Some? {
          extra := extra + [CustomPattern(p, re.value)];
        }
      }
    }
    assert parts[..|parts|] == parts;
  }

  // ---------------------------------------------------------------------
  // Counters per category

  function At(m: map<string, nat>, k: string): nat { if k in m then m[k] else 0 }

  ghost function SumValues(m: map<string, nat>): nat {
    if m == map[] then 0 else var k :| k in m; m[k] + SumValues(m - {k})
  }

  /** The sum does not depend on which key is taken first. */
  lemma {:induction false} SumSplit(m: map<string, nat>, k: string)
    requires k in m
    ensures SumValues(m) == m[k] + SumValues(m - {k})
    decreases |m|
  {
    var j :| j in m && SumValues(m) == m[j] + SumValues(m - {j});
    if j != k {
      SumSplit(m - {j}, k);
      SumSplit(m - {k}, j);
      assert m - {j} - {k} == m - {k} - {j};
    }
  }

  lemma SumBump(m: map<string, nat>, k: string, n: nat)
    ensures SumValues(Bump(m, k, n)) == SumValues(m) + n
  {
    if n > 0 {
      var m' := Bump(m, k, n);
      SumSplit(m', k);
      assert m' - {k} == m - {k};
      if k in m { SumSplit(m, k); } else { assert m - {k} == m; }
    }
  }

  /** `n` more in one counter; a counter exists once something has been counted. */
  function Bump(m: map<string, nat>, k: string, n: nat): map<string, nat> { if n > 0 then m[k := At(m, k) + n] else m }

  /** The category counters after the pipeline has run over `s`. */
  function Tally(ps: seq<Pattern>, s: string, m: map<string, nat>): map<string, nat>
    decreases |ps|
  {
    if ps == [] then m
    else
      var n := Hits(ps[0], s);
      Tally(ps[1..], Stage(ps[0], s), Bump(m, ps[0].category, n))
  }

  /** Each counter grows by the replacements of its own category, and all of them by the total. */
  lemma {:induction false} TallyMeaning(ps: seq<Pattern>, s: string, m: map<string, nat>, cat: string)
    ensures At(Tally(ps, s, m), cat) == At(m, cat) + CategoryHits(ps, s, cat)
    ensures SumValues(Tally(ps, s, m)) == SumValues(m) + TotalHits(ps, s)
    decreases |ps|
  {
    if ps != [] {
      var n := Hits(ps[0], s);
      SumBump(m, ps[0].category, n);
      TallyMeaning(ps[1..], Stage(ps[0], s), Bump(m, ps[0].category, n), cat);
    }
  }

  class Stats {
    var totalLines: nat
    var redactedLines: nat
    var droppedLines: nat
    var replacements: nat
    var byCategory: map<string, nat>

    constructor (total: nat)
      ensures totalLines == total && redactedLines == droppedLines == replacements == 0 && byCategory == map[]
    {
      totalLines, redactedLines, droppedLines, replacements, byCategory := total, 0, 0, 0, map[];
    }

    ghost function Counters(): Counts
      reads this
    {
      Counts(droppedLines, redactedLines, replacements, byCategory)
    }

    method Drop(n: nat)
      modifies this`droppedLines
      ensures var c := old(Counters()); Counters() == Counts(c.dropped + n, c.redacted, c.replacements, c.byCategory)
    {
      droppedLines := droppedLines + n;
    }

    method Redacted()
      modifies this`redactedLines
      ensures var c := old(Counters()); Counters() == Counts(c.dropped, c.redacted + 1, c.replacements, c.byCategory)
    {
      redactedLines := redactedLines + 1;
    }

    /** `n` replacements of a category. */
    method Replaced(category: string, n: nat)
      modifies this`replacements, this`byCategory
      ensures var c := old(Counters());
              Counters() == Counts(c.dropped, c.redacted, c.replacements + n, c.byCategory[category := At(c.byCategory, category) + n])
    {
      replacements := replacements + n;
      byCategory := byCategory[category := At(byCategory, category) + n];
    }
  }

  // ---------------------------------------------------------------------
  // What a payload becomes

  datatype Config = Config(patterns: seq<Pattern>, maxLine: nat, maxTotal: nat, maxString: nat)

  function LineOut(c: Config, line: string): string {
    if |line| > c.maxLine then DroppedLine() else RedactText(c.patterns, line)
  }

  /** Bytes that the redacted text of the first `n` lines takes; markers are free. */
  function Bytes(c: Config, lines: seq<string>, n: nat): nat
    requires n <= |lines|
  {
    if n == 0 then 0
    else Bytes(c, lines, n - 1) + if |lines[n - 1]| > c.maxLine then 0 else |RedactText(c.patterns, lines[n - 1])|
  }

  /** How many of the first `n` lines satisfy `p`. */
  function CountIf(lines: seq<string>, n: nat, p: string -> bool): nat
    requires n <= |lines|
  {
    if n == 0 then 0 else CountIf(lines, n - 1, p) + if p(lines[n - 1]) then 1 else 0
  }

  function OversizeLines(c: Config, lines: seq<string>, n: nat): nat
    requires n <= |lines|
  {
    CountIf(lines, n, line => |line| > c.maxLine)
  }

  /** Lines whose redacted text is handed on. */
  function ForwardedLines(c: Config, lines: seq<string>, n: nat): nat
    requires n <= |lines|
  {
    CountIf(lines, n, line => |line| <= c.maxLine)
  }

  function ChangedLines(c: Config, lines: seq<string>, n: nat): nat
    requires n <= |lines|
  {
    CountIf(lines, n, line => |line| <= c.maxLine && TotalHits(c.patterns, line) > 0)
  }

  function AllHits(c: Config, lines: seq<string>, n: nat): nat
    requires n <= |lines|
  {
    if n == 0 then 0
    else AllHits(c, lines, n - 1) + if |lines[n - 1]| > c.maxLine then 0 else TotalHits(c.patterns, lines[n - 1])
  }

  function AllCategoryHits(c: Config, lines: seq<string>, n: nat, cat: string): nat
    requires n <= |lines|
  {
    if n == 0 then 0
    else AllCategoryHits(c, lines, n - 1, cat) + if |lines[n - 1]| > c.maxLine then 0 else CategoryHits(c.patterns, lines[n - 1], cat)
  }

  /** The counters of `Stats`, apart from the budget. */
  datatype Counts = Counts(dropped: nat, redacted: nat, replacements: nat, byCategory: map<string, nat>)

  function AddLine(c: Config, n: Counts, line: string): Counts {
    if |line| > c.maxLine then n.(dropped := n.dropped + 1)
    else
      var hits := TotalHits(c.patterns, line);
      Counts(n.dropped, if hits > 0 then n.redacted + 1 else n.redacted, n.replacements + hits, Tally(c.patterns, line, n.byCategory))
  }

  function Report(c: Config, lines: seq<string>, n: nat): Counts
    requires n <= |lines|
  {
    if n == 0 then Counts(0, 0, 0, map[]) else AddLine(c, Report(c, lines, n - 1), lines[n - 1])
  }

  /** What the counters mean, and that the total is the sum over the categories. */
  lemma {:induction false} ReportMeaning(c: Config, lines: seq<string>, n: nat, cat: string)
    requires n <= |lines|
    ensures Report(c, lines, n).dropped == OversizeLines(c, lines, n)
    ensures Report(c, lines, n).redacted == ChangedLines(c, lines, n)
    ensures Report(c, lines, n).replacements == AllHits(c, lines, n) == SumValues(Report(c, lines, n).byCategory)
    ensures At(Report(c, lines, n).byCategory, cat) == AllCategoryHits(c, lines, n, cat)
  {
    if n > 0 {
      ReportMeaning(c, lines, n - 1, cat);
      TallyMeaning(c.patterns, lines[n - 1], Report(c, lines, n - 1).byCategory, cat);
    }
  }

  /** `k` is how much of the payload fits: the longest prefix within the byte budget. */
  ghost predicate LongestFit(c: Config, lines: seq<string>, k: nat) {
    k <= |lines| && forall j :: 0 <= j <= |lines| ==> (j <= k <==> Bytes(c, lines, j) <= c.maxTotal)
  }

  lemma {:induction false} BytesMonotone(c: Config, lines: seq<string>, i: nat, j: nat)
    requires i <= j <= |lines|
    ensures Bytes(c, lines, i) <= Bytes(c, lines, j)
    decreases j
  {
    if i < j { BytesMonotone(c, lines, i, j - 1); }
  }

  lemma LongestFitByEdge(c: Config, lines: seq<string>, k: nat)
    requires k <= |lines| && Bytes(c, lines, k) <= c.maxTotal
    requires k < |lines| ==> Bytes(c, lines, k + 1) > c.maxTotal
    ensures LongestFit(c, lines, k)
  {
    forall j | 0 <= j <= |lines| ensures j <= k <==> Bytes(c, lines, j) <= c.maxTotal {
      if j <= k { BytesMonotone(c, lines, j, k); } else { BytesMonotone(c, lines, k + 1, j); }
    }
  }

  lemma {:induction false} CountsPartition(c: Config, lines: seq<string>, n: nat)
    requires n <= |lines|
    ensures OversizeLines(c, lines, n) + ForwardedLines(c, lines, n) == n
    ensures ChangedLines(c, lines, n) <= ForwardedLines(c, lines, n)
  {
    if n > 0 { CountsPartition(c, lines, n - 1); }
  }

  /** The state of the line loop after `i` lines, none of which hit the budget. */
  ghost predicate Progress(c: Config, lines: seq<string>, i: nat, result: seq<string>, bytes: nat, n: Counts) {
    && i <= |lines| && |result| == i
    && (forall j :: 0 <= j < i ==> result[j] == LineOut(c, lines[j]))
    && bytes == Bytes(c, lines, i) <= c.maxTotal
    && n == Report(c, lines, i)
  }

  /** What `Redact` returns: `k` lines fit the budget and come out redacted or as the oversize marker;
      one budget marker, carrying the exact number of lines it stands for, replaces all others.  The
      replacement counters also include the line that hit the budget. */
  ghost predicate Accounted(c: Config, lines: seq<string>, k: nat, result: seq<string>, n: Counts) {
    && LongestFit(c, lines, k)
    && |result| == (if k < |lines| then k + 1 else k)
    && (forall j :: 0 <= j < k ==> result[j] == LineOut(c, lines[j]))
    && (k < |lines| ==> result[k] == BudgetMarker(|lines| - k))
    && n.dropped == Report(c, lines, k).dropped + (|lines| - k)
    && n.redacted == Report(c, lines, k).redacted
    && n.replacements == Report(c, lines, |result|).replacements
    && n.byCategory == Report(c, lines, |result|).byCategory
  }

  lemma KeepLine(c: Config, lines: seq<string>, i: nat, result: seq<string>, bytes: nat, n: Counts)
    requires i < |lines| && Progress(c, lines, i, result, bytes, n)
    requires bytes + (if |lines[i]| > c.maxLine then 0 else |LineOut(c, lines[i])|) <= c.maxTotal
    ensures Progress(c, lines, i + 1, result + [LineOut(c, lines[i])],
                     bytes + (if |lines[i]| > c.maxLine then 0 else |LineOut(c, lines[i])|), AddLine(c, n, lines[i]))
  {
  }

  lemma HitBudget(c: Config, lines: seq<string>, i: nat, result: seq<string>, bytes: nat, n: Counts)
    requires i < |lines| && Progress(c, lines, i, result, bytes, n)
    requires |lines[i]| <= c.maxLine && bytes + |LineOut(c, lines[i])| > c.maxTotal
    ensures Accounted(c, lines, i, result + [BudgetMarker(|lines| - i)],
                      AddLine(c, n, lines[i]).(dropped := n.dropped + (|lines| - i), redacted := n.redacted))
  {
    LongestFitByEdge(c, lines, i);
  }

  lemma KeepMarker(c: Config, lines: seq<string>, i: nat, result: seq<string>, bytes: nat, n: Counts)
    requires i < |lines| && Progress(c, lines, i, result, bytes, n) && |lines[i]| > c.maxLine
    ensures Progress(c, lines, i + 1, result + [DroppedLine()], bytes, Counts(n.dropped + 1, n.redacted, n.replacements, n.byCategory))
  {
    KeepLine(c, lines, i, result, bytes, n);
  }

  /** The counters after a line whose text had `hits` replacements. */
  function WithHits(c: Config, n: Counts, line: string, hits: nat): Counts {
    Counts(n.dropped, n.redacted, n.replacements + hits, Tally(c.patterns, line, n.byCategory))
  }

  lemma KeepText(c: Config, lines: seq<string>, i: nat, result: seq<string>, bytes: nat, n: Counts, text: string, hits: nat)
    requires i < |lines| && Progress(c, lines, i, result, bytes, n) && |lines[i]| <= c.maxLine
    requires text == RedactText(c.patterns, lines[i]) && hits == TotalHits(c.patterns, lines[i]) && bytes + |text| <= c.maxTotal
    ensures var m := WithHits(c, n, lines[i], hits);
            Progress(c, lines, i + 1, result + [text], bytes + |text|,
                     if hits > 0 then Counts(m.dropped, m.redacted + 1, m.replacements, m.byCategory) else m)
  {
    KeepLine(c, lines, i, result, bytes, n);
  }

  lemma Overflow(c: Config, lines: seq<string>, i: nat, result: seq<string>, bytes: nat, n: Counts, text: string, hits: nat)
    requires i < |lines| && Progress(c, lines, i, result, bytes, n) && |lines[i]| <= c.maxLine
    requires text == RedactText(c.patterns, lines[i]) && hits == TotalHits(c.patterns, lines[i]) && bytes + |text| > c.maxTotal
    ensures |result| == i
    ensures var m := WithHits(c, n, lines[i], hits);
            Accounted(c, lines, i, result + [BudgetMarker(|lines| - i)], Counts(m.dropped + (|lines| - i), m.redacted, m.replacements, m.byCategory))
  {
    HitBudget(c, lines, i, result, bytes, n);
  }

  lemma AllKept(c: Config, lines: seq<string>, result: seq<string>, bytes: nat, n: Counts)
    requires Progress(c, lines, |lines|, result, bytes, n)
    ensures Accounted(c, lines, |lines|, result, n)
  {
    LongestFitByEdge(c, lines, |lines|);
  }

  datatype Swept = Swept(text: string, hits: nat, byCategory: map<string, nat>)

  /** The pattern loop from pattern `i` on. */
  function Sweep(ps: seq<Pattern>, i: nat, s: string, n: nat, m: map<string, nat>): Swept
    requires i <= |ps|
    decreases |ps| - i
  {
    if i == |ps| then Swept(s, n, m)
    else
      var h := Hits(ps[i], s);
      Sweep(ps, i + 1, Stage(ps[i], s), n + h, Bump(m, ps[i].category, h))
  }

  lemma {:induction false} SweepIsPipeline(ps: seq<Pattern>, i: nat, s: string, n: nat, m: map<string, nat>)
    requires i <= |ps|
    ensures Sweep(ps, i, s, n, m) == Swept(RedactText(ps[i..], s), n + TotalHits(ps[i..], s), Tally(ps[i..], s, m))
    decreases |ps| - i
  {
    if i < |ps| {
      var h := Hits(ps[i], s);
      assert ps[i..][0] == ps[i] && ps[i..][1..] == ps[i + 1..];
      SweepIsPipeline(ps, i + 1, Stage(ps[i], s), n + h, Bump(m, ps[i].category, h));
    }
  }

  lemma NoHitNoChange(p: Pattern, s: string)
    ensures Hits(p, s) == 0 ==> Stage(p, s) == s
  {
  }

  class Redactor {
    const cfg: Config

    /** `New`: custom patterns go after the built-in ones, and a guard that is not positive gets its
        default, so no guard can be switched off. */
    constructor (extraPatterns: string, compile: Compiler, engine: Rule -> Matcher, maxLine: int, maxTotal: int, maxString: int)
      ensures cfg.patterns == Builtin(engine) + if extraPatterns == "" then [] else Custom(compile, Split(extraPatterns, ','))
      ensures 0 < cfg.maxLine && 0 < cfg.maxTotal && 0 < cfg.maxString
      ensures cfg.maxLine == if maxLine <= 0 then 8192 else maxLine
      ensures cfg.maxTotal == if maxTotal <= 0 then 262144 else maxTotal
      ensures cfg.maxString == if maxString <= 0 then 16384 else maxString
    {
      var extra := ParseExtraPatterns(extraPatterns, compile);
      cfg := Config(Builtin(engine) + extra,
        if maxLine <= 0 then DEFAULT_MAX_LINE else maxLine,
        if maxTotal <= 0 then DEFAULT_MAX_TOTAL else maxTotal,
        if maxString <= 0 then DEFAULT_MAX_STRING else maxString);
    }

    /** One pattern on one text: the text after it, and how many matches it replaced. */
    method ApplyPattern(p: Pattern, s: string) returns (out: string, n: nat)
      ensures out == Stage(p, s) && n == Hits(p, s)
    {
      var matches := FindAll(p.matcher, s);
      NoHitNoChange(p, s);
      out, n := s, |matches|;
      if n > 0 { out := ReplaceAll(p.matcher, s, p.replacement); }
    }

    /** The same with the counters of a line. */
    method CountPattern(p: Pattern, s: string, stats: Stats) returns (out: string, n: nat)
      modifies stats`replacements, stats`byCategory
      ensures out == Stage(p, s) && n == Hits(p, s)
      ensures var c := old(stats.Counters());
              stats.Counters() == Counts(c.dropped, c.redacted, c.replacements + n, Bump(c.byCategory, p.category, n))
    {
      out, n := ApplyPattern(p, s);
      if n > 0 { stats.Replaced(p.category, n); }
    }

    /** `redactLine`: every pattern once, in order; the counters grow by what the stages replaced. */
    method RedactLine(line: string, stats: Stats) returns (out: string, replacements: nat)
      modifies stats`replacements, stats`byCategory
      ensures out == RedactText(cfg.patterns, line)
      ensures replacements == TotalHits(cfg.patterns, line)
      ensures var c := old(stats.Counters());
              stats.Counters() == Counts(c.dropped, c.redacted, c.replacements + replacements, Tally(cfg.patterns, line, c.byCategory))
    {
      out, replacements := line, 0;
      var ps := cfg.patterns;
      ghost var c := stats.Counters();
      ghost var m := c.byCategory;
      for i := 0 to |ps|
        invariant Sweep(ps, i, out, replacements, m) == Sweep(ps, 0, line, 0, c.byCategory)
        invariant stats.Counters() == Counts(c.dropped, c.redacted, c.replacements + replacements, m)
      {
        m := Bump(m, ps[i].category, Hits(ps[i], out));
        var n;
        out, n := CountPattern(ps[i], out, stats);
        replacements := replacements + n;
      }
      SweepIsPipeline(ps, 0, line, 0, c.byCategory);
      assert ps[0..] == ps;
    }

    /** `RedactString`: the same pipeline on one free-text field, or the marker past its cap. */
    method RedactString(s: string) returns (out: string)
      ensures s == "" ==> out == ""
      ensures s != "" && |s| > cfg.maxString ==> out == DroppedString()
      ensures s != "" && |s| <= cfg.maxString ==> out == RedactText(cfg.patterns, s)
    {
      if s == "" { return s; }
      if |s| > cfg.maxString { return DroppedString(); }
      out := s;
      var ps := cfg.patterns;
      for i := 0 to |ps|
        invariant RedactText(ps, s) == RedactText(ps[i..], out)
      {
        assert ps[i..][0] == ps[i] && ps[i..][1..] == ps[i + 1..];
        var n;
        out, n := ApplyPattern(ps[i], out);
      }
    }

    /** A line over the cap: the marker stands for it. */
    method DropLine(ghost lines: seq<string>, ghost i: nat, result: seq<string>, ghost totalBytes: nat, stats: Stats) returns (result': seq<string>)
      requires i < |lines| && |lines[i]| > cfg.maxLine && Progress(cfg, lines, i, result, totalBytes, stats.Counters())
      modifies stats`droppedLines
      ensures Progress(cfg, lines, i + 1, result', totalBytes, stats.Counters())
    {
      KeepMarker(cfg, lines, i, result, totalBytes, stats.Counters());
      stats.Drop(1);
      result' := result + [DroppedLine()];
    }

    /** The budget is reached: one marker stands for all lines that are left. */
    method Stop(ghost lines: seq<string>, ghost i: nat, result: seq<string>, stats: Stats, ghost n: Counts) returns (result': seq<string>)
      requires i <= |lines| == stats.totalLines && |result| == i && stats.Counters() == n
      requires Accounted(cfg, lines, i, result + [BudgetMarker(|lines| - i)], Counts(n.dropped + (|lines| - i), n.redacted, n.replacements, n.byCategory))
      modifies stats`droppedLines
      ensures Accounted(cfg, lines, i, result', stats.Counters())
    {
      var rest := stats.totalLines - |result|;
      stats.Drop(rest);
      result' := result + [BudgetMarker(rest)];
    }

    /** One turn of the line loop in `Redact`: the line comes out as its text or as the marker, or the budget is
        reached. */
    method TakeLine(lines: seq<string>, i: nat, result: seq<string>, totalBytes: nat, stats: Stats)
      returns (result': seq<string>, totalBytes': nat, full: bool)
      requires i < |lines| && stats.totalLines == |lines| && Progress(cfg, lines, i, result, totalBytes, stats.Counters())
      modifies stats`droppedLines, stats`redactedLines, stats`replacements, stats`byCategory
      ensures !full ==> Progress(cfg, lines, i + 1, result', totalBytes', stats.Counters())
      ensures full ==> Accounted(cfg, lines, i, result', stats.Counters())
    {
      ghost var n := stats.Counters();
      totalBytes', full := totalBytes, false;
      if |lines[i]| > cfg.maxLine {
        result' := DropLine(lines, i, result, totalBytes, stats);
        return;
      }
      var redacted, hits := RedactLine(lines[i], stats);
      if totalBytes + |redacted| > cfg.maxTotal {
        Overflow(cfg, lines, i, result, totalBytes, n, redacted, hits);
        result' := Stop(lines, i, result, stats, WithHits(cfg, n, lines[i], hits));
        full := true;
        return;
      }
      KeepText(cfg, lines, i, result, totalBytes, n, redacted, hits);
      totalBytes' := totalBytes + |redacted|;
      result' := result + [redacted];
      if hits > 0 { stats.Redacted(); }
    }

    /** `Redact` */
    method Redact(lines: seq<string>) returns (result: seq<string>, stats: Stats, ghost k: nat)
      ensures fresh(stats) && stats.totalLines == |lines|
      ensures Accounted(cfg, lines, k, result, stats.Counters())
    {
      stats := new Stats(|lines|);
      result := [];
      var totalBytes: nat := 0;
      for i := 0 to |lines|
        invariant fresh(stats) && stats.totalLines == |lines|
        invariant Progress(cfg, lines, i, result, totalBytes, stats.Counters())
      {
        var full;
        result, totalBytes, full := TakeLine(lines, i, result, totalBytes, stats);
        if full {
          k := i;
          return;
        }
      }
      k := |lines|;
      AllKept(cfg, lines, result, totalBytes, stats.Counters());
    }
  }

  // ---------------------------------------------------------------------
  // What a payload satisfies

  /** Bytes of the redacted texts among the first `n` output lines. */
  function KeptBytes(c: Config, lines: seq<string>, result: seq<string>, n: nat): nat
    requires n <= |lines| && n <= |result|
  {
    if n == 0 then 0 else KeptBytes(c, lines, result, n - 1) + if |lines[n - 1]| > c.maxLine then 0 else |result[n - 1]|
  }

  lemma {:induction false} KeptBytesAre(c: Config, lines: seq<string>, result: seq<string>, n: nat)
    requires n <= |lines| && n <= |result|
    requires forall j :: 0 <= j < n ==> result[j] == LineOut(c, lines[j])
    ensures KeptBytes(c, lines, result, n) == Bytes(c, lines, n)
  {
    if n > 0 { KeptBytesAre(c, lines, result, n - 1); }
  }

  /** Every line is forwarded or counted as dropped, the output is never longer than the input, what
      is forwarded fits the budget, and the replacement counters agree with each other. */
  lemma PayloadConservation(c: Config, lines: seq<string>, k: nat, result: seq<string>, n: Counts)
    requires Accounted(c, lines, k, result, n)
    ensures ForwardedLines(c, lines, k) + n.dropped == |lines|
    ensures n.redacted + n.dropped <= |lines| && |result| <= |lines|
    ensures KeptBytes(c, lines, result, k) <= c.maxTotal
    ensures n.replacements == SumValues(n.byCategory) == AllHits(c, lines, |result|)
    ensures forall cat :: At(n.byCategory, cat) == AllCategoryHits(c, lines, |result|, cat)
  {
    CountsPartition(c, lines, k);
    ReportMeaning(c, lines, k, "");
    KeptBytesAre(c, lines, result, k);
    ReportMeaning(c, lines, |result|, "");
    forall cat ensures At(n.byCategory, cat) == AllCategoryHits(c, lines, |result|, cat) {
      ReportMeaning(c, lines, |result|, cat);
    }
  }

  /** What is cut off does not fit: the first line behind the cut is no oversize one, and with its text the
      bytes handed on would exceed the budget. */
  lemma BudgetEdge(c: Config, lines: seq<string>, k: nat, result: seq<string>, n: Counts)
    requires Accounted(c, lines, k, result, n) && k < |lines|
    ensures |lines[k]| <= c.maxLine && KeptBytes(c, lines, result, k) + |RedactText(c.patterns, lines[k])| > c.maxTotal
  {
    KeptBytesAre(c, lines, result, k);
    assert Bytes(c, lines, k) <= c.maxTotal < Bytes(c, lines, k + 1);
  }

  /** The lines in front of the cut: a line over the cap comes out as the marker, any other as its redacted
      text; behind them stands the marker with the number of lines that it replaces. */
  lemma OutputLines(c: Config, lines: seq<string>, k: nat, result: seq<string>, n: Counts, j: nat)
    requires Accounted(c, lines, k, result, n) && j < |result|
    ensures k <= |lines| && (j < k || (j == k && k < |lines|))
    ensures j < k && |lines[j]| > c.maxLine ==> result[j] == DroppedLine()
    ensures j < k && |lines[j]| <= c.maxLine ==> result[j] == RedactText(c.patterns, lines[j])
    ensures j == k ==> result[j] == BudgetMarker(|lines| - k)
  {
  }

  /** The markers, as they are read. */
  lemma LineMarkerIs()
    ensures DroppedLine() == "[redacted: line dropped by size guard]"
  {
  }

  lemma StringMarkerIs()
    ensures DroppedString() == "[redacted: string dropped by size guard]"
  {
  }

  lemma BudgetMarkerIs(n: nat, dash: string)
    requires dash == [0xE2 as char, 0x80 as char, 0x94 as char]
    ensures BudgetMarker(n) == "[redacted: " + FormatNat(n) + (" further lines dropped " + dash + (" payload byte" + " budget reached]"))
  {
  }

  /** The bytes the three markers are made of. */
  predicate MarkerByte(c: char) {
    'a' <= c <= 'z' || IsDigit(c) || c == ' ' || c == ':' || c == '[' || c == ']' || c >= 0x80 as char
  }

  /** A text of marker bytes in which no `b` is followed by `e` or `a`. */
  predicate MarkerText(t: string) {
    && (forall i :: 0 <= i < |t| ==> MarkerByte(t[i]))
    && (forall i :: 0 <= i < |t| - 1 && t[i] == 'b' ==> t[i + 1] != 'e' && t[i + 1] != 'a')
  }

  lemma MarkerConcat(a: string, b: string)
    requires MarkerText(a) && MarkerText(b) && (a != "" ==> a[|a| - 1] != 'b')
    ensures MarkerText(a + b)
  {
  }

  lemma GuardText()
    ensures MarkerText(" dropped by size guard]")
  {
  }

  lemma DroppedLineText()
    ensures MarkerText(DroppedLine())
  {
    GuardText();
    assert MarkerText("[redacted: line");
    MarkerConcat("[redacted: line", " dropped by size guard]");
  }

  lemma DroppedStringText()
    ensures MarkerText(DroppedString())
  {
    GuardText();
    assert MarkerText("[redacted: string");
    MarkerConcat("[redacted: string", " dropped by size guard]");
  }

  lemma BudgetHead(dash: string)
    requires dash == [0xE2 as char, 0x80 as char, 0x94 as char]
    ensures MarkerText(" further lines dropped " + dash)
  {
    assert MarkerText(" further lines dropped ") && MarkerText(dash);
    MarkerConcat(" further lines dropped ", dash);
  }

  lemma BudgetEnd()
    ensures MarkerText(" payload byte" + " budget reached]")
  {
    assert MarkerText(" payload byte") && MarkerText(" budget reached]");
    MarkerConcat(" payload byte", " budget reached]");
  }

  lemma BudgetTailText()
    ensures MarkerText(BUDGET_TAIL)
  {
    var dash := [0xE2 as char, 0x80 as char, 0x94 as char];
    BudgetHead(dash);
    BudgetEnd();
    MarkerConcat(" further lines dropped " + dash, " payload byte" + " budget reached]");
  }

  lemma BudgetMarkerText(n: nat)
    ensures MarkerText(BudgetMarker(n))
  {
    BudgetTailText();
    assert MarkerText("[redacted: ");
    MarkerConcat("[redacted: ", FormatNat(n));
    MarkerConcat("[redacted: " + FormatNat(n), BUDGET_TAIL);
  }

  lemma FoldedOpens(word: string, w: string)
    requires word != "" && word[0] != 's' && word[0] != 'k' && MatchesFolded(word, w)
    ensures w != "" && (w[0] == word[0] || w[0] == Upper(word[0])) && MatchesFolded(word[1..], w[1..])
  {
  }

  /** A header word opens with the first two letters of its keyword. */
  lemma HeaderOpens(word: string, more: string, w: string)
    requires |word| >= 2 && word[0] != 's' && word[0] != 'k' && word[1] != 's' && word[1] != 'k'
    requires Matches(Header(word, more), w)
    ensures |w| >= 2 && (w[0] == word[0] || w[0] == Upper(word[0])) && (w[1] == word[1] || w[1] == Upper(word[1]))
  {
    var rest := Header(word, more).second;
    var k :| 0 <= k <= |w| && Matches(Folded(word), w[..k]) && Matches(rest, w[k..]);
    FoldedOpens(word, w[..k]);
    FoldedOpens(word[1..], w[..k][1..]);
  }

  lemma MarkerFreeOfHeaders(word: string, more: string, t: string)
    requires |word| >= 2 && word[0] == 'b' && (word[1] == 'e' || word[1] == 'a') && MarkerText(t)
    ensures Free(Header(word, more), t)
  {
    forall i, j | 0 <= i <= j <= |t| ensures !Matches(Header(word, more), t[i..j]) {
      assert |t[i..j]| >= 2 ==> t[i..j][0] == t[i] && t[i..j][1] == t[i + 1];
      if Matches(Header(word, more), t[i..j]) { HeaderOpens(word, more, t[i..j]); }
    }
  }

  lemma MarkersHoldNoSecret(r: Rule, t: string)
    requires Permanent(r) && MarkerText(t)
    ensures Free(Language(r), t)
  {
    match r
    case Bearer => MarkerFreeOfHeaders("bearer", "-._~+/", t);
    case Basic => MarkerFreeOfHeaders("basic", "+/", t);
    case Jwt => PermanentIsClean(r); FreeByBytes(Language(r), Needs(r), t);
    case AwsKey => PermanentIsClean(r); FreeByBytes(Language(r), Needs(r), t);
    case AwsSecret => PermanentIsClean(r); FreeByBytes(Language(r), Needs(r), t);
    case PrivateKey => PermanentIsClean(r); FreeByBytes(Language(r), Needs(r), t);
    case Email => PermanentIsClean(r); FreeByBytes(Language(r), Needs(r), t);
  }

  /** The guarantee for a whole payload: no line that `Redact` returns, marker or text, holds a word
      of a permanent pattern, whatever lines came in and whatever custom patterns are configured. */
  lemma PayloadHoldsNoSecret(c: Config, engine: Rule -> Matcher, compile: Compiler, parts: seq<string>, r: Rule,
                             lines: seq<string>, k: nat, result: seq<string>, n: Counts, j: nat)
    requires c.patterns == Builtin(engine) + Custom(compile, parts)
    requires Permanent(r) && Faithful(engine(r), Language(r))
    requires Accounted(c, lines, k, result, n) && j < |result|
    ensures Free(Language(r), result[j])
  {
    if j < k && |lines[j]| <= c.maxLine {
      CustomWalls(compile, parts);
      NothingPermanentSurvives(engine, Custom(compile, parts), r, lines[j]);
    } else {
      MarkerLines(c, lines, k, result, n, j);
      MarkersHoldNoSecret(r, result[j]);
    }
  }

  lemma MarkerLines(c: Config, lines: seq<string>, k: nat, result: seq<string>, n: Counts, j: nat)
    requires Accounted(c, lines, k, result, n) && j < |result|
    ensures (j < k && |lines[j]| <= c.maxLine) || MarkerText(result[j])
  {
    DroppedLineText();
    BudgetMarkerText(|lines| - k);
  }

  /** The same guarantee for a free-text field. */
  lemma StringHoldsNoSecret(c: Config, engine: Rule -> Matcher, compile: Compiler, parts: seq<string>, r: Rule, s: string)
    requires c.patterns == Builtin(engine) + Custom(compile, parts)
    requires Permanent(r) && Faithful(engine(r), Language(r))
    ensures Free(Language(r), if |s| > c.maxString then DroppedString() else RedactText(c.patterns, s))
  {
    DroppedStringText();
    MarkersHoldNoSecret(r, DroppedString());
    CustomWalls(compile, parts);
    NothingPermanentSurvives(engine, Custom(compile, parts), r, s);
  }

  /** No address, whatever surrounds it and wherever it comes from, is a substring of any output line. */
  lemma NoAddressSurvives(c: Config, engine: Rule -> Matcher, compile: Compiler, parts: seq<string>,
                          lines: seq<string>, k: nat, result: seq<string>, n: Counts, j: nat, u: string, h: string, t: string)
    requires c.patterns == Builtin(engine) + Custom(compile, parts) && Faithful(engine(Email), Language(Email))
    requires Accounted(c, lines, k, result, n) && j < |result| && AddressParts(u, h, t)
    ensures forall i, e :: 0 <= i <= e <= |result[j]| ==> result[j][i..e] != AddressOf(u, h, t)
  {
    PayloadHoldsNoSecret(c, engine, compile, parts, Email, lines, k, result, n, j);
    AddressIff(AddressOf(u, h, t));
  }
}
