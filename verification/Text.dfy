/** Byte strings.  A Go string is a sequence of bytes, and every `char` here stands for one byte.
    The functions are the ones of Go's `strings` package that the collector calls. */
module Text {

  datatype Option<+T> = None | Some(value: T)

  datatype Result<+T, +E> = Ok(value: T) | Err(error: E)

  /** The upper-case form of an ASCII byte. */
  function Upper(c: char): char { if 'a' <= c <= 'z' then c - 32 as char else c }

  predicate HasPrefix(s: string, p: string) { p <= s }

  predicate HasSuffix(s: string, p: string) { |p| <= |s| && s[|s| - |p|..] == p }

  /** First position of `c` in `s`, or `|s|` when there is none. */
  function Find(s: string, c: char): (i: nat)
    ensures i <= |s|
    ensures c !in s[..i]
    ensures i < |s| ==> s[i] == c
    ensures i < |s| <==> c in s
  {
    if s == "" then 0 else if s[0] == c then 0 else 1 + Find(s[1..], c)
  }

  /** `strings.Split` with a one-byte separator: n separators give n + 1 parts. */
  function Split(s: string, c: char): (parts: seq<string>)
    ensures |parts| >= 1
    ensures forall k :: 0 <= k < |parts| ==> c !in parts[k]
    ensures Join(parts, c) == s
    decreases |s|
  {
    var i := Find(s, c);
    if i == |s| then [s] else [s[..i]] + Split(s[i + 1..], c)
  }

  function Join(parts: seq<string>, c: char): string {
    if parts == [] then ""
    else if |parts| == 1 then parts[0]
    else parts[0] + [c] + Join(parts[1..], c)
  }

  /** The first separator of `head + c + tail` ends a separator-free head. */
  lemma FindFirst(head: string, c: char, tail: string)
    requires c !in head
    ensures Find(head + [c] + tail, c) == |head|
  {
    if head != "" {
      assert (head + [c] + tail)[1..] == head[1..] + [c] + tail;
      FindFirst(head[1..], c, tail);
    }
  }

  /** Everything before and after the first `c`, as `strings.Cut` returns it. */
  function Cut(s: string, c: char): (r: Option<(string, string)>)
    ensures r.Some? ==> c !in r.value.0 && s == r.value.0 + [c] + r.value.1
    ensures r.None? <==> c !in s
  {
    var i := Find(s, c);
    if i == |s| then None else Some((s[..i], s[i + 1..]))
  }

  lemma CutHead(head: string, c: char, tail: string)
    requires c !in head
    ensures Cut(head + [c] + tail, c) == Some((head, tail))
  {
    FindFirst(head, c, tail);
    var s := head + [c] + tail;
    assert s[..|head|] == head && s[|head| + 1..] == tail;
  }

  /** The ASCII part of `unicode.IsSpace`. */
  predicate IsSpace(c: char) {
    c == '\t' || c == '\n' || c == 11 as char || c == 12 as char || c == '\r' || c == ' '
  }

  function TrimLeft(s: string): string {
    if s != "" && IsSpace(s[0]) then TrimLeft(s[1..]) else s
  }

  function TrimRight(s: string): string {
    if s != "" && IsSpace(s[|s| - 1]) then TrimRight(s[..|s| - 1]) else s
  }

  function TrimSpace(s: string): string { TrimRight(TrimLeft(s)) }

  lemma {:induction false} TrimLeftParts(s: string) returns (l: string)
    ensures s == l + TrimLeft(s) && (forall i :: 0 <= i < |l| ==> IsSpace(l[i]))
    ensures TrimLeft(s) != "" ==> !IsSpace(TrimLeft(s)[0])
  {
    l := "";
    if s != "" && IsSpace(s[0]) {
      l := TrimLeftParts(s[1..]);
      l := [s[0]] + l;
    }
  }

  lemma {:induction false} TrimRightParts(s: string) returns (r: string)
    ensures s == TrimRight(s) + r && (forall i :: 0 <= i < |r| ==> IsSpace(r[i]))
    ensures TrimRight(s) != "" ==> !IsSpace(TrimRight(s)[|TrimRight(s)| - 1])
  {
    r := "";
    if s != "" && IsSpace(s[|s| - 1]) {
      r := TrimRightParts(s[..|s| - 1]);
      r := r + [s[|s| - 1]];
    }
  }

  /** Trimming takes blanks off both ends and nothing else. */
  lemma TrimMeaning(s: string) returns (l: string, r: string)
    ensures var t := TrimSpace(s);
            && s == l + t + r
            && (forall i :: 0 <= i < |l| ==> IsSpace(l[i])) && (forall i :: 0 <= i < |r| ==> IsSpace(r[i]))
            && (t != "" ==> !IsSpace(t[0]) && !IsSpace(t[|t| - 1]))
  {
    l := TrimLeftParts(s);
    r := TrimRightParts(TrimLeft(s));
    assert TrimSpace(s) != "" ==> TrimSpace(s)[0] == TrimLeft(s)[0];
  }

  /** Trimming leaves a string alone when both its ends are not blank. */
  lemma TrimFixpoint(s: string)
    requires s != "" ==> !IsSpace(s[0]) && !IsSpace(s[|s| - 1])
    ensures TrimSpace(s) == s
  {
  }
}
