/** The pieces of JavaScript's string semantics that the main process relies on:
    `trim` and the `\s` class, the `\w` class, `startsWith`, `includes`,
    `indexOf`, `replace` with a string pattern, `substring` with its argument
    clamping, and `split("\n")`. Strings are sequences of UTF-16 code units,
    modelled as `char`. */
module Text {
  import opened Common

  /** JavaScript WhiteSpace or LineTerminator: what `trim` removes and `\s` matches. */
  predicate IsSpace(c: char) {
    c == '\t' || c == '\n' || c == '\U{000B}' || c == '\U{000C}' || c == '\r' || c == ' '
    || c == '\U{00A0}' || c == '\U{1680}' || ('\U{2000}' <= c <= '\U{200A}')
    || c == '\U{2028}' || c == '\U{2029}' || c == '\U{202F}' || c == '\U{205F}'
    || c == '\U{3000}' || c == '\U{FEFF}'
  }

  /** A line terminator: what `.` in a regular expression does not match. */
  predicate IsLineTerminator(c: char) {
    c == '\n' || c == '\r' || c == '\U{2028}' || c == '\U{2029}'
  }

  /** The `\w` class of a regular expression without the `u` flag. */
  predicate IsWordChar(c: char) {
    ('a' <= c <= 'z') || ('A' <= c <= 'Z') || ('0' <= c <= '9') || c == '_'
  }

  /** The `[a-zA-Z]` class. */
  predicate IsLetter(c: char) {
    ('a' <= c <= 'z') || ('A' <= c <= 'Z')
  }

  /** ASCII lower-casing, which is all a `/i` pattern made of ASCII letters folds. */
  function LowerAscii(c: char): (r: char)
    ensures ('A' <= c <= 'Z') ==> r != c
    ensures !('A' <= c <= 'Z') ==> r == c
  {
    if 'A' <= c <= 'Z' then (c as int + 32) as char else c
  }

  predicate StartsWith(s: string, prefix: string) {
    |prefix| <= |s| && s[..|prefix|] == prefix
  }

  predicate EndsWith(s: string, suffix: string) {
    |suffix| <= |s| && s[|s| - |suffix|..] == suffix
  }

  /** `sub` occurs in `s` starting at index `i`. */
  predicate OccursAt(s: string, sub: string, i: nat) {
    i + |sub| <= |s| && s[i..i + |sub|] == sub
  }

  /** `s.indexOf(sub, from)`: the first occurrence at or after `from`. */
  function IndexOf(s: string, sub: string, from: nat): (r: Option<nat>)
    ensures r.Some? ==> from <= r.value && OccursAt(s, sub, r.value)
    ensures r.Some? ==> forall j :: from <= j < r.value ==> !OccursAt(s, sub, j)
    ensures r.None? ==> forall j :: from <= j ==> !OccursAt(s, sub, j)
    decreases |s| - from
  {
    if from + |sub| > |s| then None
    else if s[from..from + |sub|] == sub then Some(from)
    else IndexOf(s, sub, from + 1)
  }

  /** The first occurrence at or after `from` is the one `indexOf` finds. */
  lemma {:induction false} IndexOfFirst(s: string, sub: string, from: nat, i: nat)
    requires from <= i && OccursAt(s, sub, i)
    requires forall k :: from <= k < i ==> !OccursAt(s, sub, k)
    ensures IndexOf(s, sub, from) == Some(i)
  {
  }

  /** `s.includes(sub)`. */
  predicate Contains(s: string, sub: string) {
    IndexOf(s, sub, 0).Some?
  }

  lemma {:induction false} ContainsAt(s: string, sub: string, i: nat)
    requires OccursAt(s, sub, i)
    ensures Contains(s, sub)
  {
  }

  /** `s.replace(pattern, rep)` with a string pattern: only the first occurrence is replaced. */
  function ReplaceFirst(s: string, pattern: string, rep: string): (r: string)
    ensures !Contains(s, pattern) ==> r == s
    ensures Contains(s, pattern) ==>
      var k := IndexOf(s, pattern, 0).value;
      r == s[..k] + rep + s[k + |pattern|..]
  {
    match IndexOf(s, pattern, 0)
    case None => s
    case Some(k) => s[..k] + rep + s[k + |pattern|..]
  }

  /** `s.trimStart()`: drops the leading white space and nothing else. */
  function TrimStart(s: string): (r: string)
    ensures |r| <= |s| && r == s[|s| - |r|..]
    ensures forall i :: 0 <= i < |s| - |r| ==> IsSpace(s[i])
    ensures r == [] || !IsSpace(r[0])
  {
    if s != [] && IsSpace(s[0]) then TrimStart(s[1..]) else s
  }

  /** `s.trimEnd()`: drops the trailing white space and nothing else. */
  function TrimEnd(s: string): (r: string)
    ensures |r| <= |s| && r == s[..|r|]
    ensures forall i :: |r| <= i < |s| ==> IsSpace(s[i])
    ensures r == [] || !IsSpace(r[|r| - 1])
  {
    if s != [] && IsSpace(s[|s| - 1]) then TrimEnd(s[..|s| - 1]) else s
  }

  /** A string that neither starts nor ends with white space. */
  predicate IsTrimmed(s: string) {
    s == [] || (!IsSpace(s[0]) && !IsSpace(s[|s| - 1]))
  }

  /** `s.trim()`. */
  function Trim(s: string): (r: string)
    ensures IsTrimmed(r)
  {
    var a := TrimStart(s);
    var t := TrimEnd(a);
    assert t != [] ==> t[0] == a[0];
    t
  }

  /** The trimmed string is the slice of the input that starts at `off`. */
  lemma {:induction false} TrimIsSlice(s: string) returns (off: nat)
    ensures off + |Trim(s)| <= |s| && Trim(s) == s[off..off + |Trim(s)|]
  {
    var a := TrimStart(s);
    var t := TrimEnd(a);
    off := |s| - |a|;
    assert t == a[..|t|];
  }

  lemma {:induction false} TrimmedIsFixpoint(s: string)
    requires IsTrimmed(s)
    ensures TrimStart(s) == s && TrimEnd(s) == s && Trim(s) == s
  {
  }

  /** `trim` yields a trimmed string and is idempotent. */
  lemma {:induction false} TrimIsTrimmed(s: string)
    ensures IsTrimmed(Trim(s))
    ensures Trim(Trim(s)) == Trim(s)
  {
    var a := TrimStart(s);
    var t := TrimEnd(a);
    if t != [] {
      assert t[0] == a[0];
    }
    TrimmedIsFixpoint(t);
  }

  /** `trim` yields the empty string exactly for all-white-space input. */
  lemma {:induction false} TrimEmptyIffBlank(s: string)
    ensures Trim(s) == [] <==> forall i :: 0 <= i < |s| ==> IsSpace(s[i])
  {
    var a := TrimStart(s);
    if Trim(s) == [] {
      assert a == [];
    } else if a != [] {
      assert !IsSpace(s[|s| - |a|]);
    }
  }

  /** Leading white space does not change the trimmed string. */
  lemma {:induction false} TrimSkipsLeadingSpace(w: string, x: string)
    requires forall i :: 0 <= i < |w| ==> IsSpace(w[i])
    ensures Trim(w + x) == Trim(x)
  {
    if w != [] {
      assert (w + x)[1..] == w[1..] + x;
      TrimSkipsLeadingSpace(w[1..], x);
    } else {
      assert w + x == x;
    }
  }

  /** Dropping leading white space before `trimStart` changes nothing: the
      slices of `s` from `lo` and from `k` trim to the same text. */
  lemma {:induction false} TrimStartSkipsSpace(s: string, lo: nat, k: nat, hi: nat)
    requires lo <= k <= hi <= |s|
    requires forall j :: lo <= j < k ==> IsSpace(s[j])
    ensures TrimStart(s[k..hi]) == TrimStart(s[lo..hi])
    decreases k - lo
  {
    if lo < k {
      assert s[lo..hi][0] == s[lo];
      assert s[lo..hi][1..] == s[lo + 1..hi];
      TrimStartSkipsSpace(s, lo + 1, k, hi);
    }
  }

  /** `trim` only depends on what `trimStart` leaves. */
  lemma {:induction false} TrimOfSameStart(a: string, b: string)
    requires TrimStart(a) == TrimStart(b)
    ensures Trim(a) == Trim(b)
  {
  }

  /** JavaScript `s.substring(start, end)`: both indices are clamped to
      `[0, |s|]` and swapped when `start > end`. */
  function Substring(s: string, start: int, end: int): (r: string)
    ensures 0 <= start <= end <= |s| ==> r == s[start..end]
  {
    var a := if start < 0 then 0 else if start > |s| then |s| else start;
    var b := if end < 0 then 0 else if end > |s| then |s| else end;
    if a <= b then s[a..b] else s[b..a]
  }

  /** `s.split("\n")`. */
  function SplitLines(s: string): (r: seq<string>)
    ensures |r| >= 1
    ensures forall i :: 0 <= i < |r| ==> '\n' !in r[i]
    decreases |s|
  {
    match IndexOf(s, "\n", 0)
    case None =>
      assert forall i :: 0 <= i < |s| ==> !OccursAt(s, "\n", i);
      assert forall i :: 0 <= i < |s| ==> s[i] != '\n' by {
        forall i | 0 <= i < |s| ensures s[i] != '\n' {
          assert !OccursAt(s, "\n", i);
          assert s[i..i + 1] == [s[i]];
        }
      }
      [s]
    case Some(k) =>
      assert forall i :: 0 <= i < k ==> s[..k][i] != '\n' by {
        forall i | 0 <= i < k ensures s[..k][i] != '\n' {
          assert !OccursAt(s, "\n", i);
          assert s[i..i + 1] == [s[i]];
        }
      }
      [s[..k]] + SplitLines(s[k + 1..])
  }

  /** `parts.join("\n")`. */
  function JoinLines(parts: seq<string>): string
    requires |parts| >= 1
  {
    if |parts| == 1 then parts[0] else parts[0] + "\n" + JoinLines(parts[1..])
  }

  /** Splitting on line feeds loses nothing: joining the lines gives the text back. */
  lemma {:induction false} SplitJoinRoundTrip(s: string)
    ensures JoinLines(SplitLines(s)) == s
    decreases |s|
  {
    match IndexOf(s, "\n", 0)
    case None =>
    case Some(k) =>
      SplitJoinRoundTrip(s[k + 1..]);
      assert s[k..k + 1] == "\n";
      assert s == s[..k] + "\n" + s[k + 1..];
  }

  /** A run of `p` characters from `i` that stops at `j` is what `SkipWhile` skips. */
  lemma {:induction false} SkipWhileStopsAt(s: string, i: nat, p: char -> bool, j: nat)
    requires i <= j <= |s|
    requires forall k :: i <= k < j ==> p(s[k])
    requires j == |s| || !p(s[j])
    ensures SkipWhile(s, i, p) == j
  {
  }

  /** The end of the longest run of characters satisfying `p` from index `i`:
      a greedy `p*` in a regular expression. */
  function SkipWhile(s: string, i: nat, p: char -> bool): (j: nat)
    requires i <= |s|
    ensures i <= j <= |s|
    ensures forall k :: i <= k < j ==> p(s[k])
    ensures j == |s| || !p(s[j])
    decreases |s| - i
  {
    if i < |s| && p(s[i]) then SkipWhile(s, i + 1, p) else i
  }
}
