/** The pure post-processing the processing pipeline applies to the text an
    AI provider returns: stripping Markdown fences before the problem JSON is
    parsed, extracting the code of the first fenced block, normalising the
    time and space complexity sentences, the thoughts list with its default,
    and the shape of the debug result.

    Each regular expression that matters is written out as a scanner over the
    string. The three captures whose patterns depend on multi-line bullets and
    look-ahead (the thoughts section, the bullet lines, the complexity
    sentences) are passed in as an `Extractors` record. */
module ResponseParsing {
  import opened Common
  import opened Text

  const Fence: string := "```"

  // ---------------------------------------------------------------------------
  // Fence stripping before `JSON.parse`
  // ---------------------------------------------------------------------------

  /** `s` has no fence anywhere. */
  ghost predicate NoFence(s: string) {
    forall i: nat :: !OccursAt(s, Fence, i)
  }

  /** An occurrence inside a slice is an occurrence in the whole. */
  lemma {:induction false} SliceOccurrence(s: string, lo: nat, hi: nat, sub: string, i: nat)
    requires lo <= hi <= |s|
    ensures OccursAt(s[lo..hi], sub, i) ==> OccursAt(s, sub, lo + i)
  {
    if i + |sub| <= hi - lo {
      var x := s[lo..hi][i..i + |sub|];
      var y := s[lo + i..lo + i + |sub|];
      assert forall k :: 0 <= k < |sub| ==> x[k] == y[k];
    }
  }

  /** A fence can only start at a backtick. */
  lemma {:induction false} FenceStartsWithBacktick(s: string, k: nat)
    ensures OccursAt(s, Fence, k) ==> k < |s| && s[k] == '`'
  {
    if k + 3 <= |s| {
      assert s[k..k + 3][0] == s[k];
    }
  }

  /** Trimming a text without fences cannot create one. */
  lemma {:induction false} TrimKeepsNoFence(s: string)
    requires NoFence(s)
    ensures NoFence(Trim(s))
  {
    var off := TrimIsSlice(s);
    NoFenceSlice(s, off, off + |Trim(s)|);
  }

  /** A slice of a text without fences has none. */
  lemma {:induction false} NoFenceSlice(s: string, lo: nat, hi: nat)
    requires NoFence(s) && lo <= hi <= |s|
    ensures NoFence(s[lo..hi])
  {
    forall i: nat ensures !OccursAt(s[lo..hi], Fence, i) {
      SliceOccurrence(s, lo, hi, Fence, i);
    }
  }

  /** `text.replace(/```json|```/g, "")`: scanning from the left, each
      "```json" (tried first) or "```" is dropped and the scan resumes after it. */
  function StripFences(s: string): (r: string)
    ensures |r| <= |s|
    decreases |s|
  {
    if StartsWith(s, "```json") then StripFences(s[7..])
    else if StartsWith(s, Fence) then StripFences(s[3..])
    else if s == [] then []
    else [s[0]] + StripFences(s[1..])
  }

  /** A text that begins with anything but a backtick keeps its first character. */
  lemma {:induction false} StripKeepsFirst(t: string)
    requires t != [] && t[0] != '`'
    ensures StripFences(t) != [] && StripFences(t)[0] == t[0]
  {
    assert !StartsWith(t, "```json") && !StartsWith(t, Fence);
  }

  /** The stripped text contains no fence at all. */
  lemma {:induction false} StripFencesRemovesAll(s: string)
    ensures NoFence(StripFences(s))
    decreases |s|
  {
    if StartsWith(s, "```json") {
      StripFencesRemovesAll(s[7..]);
    } else if StartsWith(s, Fence) {
      StripFencesRemovesAll(s[3..]);
    } else if s != [] {
      var rest := StripFences(s[1..]);
      StripFencesRemovesAll(s[1..]);
      assert StripFences(s) == [s[0]] + rest;
      if s[0] == '`' && |rest| >= 2 {
        KeptBacktickNotFence(s);
      }
      NoFenceCons(s[0], rest);
    }
  }

  /** A backtick kept at the front is never followed by two more. */
  lemma {:induction false} KeptBacktickNotFence(s: string)
    requires s != [] && s[0] == '`' && !StartsWith(s, Fence)
    requires |StripFences(s[1..])| >= 2
    ensures StripFences(s[1..])[0] != '`' || StripFences(s[1..])[1] != '`'
  {
    var t := s[1..];
    if t[0] != '`' {
      StripKeepsFirst(t);
    } else {
      assert |s| >= 3 ==> s[..3] == [s[0], s[1], s[2]];
      assert |t| < 2 || t[1] != '`';
      assert !StartsWith(t, "```json") && !StartsWith(t, Fence);
      assert StripFences(t) == [t[0]] + StripFences(t[1..]);
      StripKeepsFirst(t[1..]);
    }
  }

  /** One character in front of a text without fences makes a fence only
      when it is a backtick followed by two more. */
  lemma {:induction false} NoFenceCons(c: char, rest: string)
    requires NoFence(rest)
    requires c == '`' && |rest| >= 2 ==> rest[0] != '`' || rest[1] != '`'
    ensures NoFence([c] + rest)
  {
    var r := [c] + rest;
    forall i: nat ensures !OccursAt(r, Fence, i) {
      if i == 0 && |r| >= 3 {
        assert r[..3] == [c, rest[0], rest[1]];
      } else if i > 0 && i + 3 <= |r| {
        assert r[i..i + 3] == rest[i - 1..i + 2];
        assert !OccursAt(rest, Fence, i - 1);
      }
    }
  }

  /** A text without fences passes through unchanged. */
  lemma {:induction false} StripFencesIdentity(s: string)
    requires NoFence(s)
    ensures StripFences(s) == s
    decreases |s|
  {
    if s != [] {
      assert !OccursAt(s, Fence, 0);
      if |s| >= 7 {
        assert s[..7][..3] == s[..3];
      }
      assert s[1..] == s[1..|s|];
      forall i: nat ensures !OccursAt(s[1..], Fence, i) {
        SliceOccurrence(s, 1, |s|, Fence, i);
        assert !OccursAt(s, Fence, 1 + i);
      }
      StripFencesIdentity(s[1..]);
    }
  }

  /** Stripping twice is stripping once. */
  lemma {:induction false} StripFencesIdempotent(s: string)
    ensures StripFences(StripFences(s)) == StripFences(s)
  {
    StripFencesRemovesAll(s);
    StripFencesIdentity(StripFences(s));
  }

  /** The text handed to `JSON.parse`: fences stripped, then trimmed. */
  function JsonText(response: string): (r: string)
    ensures IsTrimmed(r) && NoFence(r)
  {
    StripFencesRemovesAll(response);
    TrimKeepsNoFence(StripFences(response));
    Trim(StripFences(response))
  }

  // ---------------------------------------------------------------------------
  // The first fenced block
  // ---------------------------------------------------------------------------

  /** The first fence at or after `from` is at `m` when the characters between
      hold no backtick. */
  lemma {:induction false} FenceAfterPlainText(s: string, from: nat, m: nat)
    requires from <= m && OccursAt(s, Fence, m)
    requires forall k :: from <= k < m ==> s[k] != '`'
    ensures IndexOf(s, Fence, from) == Some(m)
  {
    forall k: nat | from <= k < m ensures !OccursAt(s, Fence, k) {
      FenceStartsWithBacktick(s, k);
    }
  }

  /** The body of the first fenced block, as `/```(?:T+)?\s*([\s\S]*?)```/`
      captures it, where `tag` is the class `T` and `skipSpace` says whether
      the pattern has the `\s*`. The match can only open at the first fence:
      the tag and the white space hold no backtick, so when no closing fence
      follows them there is none anywhere later either. */
  function FencedBody(s: string, tag: char -> bool, skipSpace: bool): (r: Option<string>)
    requires forall c :: tag(c) ==> c != '`'
    ensures r.Some? ==> NoFence(r.value)
    ensures r.None? <==> forall i: nat, j: nat :: OccursAt(s, Fence, i) && OccursAt(s, Fence, j) ==> j < i + 3
  {
    match IndexOf(s, Fence, 0)
    case None => None
    case Some(i) =>
      var a := SkipWhile(s, i + 3, tag);
      var g := if skipSpace then SkipWhile(s, a, IsSpace) else a;
      forall k: nat | i + 3 <= k < g ensures !OccursAt(s, Fence, k) {
        FenceStartsWithBacktick(s, k);
      }
      match IndexOf(s, Fence, g)
      case None =>
        assert forall p: nat, q: nat :: OccursAt(s, Fence, p) && OccursAt(s, Fence, q) ==> q < p + 3;
        None
      case Some(j) =>
        var body := s[g..j];
        forall k: nat ensures !OccursAt(body, Fence, k) {
          SliceOccurrence(s, g, j, Fence, k);
        }
        assert OccursAt(s, Fence, i) && OccursAt(s, Fence, j) && j >= i + 3;
        Some(body)
  }

  /** `responseContent.match(/```(?:\w+)?\s*([\s\S]*?)```/)`, then the code:
      the trimmed capture, or the whole response when nothing matches. */
  function SolutionCode(response: string): (code: string)
    ensures FencedBody(response, IsWordChar, true).None? ==> code == response
    ensures FencedBody(response, IsWordChar, true).Some? ==> IsTrimmed(code) && NoFence(code)
  {
    match FencedBody(response, IsWordChar, true)
    case None => response
    case Some(body) =>
      TrimKeepsNoFence(body);
      Trim(body)
  }

  /** A response with no fence at all is its own code. */
  lemma {:induction false} UnfencedResponseIsCode(response: string)
    requires !Contains(response, Fence)
    ensures SolutionCode(response) == response
  {
  }

  /** Where the solution block of such a layout starts: after the tag and
      the white space that follows it. */
  lemma {:induction false} SolutionBlockOfLayout(s: string, i: nat, n: nat, m: nat) returns (g: nat)
    requires i + 3 <= n < m && OccursAt(s, Fence, i) && OccursAt(s, Fence, m)
    requires forall k :: 0 <= k < i ==> s[k] != '`'
    requires forall k :: i + 3 <= k < n ==> IsWordChar(s[k])
    requires s[n] == '\n'
    requires forall k :: n < k < m ==> s[k] != '`'
    ensures n <= g <= m && FencedBody(s, IsWordChar, true) == Some(s[g..m])
    ensures forall k :: n <= k < g ==> IsSpace(s[k])
  {
    FenceAfterPlainText(s, 0, i);
    var a := SkipWhile(s, i + 3, IsWordChar);
    assert a == n;
    g := SkipWhile(s, a, IsSpace);
    FenceStartsWithBacktick(s, m);
    assert g <= m;
    FenceAfterPlainText(s, g, m);
  }

  /** The code of a response whose first fence opens at `i`, is followed by a
      word-character tag ending at `n`, a line feed, and a body without
      backticks closed by the fence at `m`, is that body trimmed. */
  lemma {:induction false} FencedLayoutCode(s: string, i: nat, n: nat, m: nat)
    requires i + 3 <= n < m && OccursAt(s, Fence, i) && OccursAt(s, Fence, m)
    requires forall k :: 0 <= k < i ==> s[k] != '`'
    requires forall k :: i + 3 <= k < n ==> IsWordChar(s[k])
    requires s[n] == '\n'
    requires forall k :: n < k < m ==> s[k] != '`'
    ensures SolutionCode(s) == Trim(s[n + 1..m])
  {
    var g := SolutionBlockOfLayout(s, i, n, m);
    FencedBodyCode(s, s[g..m]);
    SpaceBeforeBody(s, n, g, m);
  }

  /** The code is the trimmed body whenever a block is found. */
  lemma {:induction false} FencedBodyCode(s: string, body: string)
    requires FencedBody(s, IsWordChar, true) == Some(body)
    ensures SolutionCode(s) == Trim(body)
  {
  }

  /** The capture of the first block, for every input: when the first fence
      opens at `i`, the tag characters after it run up to `a`, the white
      space after them (when skipped) up to `g`, and the next fence from `g`
      on opens at `j`, the capture is `s[g..j]`. */
  lemma {:induction false} FencedBodyIsFirstBlock(s: string, tag: char -> bool, skipSpace: bool,
                                                  i: nat, a: nat, g: nat, j: nat)
    requires forall c :: tag(c) ==> c != '`'
    requires OccursAt(s, Fence, i) && forall k :: 0 <= k < i ==> !OccursAt(s, Fence, k)
    requires i + 3 <= a <= g <= j && OccursAt(s, Fence, j)
    requires (forall k :: i + 3 <= k < a ==> tag(s[k])) && (a == |s| || !tag(s[a]))
    requires if skipSpace then (forall k :: a <= k < g ==> IsSpace(s[k])) && (g == |s| || !IsSpace(s[g]))
             else g == a
    requires forall k :: g <= k < j ==> !OccursAt(s, Fence, k)
    ensures FencedBody(s, tag, skipSpace) == Some(s[g..j])
  {
    IndexOfFirst(s, Fence, 0, i);
    SkipWhileStopsAt(s, i + 3, tag, a);
    if skipSpace {
      SkipWhileStopsAt(s, a, IsSpace, g);
    }
    IndexOfFirst(s, Fence, g, j);
  }

  /** The code of every fenced response is the trimmed capture of its first
      block, with the word-character tag and the white space after it
      skipped. */
  lemma {:induction false} SolutionCodeIsFirstBlock(s: string, i: nat, a: nat, g: nat, j: nat)
    requires OccursAt(s, Fence, i) && forall k :: 0 <= k < i ==> !OccursAt(s, Fence, k)
    requires i + 3 <= a <= g <= j && OccursAt(s, Fence, j)
    requires (forall k :: i + 3 <= k < a ==> IsWordChar(s[k])) && (a == |s| || !IsWordChar(s[a]))
    requires (forall k :: a <= k < g ==> IsSpace(s[k])) && (g == |s| || !IsSpace(s[g]))
    requires forall k :: g <= k < j ==> !OccursAt(s, Fence, k)
    ensures SolutionCode(s) == Trim(s[g..j])
  {
    FencedBodyIsFirstBlock(s, IsWordChar, true, i, a, g, j);
  }

  /** Trimming from the line feed at `n` or from the end `g` of the white
      space after it gives the same text. */
  lemma {:induction false} SpaceBeforeBody(s: string, n: nat, g: nat, m: nat)
    requires n <= g <= m <= |s| && n < m && s[n] == '\n'
    requires forall k :: n <= k < g ==> IsSpace(s[k])
    ensures Trim(s[g..m]) == Trim(s[n + 1..m])
  {
    if g == n {
      TrimStartSkipsSpace(s, n, n + 1, m);
    } else {
      TrimStartSkipsSpace(s, n + 1, g, m);
    }
    TrimOfSameStart(s[g..m], s[n + 1..m]);
  }

  /** For a response laid out as text, a fence with a language tag and a line
      feed, the code, the closing fence and more text, the code is the trimmed
      body of the block. */
  lemma {:induction false} FencedCodeIsExtracted(pre: string, tag: string, body: string, post: string)
    requires '`' !in pre && '`' !in body
    requires forall k :: 0 <= k < |tag| ==> IsWordChar(tag[k])
    ensures SolutionCode(pre + Fence + tag + "\n" + body + Fence + post) == Trim(body)
  {
    var c := pre + Fence + tag + "\n";
    var d := c + body + Fence;
    var s := d + post;
    var i := |pre|;
    var n := i + 3 + |tag|;
    var m := n + 1 + |body|;
    assert c[..i] == pre && c[i..i + 3] == Fence && c[i + 3..n] == tag && c[n] == '\n';
    assert d[..n + 1] == c && d[n + 1..m] == body && d[m..] == Fence;
    assert s[..m + 3] == d;
    assert s[n + 1..m] == body;
    assert OccursAt(s, Fence, i) && OccursAt(s, Fence, m);
    assert forall k :: 0 <= k < i ==> s[k] == pre[k];
    assert forall k :: i + 3 <= k < n ==> s[k] == tag[k - i - 3];
    assert forall k :: n < k < m ==> s[k] == body[k - n - 1];
    FencedLayoutCode(s, i, n, m);
  }

  // ---------------------------------------------------------------------------
  // Complexity sentences
  // ---------------------------------------------------------------------------

  /** A whole `/O\([^)]+\)/i` token: `O` or `o`, an opening parenthesis, at
      least one character that is not a closing one, and the first closing one. */
  predicate IsBigOToken(t: string) {
    |t| >= 4 && (t[0] == 'O' || t[0] == 'o') && t[1] == '(' && t[|t| - 1] == ')'
    && forall j :: 2 <= j < |t| - 1 ==> t[j] != ')'
  }

  /** The first closing parenthesis at or after `from`: how `[^)]+\)` ends. */
  function CloseParen(s: string, from: nat): (r: Option<nat>)
    ensures r.Some? ==> from <= r.value < |s| && s[r.value] == ')'
    ensures r.Some? ==> forall j :: from <= j < r.value ==> s[j] != ')'
    ensures r.None? ==> forall j :: from <= j < |s| ==> s[j] != ')'
    decreases |s| - from
  {
    if from >= |s| then None
    else if s[from] == ')' then Some(from)
    else CloseParen(s, from + 1)
  }

  /** Where the token that starts at `i` ends, if one starts there. */
  function BigOEnd(s: string, i: nat): (r: Option<nat>)
    ensures r.Some? ==> i < r.value <= |s| && IsBigOToken(s[i..r.value])
    ensures r.None? ==> forall e :: i <= e <= |s| ==> !IsBigOToken(s[i..e])
  {
    if i + 2 < |s| && (s[i] == 'O' || s[i] == 'o') && s[i + 1] == '(' && s[i + 2] != ')' then
      match CloseParen(s, i + 3)
      case Some(k) =>
        TokenSlice(s, i, k);
        Some(k + 1)
      case None =>
        forall e | i <= e <= |s| ensures !IsBigOToken(s[i..e]) {
          NoTokenSlice(s, i, e);
        }
        None
    else
      forall e | i <= e <= |s| ensures !IsBigOToken(s[i..e]) {
        NoTokenSlice(s, i, e);
      }
      None
  }

  /** The slice from an opening `O(` to the first closing parenthesis after
      a non-empty inside is a token. */
  lemma {:induction false} TokenSlice(s: string, i: nat, k: nat)
    requires i + 3 <= k < |s| && (s[i] == 'O' || s[i] == 'o') && s[i + 1] == '(' && s[i + 2] != ')'
    requires s[k] == ')' && forall j :: i + 3 <= j < k ==> s[j] != ')'
    ensures IsBigOToken(s[i..k + 1])
  {
    var t := s[i..k + 1];
    assert forall j :: 0 <= j < |t| ==> t[j] == s[i + j];
  }

  /** A slice is no token when its opening is wrong or no closing
      parenthesis follows the inside. */
  lemma {:induction false} NoTokenSlice(s: string, i: nat, e: nat)
    requires i <= e <= |s|
    requires !(i + 2 < |s| && (s[i] == 'O' || s[i] == 'o') && s[i + 1] == '(' && s[i + 2] != ')')
             || forall j :: i + 3 <= j < |s| ==> s[j] != ')'
    ensures !IsBigOToken(s[i..e])
  {
    var t := s[i..e];
    if |t| >= 4 {
      assert t[0] == s[i] && t[1] == s[i + 1] && t[2] == s[i + 2] && t[|t| - 1] == s[e - 1];
    }
  }

  /** Where the leftmost token starts, at or after `from`. */
  function FindBigO(s: string, from: nat): (r: Option<nat>)
    ensures r.Some? ==> from <= r.value && BigOEnd(s, r.value).Some?
    ensures r.Some? ==> forall j :: from <= j < r.value ==> BigOEnd(s, j).None?
    ensures r.None? ==> forall j :: from <= j ==> BigOEnd(s, j).None?
    decreases |s| - from
  {
    if from >= |s| then None
    else if BigOEnd(s, from).Some? then Some(from)
    else FindBigO(s, from + 1)
  }

  /** `/O\([^)]+\)/i.test(s)`. */
  predicate HasBigO(s: string) {
    FindBigO(s, 0).Some?
  }

  /** Any token anywhere makes the test succeed. */
  lemma {:induction false} TokenWitness(s: string, i: nat, e: nat)
    requires i <= e <= |s| && IsBigOToken(s[i..e])
    ensures HasBigO(s)
  {
    assert BigOEnd(s, i).Some?;
  }

  /** `s.match(/O\([^)]+\)/i)[0]`: the leftmost token. */
  function FirstBigO(s: string): (t: string)
    requires HasBigO(s)
    ensures IsBigOToken(t)
  {
    var i := FindBigO(s, 0).value;
    s[i..BigOEnd(s, i).value]
  }

  /** The default notation in front of a sentence is a token. */
  lemma {:induction false} LinearPrefixWitness(t: string)
    ensures HasBigO("O(n) - " + t)
  {
    var r := "O(n) - " + t;
    assert r[0] == 'O' && r[1] == '(' && r[2] == 'n' && r[3] == ')';
    assert CloseParen(r, 3) == Some(3);
    assert BigOEnd(r, 0).Some?;
  }

  /** A token moved in front of a sentence is a token of the result. */
  lemma {:induction false} MovedTokenWitness(notation: string, rest: string)
    requires IsBigOToken(notation)
    ensures HasBigO(notation + " - " + rest)
  {
    var r := notation + " - " + rest;
    assert r[..|notation|] == notation;
    TokenPrefixWitness(r, notation);
  }

  /** A string that has a token starts with it has one. */
  lemma {:induction false} TokenPrefixWitness(s: string, t: string)
    requires IsBigOToken(t) && |t| <= |s| && s[..|t|] == t
    ensures HasBigO(s)
  {
    assert s[0..|t|] == t;
    TokenWitness(s, 0, |t|);
  }

  /** The normalisation of one captured complexity sentence
      (`timeMatch[1]` or `spaceMatch[1]`): trimmed, then
      - without a token, "O(n) - " is put in front;
      - with a token but neither "-" nor "because", the leftmost token is
        moved to the front and joined to the rest by " - ";
      - otherwise the trimmed text is kept. */
  function NormalizeComplexity(c: string): (r: string)
    ensures HasBigO(r)
  {
    var t := Trim(c);
    if !HasBigO(t) then
      LinearPrefixWitness(t);
      "O(n) - " + t
    else if !Contains(t, "-") && !Contains(t, "because") then
      var notation := FirstBigO(t);
      var rest := Trim(ReplaceFirst(t, notation, ""));
      MovedTokenWitness(notation, rest);
      notation + " - " + rest
    else
      t
  }

  /** `t.replace(notation, "")` removes the leftmost token from where the
      regular expression found it: no earlier copy of the same text exists. */
  lemma {:induction false} ReplaceRemovesLeftmostToken(t: string)
    requires HasBigO(t)
    ensures var i := FindBigO(t, 0).value;
            ReplaceFirst(t, FirstBigO(t), "") == t[..i] + t[BigOEnd(t, i).value..]
  {
    var i := FindBigO(t, 0).value;
    LeftmostTokenOccurrence(t);
    assert i + |FirstBigO(t)| == BigOEnd(t, i).value;
  }

  /** The leftmost token's text first occurs where the token was found. */
  lemma {:induction false} LeftmostTokenOccurrence(t: string)
    requires HasBigO(t)
    ensures IndexOf(t, FirstBigO(t), 0) == FindBigO(t, 0)
  {
    var i := FindBigO(t, 0).value;
    var tok := FirstBigO(t);
    forall j: nat | j < i ensures !OccursAt(t, tok, j) {
      assert BigOEnd(t, j).None?;
      if j + |tok| <= |t| {
        assert !IsBigOToken(t[j..j + |tok|]);
      }
    }
    assert OccursAt(t, tok, i);
  }

  /** Each case of the normalisation, with the token removed from the place
      the regular expression matched it. */
  lemma {:induction false} NormalizeComplexityCases(c: string)
    ensures var t := Trim(c);
      && (!HasBigO(t) ==> NormalizeComplexity(c) == "O(n) - " + t)
      && (HasBigO(t) && (Contains(t, "-") || Contains(t, "because")) ==> NormalizeComplexity(c) == t)
      && (HasBigO(t) && !Contains(t, "-") && !Contains(t, "because") ==>
            var i := FindBigO(t, 0).value;
            var e := BigOEnd(t, i).value;
            NormalizeComplexity(c) == t[i..e] + " - " + Trim(t[..i] + t[e..]))
  {
    var t := Trim(c);
    if HasBigO(t) {
      ReplaceRemovesLeftmostToken(t);
    }
  }

  /** Trimming keeps a prefix that starts and ends with visible characters. */
  lemma {:induction false} TrimKeepsPrefix(r: string, k: nat)
    requires 1 <= k <= |r| && !IsSpace(r[0]) && !IsSpace(r[k - 1])
    ensures k <= |Trim(r)| && Trim(r)[..k] == r[..k]
  {
    assert TrimStart(r) == r;
    var t := TrimEnd(r);
    assert t == r[..|t|];
  }

  /** A trimmed text that has a token and a dash is kept as it is. */
  lemma {:induction false} DashedTokenKept(c: string)
    requires HasBigO(Trim(c)) && Contains(Trim(c), "-")
    ensures NormalizeComplexity(c) == Trim(c)
  {
  }

  /** A sentence that starts with a token followed by " -" is kept as it is
      once trimmed. */
  lemma {:induction false} TokenDashPrefixStable(r: string, notation: string)
    requires IsBigOToken(notation) && |notation| + 2 <= |r|
    requires r[..|notation|] == notation && r[|notation| + 1] == '-'
    ensures NormalizeComplexity(r) == Trim(r)
  {
    TrimmedTokenDash(r, notation);
    DashedTokenKept(r);
  }

  /** Trimming such a sentence keeps its token and its dash. */
  lemma {:induction false} TrimmedTokenDash(r: string, notation: string)
    requires IsBigOToken(notation) && |notation| + 2 <= |r|
    requires r[..|notation|] == notation && r[|notation| + 1] == '-'
    ensures HasBigO(Trim(r)) && Contains(Trim(r), "-")
  {
    var k := |notation| + 2;
    assert r[0] == notation[0];
    TrimKeepsPrefix(r, k);
    TokenDashInPrefix(Trim(r), r, notation);
  }

  /** A text that shares its first characters with such a sentence has its
      token and its dash. */
  lemma {:induction false} TokenDashInPrefix(u: string, r: string, notation: string)
    requires IsBigOToken(notation) && |notation| + 2 <= |r|
    requires r[..|notation|] == notation && r[|notation| + 1] == '-'
    requires |notation| + 2 <= |u| && u[..|notation| + 2] == r[..|notation| + 2]
    ensures HasBigO(u) && Contains(u, "-")
  {
    var k := |notation| + 2;
    assert u[..|notation|] == u[..k][..|notation|];
    assert r[..|notation|] == r[..k][..|notation|];
    TokenPrefixWitness(u, notation);
    assert u[k - 1] == r[k - 1];
    ContainsAt(u, "-", k - 1);
  }

  /** The default notation put in front of a sentence is kept on a second pass. */
  lemma {:induction false} LinearPrefixStable(t: string)
    ensures NormalizeComplexity("O(n) - " + t) == Trim("O(n) - " + t)
  {
    var r := "O(n) - " + t;
    assert r[..4] == "O(n)" && r[5] == '-';
    TokenDashPrefixStable(r, "O(n)");
  }

  /** A notation moved to the front is kept on a second pass. */
  lemma {:induction false} MovedNotationStable(notation: string, rest: string)
    requires IsBigOToken(notation)
    ensures NormalizeComplexity(notation + " - " + rest) == Trim(notation + " - " + rest)
  {
    var r := notation + " - " + rest;
    assert r[..|notation|] == notation && r[|notation| + 1] == '-';
    TokenDashPrefixStable(r, notation);
  }

  /** Normalising an already normalised sentence only trims it. */
  lemma {:induction false} NormalizeComplexityStable(c: string)
    ensures NormalizeComplexity(NormalizeComplexity(c)) == Trim(NormalizeComplexity(c))
  {
    var t := Trim(c);
    if !HasBigO(t) {
      LinearPrefixStable(t);
    } else if !Contains(t, "-") && !Contains(t, "because") {
      MovedNotationStable(FirstBigO(t), Trim(ReplaceFirst(t, FirstBigO(t), "")));
    } else {
      TrimIsTrimmed(c);
    }
  }

  /** Without an opening parenthesis there is no token. */
  lemma {:induction false} NoParenthesisNoToken(s: string)
    requires '(' !in s
    ensures !HasBigO(s)
  {
  }

  /** A trimmed sentence with no parenthesis, such as "linear", gets the
      linear default in front. */
  lemma {:induction false} ProseGetsLinearDefault(t: string)
    requires IsTrimmed(t) && '(' !in t
    ensures NormalizeComplexity(t) == "O(n) - " + t
  {
    TrimmedIsFixpoint(t);
    NoParenthesisNoToken(t);
  }

  const LinearNotation: string := "O(n)"
  const DefaultTimeComplexity: string :=
    LinearNotation + " - Linear time complexity because we only iterate through the array once. Each element is processed exactly one time, and the hashmap lookups are O(1) operations."
  const DefaultSpaceComplexity: string :=
    LinearNotation + " - Linear space complexity because we store elements in the hashmap. In the worst case, we might need to store all elements before finding the solution pair."

  /** A complexity field: the normalised capture when the pattern captured a
      non-empty sentence, the fixed default sentence otherwise. */
  function Complexity(capture: Option<string>, default: string): (r: string)
    requires HasBigO(default)
    ensures HasBigO(r)
    ensures capture.None? || capture.value == "" ==> r == default
  {
    if capture.Some? && capture.value != "" then NormalizeComplexity(capture.value) else default
  }

  /** Both default sentences carry a token. */
  lemma DefaultsHaveTokens()
    ensures HasBigO(DefaultTimeComplexity) && HasBigO(DefaultSpaceComplexity)
  {
    assert DefaultTimeComplexity[..4] == LinearNotation;
    TokenPrefixWitness(DefaultTimeComplexity, LinearNotation);
    assert DefaultSpaceComplexity[..4] == LinearNotation;
    TokenPrefixWitness(DefaultSpaceComplexity, LinearNotation);
  }

  // ---------------------------------------------------------------------------
  // Thoughts and the solution result
  // ---------------------------------------------------------------------------

  /** The `\d` class. */
  predicate IsDigit(c: char) {
    '0' <= c <= '9'
  }

  /** The `[ ]` class of the debug bullet pattern. */
  predicate IsBlank(c: char) {
    c == ' '
  }

  /** Where a list marker `(?:[-*•]|\d+\.)` that starts at `a` ends, if one does. */
  function MarkerEnd(line: string, a: nat): (r: Option<nat>)
    requires a <= |line|
    ensures r.Some? ==> a < r.value <= |line|
  {
    if a < |line| && (line[a] == '-' || line[a] == '*' || line[a] == '\U{2022}') then Some(a + 1)
    else
      var d := SkipWhile(line, a, IsDigit);
      if a < d < |line| && line[d] == '.' then Some(d + 1) else None
  }

  /** `point.replace(...)` with the anchored pattern `^\s*(?:[-*•]|\d+\.)\s*`:
      white space, a list marker and the white space after it are dropped
      from the front. */
  function StripBulletMarker(line: string): (r: string)
    ensures |r| <= |line| && r == line[|line| - |r|..]
    ensures MarkerEnd(line, SkipWhile(line, 0, IsSpace)).None? ==> r == line
    ensures r != line ==> r == [] || !IsSpace(r[0])
  {
    var a := SkipWhile(line, 0, IsSpace);
    match MarkerEnd(line, a)
    case None => line
    case Some(b) => line[SkipWhile(line, b, IsSpace)..]
  }

  /** `xs.filter(Boolean)` on strings: the non-empty ones, in order. */
  function NonEmpty(xs: seq<string>): (r: seq<string>)
    ensures |r| <= |xs|
    ensures forall x :: x in r <==> x in xs && x != ""
    decreases |xs|
  {
    if xs == [] then []
    else if xs[0] == "" then NonEmpty(xs[1..])
    else [xs[0]] + NonEmpty(xs[1..])
  }

  /** `bulletPoints.map(p => p.replace(marker, "").trim()).filter(Boolean)`. */
  function BulletThoughts(bullets: seq<string>): (r: seq<string>)
    ensures forall x :: x in r ==> x != "" && IsTrimmed(x)
  {
    NonEmpty(seq(|bullets|, k requires 0 <= k < |bullets| => Trim(StripBulletMarker(bullets[k]))))
  }

  /** `section.split("\n").map(l => l.trim()).filter(Boolean)`. */
  function LineThoughts(section: string): (r: seq<string>)
    ensures forall x :: x in r ==> x != "" && IsTrimmed(x) && '\n' !in x
  {
    var lines := SplitLines(section);
    var trimmed := seq(|lines|, k requires 0 <= k < |lines| => Trim(lines[k]));
    forall k | 0 <= k < |lines| ensures '\n' !in trimmed[k] {
      var off := TrimIsSlice(lines[k]);
      assert trimmed[k] == lines[k][off..off + |trimmed[k]|];
    }
    NonEmpty(trimmed)
  }

  /** The regular-expression captures that the model takes as given: the text
      after a "Thoughts:"-style heading up to "Time complexity:", the bullet
      lines found in it (`/(?:^|\n)\s*(?:[-*•]|\d+\.)\s*(.*)/g`, an empty
      sequence for no match), the time and space sentences caught by the
      look-ahead patterns, and the bullet lines of a debug response
      (`/(?:^|\n)[ ]*(?:[-*•]|\d+\.)[ ]+([^\n]+)/g`). */
  datatype Extractors = Extractors(
    thoughtsSection: string -> Option<string>,
    bulletLines: string -> seq<string>,
    timeCapture: string -> Option<string>,
    spaceCapture: string -> Option<string>,
    debugBulletLines: string -> seq<string>)

  /** The thoughts found in a response, before the default is applied: the
      cleaned bullets of the section, or else its non-blank lines. */
  function ExtractedThoughts(response: string, ex: Extractors): (r: seq<string>)
    ensures forall x :: x in r ==> x != "" && IsTrimmed(x)
    ensures ex.thoughtsSection(response).None? ==> r == []
  {
    match ex.thoughtsSection(response)
    case None => []
    case Some(section) =>
      if section == "" then []
      else
        var bullets := ex.bulletLines(section);
        if |bullets| > 0 then BulletThoughts(bullets) else LineThoughts(section)
  }

  const DefaultThought: string := "Solution approach based on efficiency and readability."

  /** The `thoughts` field: what was extracted, or the single default. */
  function SolutionThoughts(response: string, ex: Extractors): (r: seq<string>)
    ensures |r| >= 1 && forall x :: x in r ==> x != ""
    ensures |ExtractedThoughts(response, ex)| == 0 ==> r == [DefaultThought]
    ensures |ExtractedThoughts(response, ex)| > 0 ==> r == ExtractedThoughts(response, ex)
  {
    var extracted := ExtractedThoughts(response, ex);
    if |extracted| > 0 then extracted else [DefaultThought]
  }

  /** The object `generateSolutionsHelper` returns as `data`. */
  datatype Solution = Solution(
    code: string,
    thoughts: seq<string>,
    timeComplexity: string,
    spaceComplexity: string)

  /** The formatted solution for a response text. */
  function BuildSolution(response: string, ex: Extractors): (r: Solution)
    ensures r.code == SolutionCode(response)
    ensures |r.thoughts| >= 1 && forall x :: x in r.thoughts ==> x != ""
    ensures HasBigO(r.timeComplexity) && HasBigO(r.spaceComplexity)
    ensures var t := ex.timeCapture(response);
            t.None? || t.value == "" ==> r.timeComplexity == DefaultTimeComplexity
    ensures var t := ex.spaceCapture(response);
            t.None? || t.value == "" ==> r.spaceComplexity == DefaultSpaceComplexity
  {
    DefaultsHaveTokens();
    Solution(
      SolutionCode(response),
      SolutionThoughts(response, ex),
      Complexity(ex.timeCapture(response), DefaultTimeComplexity),
      Complexity(ex.spaceCapture(response), DefaultSpaceComplexity))
  }

  // ---------------------------------------------------------------------------
  // The debug result
  // ---------------------------------------------------------------------------

  const DefaultDebugCode: string := "// Debug mode - see analysis below"
  const DefaultDebugThought: string := "Debug analysis based on your screenshots"
  const DebugComplexity: string := "N/A - Debug mode"
  const MaxDebugThoughts: nat := 5

  /** `debugContent.match(/```(?:[a-zA-Z]+)?([\s\S]*?)```/)`: a non-empty
      capture, trimmed, is the code; otherwise the placeholder. */
  function DebugCode(content: string): (code: string)
    ensures match FencedBody(content, IsLetter, false)
            case Some(body) => body != "" ==> code == Trim(body) && NoFence(code)
            case None => code == DefaultDebugCode
    ensures FencedBody(content, IsLetter, false) == Some("") ==> code == DefaultDebugCode
  {
    match FencedBody(content, IsLetter, false)
    case Some(body) =>
      if body != "" then
        TrimKeepsNoFence(body);
        Trim(body)
      else DefaultDebugCode
    case None => DefaultDebugCode
  }

  /** ASCII lower-casing of a whole string. */
  function LowerAll(s: string): (r: string)
    ensures |r| == |s| && forall k :: 0 <= k < |s| ==> r[k] == LowerAscii(s[k])
  {
    seq(|s|, k requires 0 <= k < |s| => LowerAscii(s[k]))
  }

  /** A lower-case ASCII pattern matches at `i` under the `/i` flag. */
  predicate MatchesAtCI(s: string, i: nat, pattern: string) {
    i + |pattern| <= |s| && LowerAll(s[i..i + |pattern|]) == pattern
  }

  /** The alternative of `a|b|…` that the regular expression takes at `i`:
      the first one listed that matches there. */
  function AlternativeAt(s: string, i: nat, alternatives: seq<string>): (r: Option<string>)
    ensures r.Some? ==> r.value in alternatives && MatchesAtCI(s, i, r.value)
    ensures r.None? <==> forall a :: a in alternatives ==> !MatchesAtCI(s, i, a)
  {
    if alternatives == [] then None
    else if MatchesAtCI(s, i, alternatives[0]) then Some(alternatives[0])
    else AlternativeAt(s, i, alternatives[1..])
  }

  /** `s.replace(/a|b|…/i, rep)` from position `from` on: the leftmost match
      is replaced, and nothing else. */
  function ReplaceFirstCI(s: string, alternatives: seq<string>, rep: string, from: nat): (r: string)
    ensures (forall j, a :: from <= j <= |s| && a in alternatives ==> !MatchesAtCI(s, j, a)) ==> r == s
    decreases |s| - from
  {
    if from > |s| then s
    else
      match AlternativeAt(s, from, alternatives)
      case Some(a) => s[..from] + rep + s[from + |a|..]
      case None => ReplaceFirstCI(s, alternatives, rep, from + 1)
  }

  /** The leftmost match from `from` on is the one replaced: when the first
      position with a matching alternative is `j`, the text becomes the part
      before `j`, the replacement, and the part after that alternative. */
  lemma {:induction false} ReplaceFirstCIReplacesLeftmost(s: string, alternatives: seq<string>, rep: string,
                                                         from: nat, j: nat)
    requires from <= j <= |s| && AlternativeAt(s, j, alternatives).Some?
    requires forall k :: from <= k < j ==> AlternativeAt(s, k, alternatives).None?
    ensures ReplaceFirstCI(s, alternatives, rep, from)
            == s[..j] + rep + s[j + |AlternativeAt(s, j, alternatives).value|..]
    decreases j - from
  {
    if from < j {
      ReplaceFirstCIReplacesLeftmost(s, alternatives, rep, from + 1, j);
    }
  }

  /** The alternatives of the four topic patterns, in the order listed. */
  const IssueTopics: seq<string> := ["issues identified", "problems found", "bugs found"]
  const ImprovementTopics: seq<string> := ["code improvements", "improvements", "suggested changes"]
  const OptimizationTopics: seq<string> := ["optimizations", "performance improvements"]
  const ExplanationTopics: seq<string> := ["explanation", "detailed analysis"]
  const AllTopics: seq<string> := IssueTopics + ImprovementTopics + OptimizationTopics + ExplanationTopics

  /** The first match of the first topic in unstructured content becomes the
      "Issues Identified" heading before the later topics are looked for. */
  lemma {:induction false} FirstIssueBecomesHeading(content: string, j: nat)
    requires j <= |content| && AlternativeAt(content, j, IssueTopics).Some?
    requires forall k :: 0 <= k < j ==> AlternativeAt(content, k, IssueTopics).None?
    ensures var a := AlternativeAt(content, j, IssueTopics).value;
            ReplaceFirstCI(content, IssueTopics, "## Issues Identified", 0)
            == content[..j] + "## Issues Identified" + content[j + |a|..]
  {
    ReplaceFirstCIReplacesLeftmost(content, IssueTopics, "## Issues Identified", 0, j);
  }

  /** The test for "## " adds nothing to the test for "# ": every "## " holds a "# ". */
  lemma {:induction false} LevelTwoHeadingHoldsLevelOne(s: string)
    ensures Contains(s, "## ") ==> Contains(s, "# ")
  {
    if Contains(s, "## ") {
      var i := IndexOf(s, "## ", 0).value;
      assert s[i..i + 3] == "## ";
      assert s[i + 1..i + 3] == s[i..i + 3][1..];
      ContainsAt(s, "# ", i + 1);
    }
  }

  /** The headings put into an unstructured debug response: when it contains
      no "# " (nor "## "), the first mention of each topic, in case-insensitive
      match, becomes a level-2 heading. */
  function FormatDebugContent(content: string): (r: string)
    ensures Contains(content, "# ") ==> r == content
    ensures (forall j, a :: 0 <= j <= |content| && a in AllTopics ==> !MatchesAtCI(content, j, a)) ==> r == content
  {
    if !Contains(content, "# ") && !Contains(content, "## ") then
      var a := ReplaceFirstCI(content, IssueTopics, "## Issues Identified", 0);
      var b := ReplaceFirstCI(a, ImprovementTopics, "## Code Improvements", 0);
      var c := ReplaceFirstCI(b, OptimizationTopics, "## Optimizations", 0);
      ReplaceFirstCI(c, ExplanationTopics, "## Explanation", 0)
    else
      content
  }

  /** `point.replace(/^[ ]*(?:[-*•]|\d+\.)[ ]+/, "")` as the source writes it:
      spaces, a marker and at least one space are dropped from the front. */
  function StripDebugBulletMarker(line: string): (r: string)
    ensures |r| <= |line| && r == line[|line| - |r|..]
    ensures line != [] && line[0] == '\n' ==> r == line
  {
    var a := SkipWhile(line, 0, IsBlank);
    match MarkerEnd(line, a)
    case None => line
    case Some(b) =>
      var c := SkipWhile(line, b, IsBlank);
      if c > b then line[c..] else line
  }

  /** Every bullet that a global match finds after a line feed starts with that
      line feed, which the anchored pattern does not skip: such a bullet keeps
      its marker. */
  lemma {:induction false} DebugMarkerKeptAfterLineFeed(x: string)
    requires x != [] && IsTrimmed(x)
    ensures Trim(StripDebugBulletMarker("\n- " + x)) == "- " + x
  {
    var item := "- " + x;
    var line := "\n" + item;
    assert "\n- " + x == line;
    assert line[0] == '\n';
    assert StripDebugBulletMarker(line) == line;
    TrimSkipsLeadingSpace("\n", item);
    FrontMarkerTrimmed(x);
  }

  /** A marker in front of a trimmed text leaves it trimmed. */
  lemma {:induction false} FrontMarkerTrimmed(x: string)
    requires x != [] && IsTrimmed(x)
    ensures Trim("- " + x) == "- " + x
  {
    var item := "- " + x;
    assert item[0] == '-' && item[|item| - 1] == x[|x| - 1];
    TrimmedIsFixpoint(item);
  }

  /** The debug bullet clean-up as evidently intended: a line feed left by the
      global match is dropped first, then the marker. */
  function StripDebugBulletLine(line: string): (r: string)
    ensures |r| <= |line| && r == line[|line| - |r|..]
  {
    if line != [] && line[0] == '\n' then StripDebugBulletMarker(line[1..])
    else StripDebugBulletMarker(line)
  }

  /** With the corrected clean-up, a bullet found after a line feed loses its
      marker and the spaces after it. */
  lemma {:induction false} DebugBulletLineDropsMarker(x: string)
    requires x == [] || x[0] != ' '
    ensures StripDebugBulletLine("\n- " + x) == x
  {
    var line := "\n- " + x;
    var l := line[1..];
    assert l == "- " + x;
    assert SkipWhile(l, 0, IsBlank) == 0;
    assert MarkerEnd(l, 0) == Some(1);
    assert SkipWhile(l, 1, IsBlank) == 2 by {
      assert l[1] == ' ';
      assert 2 == |l| || l[2] == x[0];
    }
    assert l[2..] == x;
  }

  /** The number of debug thoughts taken from `n` bullets. */
  function ThoughtCount(n: nat): nat {
    if n < MaxDebugThoughts then n else MaxDebugThoughts
  }

  /** The `thoughts` of a debug result as the source computes them: the first
      five bullets, each cleaned by the marker strip as written and trimmed,
      or the single default when there are none. */
  function DebugThoughts(formatted: string, ex: Extractors): (r: seq<string>)
    ensures 1 <= |r| <= MaxDebugThoughts
    ensures |ex.debugBulletLines(formatted)| == 0 ==> r == [DefaultDebugThought]
    ensures var bullets := ex.debugBulletLines(formatted);
            |bullets| > 0 ==>
              && |r| == ThoughtCount(|bullets|)
              && forall k :: 0 <= k < |r| ==> r[k] == Trim(StripDebugBulletMarker(bullets[k])) && IsTrimmed(r[k])
  {
    var bullets := ex.debugBulletLines(formatted);
    if |bullets| == 0 then [DefaultDebugThought]
    else
      seq(ThoughtCount(|bullets|), k requires 0 <= k < ThoughtCount(|bullets|) => Trim(StripDebugBulletMarker(bullets[k])))
  }

  /** The `thoughts` as evidently intended: the same, with the line feed a
      global match leaves in front of a bullet dropped before the marker. */
  function DebugThoughtsIntended(formatted: string, ex: Extractors): (r: seq<string>)
    ensures 1 <= |r| <= MaxDebugThoughts
    ensures |ex.debugBulletLines(formatted)| == 0 ==> r == [DefaultDebugThought]
    ensures var bullets := ex.debugBulletLines(formatted);
            |bullets| > 0 ==>
              && |r| == ThoughtCount(|bullets|)
              && forall k :: 0 <= k < |r| ==> r[k] == Trim(StripDebugBulletLine(bullets[k])) && IsTrimmed(r[k])
  {
    var bullets := ex.debugBulletLines(formatted);
    if |bullets| == 0 then [DefaultDebugThought]
    else
      seq(ThoughtCount(|bullets|), k requires 0 <= k < ThoughtCount(|bullets|) => Trim(StripDebugBulletLine(bullets[k])))
  }

  /** When no bullet starts with a line feed (a single bullet at the start of
      the text, say), the two clean-ups give the same thoughts. */
  lemma {:induction false} DebugThoughtsAgreeWithoutLineFeeds(formatted: string, ex: Extractors)
    requires forall k :: 0 <= k < |ex.debugBulletLines(formatted)| ==>
               ex.debugBulletLines(formatted)[k] == [] || ex.debugBulletLines(formatted)[k][0] != '\n'
    ensures DebugThoughts(formatted, ex) == DebugThoughtsIntended(formatted, ex)
  {
    var t := DebugThoughts(formatted, ex);
    var u := DebugThoughtsIntended(formatted, ex);
    assert |t| == |u|;
    forall k | 0 <= k < |t| ensures t[k] == u[k] {
    }
  }

  /** A single bullet gives a single thought. */
  lemma {:induction false} SingleBulletThought(formatted: string, ex: Extractors)
    requires |ex.debugBulletLines(formatted)| == 1
    ensures var b := ex.debugBulletLines(formatted)[0];
            && DebugThoughts(formatted, ex) == [Trim(StripDebugBulletMarker(b))]
            && DebugThoughtsIntended(formatted, ex) == [Trim(StripDebugBulletLine(b))]
  {
    var b := ex.debugBulletLines(formatted)[0];
    var t := DebugThoughts(formatted, ex);
    var u := DebugThoughtsIntended(formatted, ex);
    assert ThoughtCount(1) == 1;
    assert |t| == 1 && t[0] == Trim(StripDebugBulletMarker(b));
    assert |u| == 1 && u[0] == Trim(StripDebugBulletLine(b));
  }

  /** A bullet found after a line feed keeps its marker in the thoughts as
      written. */
  lemma {:induction false} DebugThoughtsKeepLaterMarker(formatted: string, ex: Extractors, x: string)
    requires x != [] && IsTrimmed(x)
    requires ex.debugBulletLines(formatted) == ["\n- " + x]
    ensures DebugThoughts(formatted, ex) == ["- " + x]
  {
    SingleBulletThought(formatted, ex);
    DebugMarkerKeptAfterLineFeed(x);
  }

  /** The same bullet loses its marker in the thoughts as intended. */
  lemma {:induction false} DebugThoughtsIntendedDropLaterMarker(formatted: string, ex: Extractors, x: string)
    requires x != [] && IsTrimmed(x)
    requires ex.debugBulletLines(formatted) == ["\n- " + x]
    ensures DebugThoughtsIntended(formatted, ex) == [x]
  {
    SingleBulletThought(formatted, ex);
    DebugBulletLineDropsMarker(x);
    TrimmedIsFixpoint(x);
  }

  /** The object `processExtraScreenshotsHelper` returns as `data`. */
  datatype DebugResult = DebugResult(
    code: string,
    debugAnalysis: string,
    thoughts: seq<string>,
    timeComplexity: string,
    spaceComplexity: string)

  /** The formatted debug result for a response text. */
  function BuildDebugResult(content: string, ex: Extractors): (r: DebugResult)
    ensures r.code == DebugCode(content)
    ensures Contains(content, "# ") ==> r.debugAnalysis == content
    ensures 1 <= |r.thoughts| <= MaxDebugThoughts
    ensures |ex.debugBulletLines(r.debugAnalysis)| == 0 ==> r.thoughts == [DefaultDebugThought]
    ensures r.debugAnalysis == FormatDebugContent(content) && r.thoughts == DebugThoughts(r.debugAnalysis, ex)
    ensures r.timeComplexity == DebugComplexity && r.spaceComplexity == DebugComplexity
  {
    var formatted := FormatDebugContent(content);
    DebugResult(DebugCode(content), formatted, DebugThoughts(formatted, ex), DebugComplexity, DebugComplexity)
  }
}
