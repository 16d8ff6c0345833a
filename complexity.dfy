/** How the solutions view prints a complexity string. */
module ComplexitySection {
  import opened Common
  import opened Text
  import opened ResponseParsing

  const NotAvailable: string := "Complexity not available"

  /** `formatComplexity`: a missing or blank string is "not available"; a
      string holding an `O(...)` token (the same test the solution formatter
      uses) is shown as it is; anything else is wrapped, untrimmed, in
      `O(` and `)`. */
  function FormatComplexity(c: Option<string>): (r: string)
    ensures c.None? || Trim(c.value) == "" ==> r == NotAvailable
    ensures c.Some? && Trim(c.value) != "" && HasBigO(c.value) ==> r == c.value
    ensures c.Some? && Trim(c.value) != "" && !HasBigO(c.value) ==> r == "O(" + c.value + ")"
  {
    if c.None? || Trim(c.value) == "" then NotAvailable
    else if HasBigO(c.value) then c.value
    else "O(" + c.value + ")"
  }

  /** Wrapping a text that does not start with `)` makes a token: `O(`, the
      text up to its first `)`, and that `)` (or the closing one). */
  lemma {:induction false} WrappedHasToken(c: string)
    requires c != [] && c[0] != ')'
    ensures HasBigO("O(" + c + ")")
  {
    var r := "O(" + c + ")";
    var k: nat := match IndexOf(c, ")", 0) case Some(j) => j case None => |c|;
    assert !OccursAt(c, ")", 0) by {
      assert c[0..1] == [c[0]];
    }
    assert forall j :: 0 <= j < k ==> c[j] != ')' by {
      forall j | 0 <= j < k ensures c[j] != ')' {
        assert !OccursAt(c, ")", j);
        assert c[j..j + 1] == [c[j]];
      }
    }
    assert r[k + 2] == ')' by {
      if k < |c| {
        assert OccursAt(c, ")", k);
        assert c[k..k + 1] == ")";
        assert r[k + 2] == c[k];
      }
    }
    var t := r[0..k + 3];
    assert forall j :: 2 <= j < |t| - 1 ==> t[j] == c[j - 2];
    assert IsBigOToken(t);
    TokenWitness(r, 0, k + 3);
  }

  /** Formatting a string that is not blank and does not start with `)` gives
      a string with a token. */
  lemma {:induction false} FormattedHasToken(c: string)
    requires Trim(c) != "" && c[0] != ')'
    ensures HasBigO(FormatComplexity(Some(c)))
  {
    if !HasBigO(c) {
      WrappedHasToken(c);
    }
  }

  /** For such strings formatting twice is formatting once. */
  lemma {:induction false} FormatComplexityIdempotent(c: string)
    requires Trim(c) != "" && c[0] != ')'
    ensures FormatComplexity(Some(FormatComplexity(Some(c)))) == FormatComplexity(Some(c))
  {
    FormattedHasToken(c);
    if !HasBigO(c) {
      var r := "O(" + c + ")";
      assert !IsSpace(r[0]);
      TrimEmptyIffBlank(r);
    }
  }

  /** The "not available" text is not itself a complexity: formatting it
      again wraps it. */
  lemma NotAvailableIsWrapped()
    ensures FormatComplexity(Some(NotAvailable)) == "O(" + NotAvailable + ")"
  {
    assert !IsSpace(NotAvailable[0]);
    TrimEmptyIffBlank(NotAvailable);
    NoParenthesisNoToken(NotAvailable);
  }
}
