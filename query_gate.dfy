/**
 * The safety gate of the `db` tool: a candidate query is trimmed, must begin
 * with SELECT in any ASCII letter case, and must not contain a semicolon,
 * two hyphens, or a slash followed by an asterisk. The checks run in that
 * order and the first that fails decides the rejection.
 */
module QueryGate {
  import opened JsString

  /** Why the gate refused a query; each reason carries the text of the Error the handler throws. */
  datatype Rejection = NonSelect | UnsafeSequence {
    function Message(): string {
      match this
      case NonSelect => "Only SELECT queries are allowed for this tool."
      case UnsafeSequence =>
        "Query contains potentially unsafe characters (like ';' or comments) and has been blocked."
    }
  }

  datatype Verdict = Accepted(sanitized: string) | Rejected(reason: Rejection)

  const Keyword: string := "SELECT"

  /** Reference definition of the first check: each of the first six code
      points of `q` is the capital or the small form of the matching letter
      of SELECT. */
  predicate BeginsWithSelect(q: string) {
    |q| >= 6 && forall i :: 0 <= i < 6 ==> q[i] == "SELECT"[i] || q[i] == "select"[i]
  }

  /** Reference definition of the second check: some index holds a
      semicolon, or starts two hyphens, or starts a slash and an asterisk. */
  predicate HasForbiddenSequence(q: string) {
    exists i :: 0 <= i < |q| && ForbiddenAt(q, i)
  }

  predicate ForbiddenAt(q: string, i: int)
    requires 0 <= i < |q|
  {
    || q[i] == ';'
    || (i + 1 < |q| && q[i] == '-' && q[i + 1] == '-')
    || (i + 1 < |q| && q[i] == '/' && q[i + 1] == '*')
  }

  /** The first check as the handler writes it: upper-case, then startsWith. */
  predicate PassesSelectCheck(q: string) {
    StartsWith(ToUpper(q), Keyword)
  }

  /** The second check as the handler writes it: three includes tests. */
  predicate FailsSequenceCheck(q: string) {
    Includes(q, ";") || Includes(q, "--") || Includes(q, "/*")
  }

  /** Upper-casing then testing the SELECT prefix is a case-insensitive test
      of the first six code points. */
  lemma SelectCheckIff(q: string)
    ensures PassesSelectCheck(q) <==> BeginsWithSelect(q)
  {
    var u := ToUpper(q);
    if |q| >= 6 {
      forall i | 0 <= i < 6
        ensures u[i] == Keyword[i] <==> q[i] == "SELECT"[i] || q[i] == "select"[i]
      {
        assert u[i] == UpperAscii(q[i]);
      }
      assert u[..6] == Keyword <==> forall i :: 0 <= i < 6 ==> u[i] == Keyword[i];
    }
  }

  lemma OccursAtSingle(q: string, c: char, i: int)
    requires 0 <= i < |q|
    ensures OccursAt(q, [c], i) <==> q[i] == c
  {
    if q[i] == c {
      assert q[i..i + 1] == [c];
    }
  }

  lemma OccursAtPair(q: string, c: char, d: char, i: int)
    requires 0 <= i
    ensures OccursAt(q, [c, d], i) <==> i + 1 < |q| && q[i] == c && q[i + 1] == d
  {
    if i + 1 < |q| && q[i] == c && q[i + 1] == d {
      assert q[i..i + 2] == [c, d];
    }
  }

  /** The three `includes` tests hold together exactly when some index holds
      a forbidden sequence. */
  lemma SequenceCheckIff(q: string)
    ensures FailsSequenceCheck(q) <==> HasForbiddenSequence(q)
  {
    IncludesIff(q, ";");
    IncludesIff(q, "--");
    IncludesIff(q, "/*");
    forall i | 0 <= i < |q|
      ensures ForbiddenAt(q, i) <==> OccursAt(q, ";", i) || OccursAt(q, "--", i) || OccursAt(q, "/*", i)
    {
      OccursAtSingle(q, ';', i);
      OccursAtPair(q, '-', '-', i);
      OccursAtPair(q, '/', '*', i);
    }
    forall i | OccursAt(q, ";", i) || OccursAt(q, "--", i) || OccursAt(q, "/*", i)
      ensures 0 <= i < |q|
    {
    }
  }

  /** The `db` handler's gate: trim, then the SELECT check, then the
      forbidden-sequence check; only a query passing both is handed on, and
      it is handed on trimmed. */
  function Validate(raw: string): (v: Verdict)
    ensures v.Accepted? ==> v.sanitized == Trim(raw)
  {
    var q := Trim(raw);
    if !PassesSelectCheck(q) then Rejected(NonSelect)
    else if FailsSequenceCheck(q) then Rejected(UnsafeSequence)
    else Accepted(q)
  }

  /** The verdict against the reference definitions: a query is refused as
      non-SELECT exactly when its trimmed text does not begin with SELECT in
      some letter case, whatever else it contains; it is refused as unsafe
      exactly when it does begin so but holds a forbidden sequence; and it
      is accepted exactly when neither holds. */
  lemma ValidateDecides(raw: string)
    ensures Validate(raw).Accepted? <==>
              BeginsWithSelect(Trim(raw)) && !HasForbiddenSequence(Trim(raw))
    ensures Validate(raw) == Rejected(NonSelect) <==> !BeginsWithSelect(Trim(raw))
    ensures Validate(raw) == Rejected(UnsafeSequence) <==>
              BeginsWithSelect(Trim(raw)) && HasForbiddenSequence(Trim(raw))
  {
    SelectCheckIff(Trim(raw));
    SequenceCheckIff(Trim(raw));
  }

  /** Text free of forbidden sequences holds no semicolon, no two adjacent
      hyphens and no slash before an asterisk. */
  lemma NoForbiddenSequenceMeans(q: string)
    requires !HasForbiddenSequence(q)
    ensures forall i :: 0 <= i < |q| ==> q[i] != ';'
    ensures forall i :: 0 <= i < |q| - 1 ==> !(q[i] == '-' && q[i + 1] == '-')
    ensures forall i :: 0 <= i < |q| - 1 ==> !(q[i] == '/' && q[i + 1] == '*')
  {
    forall i | 0 <= i < |q|
      ensures q[i] != ';'
      ensures i < |q| - 1 ==> !(q[i] == '-' && q[i + 1] == '-') && !(q[i] == '/' && q[i + 1] == '*')
    {
      assert !ForbiddenAt(q, i);
    }
  }

  /** An accepted query is what reaches the store, so everything the gate
      promises about it is stated here on the sanitized text itself. */
  lemma AcceptedQueryShape(raw: string)
    requires Validate(raw).Accepted?
    ensures var q := Validate(raw).sanitized;
      && IsTrimmed(q) && |q| >= 6
      && (forall i :: 0 <= i < |q| ==> q[i] != ';')
      && (forall i :: 0 <= i < |q| - 1 ==> !(q[i] == '-' && q[i + 1] == '-'))
      && (forall i :: 0 <= i < |q| - 1 ==> !(q[i] == '/' && q[i + 1] == '*'))
  {
    ValidateDecides(raw);
    NoForbiddenSequenceMeans(Validate(raw).sanitized);
  }

  /** Leading and trailing whitespace never changes the verdict: the gate
      sees the same trimmed text. */
  lemma TrimDoesNotChangeVerdict(raw: string)
    ensures Validate(Trim(raw)) == Validate(raw)
  {
    TrimIdempotent(raw);
    SameTrimSameVerdict(Trim(raw), raw);
  }

  /** Padding a query with any trimmable code points on either side leaves
      the verdict, sanitized text included, unchanged. */
  lemma PaddingDoesNotChangeVerdict(a: string, raw: string, b: string)
    requires AllTrimmable(a) && AllTrimmable(b)
    ensures Validate(a + raw + b) == Validate(raw)
  {
    TrimIgnoresPadding(a, raw, b);
    SameTrimSameVerdict(a + raw + b, raw);
  }

  /** The verdict is a function of the trimmed text alone. */
  lemma SameTrimSameVerdict(x: string, y: string)
    requires Trim(x) == Trim(y)
    ensures Validate(x) == Validate(y)
  {
  }

  /** Validating an accepted query's sanitized text accepts it again,
      unchanged. */
  lemma AcceptedIsFixedPoint(raw: string)
    requires Validate(raw).Accepted?
    ensures Validate(Validate(raw).sanitized) == Validate(raw)
  {
    TrimIdempotent(raw);
  }

  /** Two texts that differ only in the ASCII case of letters. */
  predicate SameIgnoringCase(a: string, b: string) {
    |a| == |b| && forall i :: 0 <= i < |a| ==> UpperAscii(a[i]) == UpperAscii(b[i])
  }

  /** Code points that agree once upper-cased agree on everything the gate
      looks at: being trimmable, being one of the four punctuation marks the
      second check looks for, and matching a letter of SELECT in either case. */
  lemma SameUpperChar(c: char, d: char)
    requires UpperAscii(c) == UpperAscii(d)
    ensures IsTrimmable(c) <==> IsTrimmable(d)
    ensures c in ";-/*" ==> c == d
    ensures d in ";-/*" ==> c == d
  {
  }

  lemma KeywordLetter(c: char, i: int)
    requires 0 <= i < 6
    ensures c == "SELECT"[i] || c == "select"[i] <==> UpperAscii(c) == "SELECT"[i]
  {
  }

  lemma {:induction false} TrimStartSameIgnoringCase(a: string, b: string)
    requires SameIgnoringCase(a, b)
    ensures SameIgnoringCase(TrimStart(a), TrimStart(b))
  {
    if a != [] {
      SameUpperChar(a[0], b[0]);
      if IsTrimmable(a[0]) {
        assert SameIgnoringCase(a[1..], b[1..]) by {
          forall i | 0 <= i < |a| - 1
            ensures UpperAscii(a[1..][i]) == UpperAscii(b[1..][i])
          {
            assert a[1..][i] == a[i + 1] && b[1..][i] == b[i + 1];
          }
        }
        TrimStartSameIgnoringCase(a[1..], b[1..]);
      }
    }
  }

  lemma {:induction false} TrimEndSameIgnoringCase(a: string, b: string)
    requires SameIgnoringCase(a, b)
    ensures SameIgnoringCase(TrimEnd(a), TrimEnd(b))
  {
    if a != [] {
      var n := |a| - 1;
      SameUpperChar(a[n], b[n]);
      if IsTrimmable(a[n]) {
        TrimEndSameIgnoringCase(a[..n], b[..n]);
      }
    }
  }

  /** Trimming keeps two case variants case variants of each other. */
  lemma TrimSameIgnoringCase(a: string, b: string)
    requires SameIgnoringCase(a, b)
    ensures SameIgnoringCase(Trim(a), Trim(b))
  {
    TrimStartSameIgnoringCase(a, b);
    TrimEndSameIgnoringCase(TrimStart(a), TrimStart(b));
  }

  lemma SelectPrefixIgnoresCase(p: string, q: string)
    requires SameIgnoringCase(p, q)
    ensures BeginsWithSelect(p) <==> BeginsWithSelect(q)
  {
    if |p| >= 6 {
      forall i | 0 <= i < 6
        ensures (p[i] == "SELECT"[i] || p[i] == "select"[i]) <==> (q[i] == "SELECT"[i] || q[i] == "select"[i])
      {
        KeywordLetter(p[i], i);
        KeywordLetter(q[i], i);
      }
    }
  }

  lemma ForbiddenIgnoresCase(p: string, q: string)
    requires SameIgnoringCase(p, q)
    ensures HasForbiddenSequence(p) <==> HasForbiddenSequence(q)
  {
    forall i | 0 <= i < |p|
      ensures ForbiddenAt(p, i) <==> ForbiddenAt(q, i)
    {
      SameUpperChar(p[i], q[i]);
      if i + 1 < |p| {
        SameUpperChar(p[i + 1], q[i + 1]);
      }
    }
  }

  /** The decision of the gate does not depend on letter case anywhere in the
      query: case variants are accepted or rejected together, for the same
      reason, and accepted ones hand on case variants of each other. */
  lemma CaseDoesNotChangeDecision(a: string, b: string)
    requires SameIgnoringCase(a, b)
    ensures Validate(a).Accepted? <==> Validate(b).Accepted?
    ensures Validate(a).Rejected? ==> Validate(a) == Validate(b)
    ensures Validate(a).Accepted? ==>
              SameIgnoringCase(Validate(a).sanitized, Validate(b).sanitized)
  {
    ValidateDecides(a);
    ValidateDecides(b);
    TrimSameIgnoringCase(a, b);
    SelectPrefixIgnoresCase(Trim(a), Trim(b));
    ForbiddenIgnoresCase(Trim(a), Trim(b));
  }

  lemma NoForbiddenCharacters(q: string)
    requires ';' !in q && '-' !in q && '/' !in q
    ensures !HasForbiddenSequence(q)
  {
  }

  /** The facts about the plain query that its verdict rests on. */
  lemma PlainSelectShape(q: string)
    requires q == "SELECT * FROM products"
    ensures IsTrimmed(q) && BeginsWithSelect(q) && !HasForbiddenSequence(q)
  {
    NoForbiddenCharacters(q);
  }

  /** A plain SELECT passes unchanged. */
  lemma PlainSelectAccepted()
    ensures Validate("SELECT * FROM products") == Accepted("SELECT * FROM products")
  {
    var q := "SELECT * FROM products";
    PlainSelectShape(q);
    TrimOfTrimmed(q);
    ValidateDecides(q);
  }

  /** A second statement after a semicolon is refused even behind a valid
      SELECT. */
  lemma StackedStatementRejected()
    ensures Validate("SELECT * FROM products; DROP TABLE products") == Rejected(UnsafeSequence)
  {
    var q := "SELECT * FROM products; DROP TABLE products";
    StackedStatementShape(q);
    TrimOfTrimmed(q);
    ValidateDecides(q);
  }

  lemma StackedStatementShape(q: string)
    requires q == "SELECT * FROM products; DROP TABLE products"
    ensures IsTrimmed(q) && BeginsWithSelect(q) && HasForbiddenSequence(q)
  {
    assert ForbiddenAt(q, 22);
  }

  /** A statement of another kind is refused as non-SELECT. */
  lemma DeleteRejected()
    ensures Validate("DELETE FROM sales") == Rejected(NonSelect)
  {
    var q := "DELETE FROM sales";
    TrimOfTrimmed(q);
    assert !BeginsWithSelect(q);
    ValidateDecides(q);
  }

  /** A query failing both checks gets the first check's reason. */
  lemma FirstCheckDecidesFirst()
    ensures Validate("DELETE FROM x; --") == Rejected(NonSelect)
  {
    var q := "DELETE FROM x; --";
    TrimOfTrimmed(q);
    assert !BeginsWithSelect(q);
    ValidateDecides(q);
  }

  lemma PrefixShapes(q: string)
    requires q == "selected_rows" || q == "SELECT"
    ensures IsTrimmed(q) && BeginsWithSelect(q) && !HasForbiddenSequence(q)
  {
    NoForbiddenCharacters(q);
  }

  /** The first check is a prefix test, not a keyword test: the bare
      keyword is accepted. */
  lemma BareKeywordAccepted()
    ensures Validate("SELECT") == Accepted("SELECT")
  {
    PrefixShapes("SELECT");
    TrimOfTrimmed("SELECT");
    ValidateDecides("SELECT");
  }

  /** A lower-case keyword glued to the next word, padded with a tab and a
      newline, is accepted once trimmed. */
  lemma GluedKeywordAccepted()
    ensures Validate("\tselected_rows\n") == Accepted("selected_rows")
  {
    var q := "selected_rows";
    PrefixShapes(q);
    TrimOfTrimmed(q);
    ValidateDecides(q);
    assert Validate(q) == Accepted(q);
    PaddedLiteral(q);
    PaddingDoesNotChangeVerdict("\t", q, "\n");
  }

  lemma PaddedLiteral(q: string)
    requires q == "selected_rows"
    ensures AllTrimmable("\t") && AllTrimmable("\n")
    ensures "\t" + q + "\n" == "\tselected_rows\n"
  {
  }
}
