/**
 * Client codes and company codes.
 *
 * A client code is a prefix ("KB" by default) and a number that is unique
 * within a company.  This module holds the numbering rule used when a client
 * is created without a number, the reading of a code cell during the bulk
 * client import, and the format a company code must have.
 */
module ClientCodes {
  import opened Common
  import opened Text
  import opened Rows

  const DefaultPrefix: string := "KB"
  const FirstCode: int := 1001

  /** A set other than the empty one has an element. */
  lemma HasElement(s: set<int>)
    requires s != {}
    ensures exists y :: y in s
  {
    if forall y :: y !in s {
      assert false;
    }
  }

  /** `m` is at least every element of `s`. */
  predicate Bounds(s: set<int>, m: int)
  {
    forall y :: y in s ==> y <= m
  }

  /** Every non-empty finite set of numbers has a largest element. */
  lemma {:induction false} MaxExists(s: set<int>)
    requires s != {}
    ensures exists m :: m in s && Bounds(s, m)
  {
    HasElement(s);
    var x :| x in s;
    if s == {x} {
      assert Bounds(s, x);
    } else {
      var rest := s - {x};
      MaxExists(rest);
      var r :| r in rest && Bounds(rest, r);
      var m := if x < r then r else x;
      assert Bounds(s, m) by {
        forall y | y in s
          ensures y <= m
        {
          if y != x {
            assert y in rest;
          }
        }
      }
      assert m in s;
    }
  }

  /** The largest element of a non-empty finite set of numbers. */
  function MaxOf(s: set<int>): (m: int)
    requires s != {}
    ensures m in s
    ensures forall x :: x in s ==> x <= m
  {
    MaxExists(s);
    var m :| m in s && Bounds(s, m);
    m
  }

  /**
   * The number given to a new client created without one: one more than the
   * company's largest number, or 1001 when there is none.  The database
   * answers "no maximum" for a company without numbered clients, and the
   * truthiness test also sends a maximum of 0 to 1001.
   */
  function NextClientCode(codes: set<int>): (r: int)
    ensures forall c :: c in codes ==> c < r
    ensures r == FirstCode || (r - 1 in codes && r - 1 != 0)
  {
    if codes == {} then FirstCode
    else
      var m := MaxOf(codes);
      if m != 0 then m + 1 else FirstCode
  }

  /** The automatic number is never one the company already uses. */
  lemma NextClientCodeIsFree(codes: set<int>)
    ensures NextClientCode(codes) !in codes
  {
  }

  /** With no numbers, or only numbers up to 0 with 0 among them, numbering starts at 1001. */
  lemma NextClientCodeStartsAt1001(codes: set<int>)
    requires codes == {} || (0 in codes && forall c :: c in codes ==> c <= 0)
    ensures NextClientCode(codes) == FirstCode
  {
    if codes != {} {
      assert MaxOf(codes) == 0;
    }
  }

  /** Otherwise the new number follows the largest one. */
  lemma NextClientCodeFollowsMax(codes: set<int>, m: int)
    requires m in codes && m != 0
    requires forall c :: c in codes ==> c <= m
    ensures NextClientCode(codes) == m + 1
  {
  }

  /** What the import makes of the `client_code` cell of one row. */
  datatype CodeCell =
    | NoCode                            // the cell is absent or empty
    | BlankCode                         // only whitespace: a warning, no code
    | NoNumber(text: string)            // no trailing digits: a warning, no code
    | Code(prefix: string, num: nat)    // a prefix and a number to be checked for uniqueness

  /** A prefix the import can produce: "KB" or a run of upper-case Latin letters. */
  predicate IsImportPrefix(p: string)
  {
    p == DefaultPrefix || (p != [] && forall i :: 0 <= i < |p| ==> 'A' <= p[i] <= 'Z')
  }

  /**
   * The code cell of one bulk client import row (main.py:1202-1215): the
   * stripped text, its leading Latin letters upper-cased as prefix ("KB"
   * when there are none) and its trailing digits as number.
   */
  function ParseImportCode(cell: Option<string>): (r: CodeCell)
    ensures cell.None? || cell == Some([]) ==> r == NoCode
    ensures r == BlankCode <==> cell.Some? && cell.value != [] && Strip(cell.value) == []
    ensures r.NoNumber? ==> r.text != [] && !IsDigit(r.text[|r.text| - 1])
    ensures r.Code? ==> IsImportPrefix(r.prefix)
  {
    if cell.None? || cell.value == [] then NoCode
    else
      var text := Strip(cell.value);
      if text == [] then BlankCode else ParseCodeText(text)
  }

  /** A non-blank stripped code: `^([a-zA-Z]+)` gives the prefix, `(\d+)$` the number. */
  function ParseCodeText(text: string): (r: CodeCell)
    requires text != []
    ensures r.NoNumber? || r.Code?
    ensures r.NoNumber? ==> r.text == text && !IsDigit(text[|text| - 1])
    ensures r.Code? ==> IsImportPrefix(r.prefix)
  {
    var digits := TrailingDigits(text);
    if digits == [] then NoNumber(text)
    else Code(ImportPrefix(LeadingLetters(text)), DecimalValue(digits))
  }

  /** The prefix given by the leading letters of a code, "KB" when there are none. */
  function ImportPrefix(letters: string): (p: string)
    requires forall i :: 0 <= i < |letters| ==> IsAsciiLetter(letters[i])
    ensures IsImportPrefix(p)
    ensures letters != [] ==> |p| == |letters|
  {
    if letters == [] then DefaultPrefix
    else
      UpperLetters(letters);
      Upper(letters)
  }

  lemma UpperLetters(letters: string)
    requires forall i :: 0 <= i < |letters| ==> IsAsciiLetter(letters[i])
    ensures forall i :: 0 <= i < |letters| ==> 'A' <= Upper(letters)[i] <= 'Z'
  {
    forall i | 0 <= i < |letters|
      ensures 'A' <= Upper(letters)[i] <= 'Z'
    {
      var c := letters[i];
      assert IsAsciiLetter(c);
      assert Upper(letters)[i] == UpperChar(c);
    }
  }

  lemma LeadingLettersBeforeDigits(letters: string, digits: string)
    requires forall i :: 0 <= i < |letters| ==> IsAsciiLetter(letters[i])
    requires digits != [] && AllDigits(digits)
    ensures LeadingLetters(letters + digits) == letters
  {
    var s := letters + digits;
    assert s[|letters|] == digits[0];
    assert forall i :: 0 <= i < |letters| ==> s[i] == letters[i];
  }

  lemma {:induction false} TrailingDigitsAfterLetters(letters: string, digits: string)
    requires letters != [] && IsAsciiLetter(letters[|letters| - 1])
    requires AllDigits(digits)
    ensures TrailingDigits(letters + digits) == digits
    decreases |digits|
  {
    var s := letters + digits;
    if digits == [] {
      assert s == letters;
    } else {
      var init := digits[..|digits| - 1];
      assert s[..|s| - 1] == letters + init;
      assert s[|s| - 1] == digits[|digits| - 1];
      TrailingDigitsAfterLetters(letters, init);
      assert init + [digits[|digits| - 1]] == digits;
    }
  }

  /** A stripped code of letters followed by digits: the letters are the prefix, the digits the number. */
  lemma {:induction false} CodeTextLettersDigits(letters: string, digits: string)
    requires letters != [] && forall i :: 0 <= i < |letters| ==> IsAsciiLetter(letters[i])
    requires digits != [] && AllDigits(digits)
    ensures ParseCodeText(letters + digits) == Code(Upper(letters), DecimalValue(digits))
  {
    LeadingLettersBeforeDigits(letters, digits);
    TrailingDigitsAfterLetters(letters, digits);
  }

  lemma StripLettersDigits(letters: string, digits: string)
    requires letters != [] && IsAsciiLetter(letters[0])
    requires digits != [] && IsDigit(digits[|digits| - 1])
    ensures Strip(letters + digits) == letters + digits
  {
    var s := letters + digits;
    assert !IsSpace(s[0]) && !IsSpace(s[|s| - 1]) by {
      assert s[0] == letters[0] && s[|s| - 1] == digits[|digits| - 1];
    }
    StripTrimmed(s);
  }

  lemma StripTrimmed(s: string)
    requires s != [] && !IsSpace(s[0]) && !IsSpace(s[|s| - 1])
    ensures Strip(s) == s
  {
  }

  /** A code made only of digits gets the default prefix. */
  lemma ParseDigitsOnly(digits: string)
    requires digits != [] && AllDigits(digits)
    ensures ParseImportCode(Some(digits)) == Code(DefaultPrefix, DecimalValue(digits))
  {
    assert LeadingLetters(digits) == [];
    assert TrailingDigits(digits) == digits;
  }

  /** The pieces the import finds in "ab-12". */
  lemma ExampleCodeParts()
    ensures Strip("ab-12") == "ab-12"
    ensures LeadingLetters("ab-12") == "ab"
    ensures TrailingDigits("ab-12") == "12"
  {
    var s := "ab-12";
    StripTrimmed(s);
    assert s[1..] == "b-12" && s[1..][1..] == "-12";
    assert s[..4] == "ab-1" && s[..4][..3] == "ab-";
  }

  /** The values the import makes of those pieces. */
  lemma ExampleCodeValues()
    ensures DecimalValue("12") == 12
    ensures Upper("ab") == "AB"
  {
    assert "12"[..1] == "1";
    assert "ab"[1..] == "b";
  }

  /** The example of the import format: "ab-12" is prefix "AB", number 12. */
  lemma ParseExample()
    ensures ParseImportCode(Some("ab-12")) == Code("AB", 12)
  {
    ExampleCodeParts();
    ExampleCodeValues();
  }

  /** The values of the pieces of "KB123". */
  lemma ExampleKb123Values()
    ensures Upper("KB") == "KB" && DecimalValue("123") == 123
  {
    assert "KB"[1..] == "B";
    assert "123"[..2] == "12" && "12"[..1] == "1";
  }

  /** "KB123" is prefix "KB", number 123. */
  lemma ExampleKb123()
    ensures ParseCodeText("KB123") == Code("KB", 123)
  {
    assert "KB123" == "KB" + "123";
    CodeTextLettersDigits("KB", "123");
    ExampleKb123Values();
  }

  /**
   * A cell exported with a trailing no-break space, "KB123\u00a0", is
   * stripped first and so still reads as prefix "KB", number 123.
   */
  lemma NoBreakSpaceCodeCell()
    ensures ParseImportCode(Some("KB123" + ['\U{A0}'])) == Code("KB", 123)
  {
    StripTrailingSpace("KB123", '\U{A0}');
    ExampleKb123();
  }

  predicate IsCompanyCodeChar(c: char)
  {
    'A' <= c <= 'Z' || '0' <= c <= '9' || c == '_'
  }

  /** `[A-Z0-9_]{3,15}` spanning the whole text. */
  predicate CompanyCodeValid(code: string)
  {
    3 <= |code| <= 15 && forall i :: 0 <= i < |code| ==> IsCompanyCodeChar(code[i])
  }

  /**
   * The test as written, `re.match(r'^[A-Z0-9_]{3,15}$', code)`: Python's `$`
   * also matches just before a newline that ends the text.
   */
  predicate CompanyCodeAcceptedAsWritten(code: string)
  {
    CompanyCodeValid(code)
    || (code != [] && code[|code| - 1] == '\n' && CompanyCodeValid(code[..|code| - 1]))
  }

  /** The written test accepts every valid code, and each valid code with a newline appended. */
  lemma AsWrittenAcceptsNewline(code: string)
    requires CompanyCodeValid(code)
    ensures CompanyCodeAcceptedAsWritten(code)
    ensures CompanyCodeAcceptedAsWritten(code + "\n") && !CompanyCodeValid(code + "\n")
  {
    assert (code + "\n")[..|code|] == code;
    assert !IsCompanyCodeChar((code + "\n")[|code|]);
  }

  /** The checks `create_company` makes before creating anything, in order. */
  function CompanyCreationRefusal(code: string, name: string, names: set<string>, codes: set<string>): (r: Option<Refusal>)
    ensures r.None? <==> CompanyCodeValid(code) && name !in names && code !in codes
    ensures r.Some? ==> r.value == BadRequest
  {
    if !CompanyCodeValid(code) then Some(BadRequest)
    else if name in names then Some(BadRequest)
    else if code in codes then Some(BadRequest)
    else None
  }

  /**
   * The same checks with the format test as written.  A code reaches this
   * test only when the request model's own `pattern` on `company_code`
   * (main.py:128) is not enforced, as under Pydantic v1, which ignores that
   * keyword; under Pydantic v2 the request is refused with 422 first.
   */
  function CompanyCreationRefusalAsWritten(code: string, name: string, names: set<string>, codes: set<string>): (r: Option<Refusal>)
    ensures r.None? <==> CompanyCodeAcceptedAsWritten(code) && name !in names && code !in codes
  {
    if !CompanyCodeAcceptedAsWritten(code) then Some(BadRequest)
    else if name in names then Some(BadRequest)
    else if code in codes then Some(BadRequest)
    else None
  }

  /** "ABC\n" gets through the written check (when it is reached, see above) but not the intended one. */
  lemma TrailingNewlineCompanyCode()
    ensures CompanyCreationRefusalAsWritten("ABC\n", "Cargo", {}, {}) == None
    ensures CompanyCreationRefusal("ABC\n", "Cargo", {}, {}) == Some(BadRequest)
  {
    AsWrittenAcceptsNewline("ABC");
    assert "ABC" + "\n" == "ABC\n";
  }
}
