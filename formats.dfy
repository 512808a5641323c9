/**
 * The six field formats of the extractor's validation rules, as predicates on
 * the whole value.
 *
 * Each rule is applied with `re.match` and no flags, so `^` anchors at the
 * start, matching is case-sensitive, and `$` matches at the end of the value or
 * just before a final newline. `Shape` is the pattern between the anchors and
 * `FullMatch` adds the allowance of `$`.
 */
module Formats {
  import opened Chars

  datatype Format = Pan | Mobile | Email | Pin | Gstin | Ifsc

  /** `[A-Z]{5}\d{4}[A-Z]`: five capitals, four digits, one capital */
  predicate PanShape(s: string)
  {
    && |s| == 10
    && (forall i :: 0 <= i < 5 ==> IsUpper(s[i]))
    && (forall i :: 5 <= i < 9 ==> IsDigit(s[i]))
    && IsUpper(s[9])
  }

  /** `\d{10}` */
  predicate MobileShape(s: string)
  {
    |s| == 10 && forall i :: 0 <= i < |s| ==> IsDigit(s[i])
  }

  /** `\d{6}` */
  predicate PinShape(s: string)
  {
    |s| == 6 && forall i :: 0 <= i < |s| ==> IsDigit(s[i])
  }

  /** `[A-Z]{4}0[A-Z0-9]{6}`: four capitals, a literal zero, six capitals or digits */
  predicate IfscShape(s: string)
  {
    && |s| == 11
    && (forall i :: 0 <= i < 4 ==> IsUpper(s[i]))
    && s[4] == '0'
    && (forall i :: 5 <= i < 11 ==> IsUpperOrDigit(s[i]))
  }

  /** `[0-9]{2}[A-Z]{5}[0-9]{4}[A-Z]{1}[1-9A-Z]{1}Z[0-9A-Z]{1}`; no checksum is computed */
  predicate GstinShape(s: string)
  {
    && |s| == 15
    && (forall i :: 0 <= i < 2 ==> IsDigit(s[i]))
    && (forall i :: 2 <= i < 7 ==> IsUpper(s[i]))
    && (forall i :: 7 <= i < 11 ==> IsDigit(s[i]))
    && IsUpper(s[11])
    && (IsUpper(s[12]) || '1' <= s[12] <= '9')
    && s[13] == 'Z'
    && IsUpperOrDigit(s[14])
  }

  /** `[a-zA-Z0-9._%+-]`, the characters of the part before the '@' */
  predicate IsLocalChar(c: char)
  {
    IsAlnum(c) || c == '.' || c == '_' || c == '%' || c == '+' || c == '-'
  }

  /** `[a-zA-Z0-9.-]`, the characters of the domain */
  predicate IsDomainChar(c: char)
  {
    IsAlnum(c) || c == '.' || c == '-'
  }

  /**
   * `[a-zA-Z0-9._%+-]+@[a-zA-Z0-9.-]+\.[a-zA-Z]{2,}`: the value splits at some '@'
   * and some later '.' into a non-empty local part, a non-empty domain and a final
   * label of at least two letters. The regular expression engine backtracks over
   * the choice of '.', which the existential expresses.
   */
  predicate EmailShape(s: string)
  {
    exists at, dot | 0 < at < |s| && at < dot < |s| :: EmailSplit(s, at, dot)
  }

  /** `s[at]` is the '@' and `s[dot]` the '.' of an address of the shape `EmailShape` describes. */
  predicate EmailSplit(s: string, at: nat, dot: nat)
    requires at < dot < |s|
  {
    && 0 < at
    && s[at] == '@'
    && at + 1 < dot
    && s[dot] == '.'
    && dot + 3 <= |s|
    && (forall i :: 0 <= i < at ==> IsLocalChar(s[i]))
    && (forall i :: at < i < dot ==> IsDomainChar(s[i]))
    && (forall i :: dot < i < |s| ==> IsLetter(s[i]))
  }

  predicate Shape(f: Format, s: string)
  {
    match f
    case Pan => PanShape(s)
    case Mobile => MobileShape(s)
    case Email => EmailShape(s)
    case Pin => PinShape(s)
    case Gstin => GstinShape(s)
    case Ifsc => IfscShape(s)
  }

  predicate EndsWithNewline(s: string)
  {
    |s| > 0 && s[|s| - 1] == '\n'
  }

  /** `re.match("^" + shape + "$", s)` succeeds: `$` also matches before a final newline */
  predicate FullMatch(f: Format, s: string)
  {
    Shape(f, s) || (EndsWithNewline(s) && Shape(f, s[..|s| - 1]))
  }

  /** The only value of a different shape that a rule accepts is a well-shaped one followed by a newline. */
  lemma FullMatchWithoutNewline(f: Format, s: string)
    requires !EndsWithNewline(s)
    ensures FullMatch(f, s) <==> Shape(f, s)
  {
  }

  /**
   * Everything the fixed-width rules accept has a fixed length and fixed literal
   * characters: PAN and mobile numbers 10, PIN 6, IFSC 11 with '0' at index 4,
   * GSTIN 15 with 'Z' at index 13, in each case followed by at most a newline.
   */
  lemma AcceptedLength(f: Format, s: string)
    requires FullMatch(f, s)
    ensures f == Pan ==> |s| == 10 || (|s| == 11 && s[10] == '\n')
    ensures f == Mobile ==> |s| == 10 || (|s| == 11 && s[10] == '\n')
    ensures f == Pin ==> |s| == 6 || (|s| == 7 && s[6] == '\n')
    ensures f == Ifsc ==> (|s| == 11 || (|s| == 12 && s[11] == '\n')) && s[4] == '0'
    ensures f == Gstin ==> (|s| == 15 || (|s| == 16 && s[15] == '\n')) && s[13] == 'Z'
  {
    if !Shape(f, s) {
      var t := s[..|s| - 1];
      assert Shape(f, t);
      assert f == Ifsc ==> s[4] == t[4];
      assert f == Gstin ==> s[13] == t[13];
    }
  }

  /** Matching is case-sensitive: nothing a PAN, IFSC or GSTIN rule accepts holds a lower-case letter. */
  lemma UpperCaseOnly(f: Format, s: string)
    requires f == Pan || f == Ifsc || f == Gstin
    requires FullMatch(f, s)
    ensures forall i :: 0 <= i < |s| ==> !IsLower(s[i])
  {
    var t := if Shape(f, s) then s else s[..|s| - 1];
    assert Shape(f, t);
    forall i | 0 <= i < |s|
      ensures !IsLower(s[i])
    {
      if i < |t| {
        assert s[i] == t[i];
        if f == Pan {
          assert i < 5 || 5 <= i < 9 || i == 9;
        } else if f == Ifsc {
          assert i < 4 || i == 4 || 5 <= i < 11;
        } else {
          assert i < 2 || 2 <= i < 7 || 7 <= i < 11 || 11 <= i < 15;
        }
      }
    }
  }

  /**
   * An accepted e-mail address holds exactly one '@'.
   */
  lemma EmailHasOneAt(s: string)
    requires FullMatch(Email, s)
    ensures '@' in s
    ensures forall i, j :: 0 <= i < j < |s| && s[i] == '@' ==> s[j] != '@'
  {
    var t := if Shape(Email, s) then s else s[..|s| - 1];
    assert EmailShape(t);
    var at, dot :| 0 < at < |t| && at < dot < |t| && EmailSplit(t, at, dot);
    assert s[at] == '@';
    forall i | 0 <= i < |s| && i != at
      ensures s[i] != '@'
    {
      if i < |t| {
        assert s[i] == t[i];
        if i < at {
          assert IsLocalChar(t[i]);
        } else if i < dot {
          assert IsDomainChar(t[i]);
        } else if dot < i {
          assert IsLetter(t[i]);
        }
      }
    }
  }

  /** The examples that go with the PAN and mobile rules. */
  lemma FormatExamples()
    ensures FullMatch(Pan, "ABCDE1234F")
    ensures !FullMatch(Pan, "abcde1234f")
    ensures !FullMatch(Pan, "ABCD1234F")
    ensures FullMatch(Mobile, "8638595914")
    ensures FullMatch(Email, "a.b@example.in")
  {
    assert !IsUpper("abcde1234f"[0]);
    var e := "a.b@example.in";
    assert EmailSplit(e, 3, 11);
  }
}
