/**
 * Validation of an extracted record (`PDFDataExtractor.validation_rules`,
 * `validate_field` and `validate_data`). A rule's regular expression is the
 * format predicate `FullMatch` of module Formats, which is what `re.match` with
 * a pattern anchored by `^` and `$` accepts.
 */
module Validation {
  import opened Options
  import opened Formats
  import opened Records
  import Extraction

  /** The fields whose absence makes a record invalid, in the order of the rules */
  const MandatoryFields: seq<string> :=
    ["Name of Customer", "PAN", "Mobile Number", "State", "District", "Bank Name", "Account Number"]

  const PanMessage: string := "Invalid PAN format (should be ABCDE1234F)"
  const MobileMessage: string := "Invalid mobile number (should be 10 digits)"
  const EmailMessage: string := "Invalid email format"
  const PinMessage: string := "Invalid PIN code (should be 6 digits)"
  const GstinMessage: string := "Invalid GSTIN format"
  const IfscMessage: string := "Invalid IFSC code format"

  /** A validation rule: the format a value must have, and what to say when it has not */
  datatype Rule = Rule(format: Format, message: string)

  /**
   * The rule for a field name, if it has one. The rule table's entry
   * "mandatory_fields" is a list without a pattern, so it is no rule.
   */
  function RuleFor(name: string): Option<Rule>
  {
    if name == "PAN" then Some(Rule(Pan, PanMessage))
    else if name == "Mobile Number" then Some(Rule(Mobile, MobileMessage))
    else if name == "E-Mail ID" then Some(Rule(Email, EmailMessage))
    else if name == "PIN" then Some(Rule(Pin, PinMessage))
    else if name == "GSTIN" then Some(Rule(Gstin, GstinMessage))
    else if name == "IFSC Number" then Some(Rule(Ifsc, IfscMessage))
    else None
  }

  function MissingMessage(name: string): string
  {
    "Missing mandatory field: " + name
  }

  /**
   * `validate_field(field_name, value)`: an empty value fails exactly when the
   * field is mandatory; a non-empty value fails exactly when the field has a
   * rule whose pattern does not match the whole value. A failure carries its
   * message and a success the empty message.
   */
  function ValidateField(name: string, value: string): (r: (bool, string))
    ensures r.0 <==> r.1 == ""
    ensures value == "" ==> (r.0 <==> name !in MandatoryFields)
    ensures value != "" ==> (r.0 <==> RuleFor(name).None? || FullMatch(RuleFor(name).value.format, value))
    ensures !r.0 ==> r.1 == if value == "" then MissingMessage(name) else RuleFor(name).value.message
  {
    if value == "" then
      if name in MandatoryFields then (false, MissingMessage(name)) else (true, "")
    else
      match RuleFor(name)
      case None => (true, "")
      case Some(rule) => if FullMatch(rule.format, value) then (true, "") else (false, rule.message)
  }

  /**
   * A mandatory field passes exactly when it is present and, for PAN and the
   * mobile number, well formed; the other mandatory fields have no format.
   */
  lemma MandatoryFieldPasses(name: string, value: string)
    requires name in MandatoryFields
    ensures ValidateField(name, value).0 <==>
      value != "" && (name == "PAN" ==> FullMatch(Pan, value))
      && (name == "Mobile Number" ==> FullMatch(Mobile, value))
  {
    assert name == MandatoryFields[0] || name == MandatoryFields[1] || name == MandatoryFields[2]
      || name == MandatoryFields[3] || name == MandatoryFields[4] || name == MandatoryFields[5]
      || name == MandatoryFields[6];
  }

  /** An accepted, non-empty PAN is ten characters, optionally followed by a newline. */
  lemma AcceptedPanLength(value: string)
    requires value != "" && ValidateField("PAN", value).0
    ensures |value| == 10 || (|value| == 11 && value[10] == '\n')
    ensures forall i :: 0 <= i < |value| ==> !Chars.IsLower(value[i])
  {
    AcceptedLength(Pan, value);
    UpperCaseOnly(Pan, value);
  }

  /** What `validate_data` returns */
  datatype Summary = Summary(
    isValid: bool,
    issues: seq<string>,
    warnings: seq<string>,
    issueCount: nat,
    warningCount: nat)

  /** The message an item contributes, if any: none for "Source File" or a valid field */
  function Complaint(e: Entry): Option<string>
  {
    if e.field == Extraction.SourceFile then None
    else
      var (ok, message) := ValidateField(e.field, e.value);
      if ok then None else Some(message)
  }

  /** The issue an item raises: its message when it is a failing mandatory field */
  function IssueOf(e: Entry): seq<string>
  {
    if Complaint(e).Some? && e.field in MandatoryFields then [Complaint(e).value] else []
  }

  /** The warning an item raises: its message when it is a failing optional field */
  function WarningOf(e: Entry): seq<string>
  {
    if Complaint(e).Some? && e.field !in MandatoryFields then [Complaint(e).value] else []
  }

  /** The messages of failing mandatory fields, in record order */
  function Issues(data: Record): seq<string>
  {
    if data == [] then [] else Issues(data[..|data| - 1]) + IssueOf(data[|data| - 1])
  }

  /** The messages of failing optional fields, in record order */
  function Warnings(data: Record): seq<string>
  {
    if data == [] then [] else Warnings(data[..|data| - 1]) + WarningOf(data[|data| - 1])
  }

  /** The number of items other than "Source File" */
  function Checked(data: Record): nat
  {
    if data == [] then 0
    else Checked(data[..|data| - 1]) + if data[|data| - 1].field == Extraction.SourceFile then 0 else 1
  }

  /**
   * `validate_data(data)`: visit the items in order, skip "Source File", and
   * file each failing field's message under issues when the field is
   * mandatory and under warnings otherwise. The record is valid exactly when
   * there are no issues.
   */
  method ValidateData(data: Record) returns (s: Summary)
    ensures s.issues == Issues(data) && s.warnings == Warnings(data)
    ensures s.isValid <==> s.issues == []
    ensures s.issueCount == |s.issues| && s.warningCount == |s.warnings|
  {
    var issues: seq<string> := [];
    var warnings: seq<string> := [];
    var i := 0;
    while i < |data|
      invariant 0 <= i <= |data|
      invariant issues == Issues(data[..i])
      invariant warnings == Warnings(data[..i])
    {
      var e := data[i];
      assert data[..i + 1][..i] == data[..i];
      if e.field != Extraction.SourceFile {
        var (ok, message) := ValidateField(e.field, e.value);
        if !ok {
          if e.field in MandatoryFields {
            issues := issues + [message];
          } else {
            warnings := warnings + [message];
          }
        }
      }
      i := i + 1;
    }
    assert data[..i] == data;
    s := Summary(|issues| == 0, issues, warnings, |issues|, |warnings|);
  }

  /** Each checked item gives at most one message. */
  lemma {:induction false} MessageCountBound(data: Record)
    ensures |Issues(data)| + |Warnings(data)| <= Checked(data)
  {
    if data != [] {
      MessageCountBound(data[..|data| - 1]);
    }
  }

  /** The last item and the rest of `a + [e] + b` and of `a + b`, for a non-empty `b` */
  lemma SplitLast(a: Record, e: Entry, b: Record)
    requires b != []
    ensures var x := a + [e] + b; x[..|x| - 1] == a + [e] + b[..|b| - 1] && x[|x| - 1] == b[|b| - 1]
    ensures var y := a + b; y[..|y| - 1] == a + b[..|b| - 1] && y[|y| - 1] == b[|b| - 1]
  {
  }

  /** A "Source File" item on its own raises no message. */
  lemma SourceFileSilent(filename: string)
    ensures IssueOf(Entry(Extraction.SourceFile, filename)) == []
    ensures WarningOf(Entry(Extraction.SourceFile, filename)) == []
  {
    assert Complaint(Entry(Extraction.SourceFile, filename)) == None;
  }

  /** A "Source File" item, wherever it stands, raises no issue. */
  lemma {:induction false} SourceFileRaisesNoIssue(a: Record, filename: string, b: Record)
    ensures Issues(a + [Entry(Extraction.SourceFile, filename)] + b) == Issues(a + b)
    decreases |b|
  {
    var e := Entry(Extraction.SourceFile, filename);
    var x := a + [e] + b;
    var y := a + b;
    if b == [] {
      SourceFileSilent(filename);
      assert x[..|x| - 1] == a && y == a;
      assert Issues(x) == Issues(a) + IssueOf(e);
    } else {
      SplitLast(a, e, b);
      var init := b[..|b| - 1];
      assert Issues(x) == Issues(a + [e] + init) + IssueOf(b[|b| - 1]);
      assert Issues(y) == Issues(a + init) + IssueOf(b[|b| - 1]);
      SourceFileRaisesNoIssue(a, filename, init);
    }
  }

  /** A "Source File" item, wherever it stands, raises no warning. */
  lemma {:induction false} SourceFileRaisesNoWarning(a: Record, filename: string, b: Record)
    ensures Warnings(a + [Entry(Extraction.SourceFile, filename)] + b) == Warnings(a + b)
    decreases |b|
  {
    var e := Entry(Extraction.SourceFile, filename);
    var x := a + [e] + b;
    var y := a + b;
    if b == [] {
      SourceFileSilent(filename);
      assert x[..|x| - 1] == a && y == a;
      assert Warnings(x) == Warnings(a) + WarningOf(e);
    } else {
      SplitLast(a, e, b);
      var init := b[..|b| - 1];
      assert Warnings(x) == Warnings(a + [e] + init) + WarningOf(b[|b| - 1]);
      assert Warnings(y) == Warnings(a + init) + WarningOf(b[|b| - 1]);
      SourceFileRaisesNoWarning(a, filename, init);
    }
  }

  /** A "Source File" item, wherever it stands, changes neither issues nor warnings. */
  lemma SourceFileIgnored(a: Record, filename: string, b: Record)
    ensures Issues(a + [Entry(Extraction.SourceFile, filename)] + b) == Issues(a + b)
    ensures Warnings(a + [Entry(Extraction.SourceFile, filename)] + b) == Warnings(a + b)
  {
    SourceFileRaisesNoIssue(a, filename, b);
    SourceFileRaisesNoWarning(a, filename, b);
  }

  /** An item that is a mandatory field passes its check. */
  predicate MandatoryPasses(e: Entry)
  {
    e.field in MandatoryFields ==> ValidateField(e.field, e.value).0
  }

  lemma SourceFileNotMandatory()
    ensures Extraction.SourceFile !in MandatoryFields
  {
  }

  /** An item raises an issue exactly when it is a mandatory field that fails. */
  lemma IssueOfItem(e: Entry)
    ensures IssueOf(e) == [] <==> MandatoryPasses(e)
  {
    SourceFileNotMandatory();
  }

  /**
   * A record has no issues exactly when every mandatory field in it passes
   * its check.
   */
  lemma NoIssuesIff(data: Record)
    ensures Issues(data) == [] <==> forall e :: e in data ==> MandatoryPasses(e)
  {
    IssuesEmpty(data);
    forall e | e in data
      ensures IssueOf(e) == [] <==> MandatoryPasses(e)
    {
      IssueOfItem(e);
    }
  }

  /** The issue list is empty exactly when no item raises an issue. */
  lemma {:induction false} IssuesEmpty(data: Record)
    ensures Issues(data) == [] <==> forall e :: e in data ==> IssueOf(e) == []
  {
    if data != [] {
      var init := data[..|data| - 1];
      IssuesEmpty(init);
      assert data == init + [data[|data| - 1]];
    }
  }

  /** An issue message is a missing-field message for a mandatory name, or the PAN or mobile message. */
  predicate IsIssueMessage(m: string)
  {
    m == PanMessage || m == MobileMessage || exists n :: n in MandatoryFields && m == MissingMessage(n)
  }

  /** A warning message is the e-mail, PIN, GSTIN or IFSC message. */
  predicate IsWarningMessage(m: string)
  {
    m == EmailMessage || m == PinMessage || m == GstinMessage || m == IfscMessage
  }

  lemma IssueOfMessage(e: Entry)
    ensures forall m :: m in IssueOf(e) ==> IsIssueMessage(m)
  {
    if IssueOf(e) != [] && e.value == "" {
      assert IssueOf(e)[0] == MissingMessage(e.field);
    }
  }

  /** An optional field may be empty, and the PAN and mobile rules are on mandatory fields. */
  lemma WarningOfMessage(e: Entry)
    ensures forall m :: m in WarningOf(e) ==> IsWarningMessage(m)
  {
    if WarningOf(e) != [] {
      assert e.field != "PAN" && e.field != "Mobile Number" by {
        assert MandatoryFields[1] == "PAN" && MandatoryFields[2] == "Mobile Number";
      }
    }
  }

  /** Issues only ever report a missing mandatory field, a bad PAN or a bad mobile number. */
  lemma {:induction false} IssueMessages(data: Record)
    ensures forall m :: m in Issues(data) ==> IsIssueMessage(m)
  {
    if data != [] {
      IssueMessages(data[..|data| - 1]);
      IssueOfMessage(data[|data| - 1]);
    }
  }

  /** Warnings only ever report a bad e-mail address, PIN, GSTIN or IFSC code. */
  lemma {:induction false} WarningMessages(data: Record)
    ensures forall m :: m in Warnings(data) ==> IsWarningMessage(m)
  {
    if data != [] {
      WarningMessages(data[..|data| - 1]);
      WarningOfMessage(data[|data| - 1]);
    }
  }

  /**
   * Every failing field's message is reported, under issues when the field is
   * mandatory and under warnings otherwise.
   */
  lemma {:induction false} FailuresAreReported(data: Record, i: nat)
    requires i < |data| && Complaint(data[i]).Some?
    ensures data[i].field in MandatoryFields ==> Complaint(data[i]).value in Issues(data)
    ensures data[i].field !in MandatoryFields ==> Complaint(data[i]).value in Warnings(data)
  {
    if i < |data| - 1 {
      var init := data[..|data| - 1];
      assert init[i] == data[i];
      FailuresAreReported(init, i);
    }
  }

  /** Worked cases of `validate_field` */
  lemma ValidateFieldExamples()
    ensures ValidateField("PAN", "ABCDE1234F") == (true, "")
    ensures ValidateField("PAN", "abcde1234f") == (false, PanMessage)
    ensures ValidateField("PAN", "") == (false, MissingMessage("PAN"))
    ensures ValidateField("E-Mail ID", "") == (true, "")
    ensures ValidateField("Remarks", "anything at all") == (true, "")
  {
    FormatExamples();
    assert "PAN" == MandatoryFields[1];
    assert "E-Mail ID" !in MandatoryFields;
  }
}
