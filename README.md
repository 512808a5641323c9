# Bapi_Tool extractor core in Dafny

Bapi_Tool reads customer-onboarding PDFs. The class `PDFDataExtractor` in
`app.py` pulls about a hundred named fields out of the text of each PDF with
regular expressions. It cleans each captured value and checks a few fields
against fixed formats: PAN, mobile number, e-mail, PIN, GSTIN and IFSC. It
reports a missing mandatory field or a malformed mandatory value as an issue,
and a malformed optional value as a warning.

This project models that core:

- `chars.dfy` (module `Chars`): the character classes the rules use. `IsSpace`
  is Python's `str.isspace`. The digit and letter classes are ASCII.
- `formats.dfy` (module `Formats`): the six anchored validation patterns, each
  a predicate on strings. `FullMatch` adds what `$` allows under `re.match`: a
  single trailing newline.
- `normalize.dfy` (module `Normalize`): the clean-up of a captured group,
  `strip()` followed by `re.sub(r'\s+', ' ', …)`. It is proved equal to
  `' '.join(value.split())`, its normal form is characterised, and it is proved
  idempotent.
- `records.dfy` (module `Records`): the extractor's `Dict[str, str]`. It is a
  sequence of items in insertion order, with `get` and item assignment and the
  laws that relate them.
- `extraction.dfy` (module `Extraction`):
  - the pattern table `field_patterns`, all 98 entries in 15 sections, as the constant `FieldPatterns`;
  - `extract_field`, with the regex search as a parameter;
  - `extract_all_fields`, whose loop over the table is the method `FillFields`.

  The extractor's state is two tables, both set once in `__init__` and never
  changed: the pattern table and the validation rules. The validation rules
  are the function `RuleFor` and the constant `MandatoryFields` of module
  `Validation`. `ExtractField` and `ExtractAllFields` take the pattern table as
  their first argument, the way the methods read `self.field_patterns`. Their
  contracts hold for any table. Facts about the concrete table, such as
  `SourceFileNotAPattern`, are lemmas about `FieldPatterns`.
- `validation.dfy` (module `Validation`):
  - the rule table;
  - `validate_field`, as a function;
  - `validate_data`, as a loop method specified by the functions `Issues` and
    `Warnings`;
  - lemmas on where each message goes and which messages can appear.

The search `re.search(pattern, text, re.MULTILINE | re.IGNORECASE)` together
with `match.group(1)` is a parameter of type `Search`. It reports one of:

- no match;
- a match whose first group did or did not take part;
- an exception.

The text of the PDF is also a parameter.

## Model

| member | source | states |
|---|---|---|
| `Formats.PanShape` | app.py:213 | defines the PAN pattern: five upper-case letters, four digits, one upper-case letter |
| `Formats.MobileShape` | app.py:217 | defines the mobile pattern: exactly ten digits |
| `Formats.EmailShape` | app.py:221 | defines the e-mail pattern: a non-empty local part of letters, digits and `._%+-`, '@', a domain of letters, digits, '.' and '-', then '.' and at least two letters |
| `Formats.PinShape` | app.py:225 | defines the PIN pattern: exactly six digits |
| `Formats.GstinShape` | app.py:229 | defines the GSTIN pattern: two digits, five upper-case letters, four digits, an upper-case letter, a character from 1-9 or A-Z, 'Z', a digit or upper-case letter |
| `Formats.IfscShape` | app.py:233 | defines the IFSC pattern: four upper-case letters, '0', six upper-case letters or digits |
| `Formats.FullMatch` | app.py:295 | defines what `re.match` of a `^…$` pattern accepts: a value of the rule's shape, or such a value followed by one newline |
| `Formats.FullMatchWithoutNewline` | app.py:211-235 | for a value not ending in a newline, an anchored rule accepts exactly the values of its shape |
| `Formats.AcceptedLength` | app.py:211-235 | whatever a fixed-width rule accepts has the fixed length and literals: PAN and mobile 10, PIN 6, IFSC 11 with '0' at index 4, GSTIN 15 with 'Z' at index 13, each optionally followed by one newline |
| `Formats.UpperCaseOnly` | app.py:212-235 | the PAN, IFSC and GSTIN rules are case-sensitive: nothing they accept contains a lower-case letter |
| `Formats.EmailHasOneAt` | app.py:220-223 | an accepted e-mail address contains exactly one '@' |
| `Formats.FormatExamples` | app.py:212-223 | ABCDE1234F is a PAN; abcde1234f and ABCD1234F are not; 8638595914 is a mobile number; a.b@example.in is an e-mail address |
| `Normalize.Strip` | app.py:265 | defines `strip()` as `lstrip()` followed by `rstrip()` |
| `Normalize.Collapse` | app.py:266 | defines `re.sub(r'\s+', ' ', …)`: each maximal whitespace run becomes one ' ', everything else is kept in order |
| `Normalize.Normalize` | app.py:265-266 | defines the clean-up of a captured group: strip, then collapse |
| `Normalize.StripLeft` | app.py:265 | the result is the suffix of the value left after all its leading whitespace |
| `Normalize.StripRight` | app.py:265 | the result is the prefix of the value left before all its trailing whitespace |
| `Normalize.StripShape` | app.py:265 | a stripped value neither starts nor ends with whitespace |
| `Normalize.NormalizeIsNormalized` | app.py:265-266 | a cleaned value has no edge whitespace and every whitespace character in it is a single ' ' between non-space characters |
| `Normalize.NormalizedIffFixpoint` | app.py:265-266 | a value is in cleaned form exactly when cleaning leaves it unchanged |
| `Normalize.NormalizeIdempotent` | app.py:265-266 | cleaning twice gives the same as cleaning once |
| `Normalize.CollapseIsJoin` | app.py:265-266 | for a value that does not start with whitespace, as after `strip()`, replacing each whitespace run by one space joins the words by single spaces and keeps one space for trailing whitespace |
| `Normalize.NormalizeIsJoinedWords` | app.py:265-266 | the clean-up equals `' '.join(value.split())`: the same words, in order, one space apart |
| `Records.Get` | app.py:258 | `get` finds a value exactly for the keys present, and the item found is in the dictionary |
| `Records.Put` | app.py:282 | defines `d[k] = v`: an existing key keeps its place and takes the new value, a new key is added last |
| `Records.PutFields` | app.py:282 | assignment keeps the key order and appends a new key at the end |
| `Records.PutGet` | app.py:282 | after `d[k] = v`, `d.get(k)` is `v` and every other key keeps its value |
| `Records.PutEntries` | app.py:282 | assignment adds no item other than the one assigned |
| `Records.PutDistinct` | app.py:282 | assignment keeps the keys distinct |
| `Extraction.FieldPatterns` | app.py:77-207 | defines the pattern table: the 98 field names with their regular expressions, in the order of the source, as verbatim strings |
| `Extraction.SourceFileNotAPattern` | app.py:77-207 | "Source File" is not a key of the pattern table, so the filename stored first is never overwritten |
| `Extraction.ExtractField` | app.py:256-270 | the extracted value is always in cleaned form, and it is empty for a name that has no pattern |
| `Extraction.ExtractFieldIsJoinedWords` | app.py:256-270 | for a known field with a non-empty pattern, the value is the matched group's words joined by single spaces; it is empty when nothing matched, the group did not take part or the search raised |
| `Extraction.ExtractFieldStable` | app.py:264-267 | cleaning an extracted value again changes nothing |
| `Extraction.ExtractAllFields` | app.py:272-284 | an empty text gives an empty record. Otherwise "Source File" comes first, and it keeps the filename when no pattern has that name. The keys are distinct and are exactly "Source File" plus the pattern names. Each name maps to `extract_field`'s value, and every extracted value is in cleaned form. When the pattern names are distinct and do not include "Source File", the keys are "Source File" followed by the pattern names in table order |
| `Extraction.FilledPut` | app.py:282 | one more assignment `data[name] = extract_field(text, name)` keeps the loop's invariant: "Source File" first, distinct keys, exactly the names so far, each with its extracted value, and for distinct names the keys in the order assigned |
| `Extraction.FillFields` | app.py:279-284 | the loop puts "Source File" first and gives every name its extracted value; the record has no other keys; for distinct names other than "Source File", the keys are "Source File" and then the names in loop order |
| `Validation.RuleFor` | app.py:211-235 | defines the rule table: PAN, mobile number, e-mail, PIN, GSTIN and IFSC each get their format and message, every other name (and the `mandatory_fields` entry) has no rule |
| `Validation.ValidateField` | app.py:286-298 | an empty value fails exactly when the field is mandatory, with "Missing mandatory field: " and the name; a non-empty value fails exactly when the field has a rule that does not match it fully, with that rule's message; the result is valid exactly when the message is empty |
| `Validation.MandatoryFieldPasses` | app.py:236-239 | a mandatory field passes exactly when it is non-empty and, for PAN and the mobile number, well formed |
| `Validation.AcceptedPanLength` | app.py:212-215 | an accepted non-empty PAN is 10 characters, optionally followed by a newline, with no lower-case letter |
| `Validation.ValidateFieldExamples` | app.py:286-298 | worked cases: a good PAN, a lower-case PAN, a missing PAN, a missing optional e-mail, a field without a rule |
| `Validation.ValidateData` | app.py:300-322 | the issues and warnings are the mandatory and the optional failure messages in record order; the record is valid exactly when there are no issues; the counts are the list lengths |
| `Validation.MessageCountBound` | app.py:305-313 | issues plus warnings are at most the number of items other than "Source File" |
| `Validation.SourceFileIgnored` | app.py:306-307 | a "Source File" item adds no issue and no warning, wherever it stands in the record |
| `Validation.IssueOfItem` | app.py:309-311 | an item raises an issue exactly when it is a mandatory field that fails its check |
| `Validation.NoIssuesIff` | app.py:300-322 | a record has no issues, and so is valid, exactly when every mandatory field in it passes |
| `Validation.IssueMessages` | app.py:288-297 | an issue is always a missing-field message for a mandatory name, or the PAN or mobile message |
| `Validation.WarningMessages` | app.py:309-313 | a warning is always the e-mail, PIN, GSTIN or IFSC message, because an optional field may be empty |
| `Validation.FailuresAreReported` | app.py:309-313 | every failing field's message appears: under issues if the field is mandatory, under warnings otherwise |

## Left out

- The Streamlit user interface, session state, progress display, and the export to Excel and CSV (`main`, `process_pdfs`, `show_results`, `show_export_options`). They are presentation and I/O.
- `extract_text_from_pdf` and pdfplumber. The text of a PDF is a parameter of `ExtractAllFields`, and a failed read is the empty text.
- The semantics of the 98 extraction regexes and of Python's `re` engine, including the `MULTILINE` and `IGNORECASE` flags. `re.search` and `group(1)` are the oracle `Search`. The table's patterns are kept verbatim as strings.
- `\d` in the validation patterns is modelled as the ASCII digits 0-9. Python's `\d` also matches other Unicode decimal digits.
- `ExtractAllFields`: its key order is proved for any table whose names are distinct. That the 98 names of `FieldPatterns` are distinct, as written, is not proved: the proof exceeds the solver's resource limit on the 98-entry literal.
- `ExtractFieldIsJoinedWords`: requires the field's pattern to be non-empty. Every pattern in the table is non-empty as written, but this is not proved, for the same reason.
- Floating-point values (latitude, longitude and the like) are extracted as text and never interpreted.
