/**
 * Field extraction (`PDFDataExtractor.field_patterns`, `extract_field` and
 * `extract_all_fields`). The text of a PDF and Python's regular-expression
 * engine are parameters: `search(pattern, text)` stands for
 * `re.search(pattern, text, re.MULTILINE | re.IGNORECASE)` followed by
 * `match.group(1)`, and reports whether the search found nothing, found a match
 * (whose first group may not have taken part), or raised an exception.
 */
module Extraction {
  import opened Options
  import opened Normalize
  import opened Records

  /** The key under which a record keeps the name of the PDF it came from */
  const SourceFile: string := "Source File"

  /** What one regular-expression search reports */
  datatype SearchOutcome =
    | NoMatch                      // `re.search` returned None
    | Group(group: Option<string>) // the match's first group; None when it did not take part
    | Raised                       // the search raised (a malformed pattern, a missing group)

  /** `re.search(pattern, text, ...)` with its first group, as a pure oracle */
  type Search = (string, string) -> SearchOutcome

  /** Basic Information */
  const BasicInformationPatterns: Record := [
    Entry("Type of Customer", @"Type of Customer\s+(.+?)(?:\n|$)"),
    Entry("Name of Customer", @"Name of Customer\s+(.+?)(?:\n|$)"),
    Entry("Company Code", @"Company Code\s+(.+?)(?:\n|$)"),
    Entry("Customer Group", @"Customer Group\s+(.+?)(?:\n|$)"),
    Entry("Sales Group", @"Sales Group\s+(.+?)(?:\n|$)"),
    Entry("Region", @"Region\s+(.+?)(?:\n|$)"),
    Entry("Zone", @"Zone\s+(.+?)(?:\n|$)"),
    Entry("Sub Zone", @"Sub Zone\s+(.+?)(?:\n|$)"),
    Entry("State", @"(?:^|\n)State\s+(.+?)(?:\n|$)"),
    Entry("Sales Office", @"Sales Office\s+(.+?)(?:\n|$)")
  ]

  /** SAP and Search Terms */
  const SapAndSearchTermsPatterns: Record := [
    Entry("SAP Dealer code", @"SAP Dealer code to be mapped Search\s*(?:Term\s*2?)?\s*(\d+)"),
    Entry("Search Term 1", @"Search Term 1-\s*Old customer code\s*(.+?)(?:\n|$)"),
    Entry("Search Term 2", @"Search Term 2\s*-\s*District\s*(.+?)(?:\n|$)")
  ]

  /** Contact Information */
  const ContactInformationPatterns: Record := [
    Entry("Mobile Number", @"Mobile Number\s+(\d{10})"),
    Entry("E-Mail ID", @"E-Mail ID\s+([^\n]*?)(?:\n|$)"),
    Entry("Lattitude", @"Lattitude\s+([\d.]+)"),
    Entry("Longitude", @"Longitude\s+([\d.]+)")
  ]

  /** Customer Address Section */
  const CustomerAddressPatterns: Record := [
    Entry("Trade Name or Legal Name", @"Name of the Customers\s*\(Trade Name or\s*Legal Name\)\s+(.+?)(?:\n|$)"),
    Entry("Address 1", @"Address 1\s+(.+?)(?:\n|$)"),
    Entry("Address 2", @"Address 2\s+(.+?)(?:\n|$)"),
    Entry("Address 3", @"Address 3\s+(.+?)(?:\n|$)"),
    Entry("Address 4", @"Address 4\s+(.+?)(?:\n|$)"),
    Entry("PIN", @"(?:^|\n)PIN\s+(\d{6})"),
    Entry("City", @"(?:^|\n)City\s+(.+?)(?:\n|$)"),
    Entry("District", @"(?:^|\n)District\s+(.+?)(?:\n|$)"),
    Entry("Whatsapp No", @"Whatsapp No\.\s*(\d*)"),
    Entry("Date of Birth", @"Date of Birth\s+([0-9]{2}-[0-9]{2}-[0-9]{4})"),
    Entry("Date of Anniversary", @"Date of Anniversary\s+([0-9]{2}-[0-9]{2}-[0-9]{4})?")
  ]

  /** Counter Potential */
  const CounterPotentialPatterns: Record := [
    Entry("Counter Potential Maximum", @"Counter Potential\s*-\s*Maximum\s+(.+?)(?:\n|$)"),
    Entry("Counter Potential Minimum", @"Counter Potential\s*-\s*Minimum\s+(.+?)(?:\n|$)")
  ]

  /** GST Details */
  const GstPatterns: Record := [
    Entry("Is GST Present", @"Is GST Present\s+(.+?)(?:\n|$)"),
    Entry("GSTIN", @"(?:^|\n)GSTIN\s+([A-Z0-9]{15})?"),
    Entry("GST Trade Name", @"Trade Name\s+(.+?)(?:\n|Legal Name)"),
    Entry("GST Legal Name", @"Legal Name\s+(.+?)(?:\n|Reg Date)"),
    Entry("Reg Date", @"Reg Date\s+(.+?)(?:\n|$)"),
    Entry("GST City", @"(?:City\s+.+?\n){1}City\s+(.+?)(?:\n|$)"),
    Entry("GST Type", @"Type\s+(.+?)(?:\n|Building)"),
    Entry("Building No", @"Building No\.\s+(.+?)(?:\n|$)"),
    Entry("District Code", @"District Code\s+(.+?)(?:\n|$)"),
    Entry("State Code", @"State Code\s+(.+?)(?:\n|$)"),
    Entry("Street", @"Street\s+(.+?)(?:\n|$)"),
    Entry("PIN Code", @"PIN Code\s+(\d{6})?")
  ]

  /** PAN Details */
  const PanPatterns: Record := [
    Entry("PAN", @"(?:^|\n)PAN\s+([A-Z]{5}\d{4}[A-Z])"),
    Entry("PAN Holder Name", @"PAN Holder Name\s+(.+?)(?:\n|$)"),
    Entry("PAN Status", @"PAN Status\s+(.+?)(?:\n|$)"),
    Entry("PAN Aadhaar Linking Status", @"PAN\s*-\s*Aadhaar Linking Status\s+(.+?)(?:\n|$)")
  ]

  /** Bank Details */
  const BankPatterns: Record := [
    Entry("IFSC Number", @"IFSC Number\s+([A-Z]{4}[0-9A-Z]{7})"),
    Entry("Account Number", @"Account Number\s+(\d+)"),
    Entry("Name of Account Holder", @"Name of Account Holder\s+(.+?)(?:\n|$)"),
    Entry("Bank Name", @"Bank Name\s+(.+?)(?:\n|$)"),
    Entry("Bank Branch", @"Bank Branch\s+(.+?)(?:\n|$)")
  ]

  /** Aadhaar Details */
  const AadhaarPatterns: Record := [
    Entry("Is Aadhaar Linked with Mobile", @"Is Aadhaar Linked with Mobile\?\s+(.+?)(?:\n|$)"),
    Entry("Aadhaar Number", @"Aadhaar Number\s+((?:XXXX\s*){2,3}\d{4}|\d{12})"),
    Entry("Aadhaar Name", @"(?:Aadhaar Details.*?Name\s+)(.+?)(?:\n|$)"),
    Entry("Gender", @"Gender\s+([A-Z]+)"),
    Entry("DOB", @"DOB\s+(.+?)(?:\n|$)"),
    Entry("Aadhaar Address", @"(?:Aadhaar Details.*?Address\s+)(.+?)(?:\nPIN)"),
    Entry("Aadhaar PIN", @"(?:Aadhaar Details.*?PIN\s+)(\d{6})"),
    Entry("Aadhaar City", @"(?:Aadhaar Details.*?City\s+)(.+?)(?:\n|$)"),
    Entry("Aadhaar State", @"(?:Aadhaar Details.*?State\s+)(.+?)(?:\n|$)")
  ]

  /** Transportation Zone Details */
  const TransportationZonePatterns: Record := [
    Entry("Logistics Transportation Zone", @"Logistics Transportation Zone\s+(.+?)(?:\n|$)"),
    Entry("Transportation Zone Description", @"Transportation Zone\s*Description\s+(.+?)(?:\n|$)"),
    Entry("Transportation Zone Code", @"Transportation Zone Code\s+(\d+)"),
    Entry("Postal Code", @"Postal Code\s+(.+?)(?:\n|$)"),
    Entry("Logistics team to vet", @"Logistics team to vet the T zone selected by\s*Sales Officer\s+(.+?)(?:\n|$)"),
    Entry("Selection of Available T Zones", @"Selection of Available T Zones from T Zone\s*Master list, if found\.\s+(.+?)(?:\n|$)"),
    Entry("NEW T Zone", @"If NEW T Zone need to be created, details\s*to be provided by Logistics team\s+(.+?)(?:\n|$)"),
    Entry("Date of Appointment", @"Date of Appointment\s+([0-9]{2}-[0-9]{2}-[0-9]{4})?")
  ]

  /** Plant Details */
  const PlantPatterns: Record := [
    Entry("Delivering Plant", @"Delivering Plant\s+(.+?)(?:\n|$)"),
    Entry("Plant Name", @"Plant Name\s+(.+?)(?:\n|$)"),
    Entry("Plant Code", @"Plant Code\s+([A-Z0-9]+)"),
    Entry("Incoterns", @"Incoterns\s+([A-Z]+\s*-[^-\n]+?)(?:\n)"),
    Entry("Incoterns Description", @"Incoterns\s+[A-Z]+\s*-\s*(.+?)(?:\n|Incoterns Code)"),
    Entry("Incoterns Code", @"Incoterns Code\s+([A-Z]+)"),
    Entry("Security Deposit Amount", @"Security Deposit Amount.*?(\d+)"),
    Entry("Credit Limit", @"Credit Limit\s*\(In Rs\.\)\s*(.+?)(?:\n|$)")
  ]

  /** Mapping Details */
  const MappingPatterns: Record := [
    Entry("Regional Head", @"Regional Head to be mapped\s+([E0-9]+)"),
    Entry("Zonal Head", @"Zonal Head to be mapped\s+([E0-9]+)"),
    Entry("Sub-Zonal Head", @"Sub-Zonal Head \(RSM\) to be mapped\s+([E0-9]+)"),
    Entry("Area Sales Manager", @"Area Sales Manager to be mapped\s+([E0-9]+)"),
    Entry("Sales Officer", @"Sales Officer to be mapped\s+([E0-9]+)"),
    Entry("Sales Promoter", @"Sales Promoter to be mapped\s+(.+?)(?:\n|$)"),
    Entry("Sales Promoter Number", @"Sales Promoter Number\s+(.+?)(?:\n|$)"),
    Entry("Internal control code", @"Internal control code\s+([A-Z0-9]+)"),
    Entry("SAP CODE", @"(?:^|\n)SAP CODE\s+(.+?)(?:\n|$)")
  ]

  /** Initiator Details */
  const InitiatorPatterns: Record := [
    Entry("Initiator Name", @"Initiator Name\s+(.+?)(?:\n|$)"),
    Entry("Initiator Email", @"Initiator Email ID\s+(.+?)(?:\n|$)"),
    Entry("Initiator Mobile", @"Initiator Mobile Number\s+(\d+)"),
    Entry("Created By UserID", @"Created By Customer UserID\s+([E0-9]+)")
  ]

  /** Sales Head Details */
  const SalesHeadPatterns: Record := [
    Entry("Sales Head Name", @"Sales Head Name\s+(.+?)(?:\n|$)"),
    Entry("Sales Head Email", @"Sales Head Email\s+(.+?)(?:\n|$)"),
    Entry("Sales Head Mobile", @"Sales Head Mobile Number\s+(\d+)"),
    Entry("Extra2", @"Extra2\s+(.+?)(?:\n|$)")
  ]

  /** Duplicity Check */
  const DuplicityCheckPatterns: Record := [
    Entry("PAN Result", @"PAN Result\s+([NY])"),
    Entry("Mobile Number Result", @"Mobile Number Result\s+([NY])"),
    Entry("Email Result", @"Email Result\s+([NY])?"),
    Entry("GST Result", @"GST Result\s+([NY])?"),
    Entry("Final Result", @"Final Result\s+(.+?)(?:\n|$)")
  ]

  /** The whole table, section by section, in the order of its source text */
  const FieldPatterns: Record :=
    BasicInformationPatterns
    + SapAndSearchTermsPatterns
    + ContactInformationPatterns
    + CustomerAddressPatterns
    + CounterPotentialPatterns
    + GstPatterns
    + PanPatterns
    + BankPatterns
    + AadhaarPatterns
    + TransportationZonePatterns
    + PlantPatterns
    + MappingPatterns
    + InitiatorPatterns
    + SalesHeadPatterns
    + DuplicityCheckPatterns

  /** The field names, in table order */
  const FieldNames: seq<string> := Fields(FieldPatterns)

  /** No item of `r` is keyed by `SourceFile` */
  predicate NoSourceFileKey(r: Record)
  {
    forall e :: e in r ==> e.field != SourceFile
  }

  lemma AppendNoSourceFileKey(a: Record, b: Record)
    requires NoSourceFileKey(a) && NoSourceFileKey(b)
    ensures NoSourceFileKey(a + b)
  {
  }

  lemma NoSourceFileKeyInBasicInformationPatterns()
    ensures NoSourceFileKey(BasicInformationPatterns)
  {
  }

  lemma NoSourceFileKeyInSapAndSearchTermsPatterns()
    ensures NoSourceFileKey(SapAndSearchTermsPatterns)
  {
  }

  lemma NoSourceFileKeyInContactInformationPatterns()
    ensures NoSourceFileKey(ContactInformationPatterns)
  {
  }

  lemma NoSourceFileKeyInCustomerAddressPatterns()
    ensures NoSourceFileKey(CustomerAddressPatterns)
  {
  }

  lemma NoSourceFileKeyInCounterPotentialPatterns()
    ensures NoSourceFileKey(CounterPotentialPatterns)
  {
  }

  lemma NoSourceFileKeyInGstPatterns()
    ensures NoSourceFileKey(GstPatterns)
  {
  }

  lemma NoSourceFileKeyInPanPatterns()
    ensures NoSourceFileKey(PanPatterns)
  {
  }

  lemma NoSourceFileKeyInBankPatterns()
    ensures NoSourceFileKey(BankPatterns)
  {
  }

  lemma NoSourceFileKeyInAadhaarPatterns()
    ensures NoSourceFileKey(AadhaarPatterns)
  {
  }

  lemma NoSourceFileKeyInTransportationZonePatterns()
    ensures NoSourceFileKey(TransportationZonePatterns)
  {
  }

  lemma NoSourceFileKeyInPlantPatterns()
    ensures NoSourceFileKey(PlantPatterns)
  {
  }

  lemma NoSourceFileKeyInMappingPatterns()
    ensures NoSourceFileKey(MappingPatterns)
  {
  }

  lemma NoSourceFileKeyInInitiatorPatterns()
    ensures NoSourceFileKey(InitiatorPatterns)
  {
  }

  lemma NoSourceFileKeyInSalesHeadPatterns()
    ensures NoSourceFileKey(SalesHeadPatterns)
  {
  }

  lemma NoSourceFileKeyInDuplicityCheckPatterns()
    ensures NoSourceFileKey(DuplicityCheckPatterns)
  {
  }

  /** No section of the table, hence not the table, has a "Source File" key. */
  lemma NoSourceFileKeyInTable()
    ensures NoSourceFileKey(FieldPatterns)
  {
    NoSourceFileKeyInBasicInformationPatterns();
    NoSourceFileKeyInSapAndSearchTermsPatterns();
    AppendNoSourceFileKey(BasicInformationPatterns,
      SapAndSearchTermsPatterns);
    NoSourceFileKeyInContactInformationPatterns();
    AppendNoSourceFileKey(BasicInformationPatterns + SapAndSearchTermsPatterns,
      ContactInformationPatterns);
    NoSourceFileKeyInCustomerAddressPatterns();
    AppendNoSourceFileKey(BasicInformationPatterns + SapAndSearchTermsPatterns + ContactInformationPatterns,
      CustomerAddressPatterns);
    NoSourceFileKeyInCounterPotentialPatterns();
    AppendNoSourceFileKey(BasicInformationPatterns + SapAndSearchTermsPatterns + ContactInformationPatterns + CustomerAddressPatterns,
      CounterPotentialPatterns);
    NoSourceFileKeyInGstPatterns();
    AppendNoSourceFileKey(BasicInformationPatterns + SapAndSearchTermsPatterns + ContactInformationPatterns + CustomerAddressPatterns + CounterPotentialPatterns,
      GstPatterns);
    NoSourceFileKeyInPanPatterns();
    AppendNoSourceFileKey(BasicInformationPatterns + SapAndSearchTermsPatterns + ContactInformationPatterns + CustomerAddressPatterns + CounterPotentialPatterns + GstPatterns,
      PanPatterns);
    NoSourceFileKeyInBankPatterns();
    AppendNoSourceFileKey(BasicInformationPatterns + SapAndSearchTermsPatterns + ContactInformationPatterns + CustomerAddressPatterns + CounterPotentialPatterns + GstPatterns + PanPatterns,
      BankPatterns);
    NoSourceFileKeyInAadhaarPatterns();
    AppendNoSourceFileKey(BasicInformationPatterns + SapAndSearchTermsPatterns + ContactInformationPatterns + CustomerAddressPatterns + CounterPotentialPatterns + GstPatterns + PanPatterns + BankPatterns,
      AadhaarPatterns);
    NoSourceFileKeyInTransportationZonePatterns();
    AppendNoSourceFileKey(BasicInformationPatterns + SapAndSearchTermsPatterns + ContactInformationPatterns + CustomerAddressPatterns + CounterPotentialPatterns + GstPatterns + PanPatterns + BankPatterns + AadhaarPatterns,
      TransportationZonePatterns);
    NoSourceFileKeyInPlantPatterns();
    AppendNoSourceFileKey(BasicInformationPatterns + SapAndSearchTermsPatterns + ContactInformationPatterns + CustomerAddressPatterns + CounterPotentialPatterns + GstPatterns + PanPatterns + BankPatterns + AadhaarPatterns + TransportationZonePatterns,
      PlantPatterns);
    NoSourceFileKeyInMappingPatterns();
    AppendNoSourceFileKey(BasicInformationPatterns + SapAndSearchTermsPatterns + ContactInformationPatterns + CustomerAddressPatterns + CounterPotentialPatterns + GstPatterns + PanPatterns + BankPatterns + AadhaarPatterns + TransportationZonePatterns + PlantPatterns,
      MappingPatterns);
    NoSourceFileKeyInInitiatorPatterns();
    AppendNoSourceFileKey(BasicInformationPatterns + SapAndSearchTermsPatterns + ContactInformationPatterns + CustomerAddressPatterns + CounterPotentialPatterns + GstPatterns + PanPatterns + BankPatterns + AadhaarPatterns + TransportationZonePatterns + PlantPatterns + MappingPatterns,
      InitiatorPatterns);
    NoSourceFileKeyInSalesHeadPatterns();
    AppendNoSourceFileKey(BasicInformationPatterns + SapAndSearchTermsPatterns + ContactInformationPatterns + CustomerAddressPatterns + CounterPotentialPatterns + GstPatterns + PanPatterns + BankPatterns + AadhaarPatterns + TransportationZonePatterns + PlantPatterns + MappingPatterns + InitiatorPatterns,
      SalesHeadPatterns);
    NoSourceFileKeyInDuplicityCheckPatterns();
    AppendNoSourceFileKey(BasicInformationPatterns + SapAndSearchTermsPatterns + ContactInformationPatterns + CustomerAddressPatterns + CounterPotentialPatterns + GstPatterns + PanPatterns + BankPatterns + AadhaarPatterns + TransportationZonePatterns + PlantPatterns + MappingPatterns + InitiatorPatterns + SalesHeadPatterns,
      DuplicityCheckPatterns);
  }

  /**
   * "Source File" is not one of the pattern names, so the filename that
   * `extract_all_fields` stores first is never overwritten.
   */
  lemma SourceFileNotAPattern()
    ensures SourceFile !in FieldNames
  {
    NoSourceFileKeyInTable();
    NoSourceFileKeyNotInFields(FieldPatterns);
  }

  lemma NoSourceFileKeyNotInFields(r: Record)
    requires NoSourceFileKey(r)
    ensures SourceFile !in Fields(r)
  {
    forall i | 0 <= i < |r|
      ensures Fields(r)[i] != SourceFile
    {
      assert r[i] in r;
    }
  }

  /**
   * `extract_field(text, field_name)` of an extractor whose pattern table is
   * `patterns`: look the pattern up, search the text, and return the first group
   * with its ends stripped and every run of whitespace made one space; the empty
   * string when the name is unknown, its pattern is empty, nothing matches, the
   * group did not take part or the search raised.
   */
  function ExtractField(patterns: Record, text: string, name: string, search: Search): (r: string)
    ensures Normalized(r)
    ensures name !in Fields(patterns) ==> r == ""
  {
    match Get(patterns, name)
    case None => ""
    case Some(pattern) =>
      if pattern == "" then ""
      else
        match search(pattern, text)
        case Group(Some(g)) =>
          NormalizeIsNormalized(g);
          Normalize.Normalize(g)
        case _ => ""
  }

  /**
   * The value extracted for a known field is the matched group's words joined by
   * single spaces, and empty when the search finds no usable group.
   */
  lemma ExtractFieldIsJoinedWords(patterns: Record, text: string, name: string, search: Search)
    requires name in Fields(patterns) && Get(patterns, name).value != ""
    ensures var outcome := search(Get(patterns, name).value, text);
      ExtractField(patterns, text, name, search) ==
        if outcome.Group? && outcome.group.Some? then Join(Words(outcome.group.value)) else ""
  {
    var outcome := search(Get(patterns, name).value, text);
    if outcome.Group? && outcome.group.Some? {
      NormalizeIsJoinedWords(outcome.group.value);
    }
  }

  /** Normalising an extracted value again changes nothing. */
  lemma ExtractFieldStable(patterns: Record, text: string, name: string, search: Search)
    ensures Normalize.Normalize(ExtractField(patterns, text, name, search)) == ExtractField(patterns, text, name, search)
  {
    NormalizedFixpoint(ExtractField(patterns, text, name, search));
  }

  /**
   * `extract_all_fields(text, filename)` of an extractor whose pattern table is
   * `patterns`: nothing for an empty text; otherwise a record that starts with
   * "Source File" and holds, for every pattern name, the value `extract_field`
   * gives it. The filename survives when "Source File" is not a pattern name,
   * as `SourceFileNotAPattern` shows for `FieldPatterns`.
   */
  method ExtractAllFields(patterns: Record, text: string, filename: string, search: Search) returns (data: Record)
    ensures text == "" ==> data == []
    ensures text != "" ==> |data| > 0 && data[0].field == SourceFile
    ensures text != "" && SourceFile !in Fields(patterns) ==> data[0].value == filename
    ensures text != "" ==> DistinctFields(data)
    ensures text != "" ==> forall k :: k in Fields(data) <==> k == SourceFile || k in Fields(patterns)
    ensures text != "" ==> forall k :: k in Fields(patterns) ==> Get(data, k) == Some(ExtractField(patterns, text, k, search))
    ensures forall e :: e in data && e.field != SourceFile ==> Normalized(e.value)
    ensures text != "" && Distinct(Fields(patterns)) && SourceFile !in Fields(patterns) ==>
      Fields(data) == [SourceFile] + Fields(patterns)
  {
    if text == "" {
      return [];
    }
    data := FillFields(patterns, text, filename, Fields(patterns), search);
  }

  /**
   * What the loop of `extract_all_fields` has built after assigning the names
   * in `done`: "Source File" first, keeping the filename unless a pattern of
   * that name overwrote it; distinct keys, exactly "Source File" and `done`;
   * each name in `done` holding its extracted value.
   */
  ghost predicate Filled(data: Record, done: seq<string>, filename: string, patterns: Record, text: string, search: Search)
  {
    && |data| > 0 && data[0].field == SourceFile
    && (SourceFile !in done ==> data[0].value == filename)
    && DistinctFields(data)
    && (forall k :: k in Fields(data) <==> k == SourceFile || k in done)
    && (forall k :: k in done ==> Get(data, k) == Some(ExtractField(patterns, text, k, search)))
    && (forall e :: e in data && e.field != SourceFile ==> Normalized(e.value))
    && (Distinct(done) && SourceFile !in done ==> Fields(data) == [SourceFile] + done)
  }

  /** A list of distinct names with one more name at the end: the list before it is distinct and lacks that name. */
  lemma DistinctSnoc(done: seq<string>, name: string)
    requires Distinct(done + [name])
    ensures Distinct(done) && name !in done
  {
    var all := done + [name];
    assert forall i :: 0 <= i < |done| ==> all[i] == done[i];
    assert all[|done|] == name;
  }

  /** With distinct names, assigning a new name appends it to the keys in order. */
  lemma OrderPut(data: Record, done: seq<string>, name: string, value: string)
    requires Fields(data) == [SourceFile] + done
    requires name !in done && name != SourceFile
    ensures Fields(Put(data, name, value)) == [SourceFile] + (done + [name])
  {
    PutFields(data, name, value);
    assert name !in Fields(data);
  }

  /** One more assignment `data[name] = extract_field(text, name)` extends what has been built. */
  lemma FilledPut(data: Record, done: seq<string>, name: string, filename: string, patterns: Record, text: string, search: Search)
    requires Filled(data, done, filename, patterns, text, search)
    ensures Filled(Put(data, name, ExtractField(patterns, text, name, search)), done + [name], filename, patterns, text, search)
  {
    var value := ExtractField(patterns, text, name, search);
    var next := Put(data, name, value);
    assert next[0].field == SourceFile && (name != SourceFile ==> next[0] == data[0]);
    assert DistinctFields(next) by {
      PutDistinct(data, name, value);
    }
    assert forall k :: k in Fields(next) <==> k == SourceFile || k in done + [name] by {
      PutFields(data, name, value);
    }
    assert forall k :: k in done + [name] ==> Get(next, k) == Some(ExtractField(patterns, text, k, search)) by {
      PutGet(data, name, value);
    }
    assert forall e :: e in next && e.field != SourceFile ==> Normalized(e.value) by {
      PutEntries(data, name, value);
    }
    if Distinct(done + [name]) && SourceFile !in done + [name] {
      DistinctSnoc(done, name);
      OrderPut(data, done, name, value);
    }
  }

  lemma TakeOneMore(names: seq<string>, i: nat)
    requires i < |names|
    ensures names[..i + 1] == names[..i] + [names[i]]
  {
  }

  /**
   * The loop of `extract_all_fields`: start from `{"Source File": filename}` and
   * assign `extract_field(text, name)` to each name in turn.
   */
  method FillFields(patterns: Record, text: string, filename: string, names: seq<string>, search: Search)
    returns (data: Record)
    ensures |data| > 0 && data[0].field == SourceFile
    ensures SourceFile !in names ==> data[0].value == filename
    ensures DistinctFields(data)
    ensures forall k :: k in Fields(data) <==> k == SourceFile || k in names
    ensures forall k :: k in names ==> Get(data, k) == Some(ExtractField(patterns, text, k, search))
    ensures forall e :: e in data && e.field != SourceFile ==> Normalized(e.value)
    ensures Distinct(names) && SourceFile !in names ==> Fields(data) == [SourceFile] + names
  {
    data := [Entry(SourceFile, filename)];
    assert Fields(data) == [SourceFile];
    var i := 0;
    while i < |names|
      invariant 0 <= i <= |names|
      invariant Filled(data, names[..i], filename, patterns, text, search)
    {
      var name := names[i];
      var value := ExtractField(patterns, text, name, search);
      FilledPut(data, names[..i], name, filename, patterns, text, search);
      TakeOneMore(names, i);
      data := Put(data, name, value);
      i := i + 1;
    }
    assert names[..i] == names;
  }
}
