/**
 * The parameters of the `list_candidates` tool: the constraints its input schema enforces,
 * and the input payload sent to the lead scraper.
 */
module Request {
  import opened Wrappers

  /** The filters a caller may supply; every one is optional. */
  datatype Filters = Filters(
    personTitle: Option<seq<string>>,
    seniority: Option<seq<string>>,
    functional: Option<seq<string>>,
    personCountry: Option<seq<string>>,
    personState: Option<seq<string>>,
    personCity: Option<seq<string>>,
    companyKeyword: Option<seq<string>>,
    companyIndustry: Option<seq<string>>,
    companyEmployeeSize: Option<seq<string>>,
    companyDomain: Option<seq<string>>,
    companyCountry: Option<seq<string>>,
    companyState: Option<seq<string>>,
    companyCity: Option<seq<string>>,
    contactEmailStatus: Option<seq<string>>,
    hasEmail: Option<bool>,
    hasPhone: Option<bool>,
    totalResults: Option<int>)

  /** The tool arguments as the caller sends them. */
  datatype RawParams = RawParams(filters: Filters, useExistingCandidates: Option<bool>)

  /** The tool arguments after schema validation, with the mode flag defaulted. */
  datatype ToolParams = ToolParams(filters: Filters, useExistingCandidates: bool)

  const SeniorityLabels: set<string> := {"C-Suite", "VP", "Director", "Manager", "Senior", "Entry"}
  const FunctionalLabels: set<string> :=
    {"Sales", "Marketing", "Engineering", "Operations", "Finance", "Human Resources", "Legal", "IT"}
  const EmployeeSizeLabels: set<string> :=
    {"1", "2 - 10", "11 - 50", "51 - 200", "201 - 500", "501 - 1000", "1001 - 5000", "5001 - 10000", "10001+"}
  const EmailStatusLabels: set<string> := {"Verified", "Unverified"}

  const MinTotalResults := 1
  const MaxTotalResults := 50000

  /** Every element of a supplied list is one of the closed set of labels. */
  predicate LabelsIn(xs: Option<seq<string>>, labels: set<string>) {
    xs.Some? ==> forall x :: x in xs.value ==> x in labels
  }

  predicate TotalResultsInRange(n: Option<int>) {
    n.Some? ==> MinTotalResults <= n.value <= MaxTotalResults
  }

  /** The schema's constraints on the filters. */
  predicate ValidFilters(f: Filters) {
    && LabelsIn(f.seniority, SeniorityLabels)
    && LabelsIn(f.functional, FunctionalLabels)
    && LabelsIn(f.companyEmployeeSize, EmployeeSizeLabels)
    && LabelsIn(f.contactEmailStatus, EmailStatusLabels)
    && TotalResultsInRange(f.totalResults)
  }

  /** The names of the five constrained fields whose check failed, in schema order. */
  function RejectedNames(seniorityOk: bool, functionalOk: bool, sizeOk: bool, statusOk: bool, countOk: bool): seq<string> {
    (if seniorityOk then [] else ["seniority"])
    + (if functionalOk then [] else ["functional"])
    + (if sizeOk then [] else ["companyEmployeeSize"])
    + (if statusOk then [] else ["contactEmailStatus"])
    + (if countOk then [] else ["totalResults"])
  }

  /** Each field name is listed exactly when its own check failed. */
  lemma RejectedNamesExact(seniorityOk: bool, functionalOk: bool, sizeOk: bool, statusOk: bool, countOk: bool)
    ensures var names := RejectedNames(seniorityOk, functionalOk, sizeOk, statusOk, countOk);
            && ("seniority" in names <==> !seniorityOk)
            && ("functional" in names <==> !functionalOk)
            && ("companyEmployeeSize" in names <==> !sizeOk)
            && ("contactEmailStatus" in names <==> !statusOk)
            && ("totalResults" in names <==> !countOk)
  {
  }

  /** The names of the constrained fields whose value the schema rejects, in schema order. */
  function InvalidFields(f: Filters): (fields: seq<string>)
    ensures fields == [] <==> ValidFilters(f)
    ensures forall name :: name in fields ==>
              name in {"seniority", "functional", "companyEmployeeSize", "contactEmailStatus", "totalResults"}
  {
    RejectedNames(
      LabelsIn(f.seniority, SeniorityLabels),
      LabelsIn(f.functional, FunctionalLabels),
      LabelsIn(f.companyEmployeeSize, EmployeeSizeLabels),
      LabelsIn(f.contactEmailStatus, EmailStatusLabels),
      TotalResultsInRange(f.totalResults))
  }

  /** A constrained field is named exactly when its own constraint fails. */
  lemma InvalidFieldsNamed(f: Filters)
    ensures "seniority" in InvalidFields(f) <==> !LabelsIn(f.seniority, SeniorityLabels)
    ensures "functional" in InvalidFields(f) <==> !LabelsIn(f.functional, FunctionalLabels)
    ensures "companyEmployeeSize" in InvalidFields(f) <==> !LabelsIn(f.companyEmployeeSize, EmployeeSizeLabels)
    ensures "contactEmailStatus" in InvalidFields(f) <==> !LabelsIn(f.contactEmailStatus, EmailStatusLabels)
    ensures "totalResults" in InvalidFields(f) <==> !TotalResultsInRange(f.totalResults)
  {
    RejectedNamesExact(
      LabelsIn(f.seniority, SeniorityLabels),
      LabelsIn(f.functional, FunctionalLabels),
      LabelsIn(f.companyEmployeeSize, EmployeeSizeLabels),
      LabelsIn(f.contactEmailStatus, EmailStatusLabels),
      TotalResultsInRange(f.totalResults));
  }

  /** Schema validation: either the defaulted parameters or the fields that failed. */
  function Validate(raw: RawParams): (r: Result<ToolParams, seq<string>>)
    ensures r.Success? <==> ValidFilters(raw.filters)
    ensures r.Success? ==> r.value.filters == raw.filters
    ensures r.Success? ==> (r.value.useExistingCandidates <==> raw.useExistingCandidates == Some(true))
    ensures r.Failure? ==> |r.error| > 0
  {
    var bad := InvalidFields(raw.filters);
    if bad == [] then Success(ToolParams(raw.filters, raw.useExistingCandidates.GetOr(false)))
    else Failure(bad)
  }

  /** The bounds of `totalResults` are inclusive: 1 and 50000 pass, 0 and 50001 do not. */
  lemma TotalResultsBoundary(raw: RawParams, n: int)
    requires ValidFilters(raw.filters)
    ensures var r := RawParams(raw.filters.(totalResults := Some(n)), raw.useExistingCandidates);
            Validate(r).Success? <==> 1 <= n <= 50000
  {
  }

  /** A value in the scraper's input payload. */
  datatype PayloadValue = Labels(labels: seq<string>) | Flag(flag: bool) | Count(count: int)

  /** The keys the payload may carry: one per filter; the mode flag has none. */
  datatype PayloadKey =
    | PersonTitle | Seniority | Functional | PersonCountry | PersonState | PersonCity
    | CompanyKeyword | CompanyIndustry | CompanyEmployeeSize | CompanyDomain | CompanyCountry
    | CompanyState | CompanyCity | ContactEmailStatus | HasEmail | HasPhone | TotalResults
  {
    /** The property name under which the key is sent. */
    function Name(): (name: string)
      ensures name != "useExistingCandidates"
    {
      match this
      case PersonTitle => "personTitle"
      case Seniority => "seniority"
      case Functional => "functional"
      case PersonCountry => "personCountry"
      case PersonState => "personState"
      case PersonCity => "personCity"
      case CompanyKeyword => "companyKeyword"
      case CompanyIndustry => "companyIndustry"
      case CompanyEmployeeSize => "companyEmployeeSize"
      case CompanyDomain => "companyDomain"
      case CompanyCountry => "companyCountry"
      case CompanyState => "companyState"
      case CompanyCity => "companyCity"
      case ContactEmailStatus => "contactEmailStatus"
      case HasEmail => "hasEmail"
      case HasPhone => "hasPhone"
      case TotalResults => "totalResults"
    }
  }

  /** Distinct payload keys are sent under distinct property names. */
  lemma PayloadKeyNamesDistinct(a: PayloadKey, b: PayloadKey)
    requires a.Name() == b.Name()
    ensures a == b
  {
  }

  /** A present list is truthy, even when it is empty. */
  function ListValue(xs: Option<seq<string>>): Option<PayloadValue> {
    if xs.Some? then Some(Labels(xs.value)) else None
  }

  /** A present flag is copied, `false` included. */
  function FlagValue(b: Option<bool>): Option<PayloadValue> {
    if b.Some? then Some(Flag(b.value)) else None
  }

  /** The value, if any, that the caller supplied for the payload key `key`. */
  function SuppliedValue(f: Filters, key: PayloadKey): Option<PayloadValue> {
    match key
    case PersonTitle => ListValue(f.personTitle)
    case Seniority => ListValue(f.seniority)
    case Functional => ListValue(f.functional)
    case PersonCountry => ListValue(f.personCountry)
    case PersonState => ListValue(f.personState)
    case PersonCity => ListValue(f.personCity)
    case CompanyKeyword => ListValue(f.companyKeyword)
    case CompanyIndustry => ListValue(f.companyIndustry)
    case CompanyEmployeeSize => ListValue(f.companyEmployeeSize)
    case CompanyDomain => ListValue(f.companyDomain)
    case CompanyCountry => ListValue(f.companyCountry)
    case CompanyState => ListValue(f.companyState)
    case CompanyCity => ListValue(f.companyCity)
    case ContactEmailStatus => ListValue(f.contactEmailStatus)
    case HasEmail => FlagValue(f.hasEmail)
    case HasPhone => FlagValue(f.hasPhone)
    case TotalResults =>
      // the count is tested for truthiness, so a zero would be dropped
      if f.totalResults.Some? && f.totalResults.value != 0 then Some(Count(f.totalResults.value)) else None
  }

  /** `input` carries exactly the supplied keys, each with the supplied value. */
  predicate IsPayloadFor(f: Filters, input: map<PayloadKey, PayloadValue>) {
    && (forall key: PayloadKey :: key in input <==> SuppliedValue(f, key).Some?)
    && (forall key :: key in input ==> input[key] == SuppliedValue(f, key).value)
  }

  /** `input` agrees with the supplied values on the keys in `done` and holds no other key. */
  ghost predicate CopiedSoFar(f: Filters, input: map<PayloadKey, PayloadValue>, done: set<PayloadKey>) {
    && (forall key :: key in input ==> key in done && SuppliedValue(f, key) == Some(input[key]))
    && (forall key :: key in done && SuppliedValue(f, key).Some? ==> key in input)
  }

  /** One conditional assignment of the handler: the key is set when the caller supplied a value for it. */
  method CopyIfSupplied(f: Filters, input: map<PayloadKey, PayloadValue>, key: PayloadKey, ghost done: set<PayloadKey>)
    returns (output: map<PayloadKey, PayloadValue>)
    requires CopiedSoFar(f, input, done)
    ensures CopiedSoFar(f, output, done + {key})
  {
    var supplied := SuppliedValue(f, key);
    output := input;
    if supplied.Some? {
      output := output[key := supplied.value];
    }
  }

  /** Builds the scraper's input by copying each supplied field. */
  method BuildPayload(f: Filters) returns (input: map<PayloadKey, PayloadValue>)
    ensures IsPayloadFor(f, input)
  {
    input := map[];
    ghost var done: set<PayloadKey> := {};
    input := CopyIfSupplied(f, input, PersonTitle, done);
    done := done + {PersonTitle};
    input := CopyIfSupplied(f, input, Seniority, done);
    done := done + {Seniority};
    input := CopyIfSupplied(f, input, Functional, done);
    done := done + {Functional};
    input := CopyIfSupplied(f, input, PersonCountry, done);
    done := done + {PersonCountry};
    input := CopyIfSupplied(f, input, PersonState, done);
    done := done + {PersonState};
    input := CopyIfSupplied(f, input, PersonCity, done);
    done := done + {PersonCity};
    input := CopyIfSupplied(f, input, CompanyKeyword, done);
    done := done + {CompanyKeyword};
    input := CopyIfSupplied(f, input, CompanyIndustry, done);
    done := done + {CompanyIndustry};
    input := CopyIfSupplied(f, input, CompanyEmployeeSize, done);
    done := done + {CompanyEmployeeSize};
    input := CopyIfSupplied(f, input, CompanyDomain, done);
    done := done + {CompanyDomain};
    input := CopyIfSupplied(f, input, CompanyCountry, done);
    done := done + {CompanyCountry};
    input := CopyIfSupplied(f, input, CompanyState, done);
    done := done + {CompanyState};
    input := CopyIfSupplied(f, input, CompanyCity, done);
    done := done + {CompanyCity};
    input := CopyIfSupplied(f, input, ContactEmailStatus, done);
    done := done + {ContactEmailStatus};
    input := CopyIfSupplied(f, input, HasEmail, done);
    done := done + {HasEmail};
    input := CopyIfSupplied(f, input, HasPhone, done);
    done := done + {HasPhone};
    input := CopyIfSupplied(f, input, TotalResults, done);
    done := done + {TotalResults};
    forall key: PayloadKey ensures key in done {
      match key
      case PersonTitle =>
      case Seniority =>
      case Functional =>
      case PersonCountry =>
      case PersonState =>
      case PersonCity =>
      case CompanyKeyword =>
      case CompanyIndustry =>
      case CompanyEmployeeSize =>
      case CompanyDomain =>
      case CompanyCountry =>
      case CompanyState =>
      case CompanyCity =>
      case ContactEmailStatus =>
      case HasEmail =>
      case HasPhone =>
      case TotalResults =>
    }
  }

  /** The payload is determined by the filters: two payloads for the same filters are equal. */
  lemma PayloadUnique(f: Filters, a: map<PayloadKey, PayloadValue>, b: map<PayloadKey, PayloadValue>)
    requires IsPayloadFor(f, a) && IsPayloadFor(f, b)
    ensures a == b
  {
    assert a.Keys == b.Keys;
  }

  /**
   * The quality filters: the email status list is copied exactly when supplied, and the boolean
   * filters whenever present, `false` included.
   */
  lemma QualityFiltersCopied(f: Filters, input: map<PayloadKey, PayloadValue>)
    requires IsPayloadFor(f, input)
    ensures ListCopied(input, ContactEmailStatus, f.contactEmailStatus)
    ensures HasEmail in input <==> f.hasEmail.Some?
    ensures HasPhone in input <==> f.hasPhone.Some?
    ensures f.hasEmail.Some? ==> input[HasEmail] == Flag(f.hasEmail.value)
    ensures f.hasPhone.Some? ==> input[HasPhone] == Flag(f.hasPhone.value)
  {
    SuppliedListCopied(f, input, ContactEmailStatus, f.contactEmailStatus);
    assert SuppliedValue(f, HasEmail) == FlagValue(f.hasEmail);
    assert SuppliedValue(f, HasPhone) == FlagValue(f.hasPhone);
  }

  /** The list filter `xs` is sent under `key` exactly when supplied, unchanged; a supplied empty list is sent too. */
  predicate ListCopied(input: map<PayloadKey, PayloadValue>, key: PayloadKey, xs: Option<seq<string>>) {
    && (key in input <==> xs.Some?)
    && (xs.Some? ==> input[key] == Labels(xs.value))
  }

  /** A list filter whose supplied value is `xs` is copied exactly when supplied, unchanged. */
  lemma SuppliedListCopied(f: Filters, input: map<PayloadKey, PayloadValue>, key: PayloadKey, xs: Option<seq<string>>)
    requires IsPayloadFor(f, input) && SuppliedValue(f, key) == ListValue(xs)
    ensures ListCopied(input, key, xs)
  {
    assert key in input <==> SuppliedValue(f, key).Some?;
  }

  /** Every person filter is copied exactly when supplied, unchanged, an empty list included. */
  lemma PersonFiltersCopied(f: Filters, input: map<PayloadKey, PayloadValue>)
    requires IsPayloadFor(f, input)
    ensures ListCopied(input, PersonTitle, f.personTitle)
    ensures ListCopied(input, Seniority, f.seniority)
    ensures ListCopied(input, Functional, f.functional)
    ensures ListCopied(input, PersonCountry, f.personCountry)
    ensures ListCopied(input, PersonState, f.personState)
    ensures ListCopied(input, PersonCity, f.personCity)
  {
    SuppliedListCopied(f, input, PersonTitle, f.personTitle);
    SuppliedListCopied(f, input, Seniority, f.seniority);
    SuppliedListCopied(f, input, Functional, f.functional);
    SuppliedListCopied(f, input, PersonCountry, f.personCountry);
    SuppliedListCopied(f, input, PersonState, f.personState);
    SuppliedListCopied(f, input, PersonCity, f.personCity);
  }

  /** Every company filter is copied exactly when supplied, unchanged, an empty list included. */
  lemma CompanyFiltersCopied(f: Filters, input: map<PayloadKey, PayloadValue>)
    requires IsPayloadFor(f, input)
    ensures ListCopied(input, CompanyKeyword, f.companyKeyword)
    ensures ListCopied(input, CompanyIndustry, f.companyIndustry)
    ensures ListCopied(input, CompanyEmployeeSize, f.companyEmployeeSize)
    ensures ListCopied(input, CompanyDomain, f.companyDomain)
    ensures ListCopied(input, CompanyCountry, f.companyCountry)
    ensures ListCopied(input, CompanyState, f.companyState)
    ensures ListCopied(input, CompanyCity, f.companyCity)
  {
    SuppliedListCopied(f, input, CompanyKeyword, f.companyKeyword);
    SuppliedListCopied(f, input, CompanyIndustry, f.companyIndustry);
    SuppliedListCopied(f, input, CompanyEmployeeSize, f.companyEmployeeSize);
    SuppliedListCopied(f, input, CompanyDomain, f.companyDomain);
    SuppliedListCopied(f, input, CompanyCountry, f.companyCountry);
    SuppliedListCopied(f, input, CompanyState, f.companyState);
    SuppliedListCopied(f, input, CompanyCity, f.companyCity);
  }

  /** For validated filters the result count is never zero, so it is copied exactly when supplied. */
  lemma ValidPayloadCopiesCount(f: Filters, input: map<PayloadKey, PayloadValue>)
    requires ValidFilters(f) && IsPayloadFor(f, input)
    ensures TotalResults in input <==> f.totalResults.Some?
    ensures f.totalResults.Some? ==> input[TotalResults] == Count(f.totalResults.value)
  {
    assert SuppliedValue(f, TotalResults).Some? <==> f.totalResults.Some?;
  }
}
