/**
 * Normalisation of the lead records returned by the remote lead scraper into the
 * canonical candidate records that the tool returns.
 */
module Candidates {
  import opened Wrappers
  import opened Text

  /** A lead as the scraper returns it. Only the three fields that are tested for truthiness are optional. */
  datatype Lead = Lead(
    fullName: string,
    position: string,
    seniority: string,
    email: string,
    phone: Option<string>,
    city: string,
    state: string,
    functional: Option<string>,
    orgIndustry: Option<string>)

  /** The canonical candidate record shown by the recruiting widget. */
  datatype Candidate = Candidate(
    id: string,
    name: string,
    title: string,
    email: string,
    phone: string,
    location: string,
    yearsOfExperience: int,
    skills: seq<string>,
    stage: string)

  const IdPrefix := "apify-"
  const ScreeningStage := "Screening"
  const LocationSeparator := ", "

  /** The seniority labels that map to more than the default two years. */
  const RankedSeniorities: set<string> := {"C-Suite", "VP", "Director", "Manager", "Senior"}

  /** JavaScript truthiness of an optional string: present and non-empty. */
  predicate Truthy(o: Option<string>) {
    o.Some? && o.value != ""
  }

  /** Years of experience derived from the seniority label; every other label, known or not, gives 2. */
  function YearsOfExperience(seniority: string): (years: int)
    ensures years in {2, 5, 7, 10, 15}
    ensures years == 15 <==> seniority == "C-Suite" || seniority == "VP"
    ensures years == 10 <==> seniority == "Director"
    ensures years == 7 <==> seniority == "Manager"
    ensures years == 5 <==> seniority == "Senior"
    ensures years == 2 <==> seniority !in RankedSeniorities
  {
    if seniority == "C-Suite" || seniority == "VP" then 15
    else if seniority == "Director" then 10
    else if seniority == "Manager" then 7
    else if seniority == "Senior" then 5
    else 2
  }

  /** The identifier of the lead at position `index` of a scraper batch. */
  function CandidateId(index: nat, email: string): (id: string)
    ensures IdPrefix + NatToString(index) + "-" <= id
    ensures EndsWith(id, "-" + email)
    ensures |id| == |IdPrefix| + |NatToString(index)| + 1 + |email|
  {
    IdPrefix + NatToString(index) + "-" + email
  }

  /** Reads the batch position back out of a candidate identifier, when it has the identifier's shape. */
  function IndexOfId(id: string): Option<nat> {
    if IdPrefix <= id then
      var digits := TakeUntil(id[|IdPrefix|..], '-');
      if digits != [] && IsDigits(digits) then Some(ParseDigits(digits)) else None
    else
      None
  }

  /** The batch position can always be recovered from an identifier, whatever the email. */
  lemma CandidateIdIndex(index: nat, email: string)
    ensures IndexOfId(CandidateId(index, email)) == Some(index)
  {
    var id := CandidateId(index, email);
    var digits := NatToString(index);
    assert id == IdPrefix + (digits + ['-'] + email);
    assert id[|IdPrefix|..] == digits + ['-'] + email;
    DigitsExclude(digits, '-');
    TakeUntilSeparated(digits, '-', email);
    ParseNatToString(index);
  }

  /** Leads at distinct positions get distinct identifiers, whatever their emails. */
  lemma CandidateIdsDistinct(i: nat, j: nat, email1: string, email2: string)
    requires i != j
    ensures CandidateId(i, email1) != CandidateId(j, email2)
  {
    CandidateIdIndex(i, email1);
    CandidateIdIndex(j, email2);
  }

  /** The truthy entries of `xs`, in order. */
  function Compact(xs: seq<Option<string>>): (r: seq<string>)
    ensures |r| <= |xs|
    ensures "" !in r
    ensures forall s :: s in r ==> Some(s) in xs
  {
    if xs == [] then []
    else (if Truthy(xs[0]) then [xs[0].value] else []) + Compact(xs[1..])
  }

  /** The skills of a candidate: the functional area first, then the organisation's industry, without empty entries. */
  function Skills(functional: Option<string>, orgIndustry: Option<string>): (skills: seq<string>)
    ensures "" !in skills
    ensures |skills| == (if Truthy(functional) then 1 else 0) + (if Truthy(orgIndustry) then 1 else 0)
    ensures Truthy(functional) ==> skills[0] == functional.value
    ensures Truthy(orgIndustry) ==> skills[|skills| - 1] == orgIndustry.value
    ensures forall s :: s in skills ==> Some(s) == functional || Some(s) == orgIndustry
  {
    assert [functional, orgIndustry][1..] == [orgIndustry];
    assert Compact([orgIndustry]) == (if Truthy(orgIndustry) then [orgIndustry.value] else []) by {
      assert [orgIndustry][1..] == [];
    }
    Compact([functional, orgIndustry])
  }

  /** The candidate for the lead at position `index` of a scraper batch. */
  function LeadToCandidate(lead: Lead, index: nat): (c: Candidate)
    ensures IndexOfId(c.id) == Some(index) && c.id == CandidateId(index, lead.email)
    ensures c.name == lead.fullName && c.title == lead.position && c.email == lead.email
    ensures c.phone == if Truthy(lead.phone) then lead.phone.value else ""
    ensures c.location == lead.city + LocationSeparator + lead.state
    ensures c.yearsOfExperience in {2, 5, 7, 10, 15}
    ensures c.yearsOfExperience == YearsOfExperience(lead.seniority)
    ensures |c.skills| <= 2 && "" !in c.skills
    ensures c.skills == Skills(lead.functional, lead.orgIndustry)
    ensures c.stage == ScreeningStage
  {
    CandidateIdIndex(index, lead.email);
    Candidate(
      id := CandidateId(index, lead.email),
      name := lead.fullName,
      title := lead.position,
      email := lead.email,
      phone := if Truthy(lead.phone) then lead.phone.value else "",
      location := lead.city + LocationSeparator + lead.state,
      yearsOfExperience := YearsOfExperience(lead.seniority),
      skills := Skills(lead.functional, lead.orgIndustry),
      stage := ScreeningStage)
  }

  /** The whole scraper batch normalised, each lead with its own position. */
  function Normalise(leads: seq<Lead>): (cs: seq<Candidate>)
    ensures |cs| == |leads|
    ensures forall k :: 0 <= k < |cs| ==> IndexOfId(cs[k].id) == Some(k) && cs[k].stage == ScreeningStage
  {
    seq(|leads|, k requires 0 <= k < |leads| => LeadToCandidate(leads[k], k))
  }

  /** Candidate k of a normalised batch is lead k normalised at position k. */
  lemma NormaliseAt(leads: seq<Lead>, k: nat)
    requires k < |leads|
    ensures Normalise(leads)[k] == LeadToCandidate(leads[k], k)
  {
  }

  /** Identifiers are unique within a normalised batch. */
  lemma NormaliseIdsUnique(leads: seq<Lead>, i: nat, j: nat)
    requires i < |leads| && j < |leads| && i != j
    ensures Normalise(leads)[i].id != Normalise(leads)[j].id
  {
    var cs := Normalise(leads);
    assert IndexOfId(cs[i].id) == Some(i);
    assert IndexOfId(cs[j].id) == Some(j);
  }

  /** A lead appended to a batch does not change the candidates before it. */
  lemma NormaliseAppend(leads: seq<Lead>, lead: Lead)
    ensures Normalise(leads + [lead]) == Normalise(leads) + [LeadToCandidate(lead, |leads|)]
  {
    var lhs := Normalise(leads + [lead]);
    var rhs := Normalise(leads) + [LeadToCandidate(lead, |leads|)];
    assert |lhs| == |rhs|;
    forall k | 0 <= k < |lhs| ensures lhs[k] == rhs[k] {
      if k < |leads| {
        assert (leads + [lead])[k] == leads[k];
      }
    }
  }

  /** The example of a Director in Austin, TX with one functional area and an empty industry. */
  lemma DirectorInAustin(fullName: string, position: string, email: string, phone: Option<string>, index: nat)
    ensures var c := LeadToCandidate(Lead(fullName, position, "Director", email, phone, "Austin", "TX",
                                          Some("Engineering"), Some("")), index);
            c.yearsOfExperience == 10 && c.location == "Austin, TX" && c.skills == ["Engineering"]
  {
    assert YearsOfExperience("Director") == 10;
    assert Skills(Some("Engineering"), Some("")) == ["Engineering"];
    assert "Austin" + LocationSeparator + "TX" == "Austin, TX";
  }
}
