/**
 * The `list_candidates` tool: validate the arguments, then either return the candidates already in the
 * recruiting pipeline or search for new prospects with the lead scraper and normalise what it returns.
 */
module ListCandidatesTool {
  import opened Wrappers
  import opened Text
  import opened Candidates
  import opened Request
  import opened Widgets

  /** The app whose widget renders the tool's result. */
  const AppWidget := "recruiting"

  const FetchErrorPrefix := "Failed to fetch prospects from Apify: "
  const UnknownError := "Unknown error"
  const FoundPrefix := "Found "
  const CandidatesWord := " candidates"
  const PipelineSource := " in the recruiting pipeline"
  const LeadSearchSource := " from Apify lead search"
  const WidgetBlurb := ". The interactive widget displays candidate information including name, title, location, experience, skills, and current stage in the hiring process."

  /** Why a tool call failed: the arguments broke the schema, or the lead search failed. */
  datatype ToolError = InvalidParams(fields: seq<string>) | FetchFailed(message: string)

  /** The tool result: the one-line summary, the candidates, and the rendering hints. */
  datatype ToolResponse = ToolResponse(text: string, candidates: seq<Candidate>, meta: WidgetMeta)

  /** The I/O a tool call performs: read the local candidate store, or run the lead scraper on an input. */
  datatype IoCall = ReadLocalStore | ScrapeLeads(input: map<PayloadKey, PayloadValue>)

  /**
   * The lead scraper as seen by the tool: its leads, or a failure carrying the message of the error
   * it threw (None when what it threw was not an Error).
   */
  type Scraper = map<PayloadKey, PayloadValue> -> Result<seq<Lead>, Option<string>>

  /** The error reported when the lead search fails: a fixed prefix, then the cause or "Unknown error". */
  function FetchErrorMessage(cause: Option<string>): (message: string)
    ensures FetchErrorPrefix <= message
    ensures message[|FetchErrorPrefix|..] == cause.GetOr(UnknownError)
  {
    FetchErrorPrefix + cause.GetOr(UnknownError)
  }

  /** The summary line: the number of candidates and where they came from. */
  function SummaryText(count: nat, fromPipeline: bool): (text: string)
    ensures FoundPrefix + NatToString(count) + CandidatesWord <= text
    ensures fromPipeline ==> FoundPrefix + NatToString(count) + CandidatesWord + PipelineSource <= text
    ensures !fromPipeline ==> FoundPrefix + NatToString(count) + CandidatesWord + LeadSearchSource <= text
  {
    FoundPrefix + NatToString(count) + CandidatesWord
    + (if fromPipeline then PipelineSource else LeadSearchSource) + WidgetBlurb
  }

  /** The summary line determines both the count and the source it reports. */
  lemma SummaryTextDetermines(count1: nat, fromPipeline1: bool, count2: nat, fromPipeline2: bool)
    requires SummaryText(count1, fromPipeline1) == SummaryText(count2, fromPipeline2)
    ensures count1 == count2 && fromPipeline1 == fromPipeline2
  {
    var source1 := if fromPipeline1 then PipelineSource else LeadSearchSource;
    var source2 := if fromPipeline2 then PipelineSource else LeadSearchSource;
    CountedLineDetermines(FoundPrefix, NatToString(count1), NatToString(count2), CandidatesWord,
                          source1, source2, WidgetBlurb);
    NatToStringInjective(count1, count2);
  }

  /**
   * A line made of a prefix, a digit string, a word starting with a space, a source phrase and a
   * closing text determines its digit string and its source phrase.
   */
  lemma CountedLineDetermines(prefix: string, d1: string, d2: string, word: string, s1: string, s2: string, blurb: string)
    requires IsDigits(d1) && IsDigits(d2) && |word| > 0 && word[0] == ' '
    requires prefix + d1 + word + s1 + blurb == prefix + d2 + word + s2 + blurb
    ensures d1 == d2 && s1 == s2
  {
    var x, y := prefix + d1 + word + s1 + blurb, prefix + d2 + word + s2 + blurb;
    var r1, r2 := word[1..] + s1 + blurb, word[1..] + s2 + blurb;
    assert x[|prefix|..] == d1 + [' '] + r1;
    assert y[|prefix|..] == d2 + [' '] + r2;
    DigitsThenSpace(d1, r1, d2, r2);
    assert r1[|word| - 1..|word| - 1 + |s1|] == s1;
    assert r2[|word| - 1..|word| - 1 + |s2|] == s2;
  }

  /** The tool result for a list of candidates taken from the given source. */
  function Respond(candidates: seq<Candidate>, fromPipeline: bool): (response: ToolResponse)
    ensures response.candidates == candidates
    ensures response.text == SummaryText(|candidates|, fromPipeline)
    ensures response.meta == WidgetMetaFor(AppWidget) && response.meta.outputTemplate == WidgetUri(AppWidget)
  {
    ToolResponse(SummaryText(|candidates|, fromPipeline), candidates, WidgetMetaFor(AppWidget))
  }

  /**
   * The tool handler on validated arguments. Exactly one I/O call happens: the local store is read
   * when the mode flag is set, otherwise the scraper runs once on the payload built from the filters.
   */
  method ListCandidates(params: ToolParams, localStore: seq<Candidate>, scrape: Scraper)
    returns (result: Result<ToolResponse, ToolError>, calls: seq<IoCall>)
    ensures |calls| == 1
    ensures calls[0] == ReadLocalStore <==> params.useExistingCandidates
    ensures params.useExistingCandidates ==> result == Success(Respond(localStore, true))
    ensures !params.useExistingCandidates ==>
              && calls[0].ScrapeLeads?
              && IsPayloadFor(params.filters, calls[0].input)
              && match scrape(calls[0].input)
                 case Failure(cause) => result == Failure(FetchFailed(FetchErrorMessage(cause)))
                 case Success(leads) => result == Success(Respond(Normalise(leads), false))
    ensures !params.useExistingCandidates && result.Success? ==>
              forall c :: c in result.value.candidates ==> c.stage == ScreeningStage
  {
    if params.useExistingCandidates {
      calls := [ReadLocalStore];
      result := Success(Respond(localStore, true));
    } else {
      var input := BuildPayload(params.filters);
      calls := [ScrapeLeads(input)];
      var scraped := scrape(input);
      match scraped
      case Failure(cause) =>
        result := Failure(FetchFailed(FetchErrorMessage(cause)));
      case Success(leads) =>
        var candidates := Normalise(leads);
        result := Success(Respond(candidates, false));
    }
  }

  /**
   * A whole tool call: arguments that break the schema are rejected before any I/O; valid ones go to
   * the handler with the mode flag defaulted to false.
   */
  method CallTool(raw: RawParams, localStore: seq<Candidate>, scrape: Scraper)
    returns (result: Result<ToolResponse, ToolError>, calls: seq<IoCall>)
    ensures !ValidFilters(raw.filters) ==> calls == [] && result == Failure(InvalidParams(InvalidFields(raw.filters)))
    ensures ValidFilters(raw.filters) ==> |calls| == 1
    ensures ValidFilters(raw.filters) ==> (calls[0] == ReadLocalStore <==> raw.useExistingCandidates == Some(true))
    ensures ValidFilters(raw.filters) && raw.useExistingCandidates == Some(true) ==>
              result == Success(Respond(localStore, true))
    ensures ValidFilters(raw.filters) && raw.useExistingCandidates != Some(true) ==>
              && calls[0].ScrapeLeads?
              && IsPayloadFor(raw.filters, calls[0].input)
              && match scrape(calls[0].input)
                 case Failure(cause) => result == Failure(FetchFailed(FetchErrorMessage(cause)))
                 case Success(leads) => result == Success(Respond(Normalise(leads), false))
    ensures result.Failure? && result.error.FetchFailed? ==> |calls| == 1 && calls[0].ScrapeLeads?
  {
    var validated := Validate(raw);
    match validated
    case Failure(fields) =>
      result, calls := Failure(InvalidParams(fields)), [];
    case Success(params) =>
      result, calls := ListCandidates(params, localStore, scrape);
  }
}
