/** The data model of internal/parser/parser.go and its single-page
    pipeline `ParsePageClaims`.

    The collaborators `ParsePageClaims` calls (loading the `.env` file,
    reading the API key, scraping the page, the chat request and the JSON
    decoder) are not modelled; their outcomes for one URL are the input
    `PageSteps`. A Go slice that may be nil is an `Option<seq<…>>`. */
module Parser {
  import opened Wrappers

  /** One extracted claim and the URLs it cites (nil when the JSON had none). */
  datatype Claim = Claim(claim: string, source: Option<seq<string>>)

  /** The claims of one page; `parentURL` is the page that led to it. */
  datatype ParsedClaims = ParsedClaims(page: string, parentURL: string, claims: seq<Claim>)

  /** The report of one traversal. */
  datatype AggregatedClaims = AggregatedClaims(rootPage: string, allClaims: seq<ParsedClaims>, errors: seq<string>)

  /** The outcome, for one URL, of each call `ParsePageClaims` makes, in the
      order it makes them. */
  datatype PageSteps = PageSteps(
    envLoad: Outcome<string>,              // loading configs/.env
    apiKey: string,                        // the OPENAI_API_KEY variable
    scraped: Result<string, string>,       // scraping the page's text
    response: Result<string, string>,      // the chat completion request
    decoded: Result<ParsedClaims, string>) // decoding the response as JSON

  /** The sources a claim cites; a nil list cites nothing. */
  function SourcesOf(c: Claim): seq<string> {
    c.source.GetOr([])
  }

  /** The sources cited by `cs`, claim by claim and each claim's sources in
      order: the order in which the traversal follows them. */
  function Cited(cs: seq<Claim>): seq<string> {
    if cs == [] then [] else Cited(cs[..|cs| - 1]) + SourcesOf(cs[|cs| - 1])
  }

  /** A claim whose nil source list is replaced by an empty one. */
  function NormalizeClaim(c: Claim): Claim {
    if c.source.None? then c.(source := Some([])) else c
  }

  /** The claims with every nil source list replaced by an empty one. */
  function NormalizeSources(cs: seq<Claim>): (r: seq<Claim>)
    ensures |r| == |cs|
    ensures forall i :: 0 <= i < |cs| ==>
              r[i].claim == cs[i].claim && r[i].source == Some(SourcesOf(cs[i]))
  {
    if cs == [] then [] else NormalizeSources(cs[..|cs| - 1]) + [NormalizeClaim(cs[|cs| - 1])]
  }

  /** Normalising does not change which sources are cited, nor their order. */
  lemma {:induction false} NormalizeKeepsCited(cs: seq<Claim>)
    ensures Cited(NormalizeSources(cs)) == Cited(cs)
    decreases |cs|
  {
    if cs != [] {
      var r := NormalizeSources(cs);
      assert r[..|r| - 1] == NormalizeSources(cs[..|cs| - 1]);
      NormalizeKeepsCited(cs[..|cs| - 1]);
    }
  }

  /** Normalising twice is normalising once. */
  lemma NormalizeIdempotent(cs: seq<Claim>)
    ensures NormalizeSources(NormalizeSources(cs)) == NormalizeSources(cs)
  {
    var once := NormalizeSources(cs);
    var twice := NormalizeSources(once);
    assert forall i :: 0 <= i < |cs| ==> twice[i] == once[i];
  }

  /** The steps of `ParsePageClaims`, in the order it takes them. */
  datatype Step = LoadEnv | ReadApiKey | Scrape | Extract | Decode

  const StepOrder: seq<Step> := [LoadEnv, ReadApiKey, Scrape, Extract, Decode]

  /** Whether `step` fails for these outcomes. */
  predicate StepFails(steps: PageSteps, step: Step) {
    match step
    case LoadEnv => steps.envLoad.Fail?
    case ReadApiKey => steps.apiKey == ""
    case Scrape => steps.scraped.Failure?
    case Extract => steps.response.Failure?
    case Decode => steps.decoded.Failure?
  }

  /** The error `ParsePageClaims` returns when `step` is the one that fails. */
  function StepError(steps: PageSteps, step: Step): string {
    match step
    case LoadEnv => "Error loading .env file: " + (if steps.envLoad.Fail? then steps.envLoad.error else "")
    case ReadApiKey => "Environment variable OPENAI_API_KEY is required but not set"
    case Scrape => "failed to scrape the page: " + ErrorOf(steps.scraped)
    case Extract => "failed to extract claims: " + ErrorOf(steps.response)
    case Decode => "failed to parse response as JSON: " + ErrorOf(steps.decoded)
  }

  function ErrorOf<R>(r: Result<R, string>): string {
    if r.Failure? then r.error else ""
  }

  /** What `ParsePageClaims(url)` returns for these collaborator outcomes. */
  function ParsePage(url: string, steps: PageSteps): (r: Result<ParsedClaims, string>)
    ensures r.Success? ==> steps.decoded.Success?
    ensures r.Success? ==>
              var decoded := steps.decoded.value;
              && r.value.page == url
              && r.value.parentURL == decoded.parentURL
              && |r.value.claims| == |decoded.claims|
              && forall i :: 0 <= i < |decoded.claims| ==>
                   r.value.claims[i].claim == decoded.claims[i].claim &&
                   r.value.claims[i].source == Some(SourcesOf(decoded.claims[i]))
  {
    if steps.envLoad.Fail? then Failure("Error loading .env file: " + steps.envLoad.error)
    else if steps.apiKey == "" then Failure("Environment variable OPENAI_API_KEY is required but not set")
    else if steps.scraped.Failure? then Failure("failed to scrape the page: " + steps.scraped.error)
    else if steps.response.Failure? then Failure("failed to extract claims: " + steps.response.error)
    else if steps.decoded.Failure? then Failure("failed to parse response as JSON: " + steps.decoded.error)
    else
      var decoded := steps.decoded.value;
      Success(decoded.(claims := NormalizeSources(decoded.claims), page := url))
  }

  /** The pipeline returns a result exactly when none of its steps fails. */
  lemma ParsePageSucceedsIffNoStepFails(url: string, steps: PageSteps)
    ensures ParsePage(url, steps).Success? <==>
              forall k :: 0 <= k < |StepOrder| ==> !StepFails(steps, StepOrder[k])
  {
    if ParsePage(url, steps).Failure? {
      if steps.envLoad.Fail? {
        assert StepFails(steps, StepOrder[0]);
      } else if steps.apiKey == "" {
        assert StepFails(steps, StepOrder[1]);
      } else if steps.scraped.Failure? {
        assert StepFails(steps, StepOrder[2]);
      } else if steps.response.Failure? {
        assert StepFails(steps, StepOrder[3]);
      } else {
        assert StepFails(steps, StepOrder[4]);
      }
    }
  }

  /** A failing pipeline stops at its first failing step and returns that
      step's error. */
  lemma ParsePageFailsAtFirstFailingStep(url: string, steps: PageSteps, k: nat)
    requires k < |StepOrder| && StepFails(steps, StepOrder[k])
    requires forall j :: 0 <= j < k ==> !StepFails(steps, StepOrder[j])
    ensures ParsePage(url, steps) == Failure(StepError(steps, StepOrder[k]))
  {
    if k > 0 { assert !StepFails(steps, StepOrder[0]); }
    if k > 1 { assert !StepFails(steps, StepOrder[1]); }
    if k > 2 { assert !StepFails(steps, StepOrder[2]); }
    if k > 3 { assert !StepFails(steps, StepOrder[3]); }
  }

  /** `ParsePageClaims`: runs the steps in order, stopping at the first
      failure; then replaces nil source lists by empty ones, in place, and
      stamps the page URL. */
  method ParsePageClaims(url: string, steps: PageSteps) returns (r: Result<ParsedClaims, string>)
    ensures r == ParsePage(url, steps)
  {
    if steps.envLoad.Fail? {
      return Failure("Error loading .env file: " + steps.envLoad.error);
    }
    if steps.apiKey == "" {
      return Failure("Environment variable OPENAI_API_KEY is required but not set");
    }
    if steps.scraped.Failure? {
      return Failure("failed to scrape the page: " + steps.scraped.error);
    }
    if steps.response.Failure? {
      return Failure("failed to extract claims: " + steps.response.error);
    }
    if steps.decoded.Failure? {
      return Failure("failed to parse response as JSON: " + steps.decoded.error);
    }
    var parsedClaims := steps.decoded.value;
    var claims := parsedClaims.claims;
    for i := 0 to |claims|
      invariant |claims| == |parsedClaims.claims|
      invariant forall j :: 0 <= j < i ==> claims[j] == NormalizeClaim(parsedClaims.claims[j])
      invariant forall j :: i <= j < |claims| ==> claims[j] == parsedClaims.claims[j]
    {
      if claims[i].source.None? {
        claims := claims[i := claims[i].(source := Some([]))];
      }
    }
    assert claims == NormalizeSources(parsedClaims.claims);
    parsedClaims := parsedClaims.(claims := claims);
    parsedClaims := parsedClaims.(page := url);
    return Success(parsedClaims);
  }
}
