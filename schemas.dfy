/** The request and response shapes of the API and of the agents' replies,
    with the field constraints pydantic enforces when one is constructed
    (backend/app/schemas.py). A constructor that validates is a function
    returning an Outcome that fails with a ValidationError. */
module Schemas {
  import opened Text
  import opened Outcomes

  /** Body of a product search: every field optional, absent by default. */
  datatype ProductSearchRequest = ProductSearchRequest(
    fdcId: Option<int> := None,
    gtinUpc: Option<string> := None,
    query: Option<string> := None)

  datatype HealthIssueDetail = HealthIssueDetail(issue: string, evidence: string)

  datatype IngredientHealthIssue = IngredientHealthIssue(
    ingredient: string,
    issues: seq<HealthIssueDetail>)

  datatype PotentialHealthIssues = PotentialHealthIssues(
    potentialHealthIssues: seq<IngredientHealthIssue>)

  /** What the scoring agents reply, before validation. */
  datatype DieticianAgentResponse = DieticianAgentResponse(score: int, scoreExplanation: string)

  /** `Field(..., ge=1, le=5)` */
  predicate ValidScore(n: int) {
    1 <= n <= 5
  }

  /** Validation of a scoring agent's reply against its response model. */
  function ValidateDieticianResponse(reply: DieticianAgentResponse): (r: Outcome<DieticianAgentResponse>)
    ensures r.Ok? <==> ValidScore(reply.score)
    ensures r.Ok? ==> r.value == reply
    ensures r.Err? ==> r.error.ValidationError?
  {
    if ValidScore(reply.score) then Ok(reply)
    else Err(ValidationError("1 validation error for DieticanAgentResponse"))
  }

  /** Pydantic's HttpUrl, reduced to what the model relies on: an http or
      https scheme followed by a non-empty host, at most 2083 characters. */
  predicate IsHttpUrl(s: string)
    ensures IsHttpUrl(s) ==> 8 <= |s| <= 2083 && HasPrefix(s, "http")
  {
    |s| <= 2083
    && ((HasPrefix(s, "http://") && HostStart(s[7..]))
        || (HasPrefix(s, "https://") && HostStart(s[8..])))
  }

  predicate HostStart(rest: string) {
    rest != [] && rest[0] !in {'/', '?', '#', ' '}
  }

  datatype ProductSearchResponse = ProductSearchResponse(
    name: string,
    brand: Option<string>,
    ingredients: seq<string>,
    category: Option<string>,
    processedScore: int,
    processedScoreExplanation: string,
    nutritionScore: int,
    nutritionScoreExplanation: string,
    healthIssues: PotentialHealthIssues,
    retailer: Option<string>,
    url: Option<string>)

  /** The field constraints of a constructed search response. */
  predicate ValidResponse(r: ProductSearchResponse) {
    ValidScore(r.processedScore) && ValidScore(r.nutritionScore)
    && (r.url.Some? ==> IsHttpUrl(r.url.value))
  }

  /** ProductSearchResponse(...): fails unless the required string fields
      are present, both scores lie in [1,5] and a given url is an HttpUrl.
      The retailer is never passed, so it keeps its default. */
  function MakeProductSearchResponse(
    name: Option<string>, brand: Option<string>, ingredients: seq<string>,
    category: Option<string>,
    processedScore: int, processedScoreExplanation: Option<string>,
    nutritionScore: int, nutritionScoreExplanation: Option<string>,
    healthIssues: PotentialHealthIssues, url: Option<string>): (r: Outcome<ProductSearchResponse>)
    ensures r.Ok? <==>
      && name.Some? && processedScoreExplanation.Some? && nutritionScoreExplanation.Some?
      && ValidScore(processedScore) && ValidScore(nutritionScore)
      && (url.Some? ==> IsHttpUrl(url.value))
    ensures r.Ok? ==> ValidResponse(r.value)
    ensures r.Ok? ==>
      && r.value.name == name.value && r.value.brand == brand
      && r.value.ingredients == ingredients && r.value.category == category
      && r.value.processedScore == processedScore
      && r.value.processedScoreExplanation == processedScoreExplanation.value
      && r.value.nutritionScore == nutritionScore
      && r.value.nutritionScoreExplanation == nutritionScoreExplanation.value
      && r.value.healthIssues == healthIssues && r.value.retailer.None? && r.value.url == url
    ensures r.Err? ==> r.error.ValidationError?
  {
    if name.Some? && processedScoreExplanation.Some? && nutritionScoreExplanation.Some?
       && ValidScore(processedScore) && ValidScore(nutritionScore)
       && (url.None? || IsHttpUrl(url.value))
    then
      Ok(ProductSearchResponse(
        name.value, brand, ingredients, category,
        processedScore, processedScoreExplanation.value,
        nutritionScore, nutritionScoreExplanation.value,
        healthIssues, None, url))
    else
      Err(ValidationError("validation error for ProductSearchResponse"))
  }

  datatype AutocompleteSuggestion = AutocompleteSuggestion(
    fdcId: int,
    name: string,
    brand: Option<string>,
    category: string)

  /** AutocompleteSuggestion(...): the name is a required string. */
  function MakeAutocompleteSuggestion(fdcId: int, name: Option<string>, brand: string, category: string)
    : (r: Outcome<AutocompleteSuggestion>)
    ensures r.Ok? <==> name.Some?
    ensures r.Ok? ==> r.value == AutocompleteSuggestion(fdcId, name.value, Some(brand), category)
    ensures r.Err? ==> r.error.ValidationError?
  {
    if name.Some? then Ok(AutocompleteSuggestion(fdcId, name.value, Some(brand), category))
    else Err(ValidationError("validation error for AutocompleteSuggestion"))
  }

  /** Replies the url agent is told to give when it finds nothing, and the
      empty reply, are not URLs. */
  lemma NonUrlReplies()
    ensures !IsHttpUrl("No URL found") && !IsHttpUrl("")
  {
    var reply := "No URL found";
    assert reply[0] == 'N';
    assert reply[..7][0] == 'N' && "http://"[0] == 'h';
    assert reply[..8][0] == 'N' && "https://"[0] == 'h';
  }
}
