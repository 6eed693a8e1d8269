/** The two HTTP endpoints of backend/app/main.py, over the outcomes of the
    operations they call: how an autocomplete query is gated, and how every
    outcome of a product search becomes a response or an HTTP error. */
module Main {
  import opened Text
  import opened Outcomes
  import opened Schemas
  import opened Products

  /** What an endpoint answers: a body, or an HTTPException it raises. */
  datatype HttpResult<T> = Success(body: T) | Failure(status: nat, detail: string)

  const MinQueryLength: nat := 2

  /** GET /v1/autocomplete: the query is stripped; one shorter than two
      characters gets no suggestions, any other is looked up (the lookup
      itself turns every failure into the empty list). */
  function AutocompleteEndpoint(q: string, search: string -> Outcome<seq<Row>>): (r: seq<AutocompleteSuggestion>)
    ensures |Strip(q)| < MinQueryLength ==> r == []
    ensures |Strip(q)| >= MinQueryLength ==> r == SuggestionsFor(Strip(q), search)
    ensures |r| <= SuggestionLimit
  {
    var query := Strip(q);
    if query == [] || |query| < MinQueryLength then [] else SuggestionsFor(query, search)
  }

  /** Surrounding whitespace does not change the suggestions. */
  lemma {:induction false} AutocompleteIgnoresPadding(q: string, search: string -> Outcome<seq<Row>>)
    ensures AutocompleteEndpoint(q, search) == AutocompleteEndpoint(Strip(q), search)
  {
    StripIdempotent(q);
  }

  /** fdc_id, gtin_upc and query are all absent. An empty string or a zero
      id is present. */
  predicate AllNone(request: ProductSearchRequest) {
    request.fdcId.None? && request.gtinUpc.None? && request.query.None?
  }

  const EmptyQueryDetail := "Search query cannot be empty."
  const NotFoundDetail := "No products found."
  const SimulatedErrorMarker := "Simulated search error"
  const SearchErrorDetail := "Error during product search."
  const InternalErrorDetail := "An internal server error occurred."

  /** The try block of POST /v1/search-products, given what search_products
      returns or raises for the request. */
  function SearchAttempt(request: ProductSearchRequest, found: Outcome<Option<ProductSearchResponse>>)
    : (r: Outcome<ProductSearchResponse>)
    ensures AllNone(request) ==> r == Err(HttpException(400, EmptyQueryDetail))
    ensures !AllNone(request) && found == Ok(None) ==> r == Err(HttpException(404, NotFoundDetail))
    ensures !AllNone(request) && found.Err? ==> r == Err(found.error)
    ensures r.Ok? <==> !AllNone(request) && found.Ok? && found.value.Some?
    ensures r.Ok? ==> r.value == found.value.value
  {
    if AllNone(request) then Err(HttpException(400, EmptyQueryDetail))
    else
      match found
      case Err(e) => Err(e)
      case Ok(None) => Err(HttpException(404, NotFoundDetail))
      case Ok(Some(product)) => Ok(product)
  }

  /** The except clause: every exception, the endpoint's own 400 and 404
      included, becomes a 500 whose detail depends only on whether the
      exception's text mentions a simulated search error. */
  function ErrorResponse(e: Exception): (r: HttpResult<ProductSearchResponse>)
    ensures r.Failure? && r.status == 500
    ensures r.detail == SearchErrorDetail <==> Contains(ExceptionText(e), SimulatedErrorMarker)
    ensures r.detail == InternalErrorDetail <==> !Contains(ExceptionText(e), SimulatedErrorMarker)
  {
    if Contains(ExceptionText(e), SimulatedErrorMarker) then Failure(500, SearchErrorDetail)
    else Failure(500, InternalErrorDetail)
  }

  /** POST /v1/search-products */
  function SearchProductsEndpoint(request: ProductSearchRequest, found: Outcome<Option<ProductSearchResponse>>)
    : (r: HttpResult<ProductSearchResponse>)
    ensures r.Failure? ==> r.status == 500
    ensures r.Success? <==> !AllNone(request) && found.Ok? && found.value.Some?
    ensures r.Success? ==> r.body == found.value.value
    ensures r.Failure? ==> SearchAttempt(request, found).Err?
    ensures r.Failure? ==>
      (r.detail == SearchErrorDetail
       <==> Contains(ExceptionText(SearchAttempt(request, found).error), SimulatedErrorMarker))
    ensures r.Failure? ==>
      (r.detail == InternalErrorDetail
       <==> !Contains(ExceptionText(SearchAttempt(request, found).error), SimulatedErrorMarker))
  {
    match SearchAttempt(request, found)
    case Ok(product) => Success(product)
    case Err(e) => ErrorResponse(e)
  }

  /** A character that is neither a digit, ':' nor ' ' occurs in the text
      of an HTTP error only if it occurs in the detail. */
  lemma {:induction false} StatusTextLacks(status: nat, detail: string, c: char)
    requires c !in detail && c != ':' && c != ' ' && !('0' <= c <= '9')
    ensures c !in ExceptionText(HttpException(status, detail))
  {
    var digits := DecimalText(status);
    assert forall k :: 0 <= k < |digits| ==> digits[k] != c;
    assert ExceptionText(HttpException(status, detail)) == digits + ": " + detail;
  }

  /** A request with no field at all is answered 500, not 400: the 400 the
      endpoint raises is caught by its own handler. */
  lemma EmptyRequestIsInternalError(request: ProductSearchRequest, found: Outcome<Option<ProductSearchResponse>>)
    requires AllNone(request)
    ensures SearchProductsEndpoint(request, found) == Failure(500, InternalErrorDetail)
  {
    assert SimulatedErrorMarker[4] == 'l';
    assert 'l' !in EmptyQueryDetail;
    StatusTextLacks(400, EmptyQueryDetail, 'l');
    MissingCharExcludes(ExceptionText(HttpException(400, EmptyQueryDetail)), SimulatedErrorMarker, 4);
  }

  /** A search that finds nothing is answered 500, not 404, for the same
      reason. */
  lemma NotFoundIsInternalError(request: ProductSearchRequest)
    requires !AllNone(request)
    ensures SearchProductsEndpoint(request, Ok(None)) == Failure(500, InternalErrorDetail)
  {
    assert SimulatedErrorMarker[4] == 'l';
    assert 'l' !in NotFoundDetail;
    StatusTextLacks(404, NotFoundDetail, 'l');
    MissingCharExcludes(ExceptionText(HttpException(404, NotFoundDetail)), SimulatedErrorMarker, 4);
  }

  /** The text of an unbound-local error mentions a simulated search error
      only if the variable's name has an 'S' in it. */
  lemma UnboundTextIsNotSimulated(variable: string)
    requires 'S' !in variable
    ensures !Contains(ExceptionText(UnboundLocalError(variable)), SimulatedErrorMarker)
  {
    assert 'S' !in UnboundOpening;
    assert 'S' !in UnboundClosing;
    assert SimulatedErrorMarker[0] == 'S';
    MissingCharExcludes(UnboundOpening + variable + UnboundClosing, SimulatedErrorMarker, 0);
  }

  /** A request whose fields are present but all falsy (an empty query, a
      zero id) selects no lookup tier. For such a request the search raises
      NoTierError, as the ensures of Crud.ProductCatalog.SearchProducts
      state, and the endpoint answers that error with a 500 as well. */
  lemma UnselectedTierIsInternalError(request: ProductSearchRequest)
    requires !AllNone(request) && SelectCondition(request).None?
    ensures SearchProductsEndpoint(request, Err(NoTierError)) == Failure(500, InternalErrorDetail)
  {
    UnboundTextIsNotSimulated("postgres_result");
  }
}
