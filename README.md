# InformedChoice backend: product lookup, cache fill and endpoints

This project models the core of the InformedChoice backend in Dafny. That
core is the FastAPI service that looks up food products from the USDA
FoodData Central catalog and gives each one a processing score, a nutrition
score, potential health issues and a shop URL. Four language-model agents
compute these values the first time a product is asked for, and the results
are cached in the product's row.

The model covers:

- **Lookup tiers** (`backend/app/crud.py`, `search_products`). A request
  holds a catalog id, a barcode or a free-text query. The first truthy field
  decides how the table is searched. The free-text query is lower-cased and
  its spaces become `+`. When no field is truthy, the function reads a local
  variable it never assigned, and the call raises.
- **Cache fill and write-back** (`search_products_by`). The first matching row
  is taken. Each of the four cached values that is NULL is computed by its
  agent. The assignments of the columns to be written are collected in
  `set_query`. One `UPDATE ... WHERE fdc_id = :fdc_id` binds exactly those
  columns. A failure to execute or commit it is swallowed. Then the response
  is built and validated.
- **The products table** is a class whose state is its rows. A committed
  UPDATE rewrites the cached columns of the targeted rows and nothing else.
- **Autocomplete** (`get_autocomplete_suggestions` and `GET /v1/autocomplete`).
  The query is stripped and then gated on its length. At most five rows of
  the search function are mapped to suggestions, with brand and category
  fallbacks. Any failure gives the empty list.
- **The search endpoint** (`POST /v1/search-products`). The endpoint's own
  400 and 404 are raised inside its `try` block, so its handler catches them.
  Every failure therefore reaches the client as a 500. Its detail is "Error
  during product search." exactly when the exception's text contains
  "Simulated search error".
- **The schemas** (`backend/app/schemas.py`). Each pydantic model is a
  datatype, and its validating constructor is a function that fails with a
  `ValidationError`.

Module layout:

- `text.dfy`: the Python string operations the code relies on.
- `outcomes.dfy`: optional values, exceptions and their `str()`.
- `schemas.dfy`: the schemas.
- `products.dfy`: the specification of the lookup, the cache, the UPDATE
  and autocomplete, as functions, with their lemmas.
- `crud.dfy`: the imperative operations, proved against those functions.
  This is the `ProductCatalog` class and the autocomplete loop.
- `main.dfy`: the endpoints.

The database, the agents, and whether the UPDATE executes and commits are
parameters:

- The table is a sequence of rows.
- The full-text match and the autocomplete search function are functions.
- Each agent is a function from its prompt to its parsed reply or the
  exception it raised.

## Model

| member | source | states |
|---|---|---|
| Text.Strip | backend/app/crud.py:232 | the stripped text is the contiguous part of the input left after dropping whitespace at both ends: every dropped character is whitespace, and the result neither starts nor ends with whitespace |
| Text.StripIdempotent | backend/app/main.py:40 | stripping an already stripped query changes nothing |
| Text.RStrip | backend/app/crud.py:122 | `rstrip(chars)` keeps a prefix of the text, every character it drops is one of chars, and the kept text does not end in one of them |
| Text.RStripSuffix | backend/app/crud.py:122 | `rstrip(', ')` removes exactly a trailing run of commas and spaces when the text before it ends in another character |
| Text.NormalizeTerm | backend/app/crud.py:45 | the normalized term has the input's length; each space becomes '+' and every other character is lower-cased; no space remains |
| Text.Split | backend/app/crud.py:154 | `re.split(r'[,;]')` gives one more piece than there are separators, and no piece holds a separator |
| Text.SplitRebuilds | backend/app/crud.py:154 | the pieces, rejoined with the separators in order, give back the original ingredient text |
| Text.MissingCharExcludes | backend/app/main.py:76 | a text lacking one character of a pattern does not contain that pattern (`in` on strings) |
| Text.ContainsAt | backend/app/main.py:76 | `p in s` holds exactly when p occurs in s at some position |
| Text.DecimalText | backend/app/main.py:76 | `str(n)`: digits whose value is n, starting with '0' only for 0 |
| Outcomes.ExceptionText | backend/app/main.py:76 | `str(e)` of an HTTPException is the status as decimal digits that read back as the status, with no leading zero, then ": " and the detail; an unbound-local error names the variable; other exceptions give their message |
| Schemas.ValidateDieticianResponse | backend/app/schemas.py:21-23 | a scoring reply validates if and only if its score lies in [1,5]; a valid reply is returned unchanged; an invalid one gives a ValidationError |
| Schemas.MakeProductSearchResponse | backend/app/schemas.py:25-36 | construction succeeds if and only if the name and both explanations are present, both scores lie in [1,5] and a given url is an http(s) URL; the fields are stored as given (the url without pydantic's normalization) and the retailer stays unset |
| Schemas.MakeAutocompleteSuggestion | backend/app/schemas.py:38-42 | construction succeeds if and only if the name is present; the fields are carried over with the brand always set |
| Schemas.NonUrlReplies | backend/app/schemas.py:36 | neither "No URL found" nor the empty string is accepted as an HttpUrl |
| Schemas.IsHttpUrl | backend/app/schemas.py:36 | an accepted url is 8 to 2083 characters long and starts with "http" |
| Products.SelectCondition | backend/app/crud.py:179-185 | no tier exactly when no field is truthy; a truthy id selects the id; otherwise a truthy barcode selects the barcode; otherwise a truthy query selects the text search with the normalized, space-free term |
| Products.FirstMatchFrom | backend/app/crud.py:72-79 | the index returned is the first matching row at or after the start, and no row at or after the start matches when none is returned |
| Products.FirstMatch | backend/app/crud.py:72-79 | `.first()` gives the first matching row of the table, and nothing exactly when no row matches |
| Products.FirstMatchIgnoresCache | backend/app/crud.py:72-75 | rewriting cached columns never changes which row a lookup finds |
| Products.CalculateScore | backend/app/crud.py:193-202 | a score is obtained if and only if the agent replies with a score in [1,5]; the explanation is the stripped reply; an agent exception propagates unchanged |
| Products.GetProductUrl | backend/app/crud.py:226-236 | a reply becomes the stripped reply, unchecked; a ValidationError from the agent gives no url; any other exception propagates |
| Products.UrlPrompt | backend/app/crud.py:231 | the url prompt is the name, a space, and "by " with the brand when the brand is truthy |
| Products.BrandOf | backend/app/crud.py:83 | brand_name, else brand_owner, with empty strings treated as missing; none only when both are missing |
| Products.SuggestionBrand | backend/app/crud.py:57 | the brand name when truthy, else the brand owner when truthy, else '' |
| Products.Listed | backend/app/crud.py:89-118 | the written fields, listed once each in visiting order; empty exactly when nothing is written |
| Products.ResolveProcessed | backend/app/crud.py:89-95 | a stored score and explanation are kept; a NULL score takes the score and stripped explanation of calculate_processed_score on the "Ingredients: " prompt, and that call's exception aborts the step |
| Products.ResolveNutrition | backend/app/crud.py:97-103 | the same with the nutrition agent on the "Nutritional Information: " prompt |
| Products.ResolveHealth | backend/app/crud.py:105-110 | stored health issues are kept; NULL ones are the health agent's reply to the ingredients prompt, and its exception aborts the step |
| Products.ResolveUrl | backend/app/crud.py:112-118 | a stored url is kept; a NULL one is get_product_url's result, and its exception aborts the step |
| Products.ResolveRow | backend/app/crud.py:87-118 | exactly the NULL fields are computed; the computed ones are written except a url that is missing or empty; stored values pass through unchanged; computed scores lie in [1,5] |
| Products.ResolveRowSteps | backend/app/crud.py:87-118 | the lookup fails exactly when one of the four steps fails, with the error of the first failing step; otherwise each resolved value is its step's value |
| Products.SetQueryOfFields | backend/app/crud.py:87-116 | the fragments appended for the written fields, in order, make up the terminated assignments of exactly the written columns |
| Products.SetQueryOfParts | backend/app/crud.py:87-116 | set_query accumulated from an empty string, one fragment per field (empty when the field is not written), is the terminated SET clause of the written columns |
| Products.ProcessedFragmentText | backend/app/crud.py:92 | the processed-score fragment is the assignment of its two columns, each followed by ", " |
| Products.NutritionFragmentText | backend/app/crud.py:100 | the nutrition-score fragment is the assignment of its two columns, each followed by ", " |
| Products.HealthAndUrlFragmentTexts | backend/app/crud.py:108-116 | the health-issues and url fragments are their column's assignment followed by ", " |
| Products.RStripTerminated | backend/app/crud.py:122 | stripping ", " from the accumulated assignments gives the comma-joined SET clause with no trailing separator |
| Products.WrittenColumnsArePlain | backend/app/crud.py:122 | when something is written, the last written column ends in a letter, so rstrip stops there |
| Products.UpdateSql | backend/app/crud.py:121-122 | the UPDATE text is the fixed prefix, then the accumulated set_query with its trailing ", " stripped, then the WHERE clause |
| Products.UpdateParams | backend/app/crud.py:123-140 | fdc_id is bound to the row's id; each cached column is bound if and only if its field is written, to the resolved value (the health issues as their JSON document, a missing text as NULL) |
| Products.UpdateParamsKeys | backend/app/crud.py:123-140 | the bound names are exactly fdc_id and the written columns |
| Products.ListedColumns | backend/app/crud.py:87-116 | the written columns are those of the written fields, in visiting order |
| Products.UpdateOf | backend/app/crud.py:120-123 | an UPDATE is issued if and only if some field is written, and it targets the row's fdc_id |
| Products.UpdateOfStatement | backend/app/crud.py:120-140 | the statement issued is "UPDATE products SET " with the accumulated set_query stripped of its trailing ", ", then " WHERE fdc_id = :fdc_id", binding exactly fdc_id and the written columns to their values |
| Products.ApplyParams | backend/app/crud.py:142 | executing the UPDATE on a row changes only its cached columns |
| Products.AppliedColumns | backend/app/crud.py:124-142 | the UPDATE leaves the resolved value in each column of a written field and the old value in every other cached column |
| Products.ApplyUpdate | backend/app/crud.py:142-145 | the table keeps its length; only rows with the bound fdc_id change, and those only in cached columns |
| Products.WriteBackSettles | backend/app/crud.py:87-145 | once a lookup's values are committed, the next lookup of the row consults no agent, writes nothing and resolves the same values, whatever the agents reply, provided the url was settled |
| Products.MissingUrlRetried | backend/app/crud.py:112-116 | a url that was not written leaves the column NULL, so the next lookup consults the url agent again and no other agent |
| Products.WriteBackKeepsCacheWellFormed | backend/app/crud.py:124-134 | committing a lookup's values keeps every stored score in [1,5] and paired with its explanation |
| Products.Respond | backend/app/crud.py:151-163 | the response is built if and only if the description and both explanations are present, both scores lie in [1,5] and any url is an http(s) URL; it is then valid; name, brand, category, scores, explanations, health issues and url come from the row and the resolved values; the ingredients are the stripped text split at ',' and ';' |
| Products.SearchBy | backend/app/crud.py:68-163 | no match gives None with no UPDATE; an agent failure propagates with no UPDATE and the table unchanged; otherwise the answer is the response built from the resolved values, the UPDATE sent is UpdateOf's, and the table changes by it only when it executes and commits |
| Products.WriteFailuresSwallowed | backend/app/crud.py:120-149 | whether the UPDATE executes and commits changes neither the answer nor the statement sent |
| Products.RespondIgnoresCache | backend/app/crud.py:151-163 | the response depends on the row only through its non-cached columns |
| Products.CommittedLookup | backend/app/crud.py:120-149 | after a committed lookup the found row is that row with the UPDATE's written columns applied, and it is still the first match for the same condition |
| Products.RepeatedLookupIsStable | backend/app/crud.py:68-163 | provided the first lookup settled the url, repeating a committed lookup issues no UPDATE, leaves the table unchanged and gives the same answer, whatever the agents now reply |
| Products.StoredNonUrlFails | backend/app/crud.py:117-118 | a lookup that finds a stored url that is not an http(s) URL always fails, with a ValidationError whenever the agents succeed |
| Products.NoUrlReplyPoisonsCache | backend/app/crud.py:226-236 | if the url agent replies "No URL found", that text is written to the row, the row is still the one found, and the lookup fails validation |
| Products.GetProductUrlValidated | backend/app/crud.py:226-236 | the corrected step: a url it returns is always an http(s) URL; a reply that is not one gives no url; exceptions are handled as before |
| Products.NoUrlReplyIsDropped | backend/app/crud.py:226-236 | the corrected step turns "No URL found" into no url, where the code as written returns it as the url |
| Products.SuggestionCategory | backend/app/crud.py:58 | the row's category, or '' when it is missing or empty |
| Products.SuggestionOf | backend/app/crud.py:54-59 | a row becomes a suggestion if and only if it has a description; the suggestion holds the row's fdc_id, description, brand fallback and category fallback; otherwise a ValidationError |
| Products.MapSuggestions | backend/app/crud.py:52-59 | the list succeeds if and only if every row has a description; it then has one suggestion per row, in order, each that row's suggestion |
| Products.Limit | backend/app/crud.py:46 | LIMIT n keeps the first min(n, length) rows |
| Products.SuggestionsFor | backend/app/crud.py:39-66 | at most five suggestions; none when the search fails or one of the first five rows has no description; otherwise one per row among the first five, with its id, description, brand fallback and category fallback |
| Crud.ProductCatalog.SearchProductsBy | backend/app/crud.py:68-163 | the answer, the UPDATE sent and the new table are those of SearchBy on the old table |
| Crud.ProductCatalog.WriteBack | backend/app/crud.py:120-149 | the statement built from set_query is UpdateOf's; the table changes by that UPDATE only when execution and commit succeed |
| Crud.ProductCatalog.SearchProducts | backend/app/crud.py:170-191 | with no truthy field, it raises the unbound-local error, sends nothing and leaves the table unchanged; otherwise it is SearchBy under the selected condition |
| Crud.FillProcessed | backend/app/crud.py:89-95 | the step's result is ResolveProcessed's, and its set_query fragment is present exactly when the score was computed |
| Crud.FillNutrition | backend/app/crud.py:97-103 | the step's result is ResolveNutrition's, and its fragment is present exactly when the score was computed |
| Crud.FillHealth | backend/app/crud.py:105-110 | the step's result is ResolveHealth's, and its fragment is present exactly when the issues were computed |
| Crud.FillUrl | backend/app/crud.py:112-118 | the step's result is ResolveUrl's, and its fragment is present exactly when a non-empty url was computed |
| Crud.FillCache | backend/app/crud.py:87-118 | the four steps give ResolveRow's result, and set_query is the terminated assignments of the written columns |
| Crud.GetAutocompleteSuggestions | backend/app/crud.py:39-66 | the loop's suggestions are SuggestionsFor's: at most five, in search order, none on any failure |
| Main.AutocompleteEndpoint | backend/app/main.py:35-50 | a stripped query shorter than two characters gets no suggestions; a longer one gets the lookup's suggestions for the stripped query, at most five |
| Main.AutocompleteIgnoresPadding | backend/app/main.py:40 | surrounding whitespace does not change the answer |
| Main.SearchAttempt | backend/app/main.py:66-72 | a request with all three fields absent raises the 400; a search that finds nothing raises the 404; a search exception propagates; otherwise the product found is returned |
| Main.ErrorResponse | backend/app/main.py:73-78 | every exception becomes a 500; the detail is the simulated-search one if and only if the exception's text contains "Simulated search error" |
| Main.SearchProductsEndpoint | backend/app/main.py:60-78 | success if and only if some field is present and the search found a product, which is returned unchanged; every failure is a 500 whose detail is "Error during product search." exactly when the exception's text contains "Simulated search error", and "An internal server error occurred." exactly when it does not |
| Main.StatusTextLacks | backend/app/main.py:76 | the text of an HTTP exception holds no character outside digits, ':' and ' ' that its detail lacks |
| Main.EmptyRequestIsInternalError | backend/app/main.py:67-78 | a request with no field is answered 500 "An internal server error occurred.", not 400 |
| Main.NotFoundIsInternalError | backend/app/main.py:70-78 | a search that finds nothing is answered 500 "An internal server error occurred.", not 404 |
| Main.UnboundTextIsNotSimulated | backend/app/main.py:76 | the text of an unbound-local error never contains "Simulated search error" unless the variable's name has an 'S' |
| Main.UnselectedTierIsInternalError | backend/app/crud.py:179-187 | fields that are present but all falsy (an empty query, id 0) select no tier; the unbound-local error NoTierError, which Crud.ProductCatalog.SearchProducts is proved to return then, is answered 500 "An internal server error occurred." |

## Findings

| source | as written | input that shows it | evidently intended | confidence | as-written member | corrected member |
|---|---|---|---|---|---|---|
| backend/app/crud.py:226-236 | the reply is annotated `HttpUrl` but never validated, so any stripped reply is returned as the url | the url agent gives the reply it is instructed to give when it finds nothing, "No URL found", for a product whose url is NULL | a reply that is not a URL is treated as no URL, as the `except ValidationError` handler shows | high; not executed | Products.NoUrlReplyPoisonsCache | Products.GetProductUrlValidated |

With the code as written, "No URL found" is truthy, so it is written to the
url column. The response built from it then fails validation, and the
endpoint answers 500. Because the url is now stored, every later lookup of
that product fails as well (`StoredNonUrlFails`). The lookup model (`ResolveUrl`,
`SearchBy`, `Crud.ProductCatalog.SearchProductsBy`) keeps the code as
written, so that the row-level behaviour above is visible. The corrected
step is proved on its own: `NoUrlReplyIsDropped` shows that it turns this
reply into no url.

## Left out

- SQL text and its execution. The SELECT's WHERE condition is the
  `Condition` datatype, not the interpolated string. Quoting and injection
  through the barcode or query are not modelled.
- Full-text search. `plainto_tsquery` and the database function
  `search_products` are parameters (`textMatch` and `search`). The full
  lookup takes the first match in table order, with no ranking.
- The database session, connection pool, async execution and concurrency.
  Two lookups of the same product running at once are not modelled.
- JSON serialization. The health issues are bound as the structure their
  JSON document encodes.
- The language-model agents. They are opaque functions from prompt to
  outcome. Their prompts, nondeterminism and cost are not modelled.
- Logging and `print`, environment variables, the CORS and FastAPI set-up,
  and `backend/app/core/schemas.py`, which the endpoints import. Response
  re-validation by FastAPI's `response_model` is not modelled.
- A NULL `ingredients` column. It is a string here; in Python its prompt
  would read "Ingredients: None" and `.strip()` would raise an
  AttributeError when the response is built. A NULL `nutrition_info` is
  modelled: it is formatted as "None" in the prompt.
- Text.IsSpace: covers the ASCII and Latin-1 whitespace only, not all of
  Unicode's.
- Text.LowerChar: lower-cases ASCII letters only.
- Schemas.MakeProductSearchResponse: stores the url as given. Pydantic's
  `HttpUrl` normalizes it (for example it lower-cases the host and adds a
  trailing "/" to a bare host), so the response's url can differ from the
  stored one; that normalization is not modelled.
- Schemas.IsHttpUrl: approximates pydantic's URL grammar by scheme, a
  non-empty host start and the 2083-character limit.
- Outcomes.ExceptionText: the text of a ValidationError and of other
  exceptions is a fixed message, not pydantic's or the driver's.
- Crud.ProductCatalog.WriteBack: decides which parameters to bind from the
  written-field flags. The code uses substring tests on `set_query`; they
  agree with the flags because no column name occurs in another field's
  fragment, but that agreement is not proved.
- Products.ApplyUpdate: a failed execute or commit leaves the table as it
  was. The rollback and the logged error are not modelled.
- Main.AutocompleteEndpoint: its `except` branch cannot be reached, since
  the lookup already catches every exception, so it is not modelled.
