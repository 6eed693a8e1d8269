/** The database-facing operations of backend/app/crud.py over a products
    table held in memory: the lookup that fills the cached columns and
    writes them back, the choice of lookup tier, and the autocomplete
    query. */
module Crud {
  import opened Text
  import opened Outcomes
  import opened Schemas
  import opened Products

  /** The products table. */
  class ProductCatalog {
    var rows: seq<Row>

    constructor(initial: seq<Row>)
      ensures rows == initial
    {
      rows := initial;
    }

    /** search_products_by: find the first matching row, compute the cached
        columns it lacks, issue one UPDATE for those to be written (its
        failures are swallowed), and build the response. `sent` is the
        UPDATE issued, if any; executeOk and commitOk say whether executing
        and committing it succeed. */
    method SearchProductsBy(
      c: Condition, textMatch: (string, string) -> bool, agents: Agents, executeOk: bool, commitOk: bool)
      returns (result: Outcome<Option<ProductSearchResponse>>, sent: Option<UpdateStatement>)
      modifies this
      ensures var l := SearchBy(old(rows), c, textMatch, agents, executeOk, commitOk);
        result == l.outcome && sent == l.sent && rows == l.rows
    {
      var found := FirstMatch(rows, c, textMatch);
      if found.None? {
        return Ok(None), None;
      }
      var row := rows[found.value];
      var resolved, setQuery := FillCache(row, agents);
      if resolved.Err? {
        return Err(resolved.error), None;
      }
      var res := resolved.value;
      sent := WriteBack(row.fdcId, res, setQuery, executeOk, commitOk);

      var response := MakeProductSearchResponse(
        row.description, BrandOf(row), Split(Strip(row.ingredients)), row.brandedFoodCategory,
        res.processedScore, res.processedScoreExplanation, res.nutritionScore, res.nutritionScoreExplanation,
        res.healthIssues, res.url);
      if response.Err? {
        return Err(response.error), sent;
      }
      result := Ok(Some(response.value));
    }

    /** The try block of search_products_by: when set_query is not empty,
        the UPDATE of the accumulated columns, executed and committed. */
    method WriteBack(fdcId: int, res: Resolved, setQuery: string, executeOk: bool, commitOk: bool)
      returns (sent: Option<UpdateStatement>)
      requires setQuery == Terminated(WrittenColumns(res))
      modifies this
      ensures sent == UpdateOf(fdcId, res)
      ensures rows == if sent.Some? && executeOk && commitOk then ApplyUpdate(old(rows), sent.value.params) else old(rows)
    {
      if setQuery == "" {
        assert res.written == NoFields;
        return None;
      }
      var updateQuery := "UPDATE products SET " + RStrip(setQuery, {',', ' '}) + " WHERE fdc_id = :fdc_id";
      var updateParams := map["fdc_id" := IntParam(fdcId)];
      if res.written.processed {
        updateParams := updateParams["processed_score" := IntParam(res.processedScore)]
          ["processed_score_explanation" := TextOrNull(res.processedScoreExplanation)];
      }
      if res.written.nutrition {
        updateParams := updateParams["nutrition_score" := IntParam(res.nutritionScore)]
          ["nutrition_score_explanation" := TextOrNull(res.nutritionScoreExplanation)];
      }
      if res.written.health {
        updateParams := updateParams["health_issues" := JsonParam(res.healthIssues)];
      }
      if res.written.url {
        updateParams := updateParams["url" := TextOrNull(res.url)];
      }
      WrittenColumnsArePlain(res);
      sent := Some(UpdateStatement(updateQuery, updateParams));
      if executeOk && commitOk {
        rows := ApplyUpdate(rows, updateParams);
      }
    }

    /** search_products: the lookup tier of the first truthy request field.
        With none, `postgres_result` is read before it is ever assigned and
        the call raises. A found product is returned as it is. */
    method SearchProducts(
      request: ProductSearchRequest, textMatch: (string, string) -> bool, agents: Agents,
      executeOk: bool, commitOk: bool)
      returns (result: Outcome<Option<ProductSearchResponse>>, sent: Option<UpdateStatement>)
      modifies this
      ensures SelectCondition(request).None? ==>
        result == Err(NoTierError) && sent.None? && rows == old(rows)
      ensures SelectCondition(request).Some? ==>
        var l := SearchBy(old(rows), SelectCondition(request).value, textMatch, agents, executeOk, commitOk);
        result == l.outcome && sent == l.sent && rows == l.rows
    {
      if IdTruthy(request.fdcId) {
        result, sent := SearchProductsBy(ByFdcId(request.fdcId.value), textMatch, agents, executeOk, commitOk);
      } else if Truthy(request.gtinUpc) {
        result, sent := SearchProductsBy(ByGtinUpc(request.gtinUpc.value), textMatch, agents, executeOk, commitOk);
      } else if Truthy(request.query) {
        var term := NormalizeTerm(request.query.value);
        result, sent := SearchProductsBy(ByText(term), textMatch, agents, executeOk, commitOk);
      } else {
        return Err(NoTierError), None;
      }
    }
  }

  /** The processing-score step: a stored score is kept; a missing one is
      computed, and the assignments of its two columns are the fragment
      for set_query. */
  method FillProcessed(row: Row, agents: Agents)
    returns (step: Outcome<Cached<(int, Option<string>)>>, fragment: string)
    ensures step == ResolveProcessed(row, agents)
    ensures step.Ok? ==> fragment == FragmentIf(step.value.computed, Processed)
  {
    if row.processedScore.None? {
      var scored := CalculateScore(agents.processedScore, ProcessedPrompt(row.ingredients));
      if scored.Err? {
        return Err(scored.error), "";
      }
      ProcessedFragmentText();
      step := Ok(Cached((scored.value.0, Some(scored.value.1)), true));
      fragment := "processed_score = :processed_score, " + "processed_score_explanation = :processed_score_explanation, ";
    } else {
      step := Ok(Cached((row.processedScore.value, row.processedScoreExplanation), false));
      fragment := "";
    }
  }

  /** The nutrition-score step, like the processing-score one. */
  method FillNutrition(row: Row, agents: Agents)
    returns (step: Outcome<Cached<(int, Option<string>)>>, fragment: string)
    ensures step == ResolveNutrition(row, agents)
    ensures step.Ok? ==> fragment == FragmentIf(step.value.computed, Nutrition)
  {
    if row.nutritionScore.None? {
      var scored := CalculateScore(agents.nutritionScore, NutritionPrompt(row.nutritionInfo));
      if scored.Err? {
        return Err(scored.error), "";
      }
      NutritionFragmentText();
      step := Ok(Cached((scored.value.0, Some(scored.value.1)), true));
      fragment := "nutrition_score = :nutrition_score, " + "nutrition_score_explanation = :nutrition_score_explanation, ";
    } else {
      step := Ok(Cached((row.nutritionScore.value, row.nutritionScoreExplanation), false));
      fragment := "";
    }
  }

  /** The health-issues step. */
  method FillHealth(row: Row, agents: Agents)
    returns (step: Outcome<Cached<PotentialHealthIssues>>, fragment: string)
    ensures step == ResolveHealth(row, agents)
    ensures step.Ok? ==> fragment == FragmentIf(step.value.computed, Health)
  {
    if row.healthIssues.None? {
      var issues := agents.healthIssues(ProcessedPrompt(row.ingredients));
      if issues.Err? {
        return Err(issues.error), "";
      }
      HealthAndUrlFragmentTexts();
      step := Ok(Cached(issues.value, true));
      fragment := "health_issues = :health_issues, ";
    } else {
      step := Ok(Cached(row.healthIssues.value, false));
      fragment := "";
    }
  }

  /** The url step: a url that comes back empty, or not at all, is not
      written. */
  method FillUrl(row: Row, agents: Agents)
    returns (step: Outcome<Cached<Option<string>>>, fragment: string)
    ensures step == ResolveUrl(row, agents)
    ensures step.Ok? ==> fragment == FragmentIf(step.value.computed && Truthy(step.value.value), Url)
  {
    if row.url.None? {
      var url := GetProductUrl(agents, row.description, BrandOf(row));
      if url.Err? {
        return Err(url.error), "";
      }
      step := Ok(Cached(url.value, true));
      fragment := "";
      if Truthy(url.value) {
        HealthAndUrlFragmentTexts();
        fragment := "url = :url, ";
      }
    } else {
      step := Ok(Cached(row.url, false));
      fragment := "";
    }
  }

  /** The four cache steps of search_products_by in order, accumulating
      set_query; the first agent exception propagates. */
  method FillCache(row: Row, agents: Agents) returns (resolved: Outcome<Resolved>, setQuery: string)
    ensures resolved == ResolveRow(row, agents)
    ensures resolved.Ok? ==> setQuery == Terminated(WrittenColumns(resolved.value))
  {
    setQuery := "";
    var processed, processedPart := FillProcessed(row, agents);
    if processed.Err? {
      return Err(processed.error), "";
    }
    setQuery := setQuery + processedPart;
    var nutrition, nutritionPart := FillNutrition(row, agents);
    if nutrition.Err? {
      return Err(nutrition.error), "";
    }
    setQuery := setQuery + nutritionPart;
    var health, healthPart := FillHealth(row, agents);
    if health.Err? {
      return Err(health.error), "";
    }
    setQuery := setQuery + healthPart;
    var url, urlPart := FillUrl(row, agents);
    if url.Err? {
      return Err(url.error), "";
    }
    setQuery := setQuery + urlPart;

    var computed := Fields(processed.value.computed, nutrition.value.computed, health.value.computed, url.value.computed);
    var res := Resolved(
      processed.value.value.0, processed.value.value.1, nutrition.value.value.0, nutrition.value.value.1,
      health.value.value, url.value.value, computed, computed.(url := url.value.computed && Truthy(url.value.value)));
    assert ResolveRow(row, agents) == Ok(res);
    SetQueryOfParts(res.written, processedPart, nutritionPart, healthPart, urlPart);
    resolved := Ok(res);
  }

  /** get_autocomplete_suggestions: at most five rows of the search function
      for the normalized query, each turned into a suggestion; the first
      failure ends the call with no suggestions. */
  method GetAutocompleteSuggestions(query: string, search: string -> Outcome<seq<Row>>)
    returns (suggestions: seq<AutocompleteSuggestion>)
    ensures suggestions == SuggestionsFor(query, search)
  {
    var result := search(NormalizeTerm(query));
    if result.Err? {
      return [];
    }
    var rows := Limit(result.value, SuggestionLimit);
    suggestions := [];
    var i := 0;
    while i < |rows|
      invariant 0 <= i <= |rows|
      invariant MapSuggestions(rows[..i]) == Ok(suggestions)
    {
      var suggestion := SuggestionOf(rows[i]);
      if suggestion.Err? {
        return [];
      }
      assert rows[..i + 1][..i] == rows[..i];
      suggestions := suggestions + [suggestion.value];
      i := i + 1;
    }
    assert rows[..i] == rows;
  }
}
