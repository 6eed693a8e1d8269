/** The products table and what backend/app/crud.py does with one of its
    rows, as functions of the table and of the agents' replies: which row a
    lookup condition selects, which cached columns are filled by which
    agent, the UPDATE statement that writes them back, what the database
    holds after the statement is committed, and the response assembled from
    the row. The imperative code that performs these steps is in Crud and is
    proved equal to these functions. */
module Products {
  import opened Text
  import opened Outcomes
  import opened Schemas

  /** A row of the products table, reduced to the columns the core reads.
      The last six are the cache the lookup fills. */
  datatype Row = Row(
    fdcId: int,
    gtinUpc: Option<string>,
    description: Option<string>,
    brandName: Option<string>,
    brandOwner: Option<string>,
    brandedFoodCategory: Option<string>,
    ingredients: string,
    nutritionInfo: Option<string>,
    autocomplete: string,   // the text the full-text index is built from
    processedScore: Option<int>,
    processedScoreExplanation: Option<string>,
    nutritionScore: Option<int>,
    nutritionScoreExplanation: Option<string>,
    healthIssues: Option<PotentialHealthIssues>,
    url: Option<string>)

  /** Two rows that agree on everything but the cached columns. */
  predicate SameProduct(a: Row, b: Row) {
    a.(processedScore := None, processedScoreExplanation := None, nutritionScore := None,
       nutritionScoreExplanation := None, healthIssues := None, url := None)
    == b.(processedScore := None, processedScoreExplanation := None, nutritionScore := None,
          nutritionScoreExplanation := None, healthIssues := None, url := None)
  }

  /** Python truthiness of an optional string and of an optional integer. */
  predicate Truthy(s: Option<string>) {
    s.Some? && s.value != ""
  }

  predicate IdTruthy(n: Option<int>) {
    n.Some? && n.value != 0
  }

  // ---------------------------------------------------------------------------
  // Lookup mode

  /** The WHERE condition of a lookup: by catalog id, by barcode, or by the
      full-text index with a normalized search term. */
  datatype Condition = ByFdcId(id: int) | ByGtinUpc(code: string) | ByText(term: string)

  /** The one lookup tier search_products picks: the first truthy field in
      the order fdc_id, gtin_upc, query; none when no field is truthy. */
  function SelectCondition(request: ProductSearchRequest): (c: Option<Condition>)
    ensures c.None? <==> !IdTruthy(request.fdcId) && !Truthy(request.gtinUpc) && !Truthy(request.query)
    ensures IdTruthy(request.fdcId) ==> c == Some(ByFdcId(request.fdcId.value))
    ensures !IdTruthy(request.fdcId) && Truthy(request.gtinUpc) ==> c == Some(ByGtinUpc(request.gtinUpc.value))
    ensures !IdTruthy(request.fdcId) && !Truthy(request.gtinUpc) && Truthy(request.query) ==>
      c == Some(ByText(NormalizeTerm(request.query.value)))
    ensures c.Some? && c.value.ByGtinUpc? ==>
      !IdTruthy(request.fdcId) && request.gtinUpc == Some(c.value.code) && c.value.code != ""
    ensures c.Some? && c.value.ByText? ==>
      && !IdTruthy(request.fdcId) && !Truthy(request.gtinUpc) && request.query.Some?
      && c.value.term == NormalizeTerm(request.query.value)
      && c.value.term != "" && ' ' !in c.value.term
  {
    if IdTruthy(request.fdcId) then Some(ByFdcId(request.fdcId.value))
    else if Truthy(request.gtinUpc) then Some(ByGtinUpc(request.gtinUpc.value))
    else if Truthy(request.query) then Some(ByText(NormalizeTerm(request.query.value)))
    else None
  }
  /** What search_products raises when SelectCondition picks no tier: its
      `if postgres_result:` reads a local that no branch assigned. */
  const NoTierError := UnboundLocalError("postgres_result")


  /** Whether a row satisfies a condition. The full-text match of the
      database is the parameter textMatch(term, indexed text). */
  predicate Matches(c: Condition, row: Row, textMatch: (string, string) -> bool) {
    match c
    case ByFdcId(id) => row.fdcId == id
    case ByGtinUpc(code) => row.gtinUpc == Some(code)
    case ByText(term) => textMatch(term, row.autocomplete)
  }

  /** The position of the first row, at or after `from`, that satisfies c. */
  function FirstMatchFrom(rows: seq<Row>, c: Condition, textMatch: (string, string) -> bool, from: nat)
    : (i: Option<nat>)
    requires from <= |rows|
    ensures i.Some? ==>
      && from <= i.value < |rows| && Matches(c, rows[i.value], textMatch)
      && forall k :: from <= k < i.value ==> !Matches(c, rows[k], textMatch)
    ensures i.None? ==> forall k :: from <= k < |rows| ==> !Matches(c, rows[k], textMatch)
    decreases |rows| - from
  {
    if from == |rows| then None
    else if Matches(c, rows[from], textMatch) then Some(from)
    else FirstMatchFrom(rows, c, textMatch, from + 1)
  }

  /** `.first()` of SELECT * FROM products WHERE c, taking rows in table order. */
  function FirstMatch(rows: seq<Row>, c: Condition, textMatch: (string, string) -> bool): (i: Option<nat>)
    ensures i.Some? ==>
      && i.value < |rows| && Matches(c, rows[i.value], textMatch)
      && forall k :: 0 <= k < i.value ==> !Matches(c, rows[k], textMatch)
    ensures i.None? <==> forall k :: 0 <= k < |rows| ==> !Matches(c, rows[k], textMatch)
  {
    FirstMatchFrom(rows, c, textMatch, 0)
  }

  /** Rewriting cached columns never changes which row a lookup selects. */
  lemma {:induction false} FirstMatchIgnoresCache(
    rows: seq<Row>, rows': seq<Row>, c: Condition, textMatch: (string, string) -> bool, from: nat)
    requires |rows| == |rows'| && from <= |rows|
    requires forall k :: 0 <= k < |rows| ==> SameProduct(rows[k], rows'[k])
    ensures FirstMatchFrom(rows, c, textMatch, from) == FirstMatchFrom(rows', c, textMatch, from)
    decreases |rows| - from
  {
    if from < |rows| {
      var a, b := rows[from], rows'[from];
      assert a.fdcId == b.fdcId && a.gtinUpc == b.gtinUpc && a.autocomplete == b.autocomplete by {
        assert SameProduct(a, b);
      }
      FirstMatchIgnoresCache(rows, rows', c, textMatch, from + 1);
    }
  }

  // ---------------------------------------------------------------------------
  // Agents

  /** The four language-model agents, each a function from its prompt to its
      parsed reply or the exception the call raised. */
  datatype Agents = Agents(
    processedScore: string -> Outcome<DieticianAgentResponse>,
    nutritionScore: string -> Outcome<DieticianAgentResponse>,
    healthIssues: string -> Outcome<PotentialHealthIssues>,
    productUrl: string -> Outcome<string>)

  /** One scoring call: the reply is validated against the response model
      and its explanation stripped; any exception propagates. */
  function CalculateScore(agent: string -> Outcome<DieticianAgentResponse>, prompt: string)
    : (r: Outcome<(int, string)>)
    ensures r.Ok? <==> agent(prompt).Ok? && ValidScore(agent(prompt).value.score)
    ensures r.Ok? ==>
      && ValidScore(r.value.0) && r.value.0 == agent(prompt).value.score
      && r.value.1 == Strip(agent(prompt).value.scoreExplanation)
    ensures agent(prompt).Err? ==> r == Err(agent(prompt).error)
  {
    var reply :- agent(prompt);
    var valid :- ValidateDieticianResponse(reply);
    Ok((valid.score, Strip(valid.scoreExplanation)))
  }

  function ProcessedPrompt(ingredients: string): string {
    "Ingredients: " + ingredients
  }

  /** A NULL nutrition_info is formatted as "None". */
  function NutritionPrompt(nutrients: Option<string>): string {
    "Nutritional Information: " + Show(nutrients)
  }

  /** f"{x}" for an optional string. */
  function Show(s: Option<string>): string {
    if s.Some? then s.value else "None"
  }

  /** f"{name} {f'by {brand}' if brand else ''}" */
  function UrlPrompt(name: Option<string>, brand: Option<string>): (p: string)
    ensures Truthy(brand) ==> p == Show(name) + " by " + brand.value
    ensures !Truthy(brand) ==> p == Show(name) + " "
  {
    Show(name) + " " + (if Truthy(brand) then "by " + brand.value else "")
  }

  /** get_product_url: the agent's reply, stripped. The reply is not checked
      to be a URL; only a ValidationError raised by the call yields None,
      and every other exception propagates. */
  function GetProductUrl(agents: Agents, name: Option<string>, brand: Option<string>)
    : (r: Outcome<Option<string>>)
    ensures var reply := agents.productUrl(UrlPrompt(name, brand));
      && (reply.Ok? ==> r == Ok(Some(Strip(reply.value))))
      && (reply.Err? && reply.error.ValidationError? ==> r == Ok(None))
      && (reply.Err? && !reply.error.ValidationError? ==> r == Err(reply.error))
  {
    match agents.productUrl(UrlPrompt(name, brand))
    case Ok(reply) => Ok(Some(Strip(reply)))
    case Err(ValidationError(_)) => Ok(None)
    case Err(e) => Err(e)
  }

  // ---------------------------------------------------------------------------
  // Brand fallbacks

  /** The brand of a full result: brand_name, else brand_owner, else None
      (empty strings count as missing). */
  function BrandOf(row: Row): (b: Option<string>)
    ensures b.None? <==> !Truthy(row.brandName) && !Truthy(row.brandOwner)
    ensures Truthy(row.brandName) ==> b == row.brandName
    ensures b.Some? ==> b.value != "" && (b == row.brandName || b == row.brandOwner)
  {
    if Truthy(row.brandName) then row.brandName
    else if Truthy(row.brandOwner) then row.brandOwner
    else None
  }

  /** The brand of a suggestion: the same fallback, ending in '' not None. */
  function SuggestionBrand(row: Row): (b: string)
    ensures Truthy(row.brandName) ==> b == row.brandName.value
    ensures !Truthy(row.brandName) && Truthy(row.brandOwner) ==> b == row.brandOwner.value
    ensures !Truthy(row.brandName) && !Truthy(row.brandOwner) ==> b == ""
  {
    if BrandOf(row).Some? then BrandOf(row).value else ""
  }

  // ---------------------------------------------------------------------------
  // Filling the cache

  /** A value taken from the row, or computed by an agent when the row held
      NULL. */
  datatype Cached<T> = Cached(value: T, computed: bool)

  /** The cached fields, in the order the lookup visits them. */
  datatype Field = Processed | Nutrition | Health | Url

  function Rank(f: Field): nat {
    match f
    case Processed => 0
    case Nutrition => 1
    case Health => 2
    case Url => 3
  }

  /** Fields listed in the fixed visiting order, each at most once. */
  predicate InFieldOrder(fs: seq<Field>) {
    forall i, j :: 0 <= i < j < |fs| ==> Rank(fs[i]) < Rank(fs[j])
  }

  /** A choice of cached fields. */
  datatype Fields = Fields(processed: bool, nutrition: bool, health: bool, url: bool) {
    predicate Has(f: Field) {
      match f
      case Processed => processed
      case Nutrition => nutrition
      case Health => health
      case Url => url
    }
  }

  const NoFields := Fields(false, false, false, false)

  function When(b: bool, f: Field): seq<Field> {
    if b then [f] else []
  }

  /** The chosen fields in visiting order. */
  function Listed(fs: Fields): (l: seq<Field>)
    ensures InFieldOrder(l)
    ensures forall f :: f in l <==> fs.Has(f)
    ensures l == [] <==> fs == NoFields
  {
    When(fs.processed, Processed) + When(fs.nutrition, Nutrition) + When(fs.health, Health)
      + When(fs.url, Url)
  }

  function ResolveProcessed(row: Row, agents: Agents): (r: Outcome<Cached<(int, Option<string>)>>)
    ensures r.Ok? ==> (r.value.computed <==> row.processedScore.None?)
    ensures r.Ok? && row.processedScore.Some? ==>
      r.value.value == (row.processedScore.value, row.processedScoreExplanation)
    ensures r.Ok? && row.processedScore.None? ==>
      ValidScore(r.value.value.0) && r.value.value.1.Some?
    ensures row.processedScore.Some? ==> r.Ok?
    ensures row.processedScore.None? ==>
      var scored := CalculateScore(agents.processedScore, ProcessedPrompt(row.ingredients));
      && (scored.Err? ==> r == Err(scored.error))
      && (scored.Ok? ==> r == Ok(Cached((scored.value.0, Some(scored.value.1)), true)))
  {
    if row.processedScore.None? then
      var scored :- CalculateScore(agents.processedScore, ProcessedPrompt(row.ingredients));
      Ok(Cached((scored.0, Some(scored.1)), true))
    else
      Ok(Cached((row.processedScore.value, row.processedScoreExplanation), false))
  }

  function ResolveNutrition(row: Row, agents: Agents): (r: Outcome<Cached<(int, Option<string>)>>)
    ensures r.Ok? ==> (r.value.computed <==> row.nutritionScore.None?)
    ensures r.Ok? && row.nutritionScore.Some? ==>
      r.value.value == (row.nutritionScore.value, row.nutritionScoreExplanation)
    ensures r.Ok? && row.nutritionScore.None? ==>
      ValidScore(r.value.value.0) && r.value.value.1.Some?
    ensures row.nutritionScore.Some? ==> r.Ok?
    ensures row.nutritionScore.None? ==>
      var scored := CalculateScore(agents.nutritionScore, NutritionPrompt(row.nutritionInfo));
      && (scored.Err? ==> r == Err(scored.error))
      && (scored.Ok? ==> r == Ok(Cached((scored.value.0, Some(scored.value.1)), true)))
  {
    if row.nutritionScore.None? then
      var scored :- CalculateScore(agents.nutritionScore, NutritionPrompt(row.nutritionInfo));
      Ok(Cached((scored.0, Some(scored.1)), true))
    else
      Ok(Cached((row.nutritionScore.value, row.nutritionScoreExplanation), false))
  }

  function ResolveHealth(row: Row, agents: Agents): (r: Outcome<Cached<PotentialHealthIssues>>)
    ensures r.Ok? ==> (r.value.computed <==> row.healthIssues.None?)
    ensures r.Ok? && row.healthIssues.Some? ==> r.value.value == row.healthIssues.value
    ensures row.healthIssues.Some? ==> r.Ok?
    ensures row.healthIssues.None? ==>
      var issues := agents.healthIssues(ProcessedPrompt(row.ingredients));
      && (issues.Err? ==> r == Err(issues.error))
      && (issues.Ok? ==> r == Ok(Cached(issues.value, true)))
  {
    if row.healthIssues.None? then
      var issues :- agents.healthIssues(ProcessedPrompt(row.ingredients));
      Ok(Cached(issues, true))
    else
      Ok(Cached(row.healthIssues.value, false))
  }

  function ResolveUrl(row: Row, agents: Agents): (r: Outcome<Cached<Option<string>>>)
    ensures r.Ok? ==> (r.value.computed <==> row.url.None?)
    ensures r.Ok? && row.url.Some? ==> r.value.value == row.url
    ensures row.url.Some? ==> r.Ok?
    ensures row.url.None? ==>
      var url := GetProductUrl(agents, row.description, BrandOf(row));
      && (url.Err? ==> r == Err(url.error))
      && (url.Ok? ==> r == Ok(Cached(url.value, true)))
  {
    if row.url.None? then
      var url :- GetProductUrl(agents, row.description, BrandOf(row));
      Ok(Cached(url, true))
    else
      Ok(Cached(row.url, false))
  }

  /** The values the response is built from, the fields whose agent was
      consulted and the fields that go into the SET clause. */
  datatype Resolved = Resolved(
    processedScore: int,
    processedScoreExplanation: Option<string>,
    nutritionScore: int,
    nutritionScoreExplanation: Option<string>,
    healthIssues: PotentialHealthIssues,
    url: Option<string>,
    computed: Fields,
    written: Fields)

  /** The four cache steps of search_products_by, in order; the first agent
      exception aborts the lookup. A stored value is kept as it is; a NULL
      one is computed, and written back unless it is a url whose stripped
      reply is empty or that could not be obtained. */
  function ResolveRow(row: Row, agents: Agents): (r: Outcome<Resolved>)
    ensures r.Ok? ==> (r.value.computed
      == Fields(row.processedScore.None?, row.nutritionScore.None?, row.healthIssues.None?, row.url.None?))
    ensures r.Ok? ==> r.value.written == r.value.computed.(url := row.url.None? && Truthy(r.value.url))
    ensures r.Ok? && row.processedScore.Some? ==>
      r.value.processedScore == row.processedScore.value
      && r.value.processedScoreExplanation == row.processedScoreExplanation
    ensures r.Ok? && row.nutritionScore.Some? ==>
      r.value.nutritionScore == row.nutritionScore.value
      && r.value.nutritionScoreExplanation == row.nutritionScoreExplanation
    ensures r.Ok? && row.healthIssues.Some? ==> r.value.healthIssues == row.healthIssues.value
    ensures r.Ok? && row.url.Some? ==> r.value.url == row.url
    ensures r.Ok? && row.url.None? ==> GetProductUrl(agents, row.description, BrandOf(row)) == Ok(r.value.url)
    ensures r.Ok? && row.processedScore.None? ==>
      ValidScore(r.value.processedScore) && r.value.processedScoreExplanation.Some?
    ensures r.Ok? && row.nutritionScore.None? ==>
      ValidScore(r.value.nutritionScore) && r.value.nutritionScoreExplanation.Some?
    ensures r.Err? ==>
      row.processedScore.None? || row.nutritionScore.None? || row.healthIssues.None? || row.url.None?
  {
    var p :- ResolveProcessed(row, agents);
    var n :- ResolveNutrition(row, agents);
    var h :- ResolveHealth(row, agents);
    var u :- ResolveUrl(row, agents);
    var computed := Fields(p.computed, n.computed, h.computed, u.computed);
    Ok(Resolved(
      p.value.0, p.value.1, n.value.0, n.value.1, h.value, u.value,
      computed, computed.(url := u.computed && Truthy(u.value))))
  }

  /** ResolveRow is the four steps in order: it fails with the error of the
      first step that fails, and otherwise carries each step's value. */
  lemma ResolveRowSteps(row: Row, agents: Agents)
    ensures var r := ResolveRow(row, agents);
      var p, n, h, u := ResolveProcessed(row, agents), ResolveNutrition(row, agents),
        ResolveHealth(row, agents), ResolveUrl(row, agents);
      && (p.Err? ==> r == Err(p.error))
      && (p.Ok? && n.Err? ==> r == Err(n.error))
      && (p.Ok? && n.Ok? && h.Err? ==> r == Err(h.error))
      && (p.Ok? && n.Ok? && h.Ok? && u.Err? ==> r == Err(u.error))
      && (r.Ok? <==> p.Ok? && n.Ok? && h.Ok? && u.Ok?)
      && (r.Ok? ==>
        && p.value.value == (r.value.processedScore, r.value.processedScoreExplanation)
        && n.value.value == (r.value.nutritionScore, r.value.nutritionScoreExplanation)
        && h.value.value == r.value.healthIssues && u.value.value == r.value.url)
  {
  }

  // ---------------------------------------------------------------------------
  // The UPDATE statement

  /** The table columns each field occupies. */
  function Columns(f: Field): seq<string> {
    match f
    case Processed => ["processed_score", "processed_score_explanation"]
    case Nutrition => ["nutrition_score", "nutrition_score_explanation"]
    case Health => ["health_issues"]
    case Url => ["url"]
  }

  /** The last column a field occupies. */
  function LastColumn(f: Field): string {
    var cs := Columns(f);
    cs[|cs| - 1]
  }

  function ColumnsOf(fs: seq<Field>): seq<string> {
    if fs == [] then [] else Columns(fs[0]) + ColumnsOf(fs[1..])
  }

  /** The columns of a non-empty run of fields end in the last field's last
      column. */
  lemma {:induction false} ColumnsOfLast(fs: seq<Field>)
    requires fs != []
    ensures ColumnsOf(fs) != [] && ColumnsOf(fs)[|ColumnsOf(fs)| - 1] == LastColumn(fs[|fs| - 1])
  {
    if |fs| > 1 {
      ColumnsOfLast(fs[1..]);
      assert fs[1..][|fs| - 2] == fs[|fs| - 1];
    } else {
      assert fs[1..] == [];
    }
  }

  /** The columns a lookup writes, in visiting order. */
  function WrittenColumns(res: Resolved): seq<string> {
    ColumnsOf(Listed(res.written))
  }

  /** "column = :column" */
  function Assignment(column: string): string {
    column + " = :" + column
  }

  /** The assignments of the SET clause joined by ", ". */
  function SetClause(columns: seq<string>): string
    requires columns != []
  {
    if |columns| == 1 then Assignment(columns[0])
    else Assignment(columns[0]) + ", " + SetClause(columns[1..])
  }

  /** The assignments each followed by ", ", as set_query accumulates them. */
  function Terminated(columns: seq<string>): string {
    if columns == [] then "" else Assignment(columns[0]) + ", " + Terminated(columns[1..])
  }

  lemma {:induction false} TerminatedConcat(a: seq<string>, b: seq<string>)
    ensures Terminated(a + b) == Terminated(a) + Terminated(b)
  {
    if a != [] {
      assert (a + b)[1..] == a[1..] + b;
      TerminatedConcat(a[1..], b);
    } else {
      assert a + b == b;
    }
  }

  /** A column name that does not end in a comma or a space. */
  predicate PlainColumn(column: string) {
    column == "" || column[|column| - 1] !in {',', ' '}
  }

  /** Stripping the trailing ", " off the accumulated set_query gives the
      joined SET clause: no trailing comma, every column listed once in
      order. */
  lemma {:induction false} RStripTerminated(columns: seq<string>)
    requires columns != [] && PlainColumn(columns[|columns| - 1])
    ensures RStrip(Terminated(columns), {',', ' '}) == SetClause(columns)
  {
    TerminatedIsClausePlusSeparator(columns);
    SetClauseEndsInColumn(columns);
    RStripSuffix(SetClause(columns), ", ", {',', ' '});
  }

  lemma {:induction false} TerminatedIsClausePlusSeparator(columns: seq<string>)
    requires columns != []
    ensures Terminated(columns) == SetClause(columns) + ", "
  {
    if |columns| > 1 {
      TerminatedIsClausePlusSeparator(columns[1..]);
    } else {
      assert columns[1..] == [];
    }
  }

  lemma {:induction false} SetClauseEndsInColumn(columns: seq<string>)
    requires columns != [] && PlainColumn(columns[|columns| - 1])
    ensures SetClause(columns) != [] && SetClause(columns)[|SetClause(columns)| - 1] !in {',', ' '}
  {
    if |columns| > 1 {
      SetClauseEndsInColumn(columns[1..]);
    } else {
      var a := Assignment(columns[0]);
      if columns[0] == "" {
        assert a == " = :";
      } else {
        assert a[|a| - 1] == columns[0][|columns[0]| - 1];
      }
    }
  }

  /** The text set_query gains when a field is to be written. */
  function SetFragment(f: Field): string {
    Terminated(Columns(f))
  }

  lemma {:induction false} ColumnsOfConcat(a: seq<Field>, b: seq<Field>)
    ensures ColumnsOf(a + b) == ColumnsOf(a) + ColumnsOf(b)
  {
    if a != [] {
      assert (a + b)[1..] == a[1..] + b;
      ColumnsOfConcat(a[1..], b);
    } else {
      assert a + b == b;
    }
  }

  /** The fragment of a field when it is written, else nothing. */
  function FragmentIf(written: bool, f: Field): string {
    if written then SetFragment(f) else ""
  }

  lemma TerminatedWhen(b: bool, f: Field)
    ensures Terminated(ColumnsOf(When(b, f))) == FragmentIf(b, f)
  {
    if b {
      assert ColumnsOf([f]) == Columns(f) + ColumnsOf([]);
      assert Columns(f) + [] == Columns(f);
    }
  }

  /** set_query after the four steps: the fragments of the written fields,
      in visiting order, make up exactly the terminated assignments of the
      written columns. */
  lemma {:induction false} SetQueryOfFields(fs: Fields)
    ensures Terminated(ColumnsOf(Listed(fs)))
      == FragmentIf(fs.processed, Processed) + FragmentIf(fs.nutrition, Nutrition)
         + FragmentIf(fs.health, Health) + FragmentIf(fs.url, Url)
  {
    var p, n, h, u := When(fs.processed, Processed), When(fs.nutrition, Nutrition),
      When(fs.health, Health), When(fs.url, Url);
    assert Listed(fs) == p + n + h + u;
    ColumnsOfConcat(p + n + h, u);
    ColumnsOfConcat(p + n, h);
    ColumnsOfConcat(p, n);
    var cp, cn, ch, cu := ColumnsOf(p), ColumnsOf(n), ColumnsOf(h), ColumnsOf(u);
    assert ColumnsOf(Listed(fs)) == cp + cn + ch + cu;
    TerminatedConcat(cp + cn + ch, cu);
    TerminatedConcat(cp + cn, ch);
    TerminatedConcat(cp, cn);
    var tp, tn, th, tu := Terminated(cp), Terminated(cn), Terminated(ch), Terminated(cu);
    assert Terminated(ColumnsOf(Listed(fs))) == tp + tn + th + tu;
    TerminatedWhen(fs.processed, Processed);
    TerminatedWhen(fs.nutrition, Nutrition);
    TerminatedWhen(fs.health, Health);
    TerminatedWhen(fs.url, Url);
  }

  /** set_query as search_products_by accumulates it, one fragment per
      field, is the SET clause of the written columns plus a trailing ", ". */
  lemma SetQueryOfParts(fs: Fields, processed: string, nutrition: string, health: string, url: string)
    requires processed == FragmentIf(fs.processed, Processed)
    requires nutrition == FragmentIf(fs.nutrition, Nutrition)
    requires health == FragmentIf(fs.health, Health)
    requires url == FragmentIf(fs.url, Url)
    ensures "" + processed + nutrition + health + url == Terminated(ColumnsOf(Listed(fs)))
  {
    SetQueryOfFields(fs);
    assert "" + processed == processed;
  }

  /** The assignments of one field's columns, each followed by ", ". */
  lemma TerminatedPair(first: string, second: string)
    ensures Terminated([first, second]) == Assignment(first) + ", " + Assignment(second) + ", "
  {
    assert [first, second][1..] == [second];
    assert [second][1..] == [];
    var tail := Assignment(second) + ", ";
    assert Terminated([second]) == tail + "";
    assert tail + "" == tail;
    assert Terminated([first, second]) == Assignment(first) + ", " + tail;
  }

  /** The assignment of one score column followed by ", ", as it appears in
      the literal fragments of search_products_by. */
  lemma ProcessedScoreAssignment()
    ensures Assignment("processed_score") + ", " == "processed_score = :processed_score, "
  {
  }

  lemma ProcessedScoreExplanationAssignment()
    ensures Assignment("processed_score_explanation") + ", " == "processed_score_explanation = :processed_score_explanation, "
  {
  }

  lemma NutritionScoreAssignment()
    ensures Assignment("nutrition_score") + ", " == "nutrition_score = :nutrition_score, "
  {
  }

  lemma NutritionScoreExplanationAssignment()
    ensures Assignment("nutrition_score_explanation") + ", " == "nutrition_score_explanation = :nutrition_score_explanation, "
  {
  }

  /** The literal fragments search_products_by appends to set_query are the
      assignments of each field's columns, each followed by ", ". */
  lemma ProcessedFragmentText()
    ensures SetFragment(Processed)
      == "processed_score = :processed_score, " + "processed_score_explanation = :processed_score_explanation, "
  {
    var first, second := "processed_score", "processed_score_explanation";
    TerminatedPair(first, second);
    assert Columns(Processed) == [first, second];
    ProcessedScoreAssignment();
    ProcessedScoreExplanationAssignment();
  }

  lemma NutritionFragmentText()
    ensures SetFragment(Nutrition)
      == "nutrition_score = :nutrition_score, " + "nutrition_score_explanation = :nutrition_score_explanation, "
  {
    var first, second := "nutrition_score", "nutrition_score_explanation";
    TerminatedPair(first, second);
    assert Columns(Nutrition) == [first, second];
    NutritionScoreAssignment();
    NutritionScoreExplanationAssignment();
  }

  lemma HealthAndUrlFragmentTexts()
    ensures SetFragment(Health) == "health_issues = :health_issues, "
    ensures SetFragment(Url) == "url = :url, "
  {
    assert ["health_issues"][1..] == [];
    assert ["url"][1..] == [];
  }

  /** Every cached column ends in a letter, so rstrip(', ') stops at it. */
  lemma WrittenColumnsArePlain(res: Resolved)
    requires res.written != NoFields
    ensures WrittenColumns(res) != [] && PlainColumn(WrittenColumns(res)[|WrittenColumns(res)| - 1])
  {
    ColumnsOfLast(Listed(res.written));
    var last := "processed_score_explanation";
    assert last[|last| - 1] == 'n';
    last := "nutrition_score_explanation";
    assert last[|last| - 1] == 'n';
    last := "health_issues";
    assert last[|last| - 1] == 's';
    last := "url";
    assert last[|last| - 1] == 'l';
  }

  /** A bound parameter of the UPDATE statement. Health issues go as their
      JSON document, represented by the structure it encodes. */
  datatype Param = IntParam(n: int) | TextParam(text: string) | NullParam | JsonParam(issues: PotentialHealthIssues)

  function TextOrNull(s: Option<string>): Param {
    if s.Some? then TextParam(s.value) else NullParam
  }

  datatype UpdateStatement = UpdateStatement(sql: string, params: map<string, Param>)

  /** The UPDATE text: the SET clause of the columns between the fixed parts.
      When the last column is plain, this is the text crud.py builds from the
      accumulated set_query with its trailing ", " stripped. */
  function UpdateSql(columns: seq<string>): (sql: string)
    requires columns != []
    ensures PlainColumn(columns[|columns| - 1]) ==>
      sql == "UPDATE products SET " + RStrip(Terminated(columns), {',', ' '}) + " WHERE fdc_id = :fdc_id"
  {
    var sql := "UPDATE products SET " + SetClause(columns) + " WHERE fdc_id = :fdc_id";
    if PlainColumn(columns[|columns| - 1]) then RStripTerminated(columns); sql else sql
  }

  /** update_params: fdc_id, then the columns of each written field bound
      to the value the lookup resolved. */
  function UpdateParams(fdcId: int, res: Resolved): (m: map<string, Param>)
    ensures "fdc_id" in m && m["fdc_id"] == IntParam(fdcId)
    ensures ("processed_score" in m <==> res.written.processed)
      && ("processed_score_explanation" in m <==> res.written.processed)
    ensures res.written.processed ==>
      && m["processed_score"] == IntParam(res.processedScore)
      && m["processed_score_explanation"] == TextOrNull(res.processedScoreExplanation)
    ensures ("nutrition_score" in m <==> res.written.nutrition)
      && ("nutrition_score_explanation" in m <==> res.written.nutrition)
    ensures res.written.nutrition ==>
      && m["nutrition_score"] == IntParam(res.nutritionScore)
      && m["nutrition_score_explanation"] == TextOrNull(res.nutritionScoreExplanation)
    ensures ("health_issues" in m <==> res.written.health)
      && (res.written.health ==> m["health_issues"] == JsonParam(res.healthIssues))
    ensures ("url" in m <==> res.written.url) && (res.written.url ==> m["url"] == TextOrNull(res.url))
  {
    var start := map["fdc_id" := IntParam(fdcId)];
    var withProcessed :=
      if res.written.processed then
        start["processed_score" := IntParam(res.processedScore)]
             ["processed_score_explanation" := TextOrNull(res.processedScoreExplanation)]
      else start;
    var withNutrition :=
      if res.written.nutrition then
        withProcessed["nutrition_score" := IntParam(res.nutritionScore)]
                     ["nutrition_score_explanation" := TextOrNull(res.nutritionScoreExplanation)]
      else withProcessed;
    var withHealth :=
      if res.written.health then withNutrition["health_issues" := JsonParam(res.healthIssues)]
      else withNutrition;
    if res.written.url then withHealth["url" := TextOrNull(res.url)] else withHealth
  }

  /** The columns of the written fields, in visiting order. */
  lemma {:induction false} ListedColumns(fs: Fields)
    ensures ColumnsOf(Listed(fs))
      == (if fs.processed then Columns(Processed) else []) + (if fs.nutrition then Columns(Nutrition) else [])
         + (if fs.health then Columns(Health) else []) + (if fs.url then Columns(Url) else [])
  {
    var p, n, h, u := When(fs.processed, Processed), When(fs.nutrition, Nutrition),
      When(fs.health, Health), When(fs.url, Url);
    assert Listed(fs) == p + n + h + u;
    ColumnsOfConcat(p + n + h, u);
    ColumnsOfConcat(p + n, h);
    ColumnsOfConcat(p, n);
    forall f: Field
      ensures ColumnsOf([f]) == Columns(f)
    {
      assert ColumnsOf([f]) == Columns(f) + ColumnsOf([]);
    }
  }

  /** update_params binds fdc_id and exactly the written columns. */
  lemma UpdateParamsKeys(fdcId: int, res: Resolved)
    ensures forall x :: x in UpdateParams(fdcId, res) <==> x == "fdc_id" || x in WrittenColumns(res)
  {
    ListedColumns(res.written);
  }

  /** The statement a lookup issues: none when nothing is to be written. */
  function UpdateOf(fdcId: int, res: Resolved): (u: Option<UpdateStatement>)
    ensures u.None? <==> res.written == NoFields
    ensures u.Some? ==> "fdc_id" in u.value.params && u.value.params["fdc_id"] == IntParam(fdcId)
  {
    if res.written == NoFields then None
    else Some(UpdateStatement(UpdateSql(WrittenColumns(res)), UpdateParams(fdcId, res)))
  }

  /** The statement a lookup issues is the UPDATE of crud.py: the
      accumulated set_query with its trailing ", " stripped, and the
      parameters fdc_id and the written columns, each with its value. */
  lemma UpdateOfStatement(fdcId: int, res: Resolved)
    requires res.written != NoFields
    ensures UpdateOf(fdcId, res).Some?
    ensures var u := UpdateOf(fdcId, res).value;
      && u.sql == "UPDATE products SET " + RStrip(Terminated(WrittenColumns(res)), {',', ' '})
        + " WHERE fdc_id = :fdc_id"
      && u.params == UpdateParams(fdcId, res)
      && forall x :: x in u.params <==> x == "fdc_id" || x in WrittenColumns(res)
  {
    WrittenColumnsArePlain(res);
    UpdateParamsKeys(fdcId, res);
  }

  // ---------------------------------------------------------------------------
  // What a committed UPDATE does to the table

  function IntColumn(p: Param): Option<int> {
    if p.IntParam? then Some(p.n) else None
  }

  function TextColumn(p: Param): Option<string> {
    if p.TextParam? then Some(p.text) else None
  }

  function JsonColumn(p: Param): Option<PotentialHealthIssues> {
    if p.JsonParam? then Some(p.issues) else None
  }

  /** SET column = :column for every bound column the cache has. */
  function ApplyParams(row: Row, params: map<string, Param>): (r: Row)
    ensures SameProduct(r, row)
  {
    row.(
      processedScore :=
        if "processed_score" in params then IntColumn(params["processed_score"]) else row.processedScore,
      processedScoreExplanation :=
        if "processed_score_explanation" in params then TextColumn(params["processed_score_explanation"])
        else row.processedScoreExplanation,
      nutritionScore :=
        if "nutrition_score" in params then IntColumn(params["nutrition_score"]) else row.nutritionScore,
      nutritionScoreExplanation :=
        if "nutrition_score_explanation" in params then TextColumn(params["nutrition_score_explanation"])
        else row.nutritionScoreExplanation,
      healthIssues :=
        if "health_issues" in params then JsonColumn(params["health_issues"]) else row.healthIssues,
      url := if "url" in params then TextColumn(params["url"]) else row.url)
  }

  /** Whether the WHERE fdc_id = :fdc_id of a statement selects a row. */
  predicate Targets(params: map<string, Param>, row: Row) {
    "fdc_id" in params && params["fdc_id"] == IntParam(row.fdcId)
  }

  /** UPDATE products SET ... WHERE fdc_id = :fdc_id, committed. */
  function ApplyUpdate(rows: seq<Row>, params: map<string, Param>): (r: seq<Row>)
    ensures |r| == |rows|
    ensures forall k :: 0 <= k < |rows| ==> SameProduct(r[k], rows[k])
    ensures forall k :: 0 <= k < |rows| && !Targets(params, rows[k]) ==> r[k] == rows[k]
  {
    seq(|rows|, k requires 0 <= k < |rows| =>
      if Targets(params, rows[k]) then ApplyParams(rows[k], params) else rows[k])
  }

  /** The row as the committed UPDATE of a lookup leaves it. */
  function WrittenBack(row: Row, res: Resolved): Row {
    ApplyParams(row, UpdateParams(row.fdcId, res))
  }

  /** What the UPDATE of a lookup leaves in each cached column of a row it
      targets: the resolved value of a written field, the old value of any
      other. */
  lemma AppliedColumns(row: Row, fdcId: int, res: Resolved)
    ensures var after := ApplyParams(row, UpdateParams(fdcId, res));
      && after.processedScore == (if res.written.processed then Some(res.processedScore) else row.processedScore)
      && after.processedScoreExplanation
         == (if res.written.processed then res.processedScoreExplanation else row.processedScoreExplanation)
      && after.nutritionScore == (if res.written.nutrition then Some(res.nutritionScore) else row.nutritionScore)
      && after.nutritionScoreExplanation
         == (if res.written.nutrition then res.nutritionScoreExplanation else row.nutritionScoreExplanation)
      && after.healthIssues == (if res.written.health then Some(res.healthIssues) else row.healthIssues)
      && after.url == (if res.written.url then res.url else row.url)
  {
    var params := UpdateParams(fdcId, res);
    assert "processed_score" in params <==> res.written.processed;
    assert "processed_score_explanation" in params <==> res.written.processed;
    assert "nutrition_score" in params <==> res.written.nutrition;
    assert "nutrition_score_explanation" in params <==> res.written.nutrition;
    assert "health_issues" in params <==> res.written.health;
    assert "url" in params <==> res.written.url;
  }

  /** Once the values a lookup wrote are committed, a later lookup of the
      row consults no agent and writes nothing, whatever the agents would
      reply, and resolves the same values, provided the row's url is set. */
  lemma {:induction false} WriteBackSettles(row: Row, agents: Agents, res: Resolved, later: Agents)
    requires ResolveRow(row, agents) == Ok(res)
    requires row.url.Some? || res.written.url
    ensures ResolveRow(WrittenBack(row, res), later) == Ok(res.(computed := NoFields, written := NoFields))
  {
    AppliedColumns(row, row.fdcId, res);
  }

  /** A url that could not be written leaves the row's url NULL, so the next
      lookup consults the url agent again, and no other agent. */
  lemma {:induction false} MissingUrlRetried(row: Row, agents: Agents, res: Resolved, later: Agents)
    requires ResolveRow(row, agents) == Ok(res)
    requires row.url.None? && !res.written.url
    ensures WrittenBack(row, res).url.None?
    ensures var again := ResolveRow(WrittenBack(row, res), later);
      again.Ok? ==> again.value.computed == NoFields.(url := true)
  {
    AppliedColumns(row, row.fdcId, res);
  }

  // ---------------------------------------------------------------------------
  // Invariant of the cache

  /** A stored score lies in [1,5] and comes with its explanation. */
  predicate CacheWellFormed(row: Row) {
    && (row.processedScore.Some? ==> ValidScore(row.processedScore.value) && row.processedScoreExplanation.Some?)
    && (row.nutritionScore.Some? ==> ValidScore(row.nutritionScore.value) && row.nutritionScoreExplanation.Some?)
  }

  /** Committing the values of a lookup keeps every row's cache well formed. */
  lemma {:induction false} WriteBackKeepsCacheWellFormed(rows: seq<Row>, i: nat, agents: Agents, res: Resolved)
    requires i < |rows| && ResolveRow(rows[i], agents) == Ok(res)
    requires forall k :: 0 <= k < |rows| ==> CacheWellFormed(rows[k])
    ensures forall k :: 0 <= k < |rows| ==> CacheWellFormed(ApplyUpdate(rows, UpdateParams(rows[i].fdcId, res))[k])
  {
    var params := UpdateParams(rows[i].fdcId, res);
    forall k | 0 <= k < |rows|
      ensures CacheWellFormed(ApplyUpdate(rows, params)[k])
    {
      if Targets(params, rows[k]) {
        assert ApplyParams(rows[k], params) == ApplyUpdate(rows, params)[k];
        AppliedColumns(rows[k], rows[i].fdcId, res);
      }
    }
  }

  // ---------------------------------------------------------------------------
  // The response

  /** ProductSearchResponse(...) from the row and the resolved values; the
      ingredients are the stripped ingredient text split at ',' and ';'. */
  function Respond(row: Row, res: Resolved): (r: Outcome<ProductSearchResponse>)
    ensures r.Ok? <==>
      && row.description.Some? && res.processedScoreExplanation.Some? && res.nutritionScoreExplanation.Some?
      && ValidScore(res.processedScore) && ValidScore(res.nutritionScore)
      && (res.url.Some? ==> IsHttpUrl(res.url.value))
    ensures r.Ok? ==> ValidResponse(r.value)
    ensures r.Ok? ==>
      && r.value.name == row.description.value
      && r.value.processedScoreExplanation == res.processedScoreExplanation.value
      && r.value.nutritionScoreExplanation == res.nutritionScoreExplanation.value
      && r.value.healthIssues == res.healthIssues
    ensures r.Ok? ==>
      && r.value.ingredients == Split(Strip(row.ingredients))
      && |r.value.ingredients| == |Seps(Strip(row.ingredients))| + 1
      && r.value.brand == BrandOf(row) && r.value.category == row.brandedFoodCategory
      && r.value.processedScore == res.processedScore && r.value.nutritionScore == res.nutritionScore
      && r.value.url == res.url
    ensures res.url.Some? && !IsHttpUrl(res.url.value) ==> r.Err? && r.error.ValidationError?
  {
    MakeProductSearchResponse(
      row.description, BrandOf(row), Split(Strip(row.ingredients)), row.brandedFoodCategory,
      res.processedScore, res.processedScoreExplanation,
      res.nutritionScore, res.nutritionScoreExplanation,
      res.healthIssues, res.url)
  }

  /** What one call of search_products_by leaves behind: its result, the
      UPDATE it issued, and the table afterwards. */
  datatype Lookup = Lookup(
    outcome: Outcome<Option<ProductSearchResponse>>,
    sent: Option<UpdateStatement>,
    rows: seq<Row>)

  /** A found product, or the exception building it raised. */
  function Answer(response: Outcome<ProductSearchResponse>): Outcome<Option<ProductSearchResponse>> {
    match response
    case Ok(p) => Ok(Some(p))
    case Err(e) => Err(e)
  }

  /** search_products_by as a function of the table, the agents and whether
      executing and committing the UPDATE succeed. Failures of either are
      swallowed: the table is then unchanged but the response still carries
      the freshly computed values. */
  function SearchBy(
    rows: seq<Row>, c: Condition, textMatch: (string, string) -> bool, agents: Agents,
    executeOk: bool, commitOk: bool): (l: Lookup)
    ensures |l.rows| == |rows|
    ensures l.outcome.Ok? && l.outcome.value.Some? ==> ValidResponse(l.outcome.value.value)
    ensures l.sent.None? || !executeOk || !commitOk ==> l.rows == rows
    ensures FirstMatch(rows, c, textMatch).None? ==> l == Lookup(Ok(None), None, rows)
    ensures var found := FirstMatch(rows, c, textMatch);
      found.Some? && ResolveRow(rows[found.value], agents).Err? ==>
        l == Lookup(Err(ResolveRow(rows[found.value], agents).error), None, rows)
    ensures var found := FirstMatch(rows, c, textMatch);
      found.Some? && ResolveRow(rows[found.value], agents).Ok? ==>
        var row, res := rows[found.value], ResolveRow(rows[found.value], agents).value;
        && l.outcome == Answer(Respond(row, res))
        && l.sent == UpdateOf(row.fdcId, res)
        && l.rows == if l.sent.Some? && executeOk && commitOk then ApplyUpdate(rows, l.sent.value.params) else rows
  {
    match FirstMatch(rows, c, textMatch)
    case None => Lookup(Ok(None), None, rows)
    case Some(i) =>
      match ResolveRow(rows[i], agents)
      case Err(e) => Lookup(Err(e), None, rows)
      case Ok(res) =>
        var sent := UpdateOf(rows[i].fdcId, res);
        var rows' := if sent.Some? && executeOk && commitOk then ApplyUpdate(rows, sent.value.params) else rows;
        Lookup(Answer(Respond(rows[i], res)), sent, rows')
  }

  /** Whether the UPDATE executes and commits changes only the table: the
      answer and the statement sent are the same either way. */
  lemma WriteFailuresSwallowed(
    rows: seq<Row>, c: Condition, textMatch: (string, string) -> bool, agents: Agents,
    executeOk: bool, commitOk: bool)
    ensures var failed := SearchBy(rows, c, textMatch, agents, executeOk, commitOk);
      var committed := SearchBy(rows, c, textMatch, agents, true, true);
      failed.outcome == committed.outcome && failed.sent == committed.sent
  {
  }

  /** The response depends on the row only through what is not cached. */
  lemma RespondIgnoresCache(a: Row, b: Row, res: Resolved)
    requires SameProduct(a, b)
    ensures Respond(a, res) == Respond(b, res)
  {
    assert a.description == b.description && a.brandName == b.brandName && a.brandOwner == b.brandOwner;
    assert a.ingredients == b.ingredients && a.brandedFoodCategory == b.brandedFoodCategory;
  }

  /** A committed lookup leaves the found row written back and still the
      first match. */
  lemma {:induction false} CommittedLookup(
    rows: seq<Row>, c: Condition, textMatch: (string, string) -> bool, agents: Agents, i: nat, res: Resolved)
    requires FirstMatch(rows, c, textMatch) == Some(i)
    requires ResolveRow(rows[i], agents) == Ok(res)
    ensures var after := SearchBy(rows, c, textMatch, agents, true, true).rows;
      && i < |after| && after[i] == WrittenBack(rows[i], res)
      && FirstMatch(after, c, textMatch) == Some(i)
  {
    var after := SearchBy(rows, c, textMatch, agents, true, true).rows;
    FirstMatchIgnoresCache(rows, after, c, textMatch, 0);
    if res.written == NoFields {
      assert after == rows;
      AppliedColumns(rows[i], rows[i].fdcId, res);
      assert WrittenBack(rows[i], res) == rows[i];
    } else {
      assert after == ApplyUpdate(rows, UpdateParams(rows[i].fdcId, res));
    }
  }

  /** Looking the same product up again after a committed lookup issues no
      UPDATE, leaves the table as it is and answers the same, provided the
      first lookup settled the url. */
  lemma {:induction false} RepeatedLookupIsStable(
    rows: seq<Row>, c: Condition, textMatch: (string, string) -> bool, agents: Agents, later: Agents,
    executeOk: bool, commitOk: bool, i: nat, res: Resolved)
    requires FirstMatch(rows, c, textMatch) == Some(i)
    requires ResolveRow(rows[i], agents) == Ok(res)
    requires rows[i].url.Some? || res.written.url
    ensures var first := SearchBy(rows, c, textMatch, agents, true, true);
      var second := SearchBy(first.rows, c, textMatch, later, executeOk, commitOk);
      second.sent.None? && second.rows == first.rows && second.outcome == first.outcome
  {
    var first := SearchBy(rows, c, textMatch, agents, true, true);
    CommittedLookup(rows, c, textMatch, agents, i, res);
    WriteBackSettles(rows[i], agents, res, later);
    var settled := res.(computed := NoFields, written := NoFields);
    assert ResolveRow(first.rows[i], later) == Ok(settled);
    RespondIgnoresCache(first.rows[i], rows[i], settled);
    assert Respond(first.rows[i], settled) == Respond(rows[i], res);
    assert first.outcome == Answer(Respond(rows[i], res));
  }

  // ---------------------------------------------------------------------------
  // The "No URL found" reply

  /** A lookup that finds a row whose stored url is not an http(s) URL
      fails: the stored url is used as it is, and the response built from
      it does not validate. */
  lemma StoredNonUrlFails(
    rows: seq<Row>, c: Condition, textMatch: (string, string) -> bool, agents: Agents,
    executeOk: bool, commitOk: bool, i: nat)
    requires FirstMatch(rows, c, textMatch) == Some(i)
    requires rows[i].url.Some? && !IsHttpUrl(rows[i].url.value)
    ensures SearchBy(rows, c, textMatch, agents, executeOk, commitOk).outcome.Err?
    ensures ResolveRow(rows[i], agents).Ok? ==>
      SearchBy(rows, c, textMatch, agents, executeOk, commitOk).outcome.error.ValidationError?
  {
  }

  /** The url agent is told to answer "No URL found" when it finds nothing.
      get_product_url does not check the reply, so that answer is written to
      the url column, the row is still the one the lookup finds, and the
      response built from it fails validation. By StoredNonUrlFails, every
      later lookup of the product fails too, whatever the agents reply. */
  lemma {:induction false} NoUrlReplyPoisonsCache(
    rows: seq<Row>, c: Condition, textMatch: (string, string) -> bool, agents: Agents, i: nat)
    requires FirstMatch(rows, c, textMatch) == Some(i)
    requires rows[i].url.None?
    requires agents.productUrl(UrlPrompt(rows[i].description, BrandOf(rows[i]))) == Ok("No URL found")
    ensures ResolveRow(rows[i], agents).Ok? ==>
      && ResolveRow(rows[i], agents).value.url == Some("No URL found")
      && ResolveRow(rows[i], agents).value.written.url
    ensures ResolveRow(rows[i], agents).Ok? ==>
      var first := SearchBy(rows, c, textMatch, agents, true, true);
      && first.outcome.Err? && first.outcome.error.ValidationError?
      && i < |first.rows| && first.rows[i].url == Some("No URL found")
      && FirstMatch(first.rows, c, textMatch) == Some(i)
  {
    if ResolveRow(rows[i], agents).Ok? {
      var res := ResolveRow(rows[i], agents).value;
      NoUrlReplyIsDropped(agents, rows[i].description, BrandOf(rows[i]));
      NonUrlReplies();
      CommittedLookup(rows, c, textMatch, agents, i, res);
      AppliedColumns(rows[i], rows[i].fdcId, res);
    }
  }

  /** get_product_url as its ValidationError handler shows it was meant to
      work: a reply that is not an http(s) URL after stripping counts as no
      URL. */
  function GetProductUrlValidated(agents: Agents, name: Option<string>, brand: Option<string>)
    : (r: Outcome<Option<string>>)
    ensures r.Ok? && r.value.Some? ==> IsHttpUrl(r.value.value)
    ensures var reply := agents.productUrl(UrlPrompt(name, brand));
      && (reply.Ok? && IsHttpUrl(Strip(reply.value)) ==> r == Ok(Some(Strip(reply.value))))
      && (reply.Ok? && !IsHttpUrl(Strip(reply.value)) ==> r == Ok(None))
      && (reply.Err? ==> r == GetProductUrl(agents, name, brand))
  {
    match agents.productUrl(UrlPrompt(name, brand))
    case Ok(reply) => if IsHttpUrl(Strip(reply)) then Ok(Some(Strip(reply))) else Ok(None)
    case Err(ValidationError(_)) => Ok(None)
    case Err(e) => Err(e)
  }

  /** With the validated step the "No URL found" reply leaves the url unset,
      so it is neither written back nor shown, and the response can be
      built. */
  lemma NoUrlReplyIsDropped(agents: Agents, name: Option<string>, brand: Option<string>)
    requires agents.productUrl(UrlPrompt(name, brand)) == Ok("No URL found")
    ensures GetProductUrlValidated(agents, name, brand) == Ok(None)
    ensures GetProductUrl(agents, name, brand) == Ok(Some("No URL found"))
  {
    NoUrlReplyStripped();
    NonUrlReplies();
  }

  /** The reply has no surrounding whitespace. */
  lemma NoUrlReplyStripped()
    ensures Strip("No URL found") == "No URL found"
  {
    var reply := "No URL found";
    assert reply[0] == 'N' && reply[|reply| - 1] == 'd';
    StripUnpadded(reply);
  }

  // ---------------------------------------------------------------------------
  // Autocomplete

  /** The category of a suggestion: the row's, or '' when missing or empty. */
  function SuggestionCategory(row: Row): (r: string)
    ensures Truthy(row.brandedFoodCategory) ==> r == row.brandedFoodCategory.value
    ensures !Truthy(row.brandedFoodCategory) ==> r == ""
  {
    if Truthy(row.brandedFoodCategory) then row.brandedFoodCategory.value else ""
  }

  /** AutocompleteSuggestion(...) of one result row; fails when the row has
      no description. */
  function SuggestionOf(row: Row): (r: Outcome<AutocompleteSuggestion>)
    ensures r.Ok? <==> row.description.Some?
    ensures r.Ok? ==>
      r.value == AutocompleteSuggestion(row.fdcId, row.description.value, Some(SuggestionBrand(row)), SuggestionCategory(row))
    ensures r.Err? ==> r.error.ValidationError?
  {
    MakeAutocompleteSuggestion(row.fdcId, row.description, SuggestionBrand(row), SuggestionCategory(row))
  }

  /** The suggestion list built row by row; the first row that cannot be
      turned into a suggestion raises. */
  function MapSuggestions(rows: seq<Row>): (r: Outcome<seq<AutocompleteSuggestion>>)
    ensures r.Ok? <==> forall k :: 0 <= k < |rows| ==> rows[k].description.Some?
    ensures r.Ok? ==> |r.value| == |rows|
    ensures r.Ok? ==> forall k :: 0 <= k < |rows| ==> SuggestionOf(rows[k]) == Ok(r.value[k])
  {
    if rows == [] then Ok([])
    else
      var init :- MapSuggestions(rows[..|rows| - 1]);
      var last :- SuggestionOf(rows[|rows| - 1]);
      Ok(init + [last])
  }

  /** LIMIT n */
  function Limit<T>(s: seq<T>, n: nat): (r: seq<T>)
    ensures |r| <= n && |r| <= |s| && r == s[..|r|]
    ensures |s| <= n ==> r == s
    ensures |s| >= n ==> |r| == n
  {
    if |s| <= n then s else s[..n]
  }

  const SuggestionLimit: nat := 5

  /** get_autocomplete_suggestions: the first five rows the search function
      returns for the normalized query, each turned into a suggestion; any
      failure, of the search or of one suggestion, gives the empty list. */
  function SuggestionsFor(query: string, search: string -> Outcome<seq<Row>>): (r: seq<AutocompleteSuggestion>)
    ensures |r| <= SuggestionLimit
    ensures search(NormalizeTerm(query)).Err? ==> r == []
    ensures search(NormalizeTerm(query)).Ok? ==>
      var top := Limit(search(NormalizeTerm(query)).value, SuggestionLimit);
      && ((forall k :: 0 <= k < |top| ==> top[k].description.Some?) ==>
        && |r| == |top|
        && forall k :: 0 <= k < |top| ==>
          && r[k].fdcId == top[k].fdcId && Some(r[k].name) == top[k].description
          && r[k].brand == Some(SuggestionBrand(top[k])) && r[k].category == SuggestionCategory(top[k]))
      && ((exists k :: 0 <= k < |top| && top[k].description.None?) ==> r == [])
  {
    match search(NormalizeTerm(query))
    case Err(_) => []
    case Ok(found) =>
      match MapSuggestions(Limit(found, SuggestionLimit))
      case Ok(suggestions) => suggestions
      case Err(_) => []
  }
}
