/**
 * The infographic container: the view state behind the explorer widget and
 * the operations that change it. Each `setState` is an immediate merge into
 * the fields; each `_fetchQueryAndUpdate` is split into the request an
 * operation launches (a `Request`), the URLs built once the download
 * manifest has arrived (`PlanFetch`) and the commit of the two responses
 * (`Commit`, or `CommitFailure` when a request fails).
 */
module Container {
  import opened Wrappers
  import opened Explorers
  import opened Query

  /** A JSON response body, kept opaque: the model never looks inside it. */
  type Json = string

  /** The page's API description (`props.meta`): the dataset's first date and its API path. */
  datatype Meta = Meta(start: string, apiPath: string)

  /** A handler argument: a plain string, or a DOM event carrying `target.value`. */
  datatype Input = Text(text: string) | Event(targetValue: string)

  /** `typeof e === 'string' ? e : e.target.value`. */
  function InputValue(e: Input): (v: string)
  {
    match e
    case Text(s) => s
    case Event(v) => v
  }

  /** The search and count parameters one `_fetchQueryAndUpdate` call is launched with. */
  datatype Request = Request(searchParam: string, countParam: string)

  /** `e.keyCode ? e.keyCode : e.which`, with 0 standing for a missing key code. */
  function KeyCode(keyCode: nat, which: nat): (code: nat)
  {
    if keyCode != 0 then keyCode else which
  }

  /** What a keystroke does: suppress the browser's default action, and launch an update. */
  datatype KeyDecision = KeyDecision(suppressDefault: bool, update: bool)

  /**
   * `_onKeyPress`: space (32) and Enter (13) suppress the default action;
   * only Enter launches an update; every other key is inert.
   */
  function DecideKey(keyCode: nat, which: nat): (d: KeyDecision)
    ensures d.update <==> KeyCode(keyCode, which) == 13
    ensures d.suppressDefault && !d.update <==> KeyCode(keyCode, which) == 32
    ensures d.update ==> d.suppressDefault
  {
    var code := KeyCode(keyCode, which);
    KeyDecision(code == 32 || code == 13, code == 13)
  }

  /**
   * Line 200: the chart type configured for the count field when it is set
   * (truthy), and otherwise the current explorer's own type.
   */
  function ChartTypeFor(fieldsFlattened: map<string, string>, countParam: string, fallback: string): (t: string)
    ensures countParam in fieldsFlattened && fieldsFlattened[countParam] != "" ==> t == fieldsFlattened[countParam]
    ensures countParam !in fieldsFlattened || fieldsFlattened[countParam] == "" ==> t == fallback
  {
    if countParam in fieldsFlattened && fieldsFlattened[countParam] != "" then fieldsFlattened[countParam]
    else fallback
  }

  /** Lines 179-183: the total is captured while it is still 0 and kept afterwards. */
  function NextTotal(recordsTotal: int, baseTotal: int): (t: int)
  {
    if recordsTotal == 0 then baseTotal else recordsTotal
  }

  /** The total after the successful commits of `baseTotals`, in order. */
  function TotalAfter(recordsTotal: int, baseTotals: seq<int>): (t: int)
    decreases |baseTotals|
  {
    if baseTotals == [] then recordsTotal
    else TotalAfter(NextTotal(recordsTotal, baseTotals[0]), baseTotals[1..])
  }

  /** The first non-zero number of a sequence, or 0 when there is none. */
  function FirstNonZero(xs: seq<int>): (x: int)
    decreases |xs|
  {
    if xs == [] then 0 else if xs[0] != 0 then xs[0] else FirstNonZero(xs[1..])
  }

  /**
   * Whatever the order of successful commits, the recorded total is the first
   * non-zero total seen: the one held before, or else the first non-zero base
   * total among the commits.
   */
  lemma {:induction false} TotalIsFirstNonZero(recordsTotal: int, baseTotals: seq<int>)
    ensures TotalAfter(recordsTotal, baseTotals) == FirstNonZero([recordsTotal] + baseTotals)
    decreases |baseTotals|
  {
    if baseTotals == [] {
      assert FirstNonZero([recordsTotal]) == (if recordsTotal != 0 then recordsTotal else FirstNonZero([]));
    } else {
      var next := NextTotal(recordsTotal, baseTotals[0]);
      TotalIsFirstNonZero(next, baseTotals[1..]);
      assert ([recordsTotal] + baseTotals)[1..] == baseTotals;
      assert ([next] + baseTotals[1..])[1..] == baseTotals[1..];
      assert baseTotals == [baseTotals[0]] + baseTotals[1..];
    }
  }

  /** Once a total has been captured, no later commit changes it. */
  lemma {:induction false} TotalIsSticky(recordsTotal: int, baseTotals: seq<int>)
    requires recordsTotal != 0
    ensures TotalAfter(recordsTotal, baseTotals) == recordsTotal
  {
    TotalIsFirstNonZero(recordsTotal, baseTotals);
  }

  class InfographicContainer {
    /** `props.infographics`: the configured explorers, the first one active at start. */
    const explorers: seq<Explorer>
    /** `props.meta`. */
    const meta: Meta
    /** `props.fieldsFlattened`: chart type per count field, "" where none is set. */
    const fieldsFlattened: map<string, string>
    /** `API_LINK`, the API's base address. */
    const apiLink: string

    var countParam: string
    var current: Explorer
    var data: Option<Json>
    var filters: seq<Filter>
    var infographics: map<string, Explorer>
    var matchingRecords: int
    var nextCountParam: string
    var nextSearchParam: string
    var query: string
    var recordsTotal: int
    var searchParam: string
    var selected: string
    /** The state's `type`: which chart to render. */
    var chartType: string

    /** The registry is the one built from the configuration, and the selected explorer is in it. */
    ghost predicate Valid()
      reads this`infographics, this`current, this`selected
    {
      && infographics == RegistryOf(explorers)
      && WellFormedRegistry(infographics)
      && selected in infographics
      && current.short == selected
    }

    /**
     * The constructor: the state's declared defaults, then the first explorer
     * made current, its count field staged and the registry built.
     */
    constructor (explorers: seq<Explorer>, meta: Meta, fieldsFlattened: map<string, string>, apiLink: string)
      requires |explorers| > 0
      ensures Valid()
      ensures this.explorers == explorers && this.meta == meta
      ensures this.fieldsFlattened == fieldsFlattened && this.apiLink == apiLink
      ensures current == explorers[0] && selected == explorers[0].short && filters == explorers[0].filters
      ensures countParam == explorers[0].countParam && nextCountParam == explorers[0].countParam
      ensures searchParam == "" && nextSearchParam == "" && query == ""
      ensures data == None && recordsTotal == 0 && matchingRecords == 0 && chartType == "Line"
    {
      var first := explorers[0];
      var registry := InfographicMap(Some(explorers));
      RegistryWellFormed(explorers);
      RegistryLookup(explorers, first.short);
      this.explorers := explorers;
      this.meta := meta;
      this.fieldsFlattened := fieldsFlattened;
      this.apiLink := apiLink;
      data := None;
      matchingRecords := 0;
      query := "";
      recordsTotal := 0;
      searchParam := "";
      chartType := "Line";
      countParam := first.countParam;
      current := first;
      selected := first.short;
      infographics := registry;
      filters := first.filters;
      nextSearchParam := "";
      nextCountParam := first.countParam;
    }

    /** `componentDidMount`: the first fetch, with no search text and the staged count field. */
    method Mount() returns (req: Request)
      ensures req.searchParam == "" && req.countParam == nextCountParam
    {
      req := Request("", nextCountParam);
    }

    /** Lines 166-173, on the current explorer: the URLs fetched once the manifest date is known. */
    function PlanFetch(searchParam: string, countParam: string, lastUpdated: string): (u: Urls)
      reads this`current
    {
      FetchUrls(apiLink, meta.apiPath, meta.start, current, searchParam, countParam, lastUpdated)
    }

    /** `_onSearchChange`: stages the typed search text; nothing is fetched. */
    method OnSearchChange(e: Input)
      modifies this`nextSearchParam
      ensures nextSearchParam == InputValue(e)
    {
      nextSearchParam := InputValue(e);
    }

    /** `_onCountChange`: echoes the count field being edited into `countParam`; nothing is fetched. */
    method OnCountChange(targetValue: string)
      modifies this`countParam
      ensures countParam == targetValue
    {
      countParam := targetValue;
    }

    /**
     * `_update`: the search text is the argument when it is a string, else
     * the staged one; the count field is the argument's string or event value,
     * else the current `countParam`. Both are staged and fetched.
     */
    method Update(nextSearch: Option<Input>, nextCount: Option<Input>) returns (req: Request)
      modifies this`nextCountParam, this`nextSearchParam
      ensures nextSearchParam ==
        if nextSearch.Some? && nextSearch.value.Text? then nextSearch.value.text else old(nextSearchParam)
      ensures nextCountParam == if nextCount.Some? then InputValue(nextCount.value) else countParam
      ensures req == Request(nextSearchParam, nextCountParam)
    {
      var search := nextSearchParam;
      if nextSearch.Some? && nextSearch.value.Text? {
        search := nextSearch.value.text;
      }
      var count := countParam;
      if nextCount.Some? {
        count := InputValue(nextCount.value);
      }
      nextCountParam, nextSearchParam := count, search;
      req := Request(search, count);
    }

    /**
     * `_onCountChangeAndUpdate`: the new count field is echoed and fetched
     * together with the COMMITTED search text, not the staged one.
     */
    method OnCountChangeAndUpdate(targetValue: string) returns (req: Request)
      modifies this`countParam, this`nextCountParam, this`nextSearchParam
      ensures countParam == targetValue && nextCountParam == targetValue
      ensures nextSearchParam == searchParam
      ensures req == Request(searchParam, targetValue)
    {
      OnCountChange(targetValue);
      req := Update(Some(Text(searchParam)), Some(Text(targetValue)));
    }

    /**
     * `_onKeyPress`: reports whether the default action is suppressed; Enter
     * fetches the staged search text with the current count field.
     */
    method OnKeyPress(keyCode: nat, which: nat) returns (suppressDefault: bool, req: Option<Request>)
      modifies this`nextCountParam, this`nextSearchParam
      ensures suppressDefault == DecideKey(keyCode, which).suppressDefault
      ensures req.Some? <==> DecideKey(keyCode, which).update
      ensures nextSearchParam == old(nextSearchParam)
      ensures nextCountParam == if req.Some? then countParam else old(nextCountParam)
      ensures req.Some? ==> req.value == Request(nextSearchParam, countParam)
    {
      var d := DecideKey(keyCode, which);
      suppressDefault := d.suppressDefault;
      req := None;
      if d.update {
        var r := Update(None, None);
        req := Some(r);
      }
    }

    /**
     * `_tabToggle`: a missing choice does nothing; otherwise the chosen
     * explorer becomes current and is fetched with its first filter's search
     * text and its count field. The captured total is NOT reset, and neither
     * are `filters` nor the committed parameters.
     */
    method TabToggle(choice: Option<Explorer>) returns (req: Option<Request>)
      requires Valid()
      requires choice.Some? ==>
        choice.value.short in infographics && |infographics[choice.value.short].filters| > 0
      modifies this`current, this`selected, this`nextCountParam, this`nextSearchParam
      ensures Valid()
      ensures choice.None? ==> req.None? && unchanged(this)
      ensures choice.Some? ==>
        && selected == choice.value.short
        && current == infographics[selected]
        && nextSearchParam == current.filters[0].searchParam
        && nextCountParam == current.countParam
        && req == Some(Request(nextSearchParam, nextCountParam))
      ensures recordsTotal == old(recordsTotal)
    {
      if choice.None? {
        return None;
      }
      var k := choice.value.short;
      current, selected := infographics[k], k;
      var r := Update(Some(Text(infographics[k].filters[0].searchParam)),
                      Some(Text(infographics[k].countParam)));
      req := Some(r);
    }

    /**
     * The success branch of `_fetchQueryAndUpdate` (lines 175-201): the base
     * query's total becomes the matching count and is captured as the total
     * only while that is still 0; the fetched parameters, the query and the
     * payload are committed; the chart type follows the count field. The
     * query is the URL built from the committed search text and count field
     * for `planned`, the explorer that was current when the manifest
     * answered, and its `lastUpdated` (line 168).
     */
    method Commit(searchParam: string, countParam: string, query: string, baseTotal: int, payload: Json,
                  ghost planned: Explorer, ghost lastUpdated: string)
      requires query == FetchUrls(apiLink, meta.apiPath, meta.start, planned, searchParam, countParam, lastUpdated).query
      modifies this`recordsTotal, this`matchingRecords, this`searchParam, this`data,
               this`countParam, this`query, this`chartType
      ensures recordsTotal == NextTotal(old(recordsTotal), baseTotal)
      ensures old(recordsTotal) != 0 ==> recordsTotal == old(recordsTotal)
      ensures matchingRecords == baseTotal && data == Some(payload)
      ensures this.searchParam == searchParam && this.countParam == countParam && this.query == query
      ensures apiLink + meta.apiPath + ".json?" <= this.query && EndsWith(this.query, "count=" + countParam)
      ensures chartType == ChartTypeFor(fieldsFlattened, countParam, current.chartType)
    {
      if recordsTotal == 0 {
        recordsTotal := baseTotal;
      }
      matchingRecords := baseTotal;
      this.searchParam := searchParam;
      data := Some(payload);
      this.countParam := countParam;
      this.query := query;
      chartType := ChartTypeFor(fieldsFlattened, countParam, current.chartType);
    }

    /** The failure branch (lines 202-204): only the payload slot changes, to the error body if any. */
    method CommitFailure(errBody: Option<Json>)
      modifies this`data
      ensures data == errBody
    {
      data := errBody;
    }
  }

  /**
   * A page with one undated explorer: the mount fetch captures the total,
   * an Enter after typing `aspirin` searches for it, and the total stays.
   */
  method MountThenSearch(lastUpdated: string, payload: Json)
  {
    var imprint := Explorer("imprint", "dosage_form.exact", "", [Filter("", "All")], "Bar");
    var c := new InfographicContainer([imprint], Meta("20190101", "drug/imprint"), map[], "https://api.fda.gov/");
    var req := c.Mount();
    assert req == Request("", "dosage_form.exact");
    var urls := c.PlanFetch(req.searchParam, req.countParam, lastUpdated);
    c.Commit(req.searchParam, req.countParam, urls.query, 500, payload, c.current, lastUpdated);
    assert c.recordsTotal == 500 && c.matchingRecords == 500 && c.countParam == "dosage_form.exact";

    c.OnSearchChange(Event("aspirin"));
    var suppress, next := c.OnKeyPress(13, 0);
    assert suppress && next == Some(Request("aspirin", "dosage_form.exact"));
    urls := c.PlanFetch(next.value.searchParam, next.value.countParam, lastUpdated);
    c.Commit(next.value.searchParam, next.value.countParam, urls.query, 20, payload, c.current, lastUpdated);
    assert c.searchParam == "aspirin" && c.matchingRecords == 20 && c.recordsTotal == 500;
  }

  /** Switching tabs stages the new explorer's defaults but keeps the first explorer's total. */
  method SwitchTab(lastUpdated: string, payload: Json)
  {
    var a := Explorer("imprint", "dosage_form.exact", "", [Filter("", "All")], "Bar");
    var b := Explorer("labels", "openfda.route.exact", "effective_time", [Filter("openfda.route:ORAL", "Oral")], "Pie");
    var c := new InfographicContainer([a, b], Meta("20090601", "drug/label"), map["openfda.route.exact" := ""], "https://api.fda.gov/");
    var urls := c.PlanFetch("", "dosage_form.exact", lastUpdated);
    c.Commit("", "dosage_form.exact", urls.query, 500, payload, c.current, lastUpdated);
    assert c.Valid();
    RegistryFindsLast([a, b], 1);
    var req := c.TabToggle(Some(b));
    assert req == Some(Request("openfda.route:ORAL", "openfda.route.exact"));
    urls := c.PlanFetch(req.value.searchParam, req.value.countParam, lastUpdated);
    c.Commit(req.value.searchParam, req.value.countParam, urls.query, 80, payload, c.current, lastUpdated);
    assert c.recordsTotal == 500 && c.matchingRecords == 80 && c.chartType == "Pie";
  }
}
