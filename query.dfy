/**
 * The pure string logic behind each fetch: the date range
 * (`_getFilterRange`), the `search=` clause (`_getFilterSearch`) and the two
 * URLs of the count/search stage.
 */
module Query {
  import opened Explorers

  /** The prefix every non-empty search clause starts with. */
  const SearchKey: string := "search="

  /**
   * The manifest date with its dashes removed (`replace(/-+/g, '')`): removing
   * every run of dashes is removing every dash, and the other characters keep
   * their order.
   */
  function StripDashes(s: string): (r: string)
    ensures '-' !in r
    ensures |r| <= |s|
  {
    if s == [] then []
    else if s[0] == '-' then StripDashes(s[1..])
    else [s[0]] + StripDashes(s[1..])
  }

  /** Every character other than a dash survives stripping, and nothing else appears. */
  lemma {:induction false} StripDashesKeeps(s: string, c: char)
    requires c != '-'
    ensures c in StripDashes(s) <==> c in s
    decreases |s|
  {
    if s != [] {
      StripDashesKeeps(s[1..], c);
      assert c in s <==> c == s[0] || c in s[1..];
    }
  }

  /** Stripping works piece by piece, so it cannot join or split anything across a boundary. */
  lemma {:induction false} StripDashesAppend(a: string, b: string)
    ensures StripDashes(a + b) == StripDashes(a) + StripDashes(b)
    decreases |a|
  {
    if a != [] {
      assert (a + b)[1..] == a[1..] + b;
      StripDashesAppend(a[1..], b);
    } else {
      assert a + b == b;
    }
  }

  /** A date without dashes is left as it is. */
  lemma {:induction false} StripDashesNoDash(s: string)
    requires '-' !in s
    ensures StripDashes(s) == s
    decreases |s|
  {
    if s != [] {
      assert s[0] in s;
      assert forall c :: c in s[1..] ==> c in s;
      StripDashesNoDash(s[1..]);
      assert [s[0]] + s[1..] == s;
    }
  }

  /** Stripping an already stripped date changes nothing. */
  lemma {:induction false} StripDashesIdempotent(s: string)
    ensures StripDashes(StripDashes(s)) == StripDashes(s)
  {
    StripDashesNoDash(StripDashes(s));
  }

  /** `s` ends with `t`. */
  predicate EndsWith(s: string, t: string)
  {
    |t| <= |s| && s[|s| - |t|..] == t
  }

  /**
   * `_getFilterRange`: empty when the explorer has no date constraint,
   * otherwise `dateConstraint:[start+TO+end]` with `end` the manifest's
   * `last_updated` stripped of dashes.
   */
  function FilterRange(dateConstraint: string, start: string, lastUpdated: string): (r: string)
    ensures r == "" <==> dateConstraint == ""
  {
    if dateConstraint != "" then
      dateConstraint + ":" + "[" + start + "+TO+" + StripDashes(lastUpdated) + "]"
    else
      ""
  }

  /**
   * `_getFilterSearch`: the `search=...&` clause of the query, or nothing.
   * Without a date constraint it carries the search text alone (nothing when
   * the text is empty); with one it always carries the range, conjoined with
   * the text by `+AND+` when there is text.
   */
  function FilterSearch(param: string, range: string, dateConstraint: string): (r: string)
    ensures r == "" <==> dateConstraint == "" && param == ""
  {
    var search := if param != "" then SearchKey + param + "&" else "";
    if dateConstraint != "" then
      (if param != "" then SearchKey + "(" + range + ")" + "+AND+" + param + "&"
       else SearchKey + range + "&")
    else
      search
  }

  /**
   * The shape of a non-empty range: it opens with the constraint field, `:[`,
   * the start date and `+TO+`, and closes with the dash-free manifest date and
   * `]`, nothing in between.
   */
  lemma RangeShape(dateConstraint: string, start: string, lastUpdated: string)
    requires dateConstraint != ""
    ensures var r := FilterRange(dateConstraint, start, lastUpdated);
      && dateConstraint + ":[" + start + "+TO+" <= r
      && EndsWith(r, StripDashes(lastUpdated) + "]")
      && '-' !in r[|r| - |StripDashes(lastUpdated)| - 1..|r| - 1]
      && |r| == |dateConstraint| + |start| + |StripDashes(lastUpdated)| + 7
  {
    var r := FilterRange(dateConstraint, start, lastUpdated);
    var end := StripDashes(lastUpdated);
    assert r[|r| - |end| - 1..|r| - 1] == end;
  }

  /**
   * The shape of a search clause: a non-empty one is framed by `search=` and
   * `&`; the search text, when present, is its last term; a date range, when
   * present, is its first term, parenthesised and joined to the text by
   * `+AND+` when there is text; and nothing else is in it.
   */
  lemma SearchShape(param: string, range: string, dateConstraint: string)
    ensures var r := FilterSearch(param, range, dateConstraint);
      && (r != "" ==> SearchKey <= r && EndsWith(r, "&"))
      && (param != "" ==> EndsWith(r, param + "&"))
      && (dateConstraint == "" && param != "" ==> |r| == |SearchKey| + |param| + 1)
      && (dateConstraint != "" && param == "" ==>
            SearchKey + range + "&" <= r && |r| == |SearchKey| + |range| + 1)
      && (dateConstraint != "" && param != "" ==>
            SearchKey + "(" + range + ")+AND+" <= r && |r| == |SearchKey| + |range| + 7 + |param| + 1)
  {
  }

  /** The API query string before the count parameter (line 171). */
  function BaseUrl(apiLink: string, apiPath: string, search: string): (u: string)
    ensures |u| == |apiLink| + |apiPath| + 6 + |search|
    ensures u[..|apiLink|] == apiLink
    ensures u[|apiLink|..|apiLink| + |apiPath| + 6] == apiPath + ".json?"
    ensures u[|u| - |search|..] == search
  {
    apiLink + apiPath + ".json?" + search
  }

  /** The full query (line 168): the base URL followed by the count parameter. */
  function QueryUrl(apiLink: string, apiPath: string, search: string, countParam: string): (q: string)
    ensures BaseUrl(apiLink, apiPath, search) <= q
    ensures q[|BaseUrl(apiLink, apiPath, search)|..] == "count=" + countParam
  {
    apiLink + apiPath + ".json?" + search + "count=" + countParam
  }

  /** The two URLs fetched together: `base` gives the matching total, `query` the chart data. */
  datatype Urls = Urls(base: string, query: string)

  /**
   * Lines 166-173: from the manifest's `last_updated`, the range, the search
   * clause and then both URLs of the current explorer.
   */
  function FetchUrls(apiLink: string, apiPath: string, start: string, current: Explorer,
                     searchParam: string, countParam: string, lastUpdated: string): (u: Urls)
    ensures u.base <= u.query && u.query[|u.base|..] == "count=" + countParam
    ensures current.dateConstraint == "" && searchParam == "" ==>
      u.base == apiLink + apiPath + ".json?"
    ensures current.dateConstraint == "" && searchParam != "" ==>
      u.base == apiLink + apiPath + ".json?" + SearchKey + searchParam + "&"
    ensures current.dateConstraint != "" ==>
      var range := FilterRange(current.dateConstraint, start, lastUpdated);
      var search := FilterSearch(searchParam, range, current.dateConstraint);
      apiLink + apiPath + ".json?" <= u.base &&
      u.base[|apiLink| + |apiPath| + 6..] == search
  {
    var range := FilterRange(current.dateConstraint, start, lastUpdated);
    var search := FilterSearch(searchParam, range, current.dateConstraint);
    Urls(BaseUrl(apiLink, apiPath, search), QueryUrl(apiLink, apiPath, search, countParam))
  }

  /** The month and day of a manifest date, `03-01`, become `0301`. */
  lemma StripMonthDay(monthDay: string)
    requires monthDay == "03-01"
    ensures StripDashes(monthDay) == "0301"
  {
    assert StripDashes(monthDay[5..]) == "";
    assert StripDashes(monthDay[4..]) == "1";
    assert StripDashes(monthDay[3..]) == "01";
    assert StripDashes(monthDay[2..]) == "01";
    assert StripDashes(monthDay[1..]) == "301";
  }

  /** A manifest date such as `2020-03-01` becomes `20200301`. */
  lemma StripManifestDate(date: string)
    requires date == "2020-03-01"
    ensures StripDashes(date) == "20200301"
  {
    var tail := date[4..];
    assert tail == "-03-01";
    StripMonthDay(tail[1..]);
    assert StripDashes(tail) == "0301";
    assert StripDashes(date[3..]) == "00301";
    assert StripDashes(date[2..]) == "200301";
    assert StripDashes(date[1..]) == "0200301";
  }

  /** The dated clause's pieces, regrouped. */
  lemma DatedClauseText(dateConstraint: string, start: string, end: string, param: string)
    ensures SearchKey + "(" + (dateConstraint + ":" + "[" + start + "+TO+" + end + "]") + ")" + "+AND+" + param + "&"
         == "search=(" + dateConstraint + ":[" + start + "+TO+" + end + "])+AND+" + param + "&"
  {
  }

  /**
   * Composed as in the pipeline, a date-constrained explorer and a non-empty
   * search text give `search=(field:[start+TO+end])+AND+text&`, with `end` the
   * manifest date without its dashes.
   */
  lemma DatedSearchClause(dateConstraint: string, start: string, lastUpdated: string, param: string)
    requires dateConstraint != "" && param != ""
    ensures FilterSearch(param, FilterRange(dateConstraint, start, lastUpdated), dateConstraint)
         == "search=(" + dateConstraint + ":[" + start + "+TO+" + StripDashes(lastUpdated) + "])+AND+" + param + "&"
  {
    var end := StripDashes(lastUpdated);
    var range := FilterRange(dateConstraint, start, lastUpdated);
    assert range == dateConstraint + ":" + "[" + start + "+TO+" + end + "]";
    assert FilterSearch(param, range, dateConstraint) == SearchKey + "(" + range + ")" + "+AND+" + param + "&";
    DatedClauseText(dateConstraint, start, end, param);
  }
}
