/** The openFDA drug-enforcement client (third_party/openfda/client.py):
    search composition, parameter building and clamping, and the reading
    of replies. The HTTP GET itself is the abstract function `api`. */
module OpenFda {
  import opened Wrappers
  import opened Strings
  import opened Transforms

  /** A query-string value: the client sends integers and strings. */
  datatype ParamValue = IntParam(i: int) | TextParam(s: string)

  /** The query parameters of one GET. */
  type Params = map<string, ParamValue>

  /** One facet bucket `{term, count}`; None stands for absent or null. */
  datatype Bucket = Bucket(term: Option<string>, count: Option<int>)

  /** The `results` list of a reply: records in search mode, buckets in
      count mode. */
  datatype Results = Records(records: seq<RawRecord>) | Buckets(buckets: seq<Bucket>)

  /** `meta`, of which the assistant reads only `meta.results.total`; None
      stands for a missing `meta`, `results` or `total` (or a null one). */
  datatype Meta = Meta(total: Option<int>)

  /** A parsed JSON reply; `results` is None when missing or null. */
  datatype Reply = Reply(results: Option<Results>, meta: Meta)

  /** Python truthiness of an optional string: present and non-empty. */
  predicate Truthy(o: Option<string>) {
    o.Some? && o.value != ""
  }

  /** `max(lo, min(x, hi))`. */
  function Clamp(x: int, lo: int, hi: int): (r: int)
    requires lo <= hi
    ensures lo <= r <= hi
    ensures lo <= x <= hi ==> r == x
    ensures x < lo ==> r == lo
    ensures x > hi ==> r == hi
  {
    if x < lo then lo else if x > hi then hi else x
  }

  lemma ClampIdempotent(x: int, lo: int, hi: int)
    requires lo <= hi
    ensures Clamp(Clamp(x, lo, hi), lo, hi) == Clamp(x, lo, hi)
  {
  }

  function ClassificationClause(c: string): string {
    "classification:\"" + c + "\""
  }

  /** `_compose_search`: the classification clause (when given) ANDed
      before the query (when given); None when both are empty or None. */
  function ComposeSearch(query: Option<string>, classification: Option<string>): (r: Option<string>)
    ensures r.None? <==> !Truthy(query) && !Truthy(classification)
    ensures r.Some? ==> r.value != ""
    ensures Truthy(classification) && Truthy(query) ==>
              r == Some(ClassificationClause(classification.value) + " AND " + query.value)
    ensures Truthy(classification) && !Truthy(query) ==> r == Some(ClassificationClause(classification.value))
    ensures !Truthy(classification) && Truthy(query) ==> r == query
  {
    var terms := (if Truthy(classification) then [ClassificationClause(classification.value)] else [])
                 + (if Truthy(query) then [query.value] else []);
    if terms == [] then None
    else
      assert |terms| == 2 ==> Join(terms, " AND ") == terms[0] + " AND " + terms[1] by {
        if |terms| == 2 { JoinPair(terms[0], terms[1], " AND "); }
      }
      Some(Join(terms, " AND "))
  }

  /** The parameters `search_enforcements` sends: `limit` clamped to
      [1, 100], `skip` clamped to at least 0, `search` exactly when the
      composed search is non-empty, `sort` exactly when it is truthy, and
      nothing else. */
  function SearchParams(query: Option<string>, classification: Option<string>,
                        limit: int, skip: int, sort: Option<string>): (p: Params)
    ensures p.Keys == {"limit", "skip"}
                      + (if ComposeSearch(query, classification).Some? then {"search"} else {})
                      + (if Truthy(sort) then {"sort"} else {})
    ensures p["limit"] == IntParam(Clamp(limit, 1, 100))
    ensures p["skip"] == IntParam(if skip < 0 then 0 else skip)
    ensures "search" in p ==> p["search"] == TextParam(ComposeSearch(query, classification).value)
    ensures "sort" in p ==> p["sort"] == TextParam(sort.value)
  {
    var base := map["limit" := IntParam(Clamp(limit, 1, 100)), "skip" := IntParam(if skip < 0 then 0 else skip)];
    var withSearch := match ComposeSearch(query, classification)
                      case Some(s) => base["search" := TextParam(s)]
                      case None => base;
    if Truthy(sort) then withSearch["sort" := TextParam(sort.value)] else withSearch
  }

  /** The parameters `count_buckets` sends: `count=<field>.exact`, plus
      `search` only when one is given. */
  function CountParams(field: string, search: Option<string>): (p: Params)
    ensures p.Keys == {"count"} + (if Truthy(search) then {"search"} else {})
    ensures p["count"] == TextParam(field + ".exact")
    ensures "search" in p ==> p["search"] == TextParam(search.value)
  {
    var base := map["count" := TextParam(field + ".exact")];
    if Truthy(search) then base["search" := TextParam(search.value)] else base
  }

  const NewestFirst := "recall_initiation_date:desc"

  /** The parameters `get_recent_enforcements` sends. */
  function RecentParams(limit: int): Params {
    SearchParams(None, None, Clamp(limit, 1, 100), 0, Some(NewestFirst))
  }

  /** `get_recent_enforcements` always sorts newest first, never searches,
      skips nothing and asks for between 1 and 100 records. */
  lemma RecentParamsShape(limit: int)
    ensures RecentParams(limit) == map["limit" := IntParam(Clamp(limit, 1, 100)),
                                       "skip" := IntParam(0),
                                       "sort" := TextParam(NewestFirst)]
  {
    var p := RecentParams(limit);
    ClampIdempotent(limit, 1, 100);
    assert p.Keys == {"limit", "skip", "sort"};
  }

  /** `data.get("results", []) or []` read as records. A bucket object has
      none of the record fields, so it reads as an empty record. */
  function RecordsOf(reply: Reply): (rs: seq<RawRecord>)
    ensures reply.results.None? ==> rs == []
    ensures reply.results.Some? ==> |rs| == |ResultsList(reply.results.value)|
  {
    match reply.results
    case None => []
    case Some(Records(rs)) => rs
    case Some(Buckets(bs)) => seq(|bs|, _ => map[])
  }

  /** `data.get("results", []) or []` read as buckets. A record object has
      no `term` or `count`, so it reads as an empty bucket. */
  function BucketsOf(reply: Reply): (bs: seq<Bucket>)
    ensures reply.results.None? ==> bs == []
    ensures reply.results.Some? ==> |bs| == |ResultsList(reply.results.value)|
  {
    match reply.results
    case None => []
    case Some(Buckets(bs)) => bs
    case Some(Records(rs)) => seq(|rs|, _ => Bucket(None, None))
  }

  /** The JSON list behind `results`, as a list of its length. */
  function ResultsList(r: Results): seq<()> {
    match r
    case Records(rs) => seq(|rs|, _ => ())
    case Buckets(bs) => seq(|bs|, _ => ())
  }

  /** `int(((meta.get("results") or {}).get("total")) or 0)`. */
  function TotalOf(reply: Reply): int {
    reply.meta.total.GetOr(0)
  }

  /** The client. Its only state is the connection it was built with, which
      is never replaced; `log` records every GET it has issued, so that the
      number and order of remote calls can be stated. */
  class Client {
    const api: Params -> Result<Reply>
    ghost var log: seq<Params>

    constructor (api: Params -> Result<Reply>)
      ensures this.api == api && log == []
    {
      this.api := api;
      log := [];
    }

    /** `_http_get`: one request, no retry; a failure is returned as an
        error. */
    method HttpGet(params: Params) returns (r: Result<Reply>)
      modifies this
      ensures log == old(log) + [params]
      ensures r == api(params)
    {
      log := log + [params];
      r := api(params);
    }

    /** `search_enforcements`. */
    method SearchEnforcements(query: Option<string> := None, classification: Option<string> := None,
                              limit: int := 10, skip: int := 0, sort: Option<string> := None)
      returns (r: Result<Reply>)
      modifies this
      ensures log == old(log) + [SearchParams(query, classification, limit, skip, sort)]
      ensures r == api(SearchParams(query, classification, limit, skip, sort))
    {
      var lim := if limit > 100 then 100 else limit;
      lim := if lim < 1 then 1 else lim;
      var params: Params := map["limit" := IntParam(lim), "skip" := IntParam(if skip < 0 then 0 else skip)];
      var search := ComposeSearch(query, classification);
      if search.Some? && search.value != "" {
        params := params["search" := TextParam(search.value)];
      }
      if sort.Some? && sort.value != "" {
        params := params["sort" := TextParam(sort.value)];
      }
      r := HttpGet(params);
    }

    /** `count_buckets`: the facet buckets as the API orders them, [] when
        `results` is missing or null. */
    method CountBuckets(field: string, search: Option<string> := None) returns (r: Result<seq<Bucket>>)
      modifies this
      ensures log == old(log) + [CountParams(field, search)]
      ensures api(CountParams(field, search)).Err? ==> r == Err(api(CountParams(field, search)).error)
      ensures api(CountParams(field, search)).Ok? ==> r == Ok(BucketsOf(api(CountParams(field, search)).value))
    {
      var params: Params := map["count" := TextParam(field + ".exact")];
      if search.Some? && search.value != "" {
        params := params["search" := TextParam(search.value)];
      }
      var data := HttpGet(params);
      match data
      case Err(e) => r := Err(e);
      case Ok(reply) => r := Ok(BucketsOf(reply));
    }

    /** `get_recent_enforcements`: the newest records, at most 100. */
    method GetRecentEnforcements(limit: int := 100) returns (r: Result<seq<RawRecord>>)
      modifies this
      ensures log == old(log) + [RecentParams(limit)]
      ensures api(RecentParams(limit)).Err? ==> r == Err(api(RecentParams(limit)).error)
      ensures api(RecentParams(limit)).Ok? ==> r == Ok(RecordsOf(api(RecentParams(limit)).value))
    {
      var lim := if limit > 100 then 100 else limit;
      lim := if lim < 1 then 1 else lim;
      var data := SearchEnforcements(limit := lim, sort := Some(NewestFirst));
      match data
      case Err(e) => r := Err(e);
      case Ok(reply) => r := Ok(RecordsOf(reply));
    }
  }
}
