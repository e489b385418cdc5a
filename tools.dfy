/** The two tool handlers the model may call (ask/tools.py):
    `search_recalls` and `get_recall_stats`. Each is a method over the
    client, proved equal to a specification function that also lists the
    remote calls it makes, in order. */
module Tools {
  import opened Wrappers
  import opened Strings
  import opened MapSum
  import opened Transforms
  import opened OpenFda

  // ---------------------------------------------------------------------
  // Arguments and payloads

  /** A JSON argument whose type a handler inspects: an integer, a finite
      float, a string, or anything else (null, a list, an object). */
  datatype Value = Int(i: int) | Float(r: real) | Text(s: string) | Other

  /** The arguments of a tool call. The source passes one dictionary to
      whichever handler the (possibly corrected) name selects, so both
      handlers' keys live in one record; None is an absent key. */
  datatype ToolArgs = ToolArgs(
    query: Option<string>,
    firm: Option<string>,
    classification: Option<string>,
    limit: Option<Value>,
    skip: Option<int>,
    sort: Option<string>,
    fields: Option<seq<string>>,
    stats: Option<seq<Value>>,
    topFirmsLimit: Option<int>,
    bottomFirmsLimit: Option<int>,
    startYear: Option<Value>,
    endYear: Option<Value>)

  const NoArgs := ToolArgs(None, None, None, None, None, None, None, None, None, None, None, None)

  datatype FirmCount = FirmCount(firm: string, count: int)

  /** One entry of `recallsByYear`; the source keys it by `str(year)`. */
  datatype YearTotal = YearTotal(year: int, count: int)

  /** The sparse result of `get_recall_stats`: None is an absent key. */
  datatype StatsResult = StatsResult(
    firmTotal: Option<int>,
    firm: Option<string>,
    recallsByClassification: Option<map<string, int>>,
    totalRecalls: Option<int>,
    topFirms: Option<seq<FirmCount>>,
    bottomFirms: Option<seq<FirmCount>>,
    recallsByYear: Option<seq<YearTotal>>,
    mostYear: Option<YearTotal>,
    leastYear: Option<YearTotal>)

  const NoStats := StatsResult(None, None, None, None, None, None, None, None, None)

  /** What a dispatched tool call returns to the conversation. */
  datatype Payload =
    | Recalls(recalls: seq<Recall>, meta: Meta)
    | Stats(stats: StatsResult)
    | ToolError(message: string)

  /** The outcome of a piece of work against the remote API, together with
      the requests it issued, in order. */
  datatype Run<T> = Run(result: Result<T>, calls: seq<Params>)

  // ---------------------------------------------------------------------
  // search_recalls

  function FirmClause(firm: string): string {
    "recalling_firm:\"" + firm + "\""
  }

  predicate EndsWith(s: string, suffix: string) {
    |suffix| <= |s| && s[|s| - |suffix|..] == suffix
  }

  /** The query after firm composition: a non-empty stripped firm becomes
      the last conjunct `recalling_firm:"<firm>"`, with any existing query
      parenthesised in front; an empty firm leaves the query alone. */
  function FirmScopedQuery(query: Option<string>, firm: Option<string>): (q: Option<string>)
    ensures Strip(firm.GetOr(""), false) == "" ==> q == query
    ensures var f := Strip(firm.GetOr(""), false);
            f != "" ==> q.Some? && EndsWith(q.value, FirmClause(f))
                        && (Truthy(query) ==> q.value == "(" + query.value + ") AND " + FirmClause(f))
                        && (!Truthy(query) ==> q.value == FirmClause(f))
  {
    var f := Strip(firm.GetOr(""), false);
    if f == "" then query
    else if Truthy(query) then Some("(" + query.value + ") AND " + FirmClause(f))
    else Some(FirmClause(f))
  }

  /** `int(x)` for a finite float: the integer part, rounding toward zero. */
  function Truncate(x: real): (i: int)
    ensures x >= 0.0 ==> 0 <= i && i as real <= x < i as real + 1.0
    ensures x < 0.0 ==> i <= 0 && i as real - 1.0 < x <= i as real
  {
    if x >= 0.0 then x.Floor else 0 - (0.0 - x).Floor
  }

  /** The coerced `limit`: `int(raw)` (10 when it cannot be converted),
      then bounded to [1, 50]. */
  function CoerceLimit(raw: Option<Value>): (n: int)
    ensures 1 <= n <= 50
    ensures raw.None? || raw == Some(Other) ==> n == 10
    ensures raw.Some? && raw.value.Int? ==> n == Clamp(raw.value.i, 1, 50)
    ensures raw.Some? && raw.value.Float? ==> n == Clamp(Truncate(raw.value.r), 1, 50)
    ensures raw.Some? && raw.value.Text? ==>
              n == (if ParseInt(raw.value.s).Some? then Clamp(ParseInt(raw.value.s).value, 1, 50) else 10)
  {
    var k := match raw
             case None => 10
             case Some(Int(i)) => i
             case Some(Float(x)) => Truncate(x)
             case Some(Text(s)) => if ParseInt(s).Some? then ParseInt(s).value else 10
             case Some(Other) => 10;
    Clamp(k, 1, 50)
  }

  /** A whole-number float limit, the form a JSON number often arrives in,
      counts as the integer it spells: `int(25.0) == 25`. */
  lemma CoerceLimitWholeFloat(i: int)
    ensures CoerceLimit(Some(Float(i as real))) == CoerceLimit(Some(Int(i)))
  {
  }

  /** A fractional float limit keeps its integer part: 7.9 reads as 7. */
  lemma CoerceLimitFractionalFloat(i: nat, x: real)
    requires 0.0 <= x < 1.0
    ensures CoerceLimit(Some(Float(i as real + x))) == Clamp(i, 1, 50)
  {
  }

  /** A limit that is not a number, such as "abc", falls back to 10. */
  lemma CoerceLimitRejectsWords(s: string)
    requires s != [] && !IsSpace(s[0]) && !IsDigit(s[0]) && s[0] != '-' && s[0] != '+'
    ensures CoerceLimit(Some(Text(s))) == 10
  {
    ParseIntRejects(s);
  }

  /** A numeric string limit is read as its number, then bounded to [1, 50]
      like an integer one. */
  lemma CoerceLimitNumericText(i: int)
    ensures CoerceLimit(Some(Text(IntToString(i)))) == CoerceLimit(Some(Int(i)))
  {
    IntRoundTrip(i);
  }

  /** The request `search_recalls_handler` sends. */
  function SearchRequest(args: ToolArgs): Params {
    SearchParams(FirmScopedQuery(args.query, args.firm), args.classification,
                 CoerceLimit(args.limit), args.skip.GetOr(0), args.sort)
  }

  /** `{k: v for k, v in item.items() if k in fields}`. */
  function Project(item: Recall, fields: seq<string>): (r: Recall)
    ensures r.Keys == item.Keys * (set f | f in fields)
    ensures forall k :: k in r ==> r[k] == item[k]
  {
    map k | k in item && k in fields :: item[k]
  }

  /** Whether a `fields` argument selects a projection (a non-empty list). */
  predicate Projects(fields: Option<seq<string>>) {
    fields.Some? && fields.value != []
  }

  /** The records of a search payload: one normalised record per remote
      result, in order, each projected onto `fields` when that is a
      non-empty list; unknown field names select nothing. */
  function ShapeRecords(results: seq<RawRecord>, fields: Option<seq<string>>): (rs: seq<Recall>)
    ensures |rs| == |results|
    ensures forall i :: 0 <= i < |rs| ==>
              rs[i] == (if Projects(fields) then Project(NormalizeRecall(results[i]), fields.value)
                        else NormalizeRecall(results[i]))
  {
    seq(|results|, i requires 0 <= i < |results| =>
      if Projects(fields) then Project(NormalizeRecall(results[i]), fields.value)
      else NormalizeRecall(results[i]))
  }

  /** Every returned record holds the nine recall keys, or those of them
      named in `fields` when the records are projected. */
  lemma ShapeRecordsKeys(results: seq<RawRecord>, fields: Option<seq<string>>, i: int)
    requires 0 <= i < |results|
    ensures ShapeRecords(results, fields)[i].Keys
            == (if Projects(fields) then RecallKeys * (set f | f in fields.value) else RecallKeys)
  {
  }

  /** What `search_recalls_handler` returns given the remote reply. */
  function SearchOutcome(args: ToolArgs, api: Params -> Result<Reply>): (r: Result<Payload>)
    ensures r.Err? <==> api(SearchRequest(args)).Err?
    ensures r.Ok? ==> r.value.Recalls? && |r.value.recalls| == |RecordsOf(api(SearchRequest(args)).value)|
  {
    match api(SearchRequest(args))
    case Err(e) => Err(e)
    case Ok(reply) => Ok(Recalls(ShapeRecords(RecordsOf(reply), args.fields), reply.meta))
  }

  /** The firm step of `search_recalls_handler`. */
  method ScopeQuery(query0: Option<string>, firmArg: Option<string>) returns (query: Option<string>)
    ensures query == FirmScopedQuery(query0, firmArg)
  {
    query := query0;
    var firm := Strip(firmArg.GetOr(""), false);
    if firm != "" {
      var firmClause := FirmClause(firm);
      if query.Some? && query.value != "" {
        query := Some("(" + query.value + ") AND " + firmClause);
      } else {
        query := Some(firmClause);
      }
    }
  }

  /** The limit step of `search_recalls_handler`. */
  method ReadLimit(raw: Option<Value>) returns (limit: int)
    ensures limit == CoerceLimit(raw)
  {
    match raw {
      case None => limit := 10;
      case Some(Int(i)) => limit := i;
      case Some(Float(x)) => limit := Truncate(x);
      case Some(Text(s)) =>
        var parsed := ParseInt(s);
        limit := if parsed.Some? then parsed.value else 10;
      case Some(Other) => limit := 10;
    }
    if limit < 1 {
      limit := 1;
    }
    if limit > 50 {
      limit := 50;
    }
  }

  /** The projection loop of `search_recalls_handler`. */
  method ProjectEach(items: seq<Recall>, fields: seq<string>) returns (filtered: seq<Recall>)
    ensures |filtered| == |items|
    ensures forall k :: 0 <= k < |items| ==> filtered[k] == Project(items[k], fields)
  {
    filtered := [];
    var j := 0;
    while j < |items|
      invariant 0 <= j <= |items|
      invariant |filtered| == j
      invariant forall k :: 0 <= k < j ==> filtered[k] == Project(items[k], fields)
    {
      filtered := filtered + [Project(items[j], fields)];
      j := j + 1;
    }
  }

  /** Normalising every record and then projecting each (when asked)
      gives the shaped records. */
  lemma Shaped(results: seq<RawRecord>, fields: Option<seq<string>>, all: seq<Recall>, out: seq<Recall>)
    requires |all| == |results| && forall k :: 0 <= k < |all| ==> all[k] == NormalizeRecall(results[k])
    requires !Projects(fields) ==> out == all
    requires Projects(fields) ==>
               |out| == |all| && forall k :: 0 <= k < |all| ==> out[k] == Project(all[k], fields.value)
    ensures out == ShapeRecords(results, fields)
  {
  }

  /** `search_recalls_handler`: exactly one remote call. */
  method SearchRecalls(args: ToolArgs, client: Client) returns (r: Result<Payload>)
    modifies client
    ensures client.log == old(client.log) + [SearchRequest(args)]
    ensures r == SearchOutcome(args, client.api)
  {
    var query := ScopeQuery(args.query, args.firm);
    var limit := ReadLimit(args.limit);
    var skip := args.skip.GetOr(0);
    var data := client.SearchEnforcements(query, args.classification, limit, skip, args.sort);
    if data.Err? {
      return Err(data.error);
    }
    var normalized := ShapeReply(data.value, args.fields);
    r := Ok(Recalls(normalized, data.value.meta));
  }

  /** The records of a search payload, built from the reply. */
  method ShapeReply(reply: Reply, fields: Option<seq<string>>) returns (normalized: seq<Recall>)
    ensures normalized == ShapeRecords(RecordsOf(reply), fields)
  {
    var results := RecordsOf(reply);
    normalized := seq(|results|, k requires 0 <= k < |results| => NormalizeRecall(results[k]));
    ghost var all := normalized;
    if fields.Some? && fields.value != [] {
      normalized := ProjectEach(normalized, fields.value);
    }
    Shaped(results, fields, all, normalized);
  }

  // ---------------------------------------------------------------------
  // get_recall_stats: requested metrics and limits

  /** `[s for s in (args.get("stats") or []) if isinstance(s, str)]`. */
  function Requested(stats: Option<seq<Value>>): (req: seq<string>)
    ensures forall m :: m in req <==> stats.Some? && Text(m) in stats.value
  {
    match stats
    case None => []
    case Some(vs) => StringsOf(vs)
  }

  function StringsOf(vs: seq<Value>): (r: seq<string>)
    ensures forall m :: m in r <==> Text(m) in vs
  {
    if vs == [] then []
    else (match vs[0] case Text(s) => [s] case _ => []) + StringsOf(vs[1..])
  }

  /** `set(stats_requested) == {"firmTotal"}`. */
  predicate OnlyFirmTotal(req: seq<string>) {
    "firmTotal" in req && forall m :: m in req ==> m == "firmTotal"
  }

  predicate WantsYears(req: seq<string>) {
    "byYear" in req || "mostYear" in req || "leastYear" in req
  }

  /** `topFirmsLimit`: 5 when absent or falsy (0), then bounded to [1, 10]. */
  function TopLimit(args: ToolArgs): (n: int)
    ensures 1 <= n <= 10
    ensures args.topFirmsLimit.None? || args.topFirmsLimit == Some(0) ==> n == 5
    ensures args.topFirmsLimit.Some? && args.topFirmsLimit.value != 0 ==> n == Clamp(args.topFirmsLimit.value, 1, 10)
  {
    var k := args.topFirmsLimit.GetOr(5);
    Clamp(if k == 0 then 5 else k, 1, 10)
  }

  /** `bottomFirmsLimit`: the bounded top limit when absent or falsy, then
      bounded to [1, 10]. */
  function BottomLimit(args: ToolArgs): (n: int)
    ensures 1 <= n <= 10
    ensures args.bottomFirmsLimit.None? || args.bottomFirmsLimit == Some(0) ==> n == TopLimit(args)
    ensures args.bottomFirmsLimit.Some? && args.bottomFirmsLimit.value != 0 ==>
              n == Clamp(args.bottomFirmsLimit.value, 1, 10)
  {
    var top := TopLimit(args);
    var k := args.bottomFirmsLimit.GetOr(top);
    Clamp(if k == 0 then top else k, 1, 10)
  }

  // ---------------------------------------------------------------------
  // Buckets: classification mapping, top and bottom firms

  /** `b.get("term", "") or "Unknown"`. */
  function Label(b: Bucket): (l: string)
    ensures l != ""
  {
    if b.term.Some? && b.term.value != "" then b.term.value else "Unknown"
  }

  /** `int(b.get("count", 0) or 0)`. */
  function CountOf(b: Bucket): int {
    b.count.GetOr(0)
  }

  function Entry(b: Bucket): FirmCount {
    FirmCount(Label(b), CountOf(b))
  }

  function Entries(bs: seq<Bucket>): (r: seq<FirmCount>)
    ensures |r| == |bs| && forall i :: 0 <= i < |bs| ==> r[i] == Entry(bs[i])
  {
    seq(|bs|, i requires 0 <= i < |bs| => Entry(bs[i]))
  }

  /** The classification mapping `{label: count}`: a later bucket with the
      same label overwrites an earlier one, as a dict comprehension does. */
  function ClassificationCounts(bs: seq<Bucket>): (m: map<string, int>)
    ensures "" !in m
  {
    if bs == [] then map[]
    else ClassificationCounts(bs[..|bs| - 1])[Label(bs[|bs| - 1]) := CountOf(bs[|bs| - 1])]
  }

  /** The mapping has a key per label that occurs, and no other (so never
      the empty string). */
  lemma {:induction false} ClassificationKeys(bs: seq<Bucket>)
    ensures "" !in ClassificationCounts(bs)
    ensures forall k :: k in ClassificationCounts(bs) <==> exists i :: 0 <= i < |bs| && Label(bs[i]) == k
  {
    if bs != [] {
      var init := bs[..|bs| - 1];
      ClassificationKeys(init);
      var m := ClassificationCounts(bs);
      forall k ensures k in m <==> exists i :: 0 <= i < |bs| && Label(bs[i]) == k {
        if k in m && k != Label(bs[|bs| - 1]) {
          var i :| 0 <= i < |init| && Label(init[i]) == k;
          assert Label(bs[i]) == k;
        }
        if exists i :: 0 <= i < |bs| && Label(bs[i]) == k {
          var i :| 0 <= i < |bs| && Label(bs[i]) == k;
          if i < |init| {
            assert Label(init[i]) == k;
          }
        }
      }
    }
  }

  /** Each key holds the count of the last bucket carrying that label. */
  lemma {:induction false} ClassificationLastWins(bs: seq<Bucket>, i: nat)
    requires i < |bs|
    requires forall j :: i < j < |bs| ==> Label(bs[j]) != Label(bs[i])
    ensures Label(bs[i]) in ClassificationCounts(bs)
    ensures ClassificationCounts(bs)[Label(bs[i])] == CountOf(bs[i])
  {
    if i < |bs| - 1 {
      var init := bs[..|bs| - 1];
      assert init[i] == bs[i];
      forall j | i < j < |init| ensures Label(init[j]) != Label(init[i]) {
        assert init[j] == bs[j];
      }
      ClassificationLastWins(init, i);
    }
  }

  /** topFirms: the first `limit` entries in the API's own order. */
  function TopFirms(bs: seq<Bucket>, limit: nat): (r: seq<FirmCount>)
    ensures |r| == if limit < |bs| then limit else |bs|
    ensures forall i :: 0 <= i < |r| ==> r[i] == Entry(bs[i])
  {
    Entries(bs[..if limit < |bs| then limit else |bs|])
  }

  predicate Ascending(s: seq<FirmCount>) {
    forall i, j :: 0 <= i < j < |s| ==> s[i].count <= s[j].count
  }

  /** Inserts `x` after every element whose count is at most its own. */
  function Insert(s: seq<FirmCount>, x: FirmCount): seq<FirmCount> {
    if s == [] then [x]
    else if s[0].count > x.count then [x] + s
    else [s[0]] + Insert(s[1..], x)
  }

  /** `sorted(entries, key=lambda x: x["count"])`: Python's sort is stable,
      and inserting each element after its equals is the stable sort. */
  function SortByCount(s: seq<FirmCount>): seq<FirmCount> {
    if s == [] then []
    else Insert(SortByCount(s[..|s| - 1]), s[|s| - 1])
  }

  lemma {:induction false} InsertPerm(s: seq<FirmCount>, x: FirmCount)
    ensures multiset(Insert(s, x)) == multiset(s) + multiset{x}
  {
    if s != [] && s[0].count <= x.count {
      InsertPerm(s[1..], x);
      assert s == [s[0]] + s[1..];
    }
  }

  /** Sorting only reorders: the result is a permutation of the entries. */
  lemma {:induction false} SortPerm(s: seq<FirmCount>)
    ensures multiset(SortByCount(s)) == multiset(s)
  {
    if s != [] {
      SortPerm(s[..|s| - 1]);
      InsertPerm(SortByCount(s[..|s| - 1]), s[|s| - 1]);
      assert s == s[..|s| - 1] + [s[|s| - 1]];
    }
  }

  lemma {:induction false} InsertAscending(s: seq<FirmCount>, x: FirmCount)
    requires Ascending(s)
    ensures Ascending(Insert(s, x))
  {
    if s != [] && s[0].count <= x.count {
      InsertAscending(s[1..], x);
      var r := Insert(s, x);
      assert r == [s[0]] + Insert(s[1..], x);
      forall k | 0 <= k < |r| ensures s[0].count <= r[k].count {
        if k > 0 {
          InsertPerm(s[1..], x);
          assert r[k] in multiset(Insert(s[1..], x));
          assert r[k] in multiset(s[1..]) + multiset{x};
          if r[k] != x {
            assert r[k] in s[1..];
          }
        }
      }
    }
  }

  lemma {:induction false} SortAscending(s: seq<FirmCount>)
    ensures Ascending(SortByCount(s))
  {
    if s != [] {
      SortAscending(s[..|s| - 1]);
      InsertAscending(SortByCount(s[..|s| - 1]), s[|s| - 1]);
    }
  }

  /** The entries with count `c`, in order. */
  function WithCount(s: seq<FirmCount>, c: int): (r: seq<FirmCount>)
    ensures |r| <= |s|
  {
    if s == [] then []
    else (if s[0].count == c then [s[0]] else []) + WithCount(s[1..], c)
  }

  lemma {:induction false} WithCountAppend(a: seq<FirmCount>, b: seq<FirmCount>, c: int)
    ensures WithCount(a + b, c) == WithCount(a, c) + WithCount(b, c)
  {
    if a == [] {
      assert a + b == b;
    } else {
      var head := if a[0].count == c then [a[0]] else [];
      assert (a + b)[0] == a[0];
      assert (a + b)[1..] == a[1..] + b;
      WithCountAppend(a[1..], b, c);
      calc {
        WithCount(a + b, c);
        head + WithCount(a[1..] + b, c);
        head + (WithCount(a[1..], c) + WithCount(b, c));
        (head + WithCount(a[1..], c)) + WithCount(b, c);
        WithCount(a, c) + WithCount(b, c);
      }
    }
  }

  lemma {:induction false} WithCountAbove(s: seq<FirmCount>, c: int)
    requires forall k :: 0 <= k < |s| ==> s[k].count > c
    ensures WithCount(s, c) == []
  {
    if s != [] {
      WithCountAbove(s[1..], c);
    }
  }

  lemma WithCountCons(y: FirmCount, r: seq<FirmCount>, c: int)
    ensures WithCount([y] + r, c) == (if y.count == c then [y] else []) + WithCount(r, c)
  {
    assert ([y] + r)[0] == y && ([y] + r)[1..] == r;
  }

  lemma InsertFront(s: seq<FirmCount>, x: FirmCount, c: int)
    requires Ascending(s) && s != [] && s[0].count > x.count
    ensures WithCount([x] + s, c) == WithCount(s, c) + (if x.count == c then [x] else [])
  {
    WithCountCons(x, s, c);
    if x.count == c {
      WithCountAbove(s, c);
    }
  }

  lemma {:induction false} InsertStable(s: seq<FirmCount>, x: FirmCount, c: int)
    requires Ascending(s)
    ensures WithCount(Insert(s, x), c) == WithCount(s, c) + (if x.count == c then [x] else [])
  {
    var hx := if x.count == c then [x] else [];
    if s == [] {
      WithCountCons(x, [], c);
    } else if s[0].count > x.count {
      InsertFront(s, x, c);
    } else {
      AscendingTail(s);
      InsertStable(s[1..], x, c);
      InsertStableStep(s, x, c);
    }
  }

  lemma AscendingTail(s: seq<FirmCount>)
    requires s != [] && Ascending(s)
    ensures Ascending(s[1..])
  {
    forall i, j | 0 <= i < j < |s| - 1 ensures s[1..][i].count <= s[1..][j].count {
      assert s[1..][i] == s[i + 1] && s[1..][j] == s[j + 1];
    }
  }

  lemma InsertStableStep(s: seq<FirmCount>, x: FirmCount, c: int)
    requires s != [] && s[0].count <= x.count
    requires WithCount(Insert(s[1..], x), c) == WithCount(s[1..], c) + (if x.count == c then [x] else [])
    ensures WithCount(Insert(s, x), c) == WithCount(s, c) + (if x.count == c then [x] else [])
  {
    var hx := if x.count == c then [x] else [];
    var h0 := if s[0].count == c then [s[0]] else [];
    var rest := Insert(s[1..], x);
    WithCountCons(s[0], rest, c);
    WithCountCons(s[0], s[1..], c);
    HeadTail(s);
    AppendAssoc(h0, WithCount(s[1..], c), hx);
    assert Insert(s, x) == [s[0]] + rest;
  }

  /** Sorting is stable: for every count, the entries with that count keep
      the order they had. */
  lemma {:induction false} SortStable(s: seq<FirmCount>, c: int)
    ensures WithCount(SortByCount(s), c) == WithCount(s, c)
  {
    if s != [] {
      var init := s[..|s| - 1];
      var x := s[|s| - 1];
      var hx := if x.count == c then [x] else [];
      assert WithCount(SortByCount(s), c) == WithCount(SortByCount(init), c) + hx by {
        SortAscending(init);
        InsertStable(SortByCount(init), x, c);
      }
      assert WithCount(s, c) == WithCount(init, c) + hx by {
        assert s == init + [x];
        WithCountAppend(init, [x], c);
        assert [x][1..] == [];
        assert WithCount([x], c) == hx + WithCount([], c);
      }
      SortStable(init, c);
    }
  }

  /** The entries with a positive count, in order. */
  function Positive(s: seq<FirmCount>): (r: seq<FirmCount>)
    ensures |r| <= |s|
    ensures forall x :: x in r ==> x in s && x.count > 0
  {
    if s == [] then []
    else (if s[0].count > 0 then [s[0]] else []) + Positive(s[1..])
  }

  lemma {:induction false} PositiveMultiset(s: seq<FirmCount>, x: FirmCount)
    ensures multiset(Positive(s))[x] == if x.count > 0 then multiset(s)[x] else 0
  {
    if s != [] {
      var head := if s[0].count > 0 then [s[0]] else [];
      var tail := s[1..];
      PositiveMultiset(tail, x);
      assert Positive(s) == head + Positive(tail);
      CountIn(head, Positive(tail), x);
      CountCons(s, x);
    }
  }

  /** How often `x` occurs in a non-empty sequence: in its head and tail. */
  lemma CountCons<T>(s: seq<T>, x: T)
    requires s != []
    ensures multiset(s)[x] == (if s[0] == x then 1 else 0) + multiset(s[1..])[x]
  {
    assert s == [s[0]] + s[1..];
    CountIn([s[0]], s[1..], x);
  }

  /** How often `x` occurs in a concatenation. */
  lemma CountIn<T>(a: seq<T>, b: seq<T>, x: T)
    ensures multiset(a + b)[x] == multiset(a)[x] + multiset(b)[x]
  {
  }

  lemma {:induction false} PositiveAscending(s: seq<FirmCount>)
    requires Ascending(s)
    ensures Ascending(Positive(s))
  {
    if s != [] {
      PositiveAscending(s[1..]);
      var r := Positive(s);
      if s[0].count > 0 {
        forall k | 0 < k < |r| ensures s[0].count <= r[k].count {
          assert r[k] in Positive(s[1..]);
          assert r[k] in s[1..];
        }
      }
    }
  }

  lemma {:induction false} PositiveWithCount(s: seq<FirmCount>, c: int)
    ensures WithCount(Positive(s), c) == if c > 0 then WithCount(s, c) else []
  {
    if s != [] {
      PositiveWithCount(s[1..], c);
      WithCountAppend(if s[0].count > 0 then [s[0]] else [], Positive(s[1..]), c);
    }
  }

  /** bottomFirms: the entries sorted ascending by count (stably), those
      with count 0 or less dropped, the first `limit` kept. */
  function BottomFirms(bs: seq<Bucket>, limit: nat): (r: seq<FirmCount>)
    ensures |r| <= limit
    ensures forall i :: 0 <= i < |r| ==> r[i].count > 0
  {
    var full := Positive(SortByCount(Entries(bs)));
    full[..if limit < |full| then limit else |full|]
  }

  lemma WithCountPrefix(s: seq<FirmCount>, n: nat, c: int)
    requires n <= |s|
    ensures StartsWithSeq(WithCount(s, c), WithCount(s[..n], c))
  {
    assert s == s[..n] + s[n..];
    WithCountAppend(s[..n], s[n..], c);
  }

  predicate StartsWithSeq(s: seq<FirmCount>, prefix: seq<FirmCount>) {
    |prefix| <= |s| && s[..|prefix|] == prefix
  }

  /** Sorting does not change which positive entries there are. */
  lemma PositiveSortedPerm(e: seq<FirmCount>)
    ensures multiset(Positive(SortByCount(e))) == multiset(Positive(e))
    ensures |Positive(SortByCount(e))| == |Positive(e)|
  {
    var full := Positive(SortByCount(e));
    SortPerm(e);
    forall x ensures multiset(full)[x] == multiset(Positive(e))[x] {
      PositiveMultiset(SortByCount(e), x);
      PositiveMultiset(e, x);
    }
    assert multiset(full) == multiset(Positive(e));
    assert |multiset(full)| == |full| && |multiset(Positive(e))| == |Positive(e)|;
  }

  /** A prefix of an ascending sequence is ascending, and nothing left
      after it is smaller than anything in it. */
  lemma AscendingPrefix(full: seq<FirmCount>, n: nat)
    requires Ascending(full) && n <= |full|
    ensures Ascending(full[..n])
    ensures forall x, y :: x in multiset(full) - multiset(full[..n]) && y in full[..n] ==> y.count <= x.count
  {
    var r := full[..n];
    forall x, y | x in multiset(full) - multiset(r) && y in r ensures y.count <= x.count {
      var j := LeftAfterPrefix(full, n, x);
      var i :| 0 <= i < |r| && r[i] == y;
      assert full[i] == y;
    }
  }

  /** What a prefix leaves out of the multiset lies after the prefix. */
  lemma LeftAfterPrefix(full: seq<FirmCount>, n: nat, x: FirmCount) returns (j: nat)
    requires n <= |full| && x in multiset(full) - multiset(full[..n])
    ensures n <= j < |full| && full[j] == x
  {
    assert multiset(full) == multiset(full[..n]) + multiset(full[n..]) by {
      assert full == full[..n] + full[n..];
    }
    assert x in full[n..];
    var k :| 0 <= k < |full[n..]| && full[n..][k] == x;
    j := n + k;
  }

  /** The sorted positive entries bottomFirms takes its prefix from. */
  lemma BottomFirmsPrefix(bs: seq<Bucket>, limit: nat)
    ensures var full := Positive(SortByCount(Entries(bs)));
            && Ascending(full)
            && multiset(full) == multiset(Positive(Entries(bs)))
            && |full| == |Positive(Entries(bs))|
            && BottomFirms(bs, limit) == full[..if limit < |full| then limit else |full|]
  {
    PositiveSortedPerm(Entries(bs));
    SortAscending(Entries(bs));
    PositiveAscending(SortByCount(Entries(bs)));
  }

  /** bottomFirms lists firms with a positive count only, in ascending
      order of count. */
  lemma BottomFirmsOrdered(bs: seq<Bucket>, limit: nat)
    ensures Ascending(BottomFirms(bs, limit))
    ensures forall x :: x in BottomFirms(bs, limit) ==> x.count > 0
  {
    var full := Positive(SortByCount(Entries(bs)));
    BottomFirmsPrefix(bs, limit);
    AscendingPrefix(full, if limit < |full| then limit else |full|);
  }

  /** bottomFirms keeps `limit` positive firms, or all of them when there
      are fewer, and every firm it lists is one of them. */
  lemma BottomFirmsSize(bs: seq<Bucket>, limit: nat)
    ensures |BottomFirms(bs, limit)| == if limit < |Positive(Entries(bs))| then limit else |Positive(Entries(bs))|
    ensures multiset(BottomFirms(bs, limit)) <= multiset(Positive(Entries(bs)))
  {
    var full := Positive(SortByCount(Entries(bs)));
    BottomFirmsPrefix(bs, limit);
    PrefixMultiset(full, if limit < |full| then limit else |full|);
  }

  lemma PrefixMultiset(full: seq<FirmCount>, n: nat)
    requires n <= |full|
    ensures |full[..n]| == n && multiset(full[..n]) <= multiset(full)
  {
    assert full == full[..n] + full[n..];
  }

  /** No positive firm that bottomFirms leaves out has a smaller count than
      one it lists. */
  lemma BottomFirmsSmallest(bs: seq<Bucket>, limit: nat)
    ensures forall x, y ::
              x in multiset(Positive(Entries(bs))) - multiset(BottomFirms(bs, limit)) && y in BottomFirms(bs, limit)
              ==> y.count <= x.count
  {
    var full := Positive(SortByCount(Entries(bs)));
    BottomFirmsPrefix(bs, limit);
    AscendingPrefix(full, if limit < |full| then limit else |full|);
  }

  /** Firms with equal counts appear in bottomFirms in the order the API
      listed them: for every count, the firms with it are an initial run of
      the positive firms with it. */
  lemma BottomFirmsStable(bs: seq<Bucket>, limit: nat, c: int)
    ensures StartsWithSeq(WithCount(Positive(Entries(bs)), c), WithCount(BottomFirms(bs, limit), c))
  {
    var e := Entries(bs);
    var sorted := SortByCount(e);
    var full := Positive(sorted);
    WithCountPrefix(full, if limit < |full| then limit else |full|, c);
    PositiveWithCount(sorted, c);
    PositiveWithCount(e, c);
    SortStable(e, c);
  }

  /** Buckets A:5, B:0, C:2 with limit 10 give C:2 then A:5: the zero
      count is dropped. */
  lemma BottomFirmsExample()
    ensures BottomFirms([Bucket(Some("A"), Some(5)), Bucket(Some("B"), Some(0)), Bucket(Some("C"), Some(2))], 10)
            == [FirmCount("C", 2), FirmCount("A", 5)]
  {
    var bs := [Bucket(Some("A"), Some(5)), Bucket(Some("B"), Some(0)), Bucket(Some("C"), Some(2))];
    var a, b, c := FirmCount("A", 5), FirmCount("B", 0), FirmCount("C", 2);
    var e := Entries(bs);
    assert e == [a, b, c];
    assert SortByCount([a]) == [a] by {
      assert [a][..0] == [];
    }
    assert SortByCount([a, b]) == [b, a] by {
      assert [a, b][..1] == [a];
    }
    assert SortByCount(e) == [b, c, a] by {
      assert e[..2] == [a, b];
      assert Insert([a], c) == [c, a];
      assert [b, a][1..] == [a];
    }
    assert Positive([b, c, a]) == [c, a] by {
      assert [b, c, a][1..] == [c, a];
      assert [c, a][1..] == [a];
      assert Positive([a]) == [a] by {
        assert [a][1..] == [];
      }
    }
  }

  // ---------------------------------------------------------------------
  // Years

  /** Both ends given as integers, the start not after the end. */
  predicate GivenRange(startYear: Option<Value>, endYear: Option<Value>) {
    && startYear.Some? && startYear.value.Int?
    && endYear.Some? && endYear.value.Int?
    && startYear.value.i <= endYear.value.i
  }

  /** The year range: the given one when both ends are integers in order,
      otherwise the ten years ending this year. */
  function YearRange(startYear: Option<Value>, endYear: Option<Value>, thisYear: int): (r: (int, int))
    ensures r.0 <= r.1
    ensures GivenRange(startYear, endYear) ==> r == (startYear.value.i, endYear.value.i)
    ensures !GivenRange(startYear, endYear) ==> r == (thisYear - 9, thisYear)
  {
    match (startYear, endYear)
    case (Some(Int(s)), Some(Int(e))) => if s > e then (thisYear - 9, thisYear) else (s, e)
    case _ => (thisYear - 9, thisYear)
  }

  function YearQuery(year: int): string {
    "recall_initiation_date:[" + IntToString(year) + "0101 TO " + IntToString(year) + "1231]"
  }

  /** The `limit=1` search that counts one year's recalls. */
  function YearParams(year: int): Params {
    SearchParams(Some(YearQuery(year)), None, 1, 0, None)
  }

  /** One year's total; a failed call counts as 0. */
  function YearCountOf(api: Params -> Result<Reply>, year: int): int {
    match api(YearParams(year))
    case Ok(reply) => TotalOf(reply)
    case Err(_) => 0
  }

  function Span(lo: int, hi: int): nat {
    if hi < lo then 0 else hi - lo + 1
  }

  /** `recalls_by_year`: exactly one entry per year of the range, in
      ascending order. */
  function YearTotals(api: Params -> Result<Reply>, lo: int, hi: int): (ys: seq<YearTotal>)
    ensures |ys| == Span(lo, hi)
    ensures forall i :: 0 <= i < |ys| ==> ys[i] == YearTotal(lo + i, YearCountOf(api, lo + i))
  {
    seq(Span(lo, hi), i => YearTotal(lo + i, YearCountOf(api, lo + i)))
  }

  function YearCalls(lo: int, hi: int): (ps: seq<Params>)
    ensures |ps| == Span(lo, hi)
  {
    seq(Span(lo, hi), i => YearParams(lo + i))
  }

  lemma YearSnoc(api: Params -> Result<Reply>, lo: int, hi: int)
    requires lo <= hi
    ensures YearTotals(api, lo, hi) == YearTotals(api, lo, hi - 1) + [YearTotal(hi, YearCountOf(api, hi))]
    ensures YearCalls(lo, hi) == YearCalls(lo, hi - 1) + [YearParams(hi)]
  {
    YearTotalsSnoc(api, lo, hi);
    YearCallsSnoc(lo, hi);
  }

  lemma YearTotalsSnoc(api: Params -> Result<Reply>, lo: int, hi: int)
    requires lo <= hi
    ensures YearTotals(api, lo, hi) == YearTotals(api, lo, hi - 1) + [YearTotal(hi, YearCountOf(api, hi))]
  {
    var a := YearTotals(api, lo, hi);
    var b := YearTotals(api, lo, hi - 1) + [YearTotal(hi, YearCountOf(api, hi))];
    assert |a| == |b|;
    forall i | 0 <= i < |a| ensures a[i] == b[i] {
      if i < |a| - 1 {
        assert b[i] == YearTotals(api, lo, hi - 1)[i];
      }
    }
  }

  lemma YearCallsSnoc(lo: int, hi: int)
    requires lo <= hi
    ensures YearCalls(lo, hi) == YearCalls(lo, hi - 1) + [YearParams(hi)]
  {
    var a := YearCalls(lo, hi);
    var b := YearCalls(lo, hi - 1) + [YearParams(hi)];
    assert |a| == |b|;
    forall i | 0 <= i < |a| ensures a[i] == b[i] {
      if i < |a| - 1 {
        assert b[i] == YearCalls(lo, hi - 1)[i];
      }
    }
  }

  /** `max(items, key=count)`: the index of the first entry with the
      largest count. */
  function MostIndex(ys: seq<YearTotal>): (k: nat)
    requires |ys| > 0
    ensures k < |ys|
    ensures forall j :: 0 <= j < |ys| ==> ys[j].count <= ys[k].count
    ensures forall j :: 0 <= j < k ==> ys[j].count < ys[k].count
  {
    if |ys| == 1 then 0
    else
      var k := MostIndex(ys[..|ys| - 1]);
      if ys[|ys| - 1].count > ys[k].count then |ys| - 1 else k
  }

  /** `min(items, key=count)`: the index of the first entry with the
      smallest count. */
  function LeastIndex(ys: seq<YearTotal>): (k: nat)
    requires |ys| > 0
    ensures k < |ys|
    ensures forall j :: 0 <= j < |ys| ==> ys[k].count <= ys[j].count
    ensures forall j :: 0 <= j < k ==> ys[k].count < ys[j].count
  {
    if |ys| == 1 then 0
    else
      var k := LeastIndex(ys[..|ys| - 1]);
      if ys[|ys| - 1].count < ys[k].count then |ys| - 1 else k
  }

  // ---------------------------------------------------------------------
  // get_recall_stats

  /** `recalling_firm:"F"`, plus ` AND classification:"C"` when a
      classification is given. */
  function FirmTotalQuery(firm: string, cls: string): string {
    Join([FirmClause(firm)] + (if cls != "" then [ClassificationClause(cls)] else []), " AND ")
  }

  function FirmTotalParams(firm: string, cls: string): Params {
    SearchParams(Some(FirmTotalQuery(firm, cls)), None, 1, 0, None)
  }

  const ClassFacet := CountParams("classification", None)

  function FirmFacet(cls: string): Params {
    CountParams("recalling_firm", if cls != "" then Some(ClassificationClause(cls)) else None)
  }

  function ClassOf(args: ToolArgs): string {
    Strip(args.classification.GetOr(""), false)
  }

  function FirmOf(args: ToolArgs): string {
    Strip(args.firm.GetOr(""), false)
  }

  /** The firmTotal step. */
  function FirmTotalStage(args: ToolArgs, api: Params -> Result<Reply>): Run<StatsResult> {
    var req := Requested(args.stats);
    if "firmTotal" !in req then Run(Ok(NoStats), [])
    else if FirmOf(args) == "" then Run(Ok(NoStats.(firmTotal := Some(0))), [])
    else
      var p := FirmTotalParams(FirmOf(args), ClassOf(args));
      match api(p)
      case Err(e) => Run(Err(e), [p])
      case Ok(reply) => Run(Ok(NoStats.(firmTotal := Some(TotalOf(reply)), firm := Some(FirmOf(args)))), [p])
  }

  /** The byClassification / total step. */
  ghost function ClassStage(req: seq<string>, api: Params -> Result<Reply>, acc: StatsResult): Run<StatsResult> {
    if "byClassification" !in req && "total" !in req then Run(Ok(acc), [])
    else
      match api(ClassFacet)
      case Err(e) => Run(Err(e), [ClassFacet])
      case Ok(reply) =>
        var m := ClassificationCounts(BucketsOf(reply));
        Run(Ok(acc.(recallsByClassification := if "byClassification" in req then Some(m) else acc.recallsByClassification,
                    totalRecalls := if "total" in req then Some(SumValues(m)) else acc.totalRecalls)),
            [ClassFacet])
  }

  /** The topFirms / bottomFirms step. */
  function FirmsStage(req: seq<string>, args: ToolArgs, api: Params -> Result<Reply>, acc: StatsResult): Run<StatsResult> {
    if "topFirms" !in req && "bottomFirms" !in req then Run(Ok(acc), [])
    else
      var p := FirmFacet(ClassOf(args));
      match api(p)
      case Err(e) => Run(Err(e), [p])
      case Ok(reply) =>
        var bs := BucketsOf(reply);
        Run(Ok(acc.(topFirms := if "topFirms" in req then Some(TopFirms(bs, TopLimit(args))) else acc.topFirms,
                    bottomFirms := if "bottomFirms" in req then Some(BottomFirms(bs, BottomLimit(args))) else acc.bottomFirms)),
            [p])
  }

  /** The byYear / mostYear / leastYear step; it never fails. */
  function YearStage(req: seq<string>, args: ToolArgs, api: Params -> Result<Reply>, thisYear: int,
                     acc: StatsResult): Run<StatsResult> {
    if !WantsYears(req) then Run(Ok(acc), [])
    else
      var (lo, hi) := YearRange(args.startYear, args.endYear, thisYear);
      var ys := YearTotals(api, lo, hi);
      Run(Ok(acc.(recallsByYear := if "byYear" in req then Some(ys) else acc.recallsByYear,
                  mostYear := if "mostYear" in req && |ys| > 0 then Some(ys[MostIndex(ys)]) else acc.mostYear,
                  leastYear := if "leastYear" in req && |ys| > 0 then Some(ys[LeastIndex(ys)]) else acc.leastYear)),
          YearCalls(lo, hi))
  }

  /** Runs `second` after `first` unless `first` failed. */
  function Then(first: Run<StatsResult>, second: Run<StatsResult>): Run<StatsResult> {
    if first.result.Err? then first else Run(second.result, first.calls + second.calls)
  }

  /** The year step after the firm rankings. */
  ghost function AfterClass(req: seq<string>, args: ToolArgs, api: Params -> Result<Reply>, thisYear: int,
                            acc: StatsResult): Run<StatsResult> {
    var t := FirmsStage(req, args, api, acc);
    if t.result.Err? then t else Then(t, YearStage(req, args, api, thisYear, t.result.value))
  }

  /** Everything after the firmTotal step. */
  ghost function AfterFirmTotal(req: seq<string>, args: ToolArgs, api: Params -> Result<Reply>, thisYear: int,
                                acc: StatsResult): Run<StatsResult> {
    var c := ClassStage(req, api, acc);
    if c.result.Err? then c else Then(c, AfterClass(req, args, api, thisYear, c.result.value))
  }

  /** `get_recall_stats_handler`, with the remote calls it makes: the
      firmTotal, classification, firm and year steps in that order, each
      only when a metric it serves is requested, stopping at the first
      failed call; when firmTotal is the only metric and a firm is given,
      nothing follows the first call. */
  ghost function StatsRun(args: ToolArgs, api: Params -> Result<Reply>, thisYear: int): (r: Run<StatsResult>)
    ensures Requested(args.stats) == [] ==> r == Run(Ok(NoStats), [])
  {
    var req := Requested(args.stats);
    var f := FirmTotalStage(args, api);
    if f.result.Err? || (f.result.value.firm.Some? && OnlyFirmTotal(req)) then f
    else Then(f, AfterFirmTotal(req, args, api, thisYear, f.result.value))
  }

  // ---------------------------------------------------------------------
  // What get_recall_stats promises

  /** The result has a key exactly for each requested metric; `firm` comes
      with a firmTotal computed from a non-empty firm. */
  predicate KeysFollow(r: StatsResult, req: seq<string>, firmGiven: bool) {
    && (r.firmTotal.Some? <==> "firmTotal" in req)
    && (r.firm.Some? <==> "firmTotal" in req && firmGiven)
    && (r.recallsByClassification.Some? <==> "byClassification" in req)
    && (r.totalRecalls.Some? <==> "total" in req)
    && (r.topFirms.Some? <==> "topFirms" in req)
    && (r.bottomFirms.Some? <==> "bottomFirms" in req)
    && (r.recallsByYear.Some? <==> "byYear" in req)
    && (r.mostYear.Some? <==> "mostYear" in req)
    && (r.leastYear.Some? <==> "leastYear" in req)
  }

  lemma OnlyFirmTotalExcludes(req: seq<string>)
    requires OnlyFirmTotal(req)
    ensures "byClassification" !in req && "total" !in req && "topFirms" !in req
    ensures "bottomFirms" !in req && !WantsYears(req)
  {
  }

  /** The firmTotal step sets firmTotal when asked and firm when a firm is
      given, and nothing else. */
  lemma FirmTotalKeys(args: ToolArgs, api: Params -> Result<Reply>)
    ensures var f := FirmTotalStage(args, api);
            var req := Requested(args.stats);
            f.result.Ok? ==>
              && (f.result.value.firmTotal.Some? <==> "firmTotal" in req)
              && (f.result.value.firm.Some? <==> "firmTotal" in req && FirmOf(args) != "")
              && f.result.value.(firmTotal := None, firm := None) == NoStats
  {
  }

  /** The classification step sets byClassification and total when asked,
      and nothing else. */
  lemma ClassKeys(req: seq<string>, api: Params -> Result<Reply>, acc: StatsResult)
    ensures var c := ClassStage(req, api, acc);
            c.result.Ok? ==>
              && (c.result.value.recallsByClassification.Some?
                  <==> "byClassification" in req || acc.recallsByClassification.Some?)
              && (c.result.value.totalRecalls.Some? <==> "total" in req || acc.totalRecalls.Some?)
              && c.result.value.(recallsByClassification := acc.recallsByClassification,
                                 totalRecalls := acc.totalRecalls) == acc
  {
  }

  /** The firm step sets topFirms and bottomFirms when asked, and nothing
      else. */
  lemma FirmsKeys(req: seq<string>, args: ToolArgs, api: Params -> Result<Reply>, acc: StatsResult)
    ensures var t := FirmsStage(req, args, api, acc);
            t.result.Ok? ==>
              && (t.result.value.topFirms.Some? <==> "topFirms" in req || acc.topFirms.Some?)
              && (t.result.value.bottomFirms.Some? <==> "bottomFirms" in req || acc.bottomFirms.Some?)
              && t.result.value.(topFirms := acc.topFirms, bottomFirms := acc.bottomFirms) == acc
  {
  }

  /** The year step sets the three year metrics when asked, and nothing
      else. */
  lemma YearKeys(req: seq<string>, args: ToolArgs, api: Params -> Result<Reply>, thisYear: int, acc: StatsResult)
    ensures var y := YearStage(req, args, api, thisYear, acc);
            && y.result.Ok?
            && (y.result.value.recallsByYear.Some? <==> "byYear" in req || acc.recallsByYear.Some?)
            && (y.result.value.mostYear.Some? <==> "mostYear" in req || acc.mostYear.Some?)
            && (y.result.value.leastYear.Some? <==> "leastYear" in req || acc.leastYear.Some?)
            && y.result.value.(recallsByYear := acc.recallsByYear, mostYear := acc.mostYear,
                               leastYear := acc.leastYear) == acc
  {
    if WantsYears(req) {
      var range := YearRange(args.startYear, args.endYear, thisYear);
      assert |YearTotals(api, range.0, range.1)| > 0;
    }
  }

  /** Both firm rankings hold at most ten firms; the top ranking is the
      API's leading buckets, the bottom one holds no zero count. */
  lemma FirmsRankingsBounded(req: seq<string>, args: ToolArgs, api: Params -> Result<Reply>, acc: StatsResult)
    requires "topFirms" in req && "bottomFirms" in req
    ensures var t := FirmsStage(req, args, api, acc);
            t.result.Ok? ==>
              && t.result.value.topFirms.Some? && |t.result.value.topFirms.value| <= 10
              && t.result.value.bottomFirms.Some? && |t.result.value.bottomFirms.value| <= 10
              && (forall i :: 0 <= i < |t.result.value.bottomFirms.value| ==> t.result.value.bottomFirms.value[i].count > 0)
  {
    var t := FirmsStage(req, args, api, acc);
    FirmsStageRanks(req, args, api, acc);
    if t.result.Ok? {
      var bs := BucketsOf(api(FirmFacet(ClassOf(args))).value);
      BottomFirmsSize(bs, BottomLimit(args));
      BottomFirmsOrdered(bs, BottomLimit(args));
    }
  }

  lemma FirmsStageRanks(req: seq<string>, args: ToolArgs, api: Params -> Result<Reply>, acc: StatsResult)
    requires "topFirms" in req && "bottomFirms" in req
    ensures var t := FirmsStage(req, args, api, acc);
            var p := FirmFacet(ClassOf(args));
            t.result.Ok? ==>
              && api(p).Ok?
              && t.result.value.topFirms == Some(TopFirms(BucketsOf(api(p).value), TopLimit(args)))
              && t.result.value.bottomFirms == Some(BottomFirms(BucketsOf(api(p).value), BottomLimit(args)))
  {
  }

  /** The years of a list are consecutive from `lo`, as in YearTotals. */
  predicate Consecutive(ys: seq<YearTotal>, lo: int) {
    forall i :: 0 <= i < |ys| ==> ys[i].year == lo + i
  }

  /** In a list of consecutive years, the first entry with the largest
      count is the earliest year with the largest count. */
  lemma {:induction false} MostIsEarliestMax(ys: seq<YearTotal>, lo: int)
    requires |ys| > 0 && Consecutive(ys, lo)
    ensures var m := ys[MostIndex(ys)];
            && m in ys
            && (forall y :: y in ys ==> y.count <= m.count)
            && (forall y :: y in ys && y.year < m.year ==> y.count < m.count)
  {
    var k := MostIndex(ys);
    forall y | y in ys && y.year < ys[k].year ensures y.count < ys[k].count {
      var i :| 0 <= i < |ys| && ys[i] == y;
      assert i < k;
    }
  }

  /** In a list of consecutive years, the first entry with the smallest
      count is the earliest year with the smallest count. */
  lemma {:induction false} LeastIsEarliestMin(ys: seq<YearTotal>, lo: int)
    requires |ys| > 0 && Consecutive(ys, lo)
    ensures var m := ys[LeastIndex(ys)];
            && m in ys
            && (forall y :: y in ys ==> m.count <= y.count)
            && (forall y :: y in ys && y.year < m.year ==> m.count < y.count)
  {
    var k := LeastIndex(ys);
    forall y | y in ys && y.year < ys[k].year ensures ys[k].count < y.count {
      var i :| 0 <= i < |ys| && ys[i] == y;
      assert i < k;
    }
  }

  /** The per-year totals run over consecutive years. */
  lemma TotalsConsecutive(api: Params -> Result<Reply>, lo: int, hi: int)
    ensures Consecutive(YearTotals(api, lo, hi), lo)
  {
  }

  /** mostYear is the earliest year of the range with the largest count. */
  lemma YearStageMost(req: seq<string>, args: ToolArgs, api: Params -> Result<Reply>, thisYear: int, acc: StatsResult)
    requires "mostYear" in req
    ensures var range := YearRange(args.startYear, args.endYear, thisYear);
            var ys := YearTotals(api, range.0, range.1);
            YearStage(req, args, api, thisYear, acc).result.value.mostYear == Some(ys[MostIndex(ys)])
  {
  }

  /** leastYear is the earliest year of the range with the smallest count. */
  lemma YearStageLeast(req: seq<string>, args: ToolArgs, api: Params -> Result<Reply>, thisYear: int, acc: StatsResult)
    requires "leastYear" in req
    ensures var range := YearRange(args.startYear, args.endYear, thisYear);
            var ys := YearTotals(api, range.0, range.1);
            YearStage(req, args, api, thisYear, acc).result.value.leastYear == Some(ys[LeastIndex(ys)])
  {
  }

  /** The rankings and year steps set their five metrics when asked, and
      nothing else. */
  lemma AfterClassKeys(req: seq<string>, args: ToolArgs, api: Params -> Result<Reply>, thisYear: int,
                       acc: StatsResult)
    ensures var r := AfterClass(req, args, api, thisYear, acc).result;
            r.Ok? ==>
              && (r.value.topFirms.Some? <==> "topFirms" in req || acc.topFirms.Some?)
              && (r.value.bottomFirms.Some? <==> "bottomFirms" in req || acc.bottomFirms.Some?)
              && (r.value.recallsByYear.Some? <==> "byYear" in req || acc.recallsByYear.Some?)
              && (r.value.mostYear.Some? <==> "mostYear" in req || acc.mostYear.Some?)
              && (r.value.leastYear.Some? <==> "leastYear" in req || acc.leastYear.Some?)
              && r.value.(topFirms := acc.topFirms, bottomFirms := acc.bottomFirms, recallsByYear := acc.recallsByYear,
                          mostYear := acc.mostYear, leastYear := acc.leastYear) == acc
  {
    var t := FirmsStage(req, args, api, acc);
    FirmsKeys(req, args, api, acc);
    if t.result.Ok? {
      YearKeys(req, args, api, thisYear, t.result.value);
    }
  }

  /** Once firmTotal and firm follow the request, every later step sets
      its metrics when asked, and nothing else. */
  lemma AfterFirmTotalKeys(req: seq<string>, args: ToolArgs, api: Params -> Result<Reply>, thisYear: int,
                           acc: StatsResult, given: bool)
    requires acc.firmTotal.Some? <==> "firmTotal" in req
    requires acc.firm.Some? <==> "firmTotal" in req && given
    requires acc.(firmTotal := None, firm := None) == NoStats
    ensures var r := AfterFirmTotal(req, args, api, thisYear, acc).result;
            r.Ok? ==> KeysFollow(r.value, req, given)
  {
    var c := ClassStage(req, api, acc);
    ClassKeys(req, api, acc);
    if c.result.Ok? {
      AfterClassKeys(req, args, api, thisYear, c.result.value);
    }
  }

  /** The statistics call after a firmTotal step whose metrics follow the
      request answers exactly the metrics asked for. */
  lemma KeysAfterFirmTotalStep(req: seq<string>, args: ToolArgs, api: Params -> Result<Reply>, thisYear: int,
                               f: Run<StatsResult>, given: bool)
    requires f.result.Ok? ==>
               && (f.result.value.firmTotal.Some? <==> "firmTotal" in req)
               && (f.result.value.firm.Some? <==> "firmTotal" in req && given)
               && f.result.value.(firmTotal := None, firm := None) == NoStats
    ensures var run := if f.result.Err? || (f.result.value.firm.Some? && OnlyFirmTotal(req)) then f
                       else Then(f, AfterFirmTotal(req, args, api, thisYear, f.result.value));
            run.result.Ok? ==> KeysFollow(run.result.value, req, given)
  {
    if f.result.Ok? {
      if f.result.value.firm.Some? && OnlyFirmTotal(req) {
        OnlyFirmTotalExcludes(req);
      } else {
        AfterFirmTotalKeys(req, args, api, thisYear, f.result.value, given);
      }
    }
  }

  /** A successful statistics call answers exactly the metrics asked for. */
  lemma StatsKeysMatchRequest(args: ToolArgs, api: Params -> Result<Reply>, thisYear: int)
    ensures StatsRun(args, api, thisYear).result.Ok? ==>
              KeysFollow(StatsRun(args, api, thisYear).result.value, Requested(args.stats), FirmOf(args) != "")
  {
    FirmTotalKeys(args, api);
    KeysAfterFirmTotalStep(Requested(args.stats), args, api, thisYear, FirmTotalStage(args, api), FirmOf(args) != "");
  }

  /** The requests a statistics call plans, from the request alone: the
      firm total (when asked for with a firm), the classification facet
      (for byClassification or total), the firm facet (for topFirms or
      bottomFirms) and one search per year (for any year metric). */
  function PlannedCalls(args: ToolArgs, thisYear: int): seq<Params> {
    var req := Requested(args.stats);
    FirmTotalPlan(args) + (ClassPlan(req) + (FirmsPlan(req, args) + YearPlan(req, args, thisYear)))
  }

  function FirmTotalPlan(args: ToolArgs): seq<Params> {
    if "firmTotal" in Requested(args.stats) && FirmOf(args) != "" then [FirmTotalParams(FirmOf(args), ClassOf(args))]
    else []
  }

  function ClassPlan(req: seq<string>): seq<Params> {
    if "byClassification" in req || "total" in req then [ClassFacet] else []
  }

  function FirmsPlan(req: seq<string>, args: ToolArgs): seq<Params> {
    if "topFirms" in req || "bottomFirms" in req then [FirmFacet(ClassOf(args))] else []
  }

  function YearPlan(req: seq<string>, args: ToolArgs, thisYear: int): seq<Params> {
    var range := YearRange(args.startYear, args.endYear, thisYear);
    if WantsYears(req) then YearCalls(range.0, range.1) else []
  }

  predicate IsPrefix(p: seq<Params>, s: seq<Params>) {
    |p| <= |s| && s[..|p|] == p
  }

  lemma LastOfAppend(a: seq<Params>, b: seq<Params>)
    requires b != []
    ensures (a + b)[|a + b| - 1] == b[|b| - 1]
  {
  }

  /** Each step keeps to its own plan. */
  lemma FirmTotalCalls(args: ToolArgs, api: Params -> Result<Reply>)
    ensures Follows(FirmTotalStage(args, api), FirmTotalPlan(args), api)
  {
    if "firmTotal" in Requested(args.stats) && FirmOf(args) != "" {
      var p := FirmTotalParams(FirmOf(args), ClassOf(args));
      var f := FirmTotalStage(args, api);
      assert f.calls == [p] == FirmTotalPlan(args);
      assert f.result.Err? ==> api(p) == Err(f.result.error);
    }
  }

  lemma ClassCalls(req: seq<string>, api: Params -> Result<Reply>, acc: StatsResult)
    ensures Follows(ClassStage(req, api, acc), ClassPlan(req), api)
  {
    if "byClassification" in req || "total" in req {
      var c := ClassStage(req, api, acc);
      assert c.calls == [ClassFacet] == ClassPlan(req);
      assert c.result.Err? ==> api(ClassFacet) == Err(c.result.error);
    }
  }

  lemma FirmsCalls(req: seq<string>, args: ToolArgs, api: Params -> Result<Reply>, acc: StatsResult)
    ensures Follows(FirmsStage(req, args, api, acc), FirmsPlan(req, args), api)
  {
    FirmsStageCalls(req, args, api, acc);
    FirmsStageError(req, args, api, acc);
    OneCallFollows(FirmsStage(req, args, api, acc), FirmsPlan(req, args), api);
  }

  lemma FirmsStageCalls(req: seq<string>, args: ToolArgs, api: Params -> Result<Reply>, acc: StatsResult)
    ensures FirmsStage(req, args, api, acc).calls == FirmsPlan(req, args)
  {
  }

  lemma FirmsStageError(req: seq<string>, args: ToolArgs, api: Params -> Result<Reply>, acc: StatsResult)
    ensures var t := FirmsStage(req, args, api, acc);
            t.result.Err? ==> FirmsPlan(req, args) != [] && api(FirmFacet(ClassOf(args))) == Err(t.result.error)
  {
    if "topFirms" in req || "bottomFirms" in req {
      var p := FirmFacet(ClassOf(args));
      if api(p).Err? {
        assert FirmsStage(req, args, api, acc) == Run(Err(api(p).error), [p]);
      }
    }
  }

  /** A run of at most one request keeps to its plan when a failure is
      the planned request's own. */
  lemma OneCallFollows(t: Run<StatsResult>, plan: seq<Params>, api: Params -> Result<Reply>)
    requires t.calls == plan && |plan| <= 1
    requires t.result.Err? ==> plan != [] && api(plan[0]) == Err(t.result.error)
    ensures Follows(t, plan, api)
  {
  }

  lemma YearStageCalls(req: seq<string>, args: ToolArgs, api: Params -> Result<Reply>, thisYear: int,
                       acc: StatsResult)
    ensures Follows(YearStage(req, args, api, thisYear, acc), YearPlan(req, args, thisYear), api)
  {
  }

  /** With no earlier answer for it, the classification step's total is
      the sum of its mapping. */
  lemma ClassSum(req: seq<string>, api: Params -> Result<Reply>, acc: StatsResult)
    requires acc.totalRecalls.None? && acc.recallsByClassification.None?
    ensures var c := ClassStage(req, api, acc);
            c.result.Ok? && c.result.value.totalRecalls.Some? && c.result.value.recallsByClassification.Some? ==>
              c.result.value.totalRecalls.value == SumValues(c.result.value.recallsByClassification.value)
  {
  }

  /** A run keeps to a plan: it issued a prefix of the planned requests,
      all of them when it succeeded, and a failed one failed on its last. */
  predicate Follows(run: Run<StatsResult>, plan: seq<Params>, api: Params -> Result<Reply>) {
    && IsPrefix(run.calls, plan)
    && (run.result.Ok? ==> run.calls == plan)
    && (run.result.Err? ==> run.calls != [] && api(run.calls[|run.calls| - 1]) == Err(run.result.error))
  }

  lemma ThenFollows(first: Run<StatsResult>, second: Run<StatsResult>, p1: seq<Params>, p2: seq<Params>,
                    api: Params -> Result<Reply>)
    requires Follows(first, p1, api)
    requires first.result.Ok? ==> Follows(second, p2, api)
    ensures Follows(Then(first, second), p1 + p2, api)
  {
    if first.result.Err? {
      assert (p1 + p2)[..|p1|] == p1;
      assert p1[..|first.calls|] == first.calls;
    } else {
      assert (p1 + p2)[..|p1 + second.calls|] == p1 + p2[..|second.calls|];
      if second.result.Err? {
        LastOfAppend(p1, second.calls);
      }
    }
  }

  lemma AfterClassFollows(req: seq<string>, args: ToolArgs, api: Params -> Result<Reply>, thisYear: int,
                          acc: StatsResult)
    ensures Follows(AfterClass(req, args, api, thisYear, acc), FirmsPlan(req, args) + YearPlan(req, args, thisYear), api)
  {
    var t := FirmsStage(req, args, api, acc);
    FirmsCalls(req, args, api, acc);
    if t.result.Err? {
      ThenFollows(t, t, FirmsPlan(req, args), YearPlan(req, args, thisYear), api);
    } else {
      var y := YearStage(req, args, api, thisYear, t.result.value);
      YearStageCalls(req, args, api, thisYear, t.result.value);
      ThenFollows(t, y, FirmsPlan(req, args), YearPlan(req, args, thisYear), api);
    }
  }

  lemma AfterFirmTotalFollows(req: seq<string>, args: ToolArgs, api: Params -> Result<Reply>, thisYear: int,
                              acc: StatsResult)
    ensures Follows(AfterFirmTotal(req, args, api, thisYear, acc),
                    ClassPlan(req) + (FirmsPlan(req, args) + YearPlan(req, args, thisYear)), api)
  {
    var c := ClassStage(req, api, acc);
    ClassCalls(req, api, acc);
    var rest := FirmsPlan(req, args) + YearPlan(req, args, thisYear);
    if c.result.Err? {
      ThenFollows(c, c, ClassPlan(req), rest, api);
    } else {
      AfterClassFollows(req, args, api, thisYear, c.result.value);
      ThenFollows(c, AfterClass(req, args, api, thisYear, c.result.value), ClassPlan(req), rest, api);
    }
  }

  /** The statistics call after a firmTotal step that kept to its plan
      keeps to the whole plan. */
  lemma FollowsAfterFirmTotalStep(req: seq<string>, args: ToolArgs, api: Params -> Result<Reply>, thisYear: int,
                                  f: Run<StatsResult>, p0: seq<Params>)
    requires Follows(f, p0, api)
    requires f.result.Ok? && f.result.value.firm.Some? && OnlyFirmTotal(req) ==>
               ClassPlan(req) + (FirmsPlan(req, args) + YearPlan(req, args, thisYear)) == []
    ensures var run := if f.result.Err? || (f.result.value.firm.Some? && OnlyFirmTotal(req)) then f
                       else Then(f, AfterFirmTotal(req, args, api, thisYear, f.result.value));
            Follows(run, p0 + (ClassPlan(req) + (FirmsPlan(req, args) + YearPlan(req, args, thisYear))), api)
  {
    var rest := ClassPlan(req) + (FirmsPlan(req, args) + YearPlan(req, args, thisYear));
    if f.result.Err? {
      ThenFollows(f, f, p0, rest, api);
    } else if f.result.value.firm.Some? && OnlyFirmTotal(req) {
      assert p0 + rest == p0;
    } else {
      AfterFirmTotalFollows(req, args, api, thisYear, f.result.value);
      ThenFollows(f, AfterFirmTotal(req, args, api, thisYear, f.result.value), p0, rest, api);
    }
  }

  /** Nothing but firmTotal asked for plans nothing after it. */
  lemma OnlyFirmTotalPlansNothingElse(req: seq<string>, args: ToolArgs, thisYear: int)
    requires OnlyFirmTotal(req)
    ensures ClassPlan(req) + (FirmsPlan(req, args) + YearPlan(req, args, thisYear)) == []
  {
    OnlyFirmTotalExcludes(req);
  }

  /** Metrics are fetched lazily: a statistics call issues the planned
      requests in order, all of them when it succeeds, and otherwise stops
      right after the request whose reply was an error (see Follows). */
  lemma StatsCallsPlanned(args: ToolArgs, api: Params -> Result<Reply>, thisYear: int)
    ensures Follows(StatsRun(args, api, thisYear), PlannedCalls(args, thisYear), api)
  {
    var req := Requested(args.stats);
    FirmTotalCalls(args, api);
    if OnlyFirmTotal(req) {
      OnlyFirmTotalPlansNothingElse(req, args, thisYear);
    }
    FollowsAfterFirmTotalStep(req, args, api, thisYear, FirmTotalStage(args, api), FirmTotalPlan(args));
  }

  /** Asking only for the total issues exactly one request, the
      classification facet, and answers with the total alone. */
  lemma StatsTotalOnly(args: ToolArgs, api: Params -> Result<Reply>, thisYear: int)
    requires "total" in Requested(args.stats)
    requires forall m :: m in Requested(args.stats) ==> m == "total"
    ensures StatsRun(args, api, thisYear).calls == [ClassFacet]
    ensures StatsRun(args, api, thisYear).result.Ok? ==>
              StatsRun(args, api, thisYear).result.value
              == NoStats.(totalRecalls := Some(SumValues(ClassificationCounts(BucketsOf(api(ClassFacet).value)))))
  {
    var req := Requested(args.stats);
    assert "firmTotal" !in req && !WantsYears(req) && "topFirms" !in req && "bottomFirms" !in req;
    assert "byClassification" !in req;
    StatsCallsPlanned(args, api, thisYear);
    assert PlannedCalls(args, thisYear) == [ClassFacet];
  }

  /** When firmTotal is the only metric and a firm is given, the call stops
      after the single firm-total search and answers with the firm and its
      total alone. */
  lemma StatsFirmTotalOnly(args: ToolArgs, api: Params -> Result<Reply>, thisYear: int)
    requires OnlyFirmTotal(Requested(args.stats)) && FirmOf(args) != ""
    ensures StatsRun(args, api, thisYear).calls == [FirmTotalParams(FirmOf(args), ClassOf(args))]
    ensures var p := FirmTotalParams(FirmOf(args), ClassOf(args));
            api(p).Ok? ==> StatsRun(args, api, thisYear).result
                           == Ok(NoStats.(firmTotal := Some(TotalOf(api(p).value)), firm := Some(FirmOf(args))))
  {
  }

  /** The total is the sum of the classification mapping's counts. */
  lemma StatsTotalIsSum(args: ToolArgs, api: Params -> Result<Reply>, thisYear: int)
    ensures var r := StatsRun(args, api, thisYear).result;
            r.Ok? && r.value.totalRecalls.Some? && r.value.recallsByClassification.Some? ==>
              r.value.totalRecalls.value == SumValues(r.value.recallsByClassification.value)
  {
    var req := Requested(args.stats);
    var f := FirmTotalStage(args, api);
    FirmTotalKeys(args, api);
    if f.result.Ok? && !(f.result.value.firm.Some? && OnlyFirmTotal(req)) {
      var c := ClassStage(req, api, f.result.value);
      ClassSum(req, api, f.result.value);
      if c.result.Ok? {
        var t := FirmsStage(req, args, api, c.result.value);
        FirmsKeys(req, args, api, c.result.value);
        if t.result.Ok? {
          var y := YearStage(req, args, api, thisYear, t.result.value);
          YearKeys(req, args, api, thisYear, t.result.value);
          assert StatsRun(args, api, thisYear).result == y.result;
          assert y.result.value.totalRecalls == c.result.value.totalRecalls;
          assert y.result.value.recallsByClassification == c.result.value.recallsByClassification;
        }
      }
    }
  }

  /** The `limit=1` search for one firm's recalls, narrowed to a
      classification when one is given. */
  method CountFirm(firm: string, classificationFilter: string, client: Client) returns (r: Result<Reply>)
    modifies client
    ensures r == client.api(FirmTotalParams(firm, classificationFilter))
    ensures client.log == old(client.log) + [FirmTotalParams(firm, classificationFilter)]
  {
    var parts := [FirmClause(firm)];
    if classificationFilter != "" {
      parts := parts + [ClassificationClause(classificationFilter)];
    }
    var query := Join(parts, " AND ");
    r := client.SearchEnforcements(Some(query), None, 1, 0, None);
  }

  /** The firmTotal step of `get_recall_stats_handler`. */
  method FirmTotalStep(args: ToolArgs, client: Client) returns (r: Result<StatsResult>)
    modifies client
    ensures r == FirmTotalStage(args, client.api).result
    ensures client.log == old(client.log) + FirmTotalStage(args, client.api).calls
  {
    var requested := Requested(args.stats);
    var classificationFilter := Strip(args.classification.GetOr(""), false);
    assert classificationFilter == ClassOf(args);
    var result := NoStats;
    if "firmTotal" in requested {
      var firm := Strip(args.firm.GetOr(""), false);
      assert firm == FirmOf(args);
      if firm != "" {
        ghost var p := FirmTotalParams(firm, classificationFilter);
        var data := CountFirm(firm, classificationFilter, client);
        assert data == client.api(p);
        if data.Err? {
          return Err(data.error);
        }
        result := result.(firmTotal := Some(TotalOf(data.value)), firm := Some(firm));
      } else {
        result := result.(firmTotal := Some(0));
      }
    }
    return Ok(result);
  }

  /** The byClassification / total step. */
  method ClassStep(requested: seq<string>, client: Client, acc: StatsResult) returns (r: Result<StatsResult>)
    modifies client
    ensures r == ClassStage(requested, client.api, acc).result
    ensures client.log == old(client.log) + ClassStage(requested, client.api, acc).calls
  {
    var result := acc;
    var includeClass := "byClassification" in requested;
    var includeTotal := "total" in requested;
    if includeClass || includeTotal {
      var classificationBuckets := client.CountBuckets("classification");
      if classificationBuckets.Err? {
        return Err(classificationBuckets.error);
      }
      var recallsByClassification := ClassificationCounts(classificationBuckets.value);
      if includeClass {
        result := result.(recallsByClassification := Some(recallsByClassification));
      }
      if includeTotal {
        var total := Sum(recallsByClassification);
        result := result.(totalRecalls := Some(total));
      }
    }
    return Ok(result);
  }

  /** The two limits of the firm rankings. */
  method ReadFirmLimits(args: ToolArgs) returns (limit: int, bottomLimit: int)
    ensures limit == TopLimit(args) && bottomLimit == BottomLimit(args)
  {
    limit := args.topFirmsLimit.GetOr(5);
    if limit == 0 {
      limit := 5;
    }
    limit := if limit < 1 then 1 else if limit > 10 then 10 else limit;
    bottomLimit := args.bottomFirmsLimit.GetOr(limit);
    if bottomLimit == 0 {
      bottomLimit := limit;
    }
    bottomLimit := if bottomLimit < 1 then 1 else if bottomLimit > 10 then 10 else bottomLimit;
  }

  /** The loop that builds topFirms. */
  method CollectTopFirms(bs: seq<Bucket>, limit: nat) returns (topFirms: seq<FirmCount>)
    ensures topFirms == TopFirms(bs, limit)
  {
    topFirms := [];
    var n := if limit < |bs| then limit else |bs|;
    var i := 0;
    while i < n
      invariant 0 <= i <= n
      invariant |topFirms| == i
      invariant forall k :: 0 <= k < i ==> topFirms[k] == Entry(bs[k])
    {
      var term := Label(bs[i]);
      var count := CountOf(bs[i]);
      topFirms := topFirms + [FirmCount(term, count)];
      i := i + 1;
    }
  }

  /** The topFirms / bottomFirms step. */
  method FirmsStep(requested: seq<string>, args: ToolArgs, client: Client, acc: StatsResult)
    returns (r: Result<StatsResult>)
    modifies client
    ensures r == FirmsStage(requested, args, client.api, acc).result
    ensures client.log == old(client.log) + FirmsStage(requested, args, client.api, acc).calls
  {
    var result := acc;
    var includeTopFirms := "topFirms" in requested;
    var includeBottomFirms := "bottomFirms" in requested;
    if includeTopFirms || includeBottomFirms {
      var limit, bottomLimit := ReadFirmLimits(args);
      var classificationFilter := Strip(args.classification.GetOr(""), false);
      var searchClause: Option<string> := None;
      if classificationFilter != "" {
        searchClause := Some(ClassificationClause(classificationFilter));
      }
      assert CountParams("recalling_firm", searchClause) == FirmFacet(ClassOf(args));
      var firmBuckets := client.CountBuckets("recalling_firm", searchClause);
      if firmBuckets.Err? {
        return Err(firmBuckets.error);
      }
      var bs := firmBuckets.value;
      if includeTopFirms {
        var topFirms := CollectTopFirms(bs, limit);
        result := result.(topFirms := Some(topFirms));
      }
      if includeBottomFirms {
        result := result.(bottomFirms := Some(BottomFirms(bs, bottomLimit)));
      }
    }
    return Ok(result);
  }

  /** The year range of `get_recall_stats_handler`. */
  method ReadYearRange(args: ToolArgs, thisYear: int) returns (startYear: int, endYear: int)
    ensures (startYear, endYear) == YearRange(args.startYear, args.endYear, thisYear)
  {
    match (args.startYear, args.endYear) {
      case (Some(Int(s)), Some(Int(e))) => startYear, endYear := s, e;
      case _ => startYear, endYear := thisYear, thisYear - 1;
    }
    if startYear > endYear {
      startYear := thisYear - 9;
      endYear := thisYear;
    }
  }

  /** The per-year loop: one `limit=1` search per year, a failed one
      counted as 0. */
  method CountYears(client: Client, startYear: int, endYear: int) returns (recallsByYear: seq<YearTotal>)
    requires startYear <= endYear
    modifies client
    ensures recallsByYear == YearTotals(client.api, startYear, endYear)
    ensures client.log == old(client.log) + YearCalls(startYear, endYear)
  {
    recallsByYear := [];
    var year := startYear;
    while year <= endYear
      invariant startYear <= year <= endYear + 1
      invariant recallsByYear == YearTotals(client.api, startYear, year - 1)
      invariant client.log == old(client.log) + YearCalls(startYear, year - 1)
    {
      YearSnoc(client.api, startYear, year);
      var data := client.SearchEnforcements(Some(YearQuery(year)), None, 1);
      var total := if data.Ok? then TotalOf(data.value) else 0;
      recallsByYear := recallsByYear + [YearTotal(year, total)];
      year := year + 1;
    }
  }

  /** The byYear / mostYear / leastYear step. */
  method YearStep(requested: seq<string>, args: ToolArgs, client: Client, thisYear: int, acc: StatsResult)
    returns (r: Result<StatsResult>)
    modifies client
    ensures r == YearStage(requested, args, client.api, thisYear, acc).result
    ensures client.log == old(client.log) + YearStage(requested, args, client.api, thisYear, acc).calls
  {
    var result := acc;
    if "byYear" in requested || "mostYear" in requested || "leastYear" in requested {
      var startYear, endYear := ReadYearRange(args, thisYear);
      var recallsByYear := CountYears(client, startYear, endYear);
      if "byYear" in requested {
        result := result.(recallsByYear := Some(recallsByYear));
      }
      if "mostYear" in requested && |recallsByYear| > 0 {
        result := result.(mostYear := Some(recallsByYear[MostIndex(recallsByYear)]));
      }
      if "leastYear" in requested && |recallsByYear| > 0 {
        result := result.(leastYear := Some(recallsByYear[LeastIndex(recallsByYear)]));
      }
    }
    return Ok(result);
  }


  /** The firm and year steps. */
  method AfterClassSteps(requested: seq<string>, args: ToolArgs, client: Client, thisYear: int, acc: StatsResult)
    returns (r: Result<StatsResult>)
    modifies client
    ensures r == AfterClass(requested, args, client.api, thisYear, acc).result
    ensures client.log == old(client.log) + AfterClass(requested, args, client.api, thisYear, acc).calls
  {
    r := FirmsStep(requested, args, client, acc);
    if r.Err? {
      return;
    }
    ghost var t := FirmsStage(requested, args, client.api, acc);
    ghost var y := YearStage(requested, args, client.api, thisYear, r.value);
    r := YearStep(requested, args, client, thisYear, r.value);
    AppendAssoc(old(client.log), t.calls, y.calls);
  }

  /** The classification, firm and year steps. */
  method AfterFirmTotalSteps(requested: seq<string>, args: ToolArgs, client: Client, thisYear: int,
                             acc: StatsResult) returns (r: Result<StatsResult>)
    modifies client
    ensures r == AfterFirmTotal(requested, args, client.api, thisYear, acc).result
    ensures client.log == old(client.log) + AfterFirmTotal(requested, args, client.api, thisYear, acc).calls
  {
    r := ClassStep(requested, client, acc);
    if r.Err? {
      return;
    }
    ghost var c := ClassStage(requested, client.api, acc);
    ghost var rest := AfterClass(requested, args, client.api, thisYear, r.value);
    r := AfterClassSteps(requested, args, client, thisYear, r.value);
    AppendAssoc(old(client.log), c.calls, rest.calls);
  }

  /** `get_recall_stats_handler`. */
  method GetRecallStats(args: ToolArgs, client: Client, thisYear: int) returns (r: Result<StatsResult>)
    modifies client
    ensures r == StatsRun(args, client.api, thisYear).result
    ensures client.log == old(client.log) + StatsRun(args, client.api, thisYear).calls
  {
    var requested := Requested(args.stats);
    r := FirmTotalStep(args, client);
    if r.Err? || (r.value.firm.Some? && OnlyFirmTotal(requested)) {
      return;
    }
    ghost var f := FirmTotalStage(args, client.api);
    ghost var rest := AfterFirmTotal(requested, args, client.api, thisYear, r.value);
    r := AfterFirmTotalSteps(requested, args, client, thisYear, r.value);
    AppendAssoc(old(client.log), f.calls, rest.calls);
  }
}
