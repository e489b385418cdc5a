/** Record normalisation and per-year grouping of openFDA enforcement
    records (third_party/openfda/transforms.py). */
module Transforms {
  import opened Wrappers
  import opened MapSum

  /** A JSON field value as the client reads it: null or a string. */
  datatype RawValue = Null | Str(s: string)

  /** A raw enforcement record: the fields present in the JSON object. */
  type RawRecord = map<string, RawValue>

  /** A normalised recall: the nine output keys mapped to strings (or, after
      projection, a subset of them). */
  type Recall = map<string, string>

  /** `record.get(key, "") or ""`: the string value of a field, "" when the
      field is absent, null or empty. */
  function Text(record: RawRecord, key: string): (r: string)
    ensures key !in record ==> r == ""
    ensures key in record && record[key].Str? ==> r == record[key].s
    ensures key in record && record[key].Null? ==> r == ""
  {
    if key in record then
      match record[key]
      case Str(s) => s
      case Null => ""
    else ""
  }

  /** The nine keys of a normalised recall. */
  const RecallKeys: set<string> :=
    {"id", "classification", "productName", "firmName", "status",
     "recallInitiationDate", "state", "reasonForRecall", "city"}

  /** The raw field each output key other than firmName is read from. */
  const SourceField: map<string, string> :=
    map["id" := "recall_number",
        "classification" := "classification",
        "productName" := "product_description",
        "status" := "status",
        "recallInitiationDate" := "recall_initiation_date",
        "state" := "state",
        "reasonForRecall" := "reason_for_recall",
        "city" := "city"]

  /** firmName: `firm_name` whenever that key is present (even null or
      empty), `recalling_firm` only when it is absent. */
  function FirmName(record: RawRecord): (r: string)
    ensures "firm_name" in record ==> r == Text(record, "firm_name")
    ensures "firm_name" !in record ==> r == Text(record, "recalling_firm")
  {
    var v := if "firm_name" in record then record["firm_name"]
             else if "recalling_firm" in record then record["recalling_firm"]
             else Str("");
    match v
    case Str(s) => s
    case Null => ""
  }

  /** `normalize_recall`: a total mapping onto exactly the nine keys, each
      read from its own source field. */
  function NormalizeRecall(record: RawRecord): (r: Recall)
    ensures r.Keys == RecallKeys
  {
    map["id" := Text(record, "recall_number"),
        "classification" := Text(record, "classification"),
        "productName" := Text(record, "product_description"),
        "firmName" := FirmName(record),
        "status" := Text(record, "status"),
        "recallInitiationDate" := Text(record, "recall_initiation_date"),
        "state" := Text(record, "state"),
        "reasonForRecall" := Text(record, "reason_for_recall"),
        "city" := Text(record, "city")]
  }

  /** Each of the eight copied keys holds its source field's text, and
      firmName the firm name. */
  lemma NormalizeRecallFields(record: RawRecord)
    ensures forall k :: k in SourceField ==> NormalizeRecall(record)[k] == Text(record, SourceField[k])
    ensures NormalizeRecall(record)["firmName"] == FirmName(record)
  {
    var r := NormalizeRecall(record);
    forall k | k in SourceField ensures r[k] == Text(record, SourceField[k]) {
      assert k in {"id", "classification", "productName", "status", "recallInitiationDate", "state",
                   "reasonForRecall", "city"};
    }
  }

  /** Each output key depends on its own source field(s) only: two raw
      records that agree there normalise to the same value at that key. */
  lemma NormalizeIsFieldwise(a: RawRecord, b: RawRecord, k: string)
    requires k in RecallKeys
    requires k in SourceField ==> Text(a, SourceField[k]) == Text(b, SourceField[k])
    requires k == "firmName" ==>
      && ("firm_name" in a <==> "firm_name" in b)
      && Text(a, "firm_name") == Text(b, "firm_name")
      && Text(a, "recalling_firm") == Text(b, "recalling_firm")
    ensures NormalizeRecall(a)[k] == NormalizeRecall(b)[k]
  {
    if k == "firmName" {
      assert NormalizeRecall(a)[k] == FirmName(a) && NormalizeRecall(b)[k] == FirmName(b);
    } else {
      assert k in SourceField;
      NormalizeRecallFields(a);
      NormalizeRecallFields(b);
    }
  }

  /** A record with no fields at all normalises to nine empty strings. */
  lemma NormalizeEmptyRecord()
    ensures NormalizeRecall(map[]) == map k | k in RecallKeys :: ""
  {
    var r := NormalizeRecall(map[]);
    var e := map k | k in RecallKeys :: "";
    assert r.Keys == e.Keys;
    forall k | k in RecallKeys ensures r[k] == "" {
      assert k in {"id", "classification", "productName", "firmName", "status", "recallInitiationDate",
                   "state", "reasonForRecall", "city"};
    }
    assert forall k :: k in e ==> e[k] == "";
  }

  /** `extract_year_from_yyyymmdd`: the four-character prefix, or "" when
      the date is shorter than that. */
  function ExtractYear(date: string): (y: string)
    ensures y == "" <==> |date| < 4
    ensures y != "" ==> |y| == 4 && y == date[..4]
  {
    if |date| < 4 then "" else date[..4]
  }

  /** The year a record is grouped under ("" when it has none). */
  function RecordYear(record: RawRecord): string {
    ExtractYear(Text(record, "recall_initiation_date"))
  }

  /** How many of the records have year `y`. */
  function YearCount(records: seq<RawRecord>, y: string): (n: nat)
    ensures n <= |records|
  {
    if records == [] then 0
    else YearCount(records[..|records| - 1], y) + (if RecordYear(records[|records| - 1]) == y then 1 else 0)
  }

  /** How many of the records carry a date of at least four characters. */
  function DatedCount(records: seq<RawRecord>): (n: nat)
    ensures n <= |records|
  {
    if records == [] then 0
    else DatedCount(records[..|records| - 1]) + (if RecordYear(records[|records| - 1]) != "" then 1 else 0)
  }

  /** The dictionary `group_year_counts` builds, as a fold over the
      records in order. */
  function YearCounts(records: seq<RawRecord>): (m: map<string, int>)
    ensures "" !in m
    ensures forall y :: y in m ==> m[y] > 0
  {
    if records == [] then map[]
    else
      var m := YearCounts(records[..|records| - 1]);
      var y := RecordYear(records[|records| - 1]);
      if y == "" then m else m[y := (if y in m then m[y] else 0) + 1]
  }

  /** Every key of the year map is a year that occurs, with the number of
      records carrying it; the counts add up to the dated records. */
  lemma YearCountsSpec(records: seq<RawRecord>)
    ensures "" !in YearCounts(records)
    ensures forall y :: y in YearCounts(records) <==> y != "" && YearCount(records, y) > 0
    ensures forall y :: y in YearCounts(records) ==> YearCounts(records)[y] == YearCount(records, y)
    ensures SumValues(YearCounts(records)) == DatedCount(records)
  {
    YearCountsKeys(records);
    YearCountsValues(records);
    YearCountsSum(records);
  }

  lemma {:induction false} YearCountsKeys(records: seq<RawRecord>)
    ensures forall y :: y in YearCounts(records) <==> y != "" && YearCount(records, y) > 0
  {
    if records != [] {
      YearCountsKeys(records[..|records| - 1]);
    }
  }

  lemma {:induction false} YearCountsValues(records: seq<RawRecord>)
    ensures forall y :: y in YearCounts(records) ==> YearCounts(records)[y] == YearCount(records, y)
  {
    if records != [] {
      YearCountsValues(records[..|records| - 1]);
      YearCountsKeys(records[..|records| - 1]);
    }
  }

  lemma {:induction false} YearCountsSum(records: seq<RawRecord>)
    ensures SumValues(YearCounts(records)) == DatedCount(records)
  {
    if records != [] {
      var init := records[..|records| - 1];
      YearCountsSum(init);
      var m := YearCounts(init);
      var y := RecordYear(records[|records| - 1]);
      if y != "" {
        SumValuesUpdate(m, y, (if y in m then m[y] else 0) + 1);
      }
    }
  }

  /** `group_year_counts`: one entry per year that occurs, holding the
      number of records that have that year; undated records are skipped,
      so the counts add up to the number of dated records. */
  method GroupYearCounts(records: seq<RawRecord>) returns (counts: map<string, int>)
    ensures counts == YearCounts(records)
    ensures "" !in counts
    ensures forall y :: y in counts <==> y != "" && YearCount(records, y) > 0
    ensures forall y :: y in counts ==> counts[y] == YearCount(records, y) > 0
    ensures SumValues(counts) == DatedCount(records)
  {
    counts := map[];
    var i := 0;
    while i < |records|
      invariant 0 <= i <= |records|
      invariant counts == YearCounts(records[..i])
    {
      var r := records[i];
      assert records[..i + 1][..i] == records[..i];
      var year := ExtractYear(Text(r, "recall_initiation_date"));
      if year != "" {
        counts := counts[year := (if year in counts then counts[year] else 0) + 1];
      }
      i := i + 1;
    }
    assert records[..i] == records;
    YearCountsSpec(records);
  }
}
