/** The video/map page: distress records filtered by the type and severity
    checkboxes, the marker colours, and the Quick Stats counts. */
module VideoMapViewer {
  import opened Text
  import opened Subsequences

  /** One detected pavement distress. `kind` is the record's `type`
      ("Cracks", "Rutting", "Roughness"); `severity` is "High", "Medium"
      or "Low" in the fixture, but any string is accepted. */
  datatype DistressRecord = DistressRecord(
    id: int,
    kind: string,
    severity: string,
    lat: real,
    lng: real,
    timestamp: string,
    description: string)

  /** The checkbox state, keyed by lower-cased type or severity name. */
  type Toggles = map<string, bool>

  /** The six checkboxes, all ticked when the page opens. */
  const InitialFilters: Toggles :=
    map["cracks" := true, "rutting" := true, "roughness" := true,
        "high" := true, "medium" := true, "low" := true]

  /** The page's fixture records. */
  const DistressData: seq<DistressRecord> := [
    DistressRecord(1, "Cracks", "High", 28.6139, 77.2090, "00:05:23", "Longitudinal crack detected"),
    DistressRecord(2, "Rutting", "Medium", 28.6149, 77.2100, "00:07:45", "Wheel path rutting observed"),
    DistressRecord(3, "Roughness", "Low", 28.6159, 77.2110, "00:09:12", "Minor surface irregularity"),
    DistressRecord(4, "Cracks", "High", 28.6169, 77.2120, "00:11:30", "Transverse crack pattern"),
    DistressRecord(5, "Rutting", "Medium", 28.6179, 77.2130, "00:13:55", "Progressive wheel rutting")
  ]

  /** `filters[key] !== false`: a missing key counts as shown. */
  predicate Shown(t: Toggles, key: string)
  {
    key !in t || t[key]
  }

  /** The predicate of `filteredData`: both the type toggle and the severity
      toggle of the record are not explicitly off. */
  predicate Visible(t: Toggles, r: DistressRecord)
  {
    Shown(t, Lower(r.kind)) && Shown(t, Lower(r.severity))
  }

  /** `filteredData`: the visible records, in input order. */
  function FilterRecords(t: Toggles, rs: seq<DistressRecord>): (out: seq<DistressRecord>)
    ensures forall r :: r in out <==> r in rs && Visible(t, r)
    ensures |out| <= |rs|
  {
    if rs == [] then []
    else if Visible(t, rs[0]) then [rs[0]] + FilterRecords(t, rs[1..])
    else FilterRecords(t, rs[1..])
  }

  /** Fail-open: a record is hidden only by a key that is present and false. */
  lemma HiddenOnlyByExplicitFalse(t: Toggles, r: DistressRecord)
    ensures !Visible(t, r) <==>
              (Lower(r.kind) in t && t[Lower(r.kind)] == false) ||
              (Lower(r.severity) in t && t[Lower(r.severity)] == false)
    ensures Lower(r.kind) !in t && Lower(r.severity) !in t ==> Visible(t, r)
  {
  }

  /** The filter is stable: its output is an order-preserving subsequence
      of its input. */
  lemma {:induction false} FilterRecordsIsSubsequence(t: Toggles, rs: seq<DistressRecord>)
    ensures Subseq(FilterRecords(t, rs), rs)
  {
    if rs != [] {
      FilterRecordsIsSubsequence(t, rs[1..]);
    }
  }

  /** The filter keeps every occurrence of a visible record and drops every
      occurrence of a hidden one, so duplicates in the input are kept as
      `Array.prototype.filter` keeps them. */
  lemma {:induction false} FilterRecordsMultiplicity(t: Toggles, rs: seq<DistressRecord>)
    ensures forall r :: multiset(FilterRecords(t, rs))[r] == if Visible(t, r) then multiset(rs)[r] else 0
  {
    if rs != [] {
      FilterRecordsMultiplicity(t, rs[1..]);
      assert rs == [rs[0]] + rs[1..];
    }
  }

  /** Filtering again with the same toggles changes nothing. */
  lemma {:induction false} FilterRecordsIdempotent(t: Toggles, rs: seq<DistressRecord>)
    ensures FilterRecords(t, FilterRecords(t, rs)) == FilterRecords(t, rs)
  {
    if rs != [] {
      FilterRecordsIdempotent(t, rs[1..]);
    }
  }

  /** When no toggle is off, every record is visible, in its place. */
  lemma {:induction false} NoToggleOffShowsAll(t: Toggles, rs: seq<DistressRecord>)
    requires forall k :: k in t ==> t[k]
    ensures FilterRecords(t, rs) == rs
  {
    if rs != [] {
      assert Visible(t, rs[0]);
      NoToggleOffShowsAll(t, rs[1..]);
      assert rs == [rs[0]] + rs[1..];
    }
  }

  /** With the initial all-ticked checkboxes the map shows all records. */
  lemma InitialFiltersShowAll(rs: seq<DistressRecord>)
    ensures FilterRecords(InitialFilters, rs) == rs
  {
    NoToggleOffShowsAll(InitialFilters, rs);
  }

  /** Monotonicity: unticking one checkbox only removes records; what
      remains is still in order, and a record disappears exactly when one of
      its lower-cased names is that checkbox's key. */
  lemma {:induction false} UntickOnlyHides(t: Toggles, key: string, rs: seq<DistressRecord>)
    ensures Subseq(FilterRecords(t[key := false], rs), FilterRecords(t, rs))
    ensures forall r :: r in FilterRecords(t[key := false], rs) <==>
              r in FilterRecords(t, rs) && Lower(r.kind) != key && Lower(r.severity) != key
  {
    if rs != [] {
      UntickOnlyHides(t, key, rs[1..]);
    }
  }

  /** The number of records whose severity is exactly `sev`
      (`filteredData.filter(d => d.severity === sev).length`). */
  function CountSeverity(rs: seq<DistressRecord>, sev: string): (n: nat)
    ensures n <= |rs|
    ensures n == 0 <==> forall r :: r in rs ==> r.severity != sev
  {
    if rs == [] then 0
    else (if rs[0].severity == sev then 1 else 0) + CountSeverity(rs[1..], sev)
  }

  /** With the "high" checkbox off, the High Severity count is zero. */
  lemma HighOffMeansNoHighCount(t: Toggles, rs: seq<DistressRecord>)
    requires "high" in t && !t["high"]
    ensures CountSeverity(FilterRecords(t, rs), "High") == 0
  {
    assert Lower("High") == "high";
  }

  /** When every severity is one of the three known names, the three counts
      add up to the number of records. */
  lemma {:induction false} SeverityCountsSum(rs: seq<DistressRecord>)
    ensures (forall r :: r in rs ==> r.severity in {"High", "Medium", "Low"}) ==>
              CountSeverity(rs, "High") + CountSeverity(rs, "Medium") + CountSeverity(rs, "Low") == |rs|
  {
    if rs != [] {
      SeverityCountsSum(rs[1..]);
    }
  }

  /** The Quick Stats card: total markers and the three severity counts. */
  datatype QuickStats = QuickStats(total: nat, high: nat, medium: nat, low: nat)

  /** Quick Stats over the filtered records: the total is the number of
      visible markers and each count is the number of visible markers with
      exactly that severity. So the High count is 0 while the "high"
      checkbox is off, the counts never exceed the total, and they add up to
      it when every visible severity is a known name. */
  function Stats(t: Toggles, rs: seq<DistressRecord>): (s: QuickStats)
    ensures s.total == |FilterRecords(t, rs)| <= |rs|
    ensures s.high == CountSeverity(FilterRecords(t, rs), "High")
    ensures s.medium == CountSeverity(FilterRecords(t, rs), "Medium")
    ensures s.low == CountSeverity(FilterRecords(t, rs), "Low")
    ensures "high" in t && !t["high"] ==> s.high == 0
    ensures s.high + s.medium + s.low <= s.total
    ensures (forall r :: r in FilterRecords(t, rs) ==> r.severity in {"High", "Medium", "Low"}) ==>
              s.high + s.medium + s.low == s.total
  {
    var shown := FilterRecords(t, rs);
    SeverityCountsAtMost(shown);
    SeverityCountsSum(shown);
    LowerSeverityNames();
    QuickStats(|shown|, CountSeverity(shown, "High"), CountSeverity(shown, "Medium"), CountSeverity(shown, "Low"))
  }

  /** The three counts never exceed the number of records. */
  lemma {:induction false} SeverityCountsAtMost(rs: seq<DistressRecord>)
    ensures CountSeverity(rs, "High") + CountSeverity(rs, "Medium") + CountSeverity(rs, "Low") <= |rs|
  {
    if rs != [] {
      SeverityCountsAtMost(rs[1..]);
    }
  }

  /** `getSeverityColor`: the marker colour of a severity. */
  function SeverityColor(severity: string): (c: string)
    ensures c == "bg-red-500" <==> severity == "High"
    ensures c == "bg-yellow-500" <==> severity == "Medium"
    ensures c == "bg-green-500" <==> severity == "Low"
    ensures c == "bg-gray-500" <==> severity !in {"High", "Medium", "Low"}
  {
    match severity
    case "High" => "bg-red-500"
    case "Medium" => "bg-yellow-500"
    case "Low" => "bg-green-500"
    case _ => "bg-gray-500"
  }

  /** `getSeverityBadgeVariant`: only High gets the destructive badge. */
  function SeverityBadgeVariant(severity: string): (v: string)
    ensures v == "destructive" <==> severity == "High"
    ensures v == "secondary" <==> severity != "High"
  {
    match severity
    case "High" => "destructive"
    case "Medium" => "secondary"
    case "Low" => "secondary"
    case _ => "secondary"
  }

  /** Which fixture records survive with the "cracks" checkbox off. */
  lemma CracksOffVisibility()
    ensures !Visible(InitialFilters["cracks" := false], DistressData[0])
    ensures Visible(InitialFilters["cracks" := false], DistressData[1])
    ensures Visible(InitialFilters["cracks" := false], DistressData[2])
    ensures !Visible(InitialFilters["cracks" := false], DistressData[3])
    ensures Visible(InitialFilters["cracks" := false], DistressData[4])
  {
    LowerTypeNames();
    LowerSeverityNames();
    assert "rutting" != "cracks" && "roughness" != "cracks";
    assert "medium" != "cracks" && "low" != "cracks";
  }

  /** The lower-cased type names of the fixture. */
  lemma LowerTypeNames()
    ensures Lower("Cracks") == "cracks" && Lower("Rutting") == "rutting"
    ensures Lower("Roughness") == "roughness"
  {
  }

  /** The lower-cased severity names of the fixture. */
  lemma LowerSeverityNames()
    ensures Lower("High") == "high" && Lower("Medium") == "medium" && Lower("Low") == "low"
  {
  }

  /** With the "cracks" checkbox off, the fixture shows the two Rutting
      records and the Roughness record, in order. */
  lemma CracksOffExample()
    ensures FilterRecords(InitialFilters["cracks" := false], DistressData)
         == [DistressData[1], DistressData[2], DistressData[4]]
  {
    CracksOffVisibility();
    FilterFive(InitialFilters["cracks" := false], DistressData);
  }

  /** The filter on five records, unrolled. */
  lemma FilterFive(t: Toggles, d: seq<DistressRecord>)
    requires |d| == 5
    requires !Visible(t, d[0]) && Visible(t, d[1]) && Visible(t, d[2])
    requires !Visible(t, d[3]) && Visible(t, d[4])
    ensures FilterRecords(t, d) == [d[1], d[2], d[4]]
  {
    assert d[4..][1..] == [];
    assert FilterRecords(t, d[4..]) == [d[4]];
    assert d[3..][1..] == d[4..];
    assert FilterRecords(t, d[3..]) == [d[4]];
    assert d[2..][1..] == d[3..];
    assert FilterRecords(t, d[2..]) == [d[2], d[4]];
    assert d[1..][1..] == d[2..];
    assert FilterRecords(t, d[1..]) == [d[1], d[2], d[4]];
    assert d[0..][1..] == d[1..];
    assert d[0..] == d;
  }

  /** The page's filter state. The record list is fixed; the checkboxes
      rewrite one key of `filters` at a time. */
  class Page {
    var filters: Toggles
    const distressData: seq<DistressRecord>

    constructor ()
      ensures filters == InitialFilters && distressData == DistressData
    {
      filters := InitialFilters;
      distressData := DistressData;
    }

    /** `onCheckedChange` of the checkbox named `key`: sets that key and
        keeps every other toggle as it was. */
    method OnCheckedChange(key: string, checked: bool)
      modifies this
      ensures filters == old(filters)[key := checked]
      ensures key in filters && filters[key] == checked
      ensures forall k :: k != key ==> (k in filters <==> k in old(filters))
      ensures forall k :: k != key && k in old(filters) ==> filters[k] == old(filters)[k]
    {
      filters := filters[key := checked];
    }

    /** The markers drawn on the map. */
    function FilteredData(): (out: seq<DistressRecord>)
      reads this
      ensures forall r :: r in out <==> r in distressData && Visible(filters, r)
    {
      FilterRecords(filters, distressData)
    }

    /** The Quick Stats card. */
    function QuickStatsCard(): (s: QuickStats)
      reads this
      ensures s.total == |FilteredData()|
      ensures s.high == CountSeverity(FilteredData(), "High")
      ensures s.medium == CountSeverity(FilteredData(), "Medium")
      ensures s.low == CountSeverity(FilteredData(), "Low")
      ensures "high" in filters && !filters["high"] ==> s.high == 0
      ensures (forall r :: r in FilteredData() ==> r.severity in {"High", "Medium", "Low"}) ==>
                s.high + s.medium + s.low == s.total
      ensures s.high + s.medium + s.low <= s.total
    {
      Stats(filters, distressData)
    }
  }
}
