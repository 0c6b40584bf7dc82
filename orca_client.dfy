/** The query facade over the generator: severity pass-throughs and an inclusive
    time-range filter. Every query calls the generator afresh, so each takes its
    own draws. */
module OrcaClient {
  import opened Wrappers
  import opened MockSecurityData

  /** `get_findings`: the generator, with the account and the filter forwarded unchanged. */
  method GetFindings(severity: Option<string>, accountId: Option<string>, now: int, draws: seq<FindingDraw>)
    returns (r: seq<Finding>)
    requires ValidFindingDraws(draws)
    ensures r == MockFindings(accountId, severity, now, draws)
  {
    r := GetMockFindings(accountId, severity, now, draws);
  }

  /** `get_risk_score`: the generator's risk record for the forwarded account. */
  method GetRiskScore(accountId: Option<string>, now: int, d: RiskDraw) returns (r: RiskScore)
    requires ValidRiskDraw(d)
    ensures r == MockRiskScore(accountId, now, d)
  {
    r := MockRiskScore(accountId, now, d);
  }

  /** `get_assets`: the generator's asset list for the forwarded account. */
  method GetAssets(accountId: Option<string>, now: int, draws: seq<AssetDraw>) returns (r: seq<Asset>)
    requires ValidAssetDraws(draws)
    ensures |r| == |draws|
    ensures forall i :: 0 <= i < |r| ==> r[i] == MakeAsset(accountId, now, draws[i])
  {
    r := GetMockAssets(accountId, now, draws);
  }

  /** `get_high_severity_findings`: `get_findings` with the filter "high". */
  method GetHighSeverityFindings(accountId: Option<string>, now: int, draws: seq<FindingDraw>)
    returns (r: seq<Finding>)
    requires ValidFindingDraws(draws)
    ensures r == MockFindings(accountId, Some("high"), now, draws)
    ensures forall f :: f in r ==> f.severity == "high" && Generated(f, accountId, now)
  {
    r := GetFindings(Some("high"), accountId, now, draws);
    MockFindingsGenerated(accountId, Some("high"), now, draws);
  }

  /** `get_critical_findings`: `get_findings` with the filter "critical". */
  method GetCriticalFindings(accountId: Option<string>, now: int, draws: seq<FindingDraw>)
    returns (r: seq<Finding>)
    requires ValidFindingDraws(draws)
    ensures r == MockFindings(accountId, Some("critical"), now, draws)
    ensures forall f :: f in r ==> f.severity == "critical" && Generated(f, accountId, now)
  {
    r := GetFindings(Some("critical"), accountId, now, draws);
    MockFindingsGenerated(accountId, Some("critical"), now, draws);
  }

  predicate InRange(f: Finding, start: int, end: int)
  {
    start <= f.timestamp <= end
  }

  /** The list comprehension of `get_findings_by_time_range`, in the order of `fs`. */
  function FilterByTimeRange(fs: seq<Finding>, start: int, end: int): seq<Finding>
  {
    if |fs| == 0 then []
    else (if InRange(fs[0], start, end) then [fs[0]] else []) + FilterByTimeRange(fs[1..], start, end)
  }

  /** `a` is `b` with some elements left out, the rest in their original order. */
  ghost predicate IsSubsequence(a: seq<Finding>, b: seq<Finding>)
    decreases |b|
  {
    if |a| == 0 then true
    else if |b| == 0 then false
    else if a[0] == b[0] then IsSubsequence(a[1..], b[1..])
    else IsSubsequence(a, b[1..])
  }

  /** The filter keeps exactly the in-range findings, each as often as it was fetched,
      and nothing else. */
  lemma {:induction false} FilterByTimeRangeExact(fs: seq<Finding>, start: int, end: int)
    ensures forall f :: f in FilterByTimeRange(fs, start, end) ==> f in fs && InRange(f, start, end)
    ensures forall f :: f in fs && InRange(f, start, end) ==> f in FilterByTimeRange(fs, start, end)
    ensures forall f :: multiset(FilterByTimeRange(fs, start, end))[f] ==
                          if InRange(f, start, end) then multiset(fs)[f] else 0
    decreases |fs|
  {
    if |fs| > 0 {
      FilterByTimeRangeExact(fs[1..], start, end);
      assert fs == [fs[0]] + fs[1..];
    }
  }

  /** The filter preserves the order of the fetched findings. */
  lemma {:induction false} FilterByTimeRangeIsSubsequence(fs: seq<Finding>, start: int, end: int)
    ensures IsSubsequence(FilterByTimeRange(fs, start, end), fs)
    decreases |fs|
  {
    if |fs| > 0 {
      FilterByTimeRangeIsSubsequence(fs[1..], start, end);
      var rest := FilterByTimeRange(fs[1..], start, end);
      if !InRange(fs[0], start, end) {
        assert FilterByTimeRange(fs, start, end) == rest;
        if |rest| > 0 {
          FilterByTimeRangeExact(fs[1..], start, end);
          assert rest[0] in rest;
          assert rest[0] != fs[0];
        }
      }
    }
  }

  /** An empty range (start after end) keeps nothing. */
  lemma {:induction false} FilterByInvertedRangeIsEmpty(fs: seq<Finding>, start: int, end: int)
    requires start > end
    ensures FilterByTimeRange(fs, start, end) == []
    decreases |fs|
  {
    if |fs| > 0 {
      FilterByInvertedRangeIsEmpty(fs[1..], start, end);
    }
  }

  /** Filtering an already filtered list changes nothing. */
  lemma {:induction false} FilterByTimeRangeIdempotent(fs: seq<Finding>, start: int, end: int)
    ensures FilterByTimeRange(FilterByTimeRange(fs, start, end), start, end) == FilterByTimeRange(fs, start, end)
    decreases |fs|
  {
    if |fs| > 0 {
      FilterByTimeRangeIdempotent(fs[1..], start, end);
      var rest := FilterByTimeRange(fs[1..], start, end);
      if InRange(fs[0], start, end) {
        var r := [fs[0]] + rest;
        assert FilterByTimeRange(fs, start, end) == r;
        assert r[0] == fs[0] && r[1..] == rest;
        assert FilterByTimeRange(r, start, end) == [r[0]] + FilterByTimeRange(r[1..], start, end);
      } else {
        assert FilterByTimeRange(fs, start, end) == rest;
      }
    }
  }

  /** `get_findings_by_time_range`: unfiltered findings of the account, then the inclusive range. */
  method GetFindingsByTimeRange(start: int, end: int, accountId: Option<string>, now: int, draws: seq<FindingDraw>)
    returns (r: seq<Finding>)
    requires ValidFindingDraws(draws)
    ensures r == FilterByTimeRange(MockFindings(accountId, None, now, draws), start, end)
    ensures forall f :: f in r ==> InRange(f, start, end) && Generated(f, accountId, now)
    ensures start > end ==> r == []
  {
    var findings := GetFindings(None, accountId, now, draws);
    r := FilterByTimeRange(findings, start, end);
    FilterByTimeRangeExact(findings, start, end);
    MockFindingsGenerated(accountId, None, now, draws);
    if start > end {
      FilterByInvertedRangeIsEmpty(findings, start, end);
    }
  }
}
