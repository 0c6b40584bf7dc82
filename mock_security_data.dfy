/** The mock finding, risk-score and asset generator.

    Every random draw of the source is an input here: a generator call takes a
    sequence of draw records, one per loop iteration, whose length is the count
    the source draws with `randint`, and whose fields are the values `choice`,
    `randint` and `uniform` would return. The `Valid...Draw` predicates state
    the ranges those library calls guarantee. `datetime.now()` is the integer
    parameter `now` (seconds), and `timedelta(days = k)` is `k * SecondsPerDay`. */
module MockSecurityData {
  import opened Wrappers

  const SecondsPerDay: int := 86400

  /** `mock_accounts`: the accounts a finding is attributed to when no account is given. */
  const MockAccounts: seq<string> := ["dev-account-123", "prod-account-456", "staging-account-789"]

  /** One entry of the fixed catalogue `mock_findings`. */
  datatype Archetype = Archetype(
    id: string,
    title: string,
    severity: string,
    description: string,
    recommendation: string)

  /** `mock_findings`: five archetypes, all of severity critical or high. */
  const Catalogue: seq<Archetype> := [
    Archetype("S3-001", "Public S3 Bucket Access", "critical",
      "S3 bucket has public read access enabled", "Disable public access and use IAM policies"),
    Archetype("EC2-001", "Exposed Security Group", "high",
      "Security group allows unrestricted inbound access", "Restrict inbound rules to specific IP ranges"),
    Archetype("IAM-001", "Overly Permissive IAM Policy", "high",
      "IAM policy grants excessive permissions", "Follow principle of least privilege"),
    Archetype("KMS-001", "Unencrypted EBS Volume", "critical",
      "EBS volume is not encrypted", "Enable encryption for all EBS volumes"),
    Archetype("VPC-001", "Open VPC Security Group", "high",
      "VPC security group allows all traffic", "Restrict VPC security group rules")
  ]

  const FindingStatuses: seq<string> := ["open", "resolved"]

  /** A catalogue copy updated with an account, a timestamp, a status and a risk score. */
  datatype Finding = Finding(
    id: string,
    title: string,
    severity: string,
    description: string,
    recommendation: string,
    accountId: string,
    timestamp: int,
    status: string,
    riskScore: real)

  /** The catalogue fields of a finding. */
  function ArchetypeOf(f: Finding): Archetype
  {
    Archetype(f.id, f.title, f.severity, f.description, f.recommendation)
  }

  /** The draws of one iteration of the finding loop: the catalogue index, the
      fallback account index, the age in days, the status index and the score. */
  datatype FindingDraw = FindingDraw(archetype: nat, account: nat, daysAgo: nat, status: nat, riskScore: real)

  predicate ValidFindingDraw(d: FindingDraw)
  {
    && d.archetype < |Catalogue|
    && d.account < |MockAccounts|
    && d.daysAgo <= 30
    && d.status < |FindingStatuses|
    && 1.0 <= d.riskScore <= 10.0
  }

  predicate AllValidFindingDraws(draws: seq<FindingDraw>)
  {
    forall i :: 0 <= i < |draws| ==> ValidFindingDraw(draws[i])
  }

  /** The draws of one `get_mock_findings` call: `randint(1, 5)` iterations. */
  predicate ValidFindingDraws(draws: seq<FindingDraw>)
  {
    1 <= |draws| <= 5 && AllValidFindingDraws(draws)
  }

  /** The severity filter: a falsy filter admits everything, a truthy one only its own severity. */
  predicate Admits(severity: Option<string>, a: Archetype)
  {
    !(Truthy(severity) && a.severity != severity.value)
  }

  /** `finding.update({...})` on a copy of archetype `a`. */
  function Stamp(a: Archetype, accountId: Option<string>, now: int, d: FindingDraw): Finding
    requires ValidFindingDraw(d)
  {
    Finding(a.id, a.title, a.severity, a.description, a.recommendation,
            OrElse(accountId, MockAccounts[d.account]),
            now - d.daysAgo * SecondsPerDay,
            FindingStatuses[d.status],
            d.riskScore)
  }

  /** What one loop iteration appends: nothing when the filter drops the sampled archetype. */
  function FindingsOfDraw(accountId: Option<string>, severity: Option<string>, now: int, d: FindingDraw): seq<Finding>
    requires ValidFindingDraw(d)
  {
    var a := Catalogue[d.archetype];
    if Admits(severity, a) then [Stamp(a, accountId, now, d)] else []
  }

  /** The list `get_mock_findings` has built after the iterations of `draws`. */
  function MockFindings(accountId: Option<string>, severity: Option<string>, now: int, draws: seq<FindingDraw>): seq<Finding>
    requires AllValidFindingDraws(draws)
    decreases |draws|
  {
    if |draws| == 0 then []
    else
      var n := |draws| - 1;
      MockFindings(accountId, severity, now, draws[..n]) + FindingsOfDraw(accountId, severity, now, draws[n])
  }

  /** A finding the generator can produce for `accountId` at time `now`. */
  predicate Generated(f: Finding, accountId: Option<string>, now: int)
  {
    && ArchetypeOf(f) in Catalogue
    && (if Truthy(accountId) then f.accountId == accountId.value else f.accountId in MockAccounts)
    && f.status in FindingStatuses
    && now - 30 * SecondsPerDay <= f.timestamp <= now
    && 1.0 <= f.riskScore <= 10.0
  }

  /** `get_mock_findings`: sample, drop what the filter rejects, stamp and append. */
  method GetMockFindings(accountId: Option<string>, severity: Option<string>, now: int, draws: seq<FindingDraw>)
    returns (findings: seq<Finding>)
    requires ValidFindingDraws(draws)
    ensures findings == MockFindings(accountId, severity, now, draws)
    ensures |findings| <= 5
    ensures !Truthy(severity) ==> 1 <= |findings| == |draws|
    ensures forall f :: f in findings ==> Generated(f, accountId, now) && Admits(severity, ArchetypeOf(f))
  {
    findings := [];
    for i := 0 to |draws|
      invariant findings == MockFindings(accountId, severity, now, draws[..i])
    {
      assert draws[..i + 1][..i] == draws[..i];
      var finding := Catalogue[draws[i].archetype];
      if Truthy(severity) && finding.severity != severity.value {
        continue;
      }
      findings := findings + [Stamp(finding, accountId, now, draws[i])];
    }
    assert draws[..|draws|] == draws;
    MockFindingsLength(accountId, severity, now, draws);
    MockFindingsGenerated(accountId, severity, now, draws);
  }

  /** At most one finding per iteration survives; with no filter every iteration yields one. */
  lemma {:induction false} MockFindingsLength(accountId: Option<string>, severity: Option<string>, now: int, draws: seq<FindingDraw>)
    requires AllValidFindingDraws(draws)
    ensures |MockFindings(accountId, severity, now, draws)| <= |draws|
    ensures !Truthy(severity) ==> |MockFindings(accountId, severity, now, draws)| == |draws|
    decreases |draws|
  {
    if |draws| > 0 {
      var n := |draws| - 1;
      assert AllValidFindingDraws(draws[..n]);
      MockFindingsLength(accountId, severity, now, draws[..n]);
    }
  }

  /** Every returned finding is a stamped catalogue copy that passed the severity filter. */
  lemma {:induction false} MockFindingsGenerated(accountId: Option<string>, severity: Option<string>, now: int, draws: seq<FindingDraw>)
    requires AllValidFindingDraws(draws)
    ensures forall f :: f in MockFindings(accountId, severity, now, draws) ==>
              Generated(f, accountId, now) && Admits(severity, ArchetypeOf(f))
    decreases |draws|
  {
    if |draws| > 0 {
      var n := |draws| - 1;
      assert AllValidFindingDraws(draws[..n]);
      MockFindingsGenerated(accountId, severity, now, draws[..n]);
      var d := draws[n];
      assert ArchetypeOf(Stamp(Catalogue[d.archetype], accountId, now, d)) == Catalogue[d.archetype];
    }
  }

  /** With a truthy filter, every returned finding carries exactly that severity. */
  lemma MockFindingsMatchSeverity(accountId: Option<string>, severity: Option<string>, now: int, draws: seq<FindingDraw>)
    requires AllValidFindingDraws(draws)
    requires Truthy(severity)
    ensures forall f :: f in MockFindings(accountId, severity, now, draws) ==> f.severity == severity.value
  {
    MockFindingsGenerated(accountId, severity, now, draws);
  }

  /** A filter naming a severity no catalogue entry has yields nothing, whatever is sampled. */
  lemma {:induction false} UnmatchedSeverityYieldsNothing(accountId: Option<string>, s: string, now: int, draws: seq<FindingDraw>)
    requires AllValidFindingDraws(draws)
    requires s != ""
    requires forall k :: 0 <= k < |Catalogue| ==> Catalogue[k].severity != s
    ensures MockFindings(accountId, Some(s), now, draws) == []
    decreases |draws|
  {
    if |draws| > 0 {
      var n := |draws| - 1;
      assert AllValidFindingDraws(draws[..n]);
      UnmatchedSeverityYieldsNothing(accountId, s, now, draws[..n]);
    }
  }

  /** The catalogue holds only critical and high archetypes, so "medium" and "low" filters return nothing. */
  lemma MediumAndLowYieldNothing(accountId: Option<string>, s: string, now: int, draws: seq<FindingDraw>)
    requires AllValidFindingDraws(draws)
    requires s == "medium" || s == "low"
    ensures MockFindings(accountId, Some(s), now, draws) == []
  {
    UnmatchedSeverityYieldsNothing(accountId, s, now, draws);
  }

  /** Every severity the generator can produce is one of the four known levels. */
  lemma GeneratedSeverityIsKnown(f: Finding, accountId: Option<string>, now: int)
    requires Generated(f, accountId, now)
    ensures f.severity == "critical" || f.severity == "high"
    ensures f.severity in ["critical", "high", "medium", "low"]
  {
    var k :| 0 <= k < |Catalogue| && Catalogue[k] == ArchetypeOf(f);
  }

  // ---------------------------------------------------------------- risk score

  const Trends: seq<string> := ["improving", "stable", "degrading"]

  datatype FindingsCount = FindingsCount(critical: int, high: int, medium: int, low: int)

  /** A risk record. `score` is optional because the readers look it up with `.get("score", 0)`. */
  datatype RiskScore = RiskScore(
    accountId: string,
    score: Option<real>,
    timestamp: int,
    trend: string,
    findingsCount: FindingsCount)

  /** `.get("score", 0)` on a risk record. */
  function ScoreOrZero(r: RiskScore): real
  {
    if r.score.Some? then r.score.value else 0.0
  }

  datatype RiskDraw = RiskDraw(account: nat, score: real, trend: nat, critical: int, high: int, medium: int, low: int)

  predicate ValidRiskDraw(d: RiskDraw)
  {
    && d.account < |MockAccounts|
    && 1.0 <= d.score <= 10.0
    && d.trend < |Trends|
    && 0 <= d.critical <= 5
    && 0 <= d.high <= 10
    && 0 <= d.medium <= 15
    && 0 <= d.low <= 20
  }

  /** `get_mock_risk_score`. */
  function MockRiskScore(accountId: Option<string>, now: int, d: RiskDraw): (r: RiskScore)
    requires ValidRiskDraw(d)
    ensures Truthy(accountId) ==> r.accountId == accountId.value
    ensures !Truthy(accountId) ==> r.accountId in MockAccounts
    ensures r.score.Some? && 1.0 <= ScoreOrZero(r) <= 10.0
    ensures r.timestamp == now
    ensures r.trend in Trends
    ensures 0 <= r.findingsCount.critical <= 5 && 0 <= r.findingsCount.high <= 10
    ensures 0 <= r.findingsCount.medium <= 15 && 0 <= r.findingsCount.low <= 20
  {
    RiskScore(OrElse(accountId, MockAccounts[d.account]), Some(d.score), now, Trends[d.trend],
              FindingsCount(d.critical, d.high, d.medium, d.low))
  }

  // -------------------------------------------------------------------- assets

  const AssetTypes: seq<string> := ["EC2", "S3", "RDS", "Lambda", "IAM"]
  const Regions: seq<string> := ["us-east-1", "us-west-2", "eu-west-1"]
  const AssetStatuses: seq<string> := ["running", "stopped", "terminated"]

  datatype Asset = Asset(
    id: string,
    assetType: string,
    accountId: string,
    region: string,
    status: string,
    lastUpdated: int)

  /** The draws of one iteration of the asset loop. */
  datatype AssetDraw = AssetDraw(assetType: nat, number: int, account: nat, region: nat, status: nat, daysAgo: nat)

  predicate ValidAssetDraw(d: AssetDraw)
  {
    && d.assetType < |AssetTypes|
    && 1000 <= d.number <= 9999
    && d.account < |MockAccounts|
    && d.region < |Regions|
    && d.status < |AssetStatuses|
    && d.daysAgo <= 7
  }

  /** The draws of one `get_mock_assets` call: `randint(5, 15)` iterations. */
  predicate ValidAssetDraws(draws: seq<AssetDraw>)
  {
    5 <= |draws| <= 15 && forall i :: 0 <= i < |draws| ==> ValidAssetDraw(draws[i])
  }

  predicate IsDigit(c: char)
  {
    '0' <= c <= '9'
  }

  function DigitChar(d: nat): char
    requires d < 10
  {
    ('0' as int + d) as char
  }

  /** Python's `str(n)` / f-string rendering of a natural number. */
  function Decimal(n: nat): string
  {
    if n < 10 then [DigitChar(n)] else Decimal(n / 10) + [DigitChar(n % 10)]
  }

  /** Reading a string of decimal digits back as a number. */
  function DecimalValue(s: string): int
  {
    if |s| == 0 then 0 else DecimalValue(s[..|s| - 1]) * 10 + (s[|s| - 1] as int - '0' as int)
  }

  function Pow10(k: nat): nat
  {
    if k == 0 then 1 else 10 * Pow10(k - 1)
  }

  /** Rendering a number and reading it back gives the number. */
  lemma {:induction false} DecimalRoundTrip(n: nat)
    ensures DecimalValue(Decimal(n)) == n
    decreases n
  {
    if n >= 10 {
      DecimalRoundTrip(n / 10);
      var s := Decimal(n);
      assert s[..|s| - 1] == Decimal(n / 10);
    }
  }

  /** A number with k + 1 digits renders as k + 1 digit characters. */
  lemma {:induction false} DecimalShape(n: nat, k: nat)
    requires Pow10(k) <= n < Pow10(k + 1)
    ensures |Decimal(n)| == k + 1
    ensures forall i :: 0 <= i < |Decimal(n)| ==> IsDigit(Decimal(n)[i])
    decreases k
  {
    if k > 0 {
      DecimalShape(n / 10, k - 1);
    }
  }

  /** An asset record the generator can produce: a known type, an id made of that
      type, a dash and a four-digit number, and the other fields from their fixed sets. */
  predicate GeneratedAsset(r: Asset, accountId: Option<string>, now: int)
  {
    && r.assetType in AssetTypes
    && |r.id| == |r.assetType| + 5
    && r.id[..|r.assetType|] == r.assetType && r.id[|r.assetType|] == '-'
    && (forall i :: |r.assetType| < i < |r.id| ==> IsDigit(r.id[i]))
    && 1000 <= DecimalValue(r.id[|r.assetType| + 1..]) <= 9999
    && (if Truthy(accountId) then r.accountId == accountId.value else r.accountId in MockAccounts)
    && r.region in Regions && r.status in AssetStatuses
    && now - 7 * SecondsPerDay <= r.lastUpdated <= now
  }

  /** One asset record of the asset loop; its id is the type, a dash and the drawn number. */
  function MakeAsset(accountId: Option<string>, now: int, d: AssetDraw): Asset
    requires ValidAssetDraw(d)
  {
    var t := AssetTypes[d.assetType];
    Asset(t + "-" + Decimal(d.number), t, OrElse(accountId, MockAccounts[d.account]),
          Regions[d.region], AssetStatuses[d.status], now - d.daysAgo * SecondsPerDay)
  }

  /** Every record the asset loop builds has the promised shape; in particular its
      id ends in the four digits of a number in 1000..9999. */
  lemma MakeAssetGenerated(accountId: Option<string>, now: int, d: AssetDraw)
    requires ValidAssetDraw(d)
    ensures GeneratedAsset(MakeAsset(accountId, now, d), accountId, now)
  {
    var t := AssetTypes[d.assetType];
    DecimalShape(d.number, 3);
    DecimalRoundTrip(d.number);
    var id := t + "-" + Decimal(d.number);
    assert id[..|t|] == t;
    assert id[|t| + 1..] == Decimal(d.number);
  }

  /** `get_mock_assets`: one record per iteration, appended in order. */
  method GetMockAssets(accountId: Option<string>, now: int, draws: seq<AssetDraw>) returns (assets: seq<Asset>)
    requires ValidAssetDraws(draws)
    ensures |assets| == |draws| && 5 <= |assets| <= 15
    ensures forall i :: 0 <= i < |assets| ==> assets[i] == MakeAsset(accountId, now, draws[i])
    ensures forall a :: a in assets ==> GeneratedAsset(a, accountId, now)
  {
    assets := [];
    for i := 0 to |draws|
      invariant |assets| == i
      invariant forall j :: 0 <= j < i ==> assets[j] == MakeAsset(accountId, now, draws[j])
    {
      var asset := MakeAsset(accountId, now, draws[i]);
      assets := assets + [asset];
    }
    forall a | a in assets
      ensures GeneratedAsset(a, accountId, now)
    {
      var j :| 0 <= j < |assets| && assets[j] == a;
      MakeAssetGenerated(accountId, now, draws[j]);
    }
  }
}
