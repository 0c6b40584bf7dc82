/** The report generator: loading the last summary, a per-account report bundling
    fresh queries with their counts, and the comparison of two summaries by
    signed per-account deltas. */
module ReportGenerator {
  import opened Wrappers
  import opened Config
  import opened MockSecurityData
  import opened Records
  import OrcaClient

  /** `load_findings_history`: the file's summary when the file exists, and no
      history (Python's empty dict) when it is missing. The file content is an input. */
  function LoadFindingsHistory(file: Option<Summary>): (loaded: Option<Summary>)
    ensures file.None? <==> loaded.None?
    ensures loaded.Some? ==> loaded.value == file.value
  {
    match file
    case None => None
    case Some(s) => Some(s)
  }

  /** The `summary` sub-object of an account report. */
  datatype ReportSummary = ReportSummary(criticalCount: int, highCount: int, riskScore: real)

  datatype AccountReport = AccountReport(
    accountId: string,
    timestamp: int,
    findings: FindingsBundle,
    summary: ReportSummary)

  /** The dict literal of `generate_account_report`, built around an already fetched bundle. */
  function AccountReportOf(accountId: string, timestamp: int, findings: FindingsBundle): (r: AccountReport)
    ensures r.accountId == accountId && r.timestamp == timestamp && r.findings == findings
    ensures r.summary.criticalCount == |r.findings.critical| && r.summary.highCount == |r.findings.high|
    ensures r.summary.riskScore == ScoreOrZero(r.findings.riskScore)
    ensures r.summary.criticalCount >= 0 && r.summary.highCount >= 0
  {
    AccountReport(accountId, timestamp, findings,
                  ReportSummary(|findings.critical|, |findings.high|, ScoreOrZero(findings.riskScore)))
  }

  /** `generate_account_report`: three client queries for the account, then the report. */
  method GenerateAccountReport(accountId: string, sd: ScanDraws) returns (r: AccountReport)
    requires ValidScanDraws(sd)
    ensures r == AccountReportOf(accountId, sd.now, FindingsBundle(
                   MockFindings(Some(accountId), Some("critical"), sd.now, sd.critical),
                   MockFindings(Some(accountId), Some("high"), sd.now, sd.high),
                   MockRiskScore(Some(accountId), sd.now, sd.risk)))
    ensures r.summary.criticalCount == |r.findings.critical| <= 5
    ensures r.summary.highCount == |r.findings.high| <= 5
    ensures 1.0 <= r.summary.riskScore <= 10.0
    ensures forall f :: f in r.findings.critical ==> f.severity == "critical"
    ensures forall f :: f in r.findings.high ==> f.severity == "high"
  {
    var critical := OrcaClient.GetCriticalFindings(Some(accountId), sd.now, sd.critical);
    var high := OrcaClient.GetHighSeverityFindings(Some(accountId), sd.now, sd.high);
    var risk := OrcaClient.GetRiskScore(Some(accountId), sd.now, sd.risk);
    r := AccountReportOf(accountId, sd.now, FindingsBundle(critical, high, risk));
    MockFindingsLength(Some(accountId), Some("critical"), sd.now, sd.critical);
    MockFindingsLength(Some(accountId), Some("high"), sd.now, sd.high);
  }

  /** The signed changes of one account between two summaries. */
  datatype Delta = Delta(criticalFindingsChange: int, highFindingsChange: int, riskScoreChange: real)

  datatype ComparisonReport = ComparisonReport(timestamp: int, accounts: map<string, Delta>)

  function DeltaOf(current: AccountSummary, historical: AccountSummary): Delta
  {
    Delta(current.criticalFindings - historical.criticalFindings,
          current.highFindings - historical.highFindings,
          current.riskScore - historical.riskScore)
  }

  /** The entries the comparison loop has built after walking `accounts`. */
  function Compare(accounts: seq<string>, current: map<string, AccountSummary>, historical: map<string, AccountSummary>)
    : map<string, Delta>
    decreases |accounts|
  {
    if |accounts| == 0 then map[]
    else
      var n := |accounts| - 1;
      var m := Compare(accounts[..n], current, historical);
      var a := accounts[n];
      if a in current && a in historical then m[a := DeltaOf(current[a], historical[a])] else m
  }

  /** The comparison has an entry exactly for the walked accounts present on both sides,
      and that entry is current minus historical, field by field. */
  lemma {:induction false} CompareExact(accounts: seq<string>, current: map<string, AccountSummary>,
                                        historical: map<string, AccountSummary>)
    ensures forall a :: a in Compare(accounts, current, historical) <==>
              a in accounts && a in current && a in historical
    ensures forall a :: a in Compare(accounts, current, historical) ==>
              Compare(accounts, current, historical)[a] == DeltaOf(current[a], historical[a])
    decreases |accounts|
  {
    if |accounts| > 0 {
      var n := |accounts| - 1;
      CompareExact(accounts[..n], current, historical);
      assert accounts == accounts[..n] + [accounts[n]];
    }
  }

  /** `generate_comparison_report` on summaries of the intended `{"accounts": ...}` shape. */
  method GenerateComparisonReport(current: Summary, historical: Summary, timestamp: int)
    returns (comparison: ComparisonReport)
    ensures comparison.timestamp == timestamp
    ensures comparison.accounts == Compare(AwsAccounts, current.accounts, historical.accounts)
    ensures forall a :: a in comparison.accounts <==>
              a in AwsAccounts && a in current.accounts && a in historical.accounts
    ensures forall a :: a in comparison.accounts ==>
              && comparison.accounts[a].criticalFindingsChange ==
                   current.accounts[a].criticalFindings - historical.accounts[a].criticalFindings
              && comparison.accounts[a].highFindingsChange ==
                   current.accounts[a].highFindings - historical.accounts[a].highFindings
              && comparison.accounts[a].riskScoreChange ==
                   current.accounts[a].riskScore - historical.accounts[a].riskScore
  {
    var accounts: map<string, Delta> := map[];
    for i := 0 to |AwsAccounts|
      invariant accounts == Compare(AwsAccounts[..i], current.accounts, historical.accounts)
    {
      assert AwsAccounts[..i + 1][..i] == AwsAccounts[..i];
      var accountId := AwsAccounts[i];
      if accountId in current.accounts && accountId in historical.accounts {
        var cur := current.accounts[accountId];
        var hist := historical.accounts[accountId];
        accounts := accounts[accountId := Delta(
          cur.criticalFindings - hist.criticalFindings,
          cur.highFindings - hist.highFindings,
          cur.riskScore - hist.riskScore)];
      }
    }
    assert AwsAccounts[..|AwsAccounts|] == AwsAccounts;
    comparison := ComparisonReport(timestamp, accounts);
    CompareExact(AwsAccounts, current.accounts, historical.accounts);
  }

  /** An account present on only one side gets no entry, and nothing fails for it. */
  lemma OneSidedAccountSkipped(accounts: seq<string>, current: map<string, AccountSummary>,
                               historical: map<string, AccountSummary>, a: string)
    requires (a in current) != (a in historical)
    ensures a !in Compare(accounts, current, historical)
  {
    CompareExact(accounts, current, historical);
  }

  /** An account missing from the walked list gets no entry, even when both sides have it. */
  lemma UnconfiguredAccountSkipped(accounts: seq<string>, current: map<string, AccountSummary>,
                                   historical: map<string, AccountSummary>, a: string)
    requires a !in accounts
    ensures a !in Compare(accounts, current, historical)
  {
    CompareExact(accounts, current, historical);
  }

  /** A summary compared with itself has an entry for each shared account, all of them zero. */
  lemma CompareWithItselfIsZero(accounts: seq<string>, s: map<string, AccountSummary>)
    ensures forall a :: a in Compare(accounts, s, s) <==> a in accounts && a in s
    ensures forall a :: a in Compare(accounts, s, s) ==> Compare(accounts, s, s)[a] == Delta(0, 0, 0.0)
  {
    CompareExact(accounts, s, s);
  }

  /** Swapping the two summaries keeps the same accounts and negates every delta. */
  lemma CompareSwappedNegates(accounts: seq<string>, current: map<string, AccountSummary>,
                              historical: map<string, AccountSummary>)
    ensures Compare(accounts, historical, current).Keys == Compare(accounts, current, historical).Keys
    ensures forall a :: a in Compare(accounts, current, historical) ==>
              var d, e := Compare(accounts, current, historical)[a], Compare(accounts, historical, current)[a];
              e == Delta(-d.criticalFindingsChange, -d.highFindingsChange, -d.riskScoreChange)
  {
    CompareExact(accounts, current, historical);
    CompareExact(accounts, historical, current);
  }

  /** Adding each delta to the historical entry gives back the current entry. */
  lemma CompareRestoresCurrent(accounts: seq<string>, current: map<string, AccountSummary>,
                               historical: map<string, AccountSummary>)
    ensures forall a :: a in accounts && a in current && a in historical ==>
              a in Compare(accounts, current, historical) &&
              var d := Compare(accounts, current, historical)[a];
              AccountSummary(historical[a].criticalFindings + d.criticalFindingsChange,
                             historical[a].highFindings + d.highFindingsChange,
                             historical[a].riskScore + d.riskScoreChange) == current[a]
  {
    CompareExact(accounts, current, historical);
  }

  /** Summaries holding an account "acct-A" with (2, 5, 6.0) and then (3, 4, 7.5) give the
      deltas (1, -1, 1.5) over the list ["acct-A"]. Because the loop walks only the configured
      accounts, the report proper has no entry for it. */
  lemma AcctAExample()
    ensures var historical := map["acct-A" := AccountSummary(2, 5, 6.0)];
            var current := map["acct-A" := AccountSummary(3, 4, 7.5)];
            && Compare(["acct-A"], current, historical) == map["acct-A" := Delta(1, -1, 1.5)]
            && Compare(AwsAccounts, current, historical) == map[]
  {
    var historical := map["acct-A" := AccountSummary(2, 5, 6.0)];
    var current := map["acct-A" := AccountSummary(3, 4, 7.5)];
    assert ["acct-A"][..0] == [];
    UnconfiguredAccountSkipped(AwsAccounts, current, historical, "acct-A");
    CompareExact(AwsAccounts, current, historical);
  }
}
