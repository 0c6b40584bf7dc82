/** Shapes shared by the monitor and the report generator: the per-scan findings
    bundle, the draws one scan consumes, and the summary file's content. */
module Records {
  import opened MockSecurityData

  /** The `findings` dict of a scan: critical findings, high findings and one risk record. */
  datatype FindingsBundle = FindingsBundle(critical: seq<Finding>, high: seq<Finding>, riskScore: RiskScore)

  /** What one scan of one account draws: three independent generator calls, and the
      clock reading taken for it. */
  datatype ScanDraws = ScanDraws(critical: seq<FindingDraw>, high: seq<FindingDraw>, risk: RiskDraw, now: int)

  predicate ValidScanDraws(sd: ScanDraws)
  {
    ValidFindingDraws(sd.critical) && ValidFindingDraws(sd.high) && ValidRiskDraw(sd.risk)
  }

  /** One account's entry in a summary file. */
  datatype AccountSummary = AccountSummary(criticalFindings: int, highFindings: int, riskScore: real)

  /** The summary file: a timestamp and the per-account entries. */
  datatype Summary = Summary(timestamp: int, accounts: map<string, AccountSummary>)

  /** The entry a bundle contributes to a summary: the two list lengths and the score,
      or 0 when the risk record has none. */
  function SummaryEntryOf(b: FindingsBundle): (e: AccountSummary)
    ensures e.criticalFindings >= 0 && e.highFindings >= 0
  {
    AccountSummary(|b.critical|, |b.high|, ScoreOrZero(b.riskScore))
  }
}
