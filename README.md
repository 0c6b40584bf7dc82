# Cloud security monitor: a Dafny model of its core

This project models the logic of a mock cloud-security monitor. The monitor
scans a fixed list of accounts, generates randomized findings and risk scores,
keeps an in-memory history of scans per account, writes a summary on shutdown
and compares two summaries account by account. Randomness, the clock and file
contents are all inputs to the model, so every operation is a deterministic
function of what it is given. The properties proved are about filtering,
bounds, catalogue membership, the history update and the comparison
arithmetic. Nothing is said about distributions.

Modules, one per source file, plus three small shared ones:

| module | source | form |
|---|---|---|
| `Wrappers` | — | `Option`, and Python truthiness of an optional string |
| `Config` | `config.py` | `AwsAccounts` as a constant sequence |
| `MockSecurityData` | `mock_security_data.py` | mixed: the finding and asset loops are methods; the risk score is a function |
| `OrcaClient` | `orca_client.py` | pass-through methods over the generator; the time-range filter is a pure recursive function |
| `Records` | shapes shared by `security_monitor.py` and `report_generator.py` | the findings bundle of one scan, the draws of one scan, the summary file |
| `SecurityMonitor` | `security_monitor.py` | stateful: the class `SecurityMonitor` owns `findingsHistory` (a `map` field that its methods reassign) |
| `ReportGenerator` | `report_generator.py` | mixed: the comparison loop is a method; the account report is the method `GenerateAccountReport`, which makes the three client calls and wraps the function `AccountReportOf` |

How the model is built:

- **Randomness is injected.** A generator call takes a sequence of draw
  records (`FindingDraw`, `RiskDraw`, `AssetDraw`), one per loop iteration.
  The sequence's length is the count the source draws with `randint`. The
  record's fields are the values `random.choice`, `randint` and `uniform`
  would return. The `Valid...Draw(s)` predicates state the ranges those
  library calls guarantee, and they are the only preconditions on draws.
  Each scan of one account uses a `ScanDraws` value holding three independent
  draw sets, one per generator call. Two generator calls therefore never share
  a draw: the source's "re-randomized on every call" behaviour.
- **Time.** Timestamps are integers (seconds). `datetime.now()` is the
  parameter `now`, and `timedelta(days = k)` is `k * 86400`. The ISO-8601
  round trip in `get_findings_by_time_range` is the identity on these
  integers.
- **Values.** Findings, risk records, assets, summaries and reports are
  datatypes. Risk scores and deltas are `real`, and only subtraction and
  addition are applied to them. Because Dafny values are immutable, the
  `.copy()` of a catalogue entry is implicit: the catalogue constant cannot
  change.
- **Loops are methods.** Each loop in the source becomes a method proved
  equal to a specification function: `get_mock_findings` to `MockFindings`,
  a `monitor_accounts` pass to `AfterPass`, `save_summary` to `SummaryOver`,
  and `generate_comparison_report` to `Compare`. Those functions are folds
  that walk the same list in the same order as the loop. Lemmas then state
  what the source promises about each fold.

Points of the code that a reader might not expect:

- The comparison report covers an account only if it is **configured** and
  present in both summaries (report_generator.py:53-54). An account that is
  not configured, such as "acct-A", gets no entry even when both summaries
  hold it. `AcctAExample` shows the deltas (1, -1, 1.5) for "acct-A" over the
  list ["acct-A"], and the empty report over `AwsAccounts`.
- The severity filter is Python truthiness (mock_security_data.py:58). An
  empty-string filter behaves like no filter.

An account report's summary counts equal the lengths of the lists bundled
with them (report_generator.py:29-41). Both come from the same `findings`
object, so no clock tick can separate them.

## Model

| member | source | states |
|---|---|---|
| `Config.AwsAccountsDistinct` | config.py:5-9 | no configured account is listed twice |
| `MockSecurityData.GetMockFindings` | mock_security_data.py:51-69 | the loop computes `MockFindings` over its draws; at most 5 findings; with no or an empty filter exactly the drawn count, at least 1; every result is a stamped catalogue copy that passes the filter |
| `MockSecurityData.MockFindingsLength` | mock_security_data.py:54-67 | no more findings than iterations; exactly one per iteration when the filter is not truthy |
| `MockSecurityData.MockFindingsGenerated` | mock_security_data.py:57-66 | each finding's id, title, severity, description and recommendation are a catalogue entry's; its account is the given one when truthy, otherwise one of `mock_accounts`; its status is open or resolved; its timestamp is within 30 days before now; its score is in 1.0..10.0; it passes the filter |
| `MockSecurityData.MockFindingsMatchSeverity` | mock_security_data.py:58-59 | with a truthy filter, every finding has exactly that severity |
| `MockSecurityData.UnmatchedSeverityYieldsNothing` | mock_security_data.py:58-59 | a truthy filter that no catalogue entry matches yields the empty list, whatever is drawn |
| `MockSecurityData.MediumAndLowYieldNothing` | mock_security_data.py:13-59 | filtering for "medium" or "low" always yields the empty list, because the catalogue holds only critical and high entries |
| `MockSecurityData.GeneratedSeverityIsKnown` | mock_security_data.py:13-49 | every generated severity is critical or high, hence one of the four known levels |
| `MockSecurityData.MockRiskScore` | mock_security_data.py:71-84 | account is the given one when truthy, else a mock account; the score is present and in 1.0..10.0; timestamp is now; trend is improving, stable or degrading; counts lie in critical 0..5, high 0..10, medium 0..15, low 0..20 |
| `MockSecurityData.DecimalRoundTrip` | mock_security_data.py:94 | reading back the decimal rendering of a number gives the number |
| `MockSecurityData.DecimalShape` | mock_security_data.py:94 | a number with k+1 digits renders as k+1 digit characters |
| `MockSecurityData.MakeAssetGenerated` | mock_security_data.py:92-100 | each asset's type is in `asset_types`; its id is the type, a dash and four digits whose value is in 1000..9999; region, status and account come from their fixed sets; it was updated within 7 days before now |
| `MockSecurityData.GetMockAssets` | mock_security_data.py:86-102 | one asset per iteration, in order, so 5..15 assets, each of the shape above |
| `OrcaClient.GetFindings` | orca_client.py:13-15 | forwards account and severity unchanged to the generator |
| `OrcaClient.GetRiskScore` | orca_client.py:17-19 | forwards the account unchanged to the risk-score generator |
| `OrcaClient.GetAssets` | orca_client.py:21-23 | forwards the account unchanged to the asset generator |
| `OrcaClient.GetHighSeverityFindings` | orca_client.py:25-27 | equals the generator with filter "high"; every result has severity high |
| `OrcaClient.GetCriticalFindings` | orca_client.py:29-31 | equals the generator with filter "critical"; every result has severity critical |
| `OrcaClient.FilterByTimeRangeExact` | orca_client.py:37-40 | the filter keeps only fetched findings with start ≤ timestamp ≤ end, keeps every such finding as often as it was fetched, and nothing else |
| `OrcaClient.FilterByTimeRangeIsSubsequence` | orca_client.py:37-40 | the result preserves the order of the fetched list |
| `OrcaClient.FilterByInvertedRangeIsEmpty` | orca_client.py:39 | when start > end the result is empty |
| `OrcaClient.FilterByTimeRangeIdempotent` | orca_client.py:37-40 | filtering the filtered list again returns it unchanged |
| `OrcaClient.GetFindingsByTimeRange` | orca_client.py:33-40 | unfiltered findings of the account, then the inclusive range filter; every result is in range; empty when start > end |
| `Records.SummaryEntryOf` | security_monitor.py:94-98 | the summary entry of a scan has non-negative finding counts |
| `SecurityMonitor.PassUpdates` | security_monitor.py:61-75 | a pass over distinct accounts adds exactly those accounts to the history keys, appends exactly one entry to each of their lists (creating the list on the first scan), and leaves earlier entries and other accounts unchanged |
| `SecurityMonitor.PassKeepsInvariant` | security_monitor.py:61-75 | after a pass, history keys are still a subset of the configured accounts and no list is empty |
| `SecurityMonitor.SummaryOverExact` | security_monitor.py:91-98 | the summary has a key for X iff X is walked and has a history, and its entry is the counts and score of X's last history entry |
| `SecurityMonitor.SummaryAfterPass` | security_monitor.py:61-98 | after a pass over all accounts, the summary holds every configured account, each with the counts and score of the scan that pass stored |
| `SecurityMonitor.SecurityMonitor.constructor` | security_monitor.py:24-26 | a new monitor has an empty history |
| `SecurityMonitor.SecurityMonitor.ScanAccount` | security_monitor.py:28-38 | three independent generator calls for the account; critical results are all critical, high results all high, all attributed to the account, at most 5 each |
| `SecurityMonitor.SecurityMonitor.ScanAndRecord` | security_monitor.py:63-75 | the account's list is created if missing, then the scan is appended to it; nothing else changes |
| `SecurityMonitor.SecurityMonitor.MonitorPass` | security_monitor.py:61-75 | the history after one pass is the old one with one new entry appended per configured account, the old entries kept as a prefix; the invariant is kept |
| `SecurityMonitor.SecurityMonitor.SaveSummary` | security_monitor.py:84-98 | summary key for X iff X is configured and in the history; counts are the lengths of the last entry's lists (non-negative) and the score is its score or 0; it has no modifies clause, so the history is untouched |
| `SecurityMonitor.PassesAppend` | security_monitor.py:60-75 | after a run of passes over distinct accounts, each walked account's old list is a prefix of its new one, followed by exactly the records the passes stored for it, in pass order |
| `SecurityMonitor.PassesKeys` | security_monitor.py:60-75 | a nonempty run of passes adds exactly the walked accounts to the history keys |
| `SecurityMonitor.PassesKeepOthers` | security_monitor.py:60-75 | an account no pass walks keeps its list unchanged |
| `SecurityMonitor.LastPassEntry` | security_monitor.py:60-93 | after a nonempty run of passes, an account's latest record is the one the last pass stored |
| `SecurityMonitor.LastPassSummary` | security_monitor.py:60-98 | after a nonempty run, the summary over the walked accounts has exactly those accounts, each with the counts and score of the record the last pass stored |
| `SecurityMonitor.LastPassScanSummary` | security_monitor.py:60-98 | the same in terms of the draws: each account's summary entry is taken from its scan in the last pass |
| `SecurityMonitor.SecurityMonitor.RunPasses` | security_monitor.py:60-75 | the history after the passes is `AfterPasses` of the old one; each configured account's list is its old list followed by one record per pass, the record of pass k being that pass's scan of the account |
| `SecurityMonitor.SecurityMonitor.MonitorAccounts` | security_monitor.py:57-82 | the new history is exactly `AfterPasses` of the old one over the completed passes; after at least one pass the keys are the old keys plus the configured accounts, and the shutdown summary holds exactly the configured accounts, with the last pass's counts and scores |
| `ReportGenerator.LoadFindingsHistory` | report_generator.py:18-25 | a missing file gives no history; an existing file's summary is returned as read |
| `ReportGenerator.AccountReportOf` | report_generator.py:35-44 | `critical_count` and `high_count` equal the lengths of the bundled lists; `risk_score` is the risk record's score or 0 |
| `ReportGenerator.GenerateAccountReport` | report_generator.py:27-44 | bundles the critical, high and risk-score queries for the account; the summary counts equal the bundled lengths (at most 5); the score is in 1.0..10.0; the bundled lists hold only their severity |
| `ReportGenerator.CompareExact` | report_generator.py:53-62 | the fold has a key for X iff X is walked and present on both sides; its entry is current minus historical for critical count, high count and risk score |
| `ReportGenerator.GenerateComparisonReport` | report_generator.py:46-64 | comparison key for X iff X is configured and in both summaries' accounts; critical, high and risk-score changes are current minus historical |
| `ReportGenerator.OneSidedAccountSkipped` | report_generator.py:54 | an account present on only one side gets no entry |
| `ReportGenerator.UnconfiguredAccountSkipped` | report_generator.py:53 | an account missing from the walked list gets no entry even when both sides have it |
| `ReportGenerator.CompareWithItselfIsZero` | report_generator.py:59-61 | a summary compared with itself yields all-zero deltas for exactly its walked accounts |
| `ReportGenerator.CompareSwappedNegates` | report_generator.py:59-61 | swapping the arguments keeps the key set and negates every delta |
| `ReportGenerator.CompareRestoresCurrent` | report_generator.py:59-61 | the historical entry plus the delta gives back the current entry (for the risk score, over exact reals) |
| `ReportGenerator.AcctAExample` | report_generator.py:53-62 | summaries holding "acct-A" with (2, 5, 6.0) and (3, 4, 7.5) give deltas (1, -1, 1.5) over the list ["acct-A"] and, since "acct-A" is not configured, no entry in the report over the configured accounts |

## Left out

- Console and table rendering (`display_findings`, `display_report`): pure formatting through an external library.
- CSV export (`export_to_csv`): a call into pandas. It also reads keys (`critical_findings`, `high_findings`, `risk_score`) that the comparison report never contains (report_generator.py:104-106 against 58-62). `display_report` has the same mismatch (report_generator.py:81, 86, 91). Both would fail on a real comparison report, and neither is modelled as if it worked.
- `main` of report_generator.py: it passes a map keyed by account id, with no `"accounts"` key, into the comparison (report_generator.py:120-129), which would fail at line 54. The comparison is modelled on its intended `{"accounts": ...}` input shape instead.
- JSON and file I/O: reading and writing the summary file. `LoadFindingsHistory` takes the file's content as an `Option`, and `SaveSummary` returns the summary it would write.
- The infinite `while True` loop, `time.sleep(SCAN_INTERVAL)` and `KeyboardInterrupt`. `MonitorAccounts` runs a finite sequence of completed passes, then performs the shutdown summary. An interrupt in the middle of a pass, which leaves that pass half-recorded, is not modelled.
- Logging setup and log messages.
- Python's `random` module and `datetime.now()`: replaced by draw records and integer clock readings. The model makes no claim about distributions, float rounding of `uniform`, or wall-clock behaviour.
- The clock readings within one account's scan are one instant (`ScanDraws.now`). It serves as the findings' "now", the risk record's timestamp and the history entry's timestamp, although the source reads the clock several times. The account report's timestamp is likewise that scan's instant.
- The order in which the source consumes random values within one finding iteration is not modelled. A filtered-out iteration still carries a full draw record, whose unused fields have no effect.
- Unused configuration: `RISK_SCORE_THRESHOLD`, `SEVERITY_LEVELS`, `REPORT_TEMPLATES`, `CACHE_DURATION`. `SCAN_INTERVAL` appears only as a constant.
- ReportGenerator.CompareRestoresCurrent: its risk-score equation (historical score plus delta equals current score) holds over exact reals only. With Python floats the subtraction can round, so adding the delta back need not restore the current score (for example current 1.0000000000000002 against historical 10.0). The two integer counts are restored exactly.
- Round-tripping the summary file through JSON byte for byte is an I/O property and is not modelled.
