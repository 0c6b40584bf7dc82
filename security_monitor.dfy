/** The monitor: an in-memory history of scans per account that grows by
    appending, one entry per configured account per pass, and the summary
    written on shutdown from the latest entry of each account.

    The history map is the object's state (`SecurityMonitor.findingsHistory`);
    the passes and the summary are methods over it, each proved against the
    fold functions `AfterPass` and `SummaryOver`, which mirror their loops. */
module SecurityMonitor {
  import opened Wrappers
  import opened Config
  import opened MockSecurityData
  import opened Records

  /** One history record: when the scan was stored and what it found. */
  datatype HistoryEntry = HistoryEntry(timestamp: int, findings: FindingsBundle)

  type History = map<string, seq<HistoryEntry>>

  /** What `scan_account` returns for `accountId` given the draws of its three generator calls. */
  function ScanOf(accountId: string, sd: ScanDraws): FindingsBundle
    requires ValidScanDraws(sd)
  {
    FindingsBundle(
      MockFindings(Some(accountId), Some("critical"), sd.now, sd.critical),
      MockFindings(Some(accountId), Some("high"), sd.now, sd.high),
      MockRiskScore(Some(accountId), sd.now, sd.risk))
  }

  /** The record a pass appends for `accountId`. */
  function EntryOf(accountId: string, sd: ScanDraws): HistoryEntry
    requires ValidScanDraws(sd)
  {
    HistoryEntry(sd.now, ScanOf(accountId, sd))
  }

  /** The list an account has so far: none yet counts as the empty list. */
  function Previous(h: History, accountId: string): seq<HistoryEntry>
  {
    if accountId in h then h[accountId] else []
  }

  /** Create the account's list if it is missing, then append `e` to it. */
  function Appended(h: History, accountId: string, e: HistoryEntry): History
  {
    h[accountId := Previous(h, accountId) + [e]]
  }

  /** The draws of one pass: one scan for each account, in order. */
  predicate ValidPass(accounts: seq<string>, scans: seq<ScanDraws>)
  {
    |scans| == |accounts| && forall i :: 0 <= i < |scans| ==> ValidScanDraws(scans[i])
  }

  /** The records one pass stores, account by account. */
  function PassEntries(accounts: seq<string>, scans: seq<ScanDraws>): seq<HistoryEntry>
    requires ValidPass(accounts, scans)
  {
    seq(|accounts|, i requires 0 <= i < |accounts| => EntryOf(accounts[i], scans[i]))
  }

  /** The history after a pass over `accounts` has appended `entries[i]` for `accounts[i]`. */
  function AfterPass(h: History, accounts: seq<string>, entries: seq<HistoryEntry>): History
    requires |entries| == |accounts|
    decreases |accounts|
  {
    if |accounts| == 0 then h
    else
      var n := |accounts| - 1;
      Appended(AfterPass(h, accounts[..n], entries[..n]), accounts[n], entries[n])
  }

  /** A pass adds the accounts it walks to the keys, appends exactly one entry to each
      of their lists (creating the list on the first scan), and leaves every other
      account's list alone. */
  lemma PassUpdates(h: History, accounts: seq<string>, entries: seq<HistoryEntry>)
    requires |entries| == |accounts|
    requires Distinct(accounts)
    ensures AfterPass(h, accounts, entries).Keys == h.Keys + (set a | a in accounts)
    ensures forall i :: 0 <= i < |accounts| ==>
              AfterPass(h, accounts, entries)[accounts[i]] == Previous(h, accounts[i]) + [entries[i]]
    ensures forall a :: a in h && a !in accounts ==> AfterPass(h, accounts, entries)[a] == h[a]
  {
    PassKeys(h, accounts, entries);
    PassAppendsOnce(h, accounts, entries);
    forall a | a in h && a !in accounts
      ensures AfterPass(h, accounts, entries)[a] == h[a]
    {
      PassKeepsOther(h, accounts, entries, a);
    }
  }

  /** A pass adds exactly the accounts it walks to the keys. */
  lemma {:induction false} PassKeys(h: History, accounts: seq<string>, entries: seq<HistoryEntry>)
    requires |entries| == |accounts|
    ensures AfterPass(h, accounts, entries).Keys == h.Keys + (set a | a in accounts)
    decreases |accounts|
  {
    if |accounts| > 0 {
      var n := |accounts| - 1;
      PassKeys(h, accounts[..n], entries[..n]);
      assert (set a | a in accounts) == (set a | a in accounts[..n]) + {accounts[n]} by {
        assert accounts == accounts[..n] + [accounts[n]];
      }
    }
  }

  /** A pass leaves the list of an account it does not walk alone. */
  lemma {:induction false} PassKeepsOther(h: History, accounts: seq<string>, entries: seq<HistoryEntry>, a: string)
    requires |entries| == |accounts|
    requires a in h && a !in accounts
    ensures a in AfterPass(h, accounts, entries) && AfterPass(h, accounts, entries)[a] == h[a]
    decreases |accounts|
  {
    if |accounts| > 0 {
      var n := |accounts| - 1;
      assert a !in accounts[..n] && a != accounts[n] by {
        assert accounts == accounts[..n] + [accounts[n]];
      }
      PassKeepsOther(h, accounts[..n], entries[..n], a);
    }
  }

  /** A pass over distinct accounts appends exactly one entry, its own, to each walked list. */
  lemma {:induction false} PassAppendsOnce(h: History, accounts: seq<string>, entries: seq<HistoryEntry>)
    requires |entries| == |accounts|
    requires Distinct(accounts)
    ensures forall i :: 0 <= i < |accounts| ==>
              accounts[i] in AfterPass(h, accounts, entries) &&
              AfterPass(h, accounts, entries)[accounts[i]] == Previous(h, accounts[i]) + [entries[i]]
    decreases |accounts|
  {
    if |accounts| > 0 {
      var n := |accounts| - 1;
      var pre, preEntries := accounts[..n], entries[..n];
      assert Distinct(pre);
      PassAppendsOnce(h, pre, preEntries);
      var mid := AfterPass(h, pre, preEntries);
      var last := accounts[n];
      forall i | 0 <= i < |accounts|
        ensures accounts[i] in AfterPass(h, accounts, entries)
        ensures AfterPass(h, accounts, entries)[accounts[i]] == Previous(h, accounts[i]) + [entries[i]]
      {
        if i < n {
          assert accounts[i] == pre[i] && entries[i] == preEntries[i];
          assert accounts[i] != last;
        } else {
          forall j | 0 <= j < n
            ensures pre[j] != last
          {
            assert pre[j] == accounts[j];
          }
          assert last !in pre;
          if last in h {
            PassKeepsOther(h, pre, preEntries, last);
          } else {
            PassKeys(h, pre, preEntries);
          }
          assert Previous(mid, last) == Previous(h, last);
        }
      }
    }
  }

  /** A pass in terms of its draws: the walked accounts join the keys, and each walked list
      gets that account's scan appended. */
  lemma PassOfScans(h: History, accounts: seq<string>, scans: seq<ScanDraws>)
    requires Distinct(accounts)
    requires ValidPass(accounts, scans)
    ensures AfterPass(h, accounts, PassEntries(accounts, scans)).Keys == h.Keys + (set a | a in accounts)
    ensures forall i :: 0 <= i < |accounts| ==>
              AfterPass(h, accounts, PassEntries(accounts, scans))[accounts[i]] ==
                Previous(h, accounts[i]) + [EntryOf(accounts[i], scans[i])]
  {
    var entries := PassEntries(accounts, scans);
    PassKeys(h, accounts, entries);
    PassAppendsOnce(h, accounts, entries);
  }

  /** What the monitor maintains: only configured accounts have lists, and no list is empty. */
  predicate HistoryInvariant(h: History)
  {
    forall a :: a in h ==> a in AwsAccounts && |h[a]| > 0
  }

  /** A pass never leaves a list empty: each list it touches has just been appended to. */
  lemma {:induction false} PassKeepsNonEmpty(h: History, accounts: seq<string>, entries: seq<HistoryEntry>)
    requires |entries| == |accounts|
    requires forall a :: a in h ==> |h[a]| > 0
    ensures forall a :: a in AfterPass(h, accounts, entries) ==> |AfterPass(h, accounts, entries)[a]| > 0
    decreases |accounts|
  {
    if |accounts| > 0 {
      var n := |accounts| - 1;
      PassKeepsNonEmpty(h, accounts[..n], entries[..n]);
    }
  }

  /** A pass over the configured accounts keeps the invariant. */
  lemma PassKeepsInvariant(h: History, entries: seq<HistoryEntry>)
    requires HistoryInvariant(h)
    requires |entries| == |AwsAccounts|
    ensures HistoryInvariant(AfterPass(h, AwsAccounts, entries))
  {
    PassKeys(h, AwsAccounts, entries);
    PassKeepsNonEmpty(h, AwsAccounts, entries);
  }

  function Latest(entries: seq<HistoryEntry>): HistoryEntry
    requires |entries| > 0
  {
    entries[|entries| - 1]
  }

  /** The summary entries `save_summary` has collected after walking `accounts`. */
  function SummaryOver(accounts: seq<string>, h: History): map<string, AccountSummary>
    requires forall a :: a in h ==> |h[a]| > 0
    decreases |accounts|
  {
    if |accounts| == 0 then map[]
    else
      var n := |accounts| - 1;
      var m := SummaryOver(accounts[..n], h);
      if accounts[n] in h then m[accounts[n] := SummaryEntryOf(Latest(h[accounts[n]]).findings)] else m
  }

  /** The summary has an entry exactly for the walked accounts that have a history,
      and each entry is taken from that account's latest scan. */
  lemma {:induction false} SummaryOverExact(accounts: seq<string>, h: History)
    requires forall a :: a in h ==> |h[a]| > 0
    ensures forall a :: a in SummaryOver(accounts, h) <==> a in accounts && a in h
    ensures forall a :: a in SummaryOver(accounts, h) ==>
              SummaryOver(accounts, h)[a] == SummaryEntryOf(Latest(h[a]).findings)
    decreases |accounts|
  {
    if |accounts| > 0 {
      var n := |accounts| - 1;
      SummaryOverExact(accounts[..n], h);
      assert accounts == accounts[..n] + [accounts[n]];
    }
  }

  /** After a pass over distinct accounts, the summary over those accounts has every one of
      them, each with the counts and score of the entry that pass stored. */
  lemma SummaryAfterPass(h: History, accounts: seq<string>, entries: seq<HistoryEntry>)
    requires forall a :: a in h ==> |h[a]| > 0
    requires |entries| == |accounts|
    requires Distinct(accounts)
    ensures forall a :: a in AfterPass(h, accounts, entries) ==> |AfterPass(h, accounts, entries)[a]| > 0
    ensures SummaryOver(accounts, AfterPass(h, accounts, entries)).Keys == set a | a in accounts
    ensures forall i :: 0 <= i < |accounts| ==>
              SummaryOver(accounts, AfterPass(h, accounts, entries))[accounts[i]] == SummaryEntryOf(entries[i].findings)
  {
    var h' := AfterPass(h, accounts, entries);
    PassKeepsNonEmpty(h, accounts, entries);
    PassKeys(h, accounts, entries);
    PassAppendsOnce(h, accounts, entries);
    SummaryOverExact(accounts, h');
    forall i | 0 <= i < |accounts|
      ensures SummaryOver(accounts, h')[accounts[i]] == SummaryEntryOf(entries[i].findings)
    {
      assert Latest(h'[accounts[i]]) == entries[i];
    }
  }

  /** The draws of a run of completed passes: each one is a valid pass over `accounts`. */
  predicate ValidPasses(accounts: seq<string>, passes: seq<seq<ScanDraws>>)
  {
    forall k :: 0 <= k < |passes| ==> ValidPass(accounts, passes[k])
  }

  /** The records a run of passes stores: pass by pass, account by account. */
  function RunEntries(accounts: seq<string>, passes: seq<seq<ScanDraws>>): (run: seq<seq<HistoryEntry>>)
    requires ValidPasses(accounts, passes)
    ensures |run| == |passes|
    ensures forall k :: 0 <= k < |run| ==> |run[k]| == |accounts|
  {
    seq(|passes|, k requires 0 <= k < |passes| => PassEntries(accounts, passes[k]))
  }

  /** Every pass of the run stored one record per walked account. */
  predicate FullPasses(accounts: seq<string>, run: seq<seq<HistoryEntry>>)
  {
    forall k :: 0 <= k < |run| ==> |run[k]| == |accounts|
  }

  /** The history after the passes of `run` over `accounts`, in order, starting from `h`. */
  function AfterPasses(h: History, accounts: seq<string>, run: seq<seq<HistoryEntry>>): History
    requires FullPasses(accounts, run)
    decreases |run|
  {
    if |run| == 0 then h
    else
      var n := |run| - 1;
      AfterPass(AfterPasses(h, accounts, run[..n]), accounts, run[n])
  }

  /** The records the run stores for the account at position `i`, one per pass. */
  function AccountEntries(i: nat, run: seq<seq<HistoryEntry>>): seq<HistoryEntry>
    requires forall k :: 0 <= k < |run| ==> i < |run[k]|
  {
    seq(|run|, k requires 0 <= k < |run| => run[k][i])
  }

  /** A run of passes over distinct accounts keeps each walked account's earlier list as a
      prefix and appends to it, in pass order, exactly the record each pass stored for that
      account. */
  lemma PassesAppend(h: History, accounts: seq<string>, run: seq<seq<HistoryEntry>>)
    requires FullPasses(accounts, run)
    requires Distinct(accounts)
    ensures forall i :: 0 <= i < |accounts| ==>
              Previous(AfterPasses(h, accounts, run), accounts[i]) == Previous(h, accounts[i]) + AccountEntries(i, run)
  {
    forall i | 0 <= i < |accounts|
      ensures Previous(AfterPasses(h, accounts, run), accounts[i]) == Previous(h, accounts[i]) + AccountEntries(i, run)
    {
      PassesAppendAt(h, accounts, run, i);
    }
  }

  /** The same for the account at position `i`. */
  lemma {:induction false} PassesAppendAt(h: History, accounts: seq<string>, run: seq<seq<HistoryEntry>>, i: nat)
    requires FullPasses(accounts, run)
    requires Distinct(accounts)
    requires i < |accounts|
    ensures Previous(AfterPasses(h, accounts, run), accounts[i]) == Previous(h, accounts[i]) + AccountEntries(i, run)
    decreases |run|
  {
    if |run| > 0 {
      var n := |run| - 1;
      var pre := run[..n];
      assert FullPasses(accounts, pre);
      PassesAppendAt(h, accounts, pre, i);
      var mid := AfterPasses(h, accounts, pre);
      var after := AfterPasses(h, accounts, run);
      var a := accounts[i];
      assert after == AfterPass(mid, accounts, run[n]);
      PassAppendsOnce(mid, accounts, run[n]);
      assert a in after && after[a] == Previous(mid, a) + [run[n][i]];
      AppendEntry(i, run);
      calc {
        Previous(after, a);
        (Previous(h, a) + AccountEntries(i, pre)) + [run[n][i]];
        Previous(h, a) + (AccountEntries(i, pre) + [run[n][i]]);
        Previous(h, a) + AccountEntries(i, run);
      }
    }
  }

  /** The record a run stores for account `i` in pass `k` is that pass's scan of the account. */
  lemma RunEntriesAt(accounts: seq<string>, passes: seq<seq<ScanDraws>>)
    requires ValidPasses(accounts, passes)
    ensures forall i, k :: 0 <= i < |accounts| && 0 <= k < |passes| ==>
              AccountEntries(i, RunEntries(accounts, passes))[k] == EntryOf(accounts[i], passes[k][i])
    ensures forall i, k :: 0 <= i < |accounts| && 0 <= k < |passes| ==>
              RunEntries(accounts, passes)[k][i] == EntryOf(accounts[i], passes[k][i])
  {
  }

  /** A run of passes in terms of the draws: each walked account's list is its old list
      followed by one record per pass, the record of pass k being that pass's scan of it. */
  lemma RunAppends(h0: History, accounts: seq<string>, passes: seq<seq<ScanDraws>>)
    requires Distinct(accounts)
    requires ValidPasses(accounts, passes)
    ensures forall i :: 0 <= i < |accounts| ==>
              Previous(AfterPasses(h0, accounts, RunEntries(accounts, passes)), accounts[i]) ==
                Previous(h0, accounts[i]) + AccountEntries(i, RunEntries(accounts, passes))
    ensures forall i, k :: 0 <= i < |accounts| && 0 <= k < |passes| ==>
              AccountEntries(i, RunEntries(accounts, passes))[k] == EntryOf(accounts[i], passes[k][i])
  {
    PassesAppend(h0, accounts, RunEntries(accounts, passes));
    RunEntriesAt(accounts, passes);
  }

  /** After at least one pass over distinct accounts, every walked account has a list, and
      the summary over those accounts holds each of them with the record the last pass stored. */
  lemma LastPassSummary(h0: History, h: History, accounts: seq<string>, run: seq<seq<HistoryEntry>>)
    requires Distinct(accounts)
    requires forall a :: a in h ==> |h[a]| > 0
    requires FullPasses(accounts, run) && |run| > 0
    requires h == AfterPasses(h0, accounts, run)
    ensures h.Keys == h0.Keys + (set a | a in accounts)
    ensures SummaryOver(accounts, h).Keys == set a | a in accounts
    ensures forall i :: 0 <= i < |accounts| ==>
              accounts[i] in SummaryOver(accounts, h) &&
              SummaryOver(accounts, h)[accounts[i]] == SummaryEntryOf(run[|run| - 1][i].findings)
  {
    PassesKeys(h0, accounts, run);
    SummaryOverExact(accounts, h);
    forall i | 0 <= i < |accounts|
      ensures accounts[i] in SummaryOver(accounts, h)
      ensures SummaryOver(accounts, h)[accounts[i]] == SummaryEntryOf(run[|run| - 1][i].findings)
    {
      LastPassEntry(h0, h, accounts, run, i);
    }
  }

  /** The same in terms of the draws: after a nonempty run of passes, the summary holds each
      walked account with that account's scan in the last pass. */
  lemma LastPassScanSummary(h0: History, h: History, accounts: seq<string>, passes: seq<seq<ScanDraws>>)
    requires Distinct(accounts)
    requires forall a :: a in h ==> |h[a]| > 0
    requires ValidPasses(accounts, passes) && |passes| > 0
    requires h == AfterPasses(h0, accounts, RunEntries(accounts, passes))
    ensures SummaryOver(accounts, h).Keys == set a | a in accounts
    ensures ValidPass(accounts, passes[|passes| - 1])
    ensures forall i :: 0 <= i < |accounts| ==>
              accounts[i] in SummaryOver(accounts, h) &&
              SummaryOver(accounts, h)[accounts[i]] == SummaryEntryOf(ScanOf(accounts[i], passes[|passes| - 1][i]))
  {
    var run := RunEntries(accounts, passes);
    var n := |passes| - 1;
    LastPassSummary(h0, h, accounts, run);
    assert ValidPass(accounts, passes[n]);
    RunEntriesAt(accounts, passes);
  }

  /** After at least one pass, an account's latest record is the one the last pass stored. */
  lemma LastPassEntry(h0: History, h: History, accounts: seq<string>, run: seq<seq<HistoryEntry>>, i: nat)
    requires Distinct(accounts)
    requires FullPasses(accounts, run) && |run| > 0
    requires h == AfterPasses(h0, accounts, run)
    requires i < |accounts|
    ensures accounts[i] in h && |h[accounts[i]]| > 0 && Latest(h[accounts[i]]) == run[|run| - 1][i]
  {
    PassesAppend(h0, accounts, run);
    assert h[accounts[i]] == Previous(h0, accounts[i]) + AccountEntries(i, run);
  }

  /** A nonempty run of passes adds exactly the walked accounts to the keys. */
  lemma {:induction false} PassesKeys(h: History, accounts: seq<string>, run: seq<seq<HistoryEntry>>)
    requires FullPasses(accounts, run) && |run| > 0
    requires Distinct(accounts)
    ensures AfterPasses(h, accounts, run).Keys == h.Keys + (set a | a in accounts)
    decreases |run|
  {
    var n := |run| - 1;
    assert FullPasses(accounts, run[..n]);
    PassUpdates(AfterPasses(h, accounts, run[..n]), accounts, run[n]);
    if n > 0 {
      PassesKeys(h, accounts, run[..n]);
    }
  }

  /** A run of passes leaves the list of an account it does not walk alone. */
  lemma {:induction false} PassesKeepOthers(h: History, accounts: seq<string>, run: seq<seq<HistoryEntry>>, a: string)
    requires FullPasses(accounts, run)
    requires Distinct(accounts)
    requires a in h && a !in accounts
    ensures a in AfterPasses(h, accounts, run) && AfterPasses(h, accounts, run)[a] == h[a]
    decreases |run|
  {
    if |run| > 0 {
      var n := |run| - 1;
      assert FullPasses(accounts, run[..n]);
      PassesKeepOthers(h, accounts, run[..n], a);
      PassUpdates(AfterPasses(h, accounts, run[..n]), accounts, run[n]);
    }
  }

  lemma AppendEntry(i: nat, run: seq<seq<HistoryEntry>>)
    requires |run| > 0
    requires forall k :: 0 <= k < |run| ==> i < |run[k]|
    ensures AccountEntries(i, run) == AccountEntries(i, run[..|run| - 1]) + [run[|run| - 1][i]]
  {
  }

  class SecurityMonitor {
    /** `findings_history`: account id to the list of its scans, oldest first. */
    var findingsHistory: History

    ghost predicate Valid()
      reads this
    {
      HistoryInvariant(findingsHistory)
    }

    constructor ()
      ensures Valid()
      ensures findingsHistory == map[]
    {
      findingsHistory := map[];
    }

    /** `scan_account`: critical findings, high findings and a risk record, from three
        independent generator calls for the same account. */
    method ScanAccount(accountId: string, sd: ScanDraws) returns (findings: FindingsBundle)
      requires ValidScanDraws(sd)
      ensures findings == ScanOf(accountId, sd)
      ensures forall f :: f in findings.critical ==> f.severity == "critical" && Generated(f, Some(accountId), sd.now)
      ensures forall f :: f in findings.high ==> f.severity == "high" && Generated(f, Some(accountId), sd.now)
      ensures |findings.critical| <= 5 && |findings.high| <= 5
    {
      var critical := GetMockFindings(Some(accountId), Some("critical"), sd.now, sd.critical);
      var high := GetMockFindings(Some(accountId), Some("high"), sd.now, sd.high);
      findings := FindingsBundle(critical, high, MockRiskScore(Some(accountId), sd.now, sd.risk));
    }

    /** The body of the account loop in `monitor_accounts`: scan the account, then
        create its history list if this is its first scan and append the scan to it. */
    method ScanAndRecord(accountId: string, sd: ScanDraws)
      requires ValidScanDraws(sd)
      modifies this
      ensures findingsHistory == Appended(old(findingsHistory), accountId, EntryOf(accountId, sd))
    {
      var findings := ScanAccount(accountId, sd);
      var timestamp := sd.now;
      if accountId !in findingsHistory {
        findingsHistory := findingsHistory[accountId := []];
      }
      findingsHistory := findingsHistory[accountId := findingsHistory[accountId] + [HistoryEntry(timestamp, findings)]];
    }

    /** One iteration of the `while True` loop of `monitor_accounts`: scan every configured
        account in order and store the scan in its history list. */
    method MonitorPass(scans: seq<ScanDraws>)
      requires Valid()
      requires ValidPass(AwsAccounts, scans)
      modifies this
      ensures Valid()
      ensures findingsHistory == AfterPass(old(findingsHistory), AwsAccounts, PassEntries(AwsAccounts, scans))
      ensures findingsHistory.Keys == old(findingsHistory).Keys + (set a | a in AwsAccounts)
      ensures forall i :: 0 <= i < |AwsAccounts| ==>
                findingsHistory[AwsAccounts[i]] == Previous(old(findingsHistory), AwsAccounts[i]) + [EntryOf(AwsAccounts[i], scans[i])]
    {
      ghost var h0 := findingsHistory;
      ghost var entries := PassEntries(AwsAccounts, scans);
      for i := 0 to |AwsAccounts|
        invariant findingsHistory == AfterPass(h0, AwsAccounts[..i], entries[..i])
      {
        assert AwsAccounts[..i + 1][..i] == AwsAccounts[..i] && entries[..i + 1][..i] == entries[..i];
        ghost var before := findingsHistory;
        ScanAndRecord(AwsAccounts[i], scans[i]);
        assert findingsHistory == Appended(before, AwsAccounts[i], entries[i]);
      }
      assert AwsAccounts[..|AwsAccounts|] == AwsAccounts && entries[..|entries|] == entries;
      PassKeepsInvariant(h0, entries);
      AwsAccountsDistinct();
      PassOfScans(h0, AwsAccounts, scans);
    }

    /** `save_summary`, without the file write: the summary it would write. It reads the
        history and changes nothing. */
    method SaveSummary(timestamp: int) returns (summary: Summary)
      requires Valid()
      ensures summary.timestamp == timestamp
      ensures summary.accounts == SummaryOver(AwsAccounts, findingsHistory)
      ensures forall a :: a in summary.accounts <==> a in AwsAccounts && a in findingsHistory
      ensures forall a :: a in summary.accounts ==>
                summary.accounts[a] == SummaryEntryOf(Latest(findingsHistory[a]).findings)
      ensures forall a :: a in summary.accounts ==>
                summary.accounts[a].criticalFindings >= 0 && summary.accounts[a].highFindings >= 0
    {
      var accounts: map<string, AccountSummary> := map[];
      for i := 0 to |AwsAccounts|
        invariant accounts == SummaryOver(AwsAccounts[..i], findingsHistory)
      {
        assert AwsAccounts[..i + 1][..i] == AwsAccounts[..i];
        var accountId := AwsAccounts[i];
        if accountId in findingsHistory {
          var latest := findingsHistory[accountId][|findingsHistory[accountId]| - 1];
          accounts := accounts[accountId := AccountSummary(
            |latest.findings.critical|, |latest.findings.high|, ScoreOrZero(latest.findings.riskScore))];
        }
      }
      assert AwsAccounts[..|AwsAccounts|] == AwsAccounts;
      summary := Summary(timestamp, accounts);
      SummaryOverExact(AwsAccounts, findingsHistory);
    }

    /** The `while True` loop of `monitor_accounts`, run for the given completed passes. */
    method RunPasses(passes: seq<seq<ScanDraws>>)
      requires Valid()
      requires ValidPasses(AwsAccounts, passes)
      modifies this
      ensures Valid()
      ensures findingsHistory == AfterPasses(old(findingsHistory), AwsAccounts, RunEntries(AwsAccounts, passes))
      ensures forall i :: 0 <= i < |AwsAccounts| ==>
                Previous(findingsHistory, AwsAccounts[i]) ==
                  Previous(old(findingsHistory), AwsAccounts[i]) + AccountEntries(i, RunEntries(AwsAccounts, passes))
      ensures forall i, k :: 0 <= i < |AwsAccounts| && 0 <= k < |passes| ==>
                AccountEntries(i, RunEntries(AwsAccounts, passes))[k] == EntryOf(AwsAccounts[i], passes[k][i])
    {
      ghost var h0 := findingsHistory;
      ghost var run := RunEntries(AwsAccounts, passes);
      for k := 0 to |passes|
        invariant Valid()
        invariant findingsHistory == AfterPasses(h0, AwsAccounts, run[..k])
      {
        assert run[..k + 1][..k] == run[..k] && run[k] == PassEntries(AwsAccounts, passes[k]);
        MonitorPass(passes[k]);
      }
      assert run[..|run|] == run;
      AwsAccountsDistinct();
      RunAppends(h0, AwsAccounts, passes);
    }

    /** `monitor_accounts` run for the given completed passes, then interrupted: the
        summary written on shutdown. */
    method MonitorAccounts(passes: seq<seq<ScanDraws>>, stopTime: int) returns (summary: Summary)
      requires Valid()
      requires ValidPasses(AwsAccounts, passes)
      modifies this
      ensures Valid()
      ensures findingsHistory == AfterPasses(old(findingsHistory), AwsAccounts, RunEntries(AwsAccounts, passes))
      ensures |passes| > 0 ==> findingsHistory.Keys == old(findingsHistory).Keys + (set a | a in AwsAccounts)
      ensures summary.timestamp == stopTime
      ensures summary.accounts == SummaryOver(AwsAccounts, findingsHistory)
      ensures |passes| > 0 ==> summary.accounts.Keys == set a | a in AwsAccounts
      ensures |passes| > 0 ==> ValidPass(AwsAccounts, passes[|passes| - 1]) && forall i :: 0 <= i < |AwsAccounts| ==>
                summary.accounts[AwsAccounts[i]] == SummaryEntryOf(ScanOf(AwsAccounts[i], passes[|passes| - 1][i]))
    {
      ghost var h0 := findingsHistory;
      ghost var run := RunEntries(AwsAccounts, passes);
      RunPasses(passes);
      AwsAccountsDistinct();
      summary := SaveSummary(stopTime);
      if |passes| > 0 {
        PassesKeys(h0, AwsAccounts, run);
        LastPassScanSummary(h0, findingsHistory, AwsAccounts, passes);
      }
    }
  }
}
