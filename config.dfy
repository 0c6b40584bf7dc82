/** The static configuration the core reads: the list of monitored accounts. */
module Config {

  /** `AWS_ACCOUNTS`: the accounts every monitoring pass and every report walks, in order. */
  const AwsAccounts: seq<string> := ["dev-account-123", "prod-account-456", "staging-account-789"]

  /** `SCAN_INTERVAL`, in seconds; only the sleep between passes uses it. */
  const ScanInterval: nat := 5

  /** No account occurs twice in the list. */
  predicate Distinct(accounts: seq<string>)
  {
    forall i, j :: 0 <= i < j < |accounts| ==> accounts[i] != accounts[j]
  }

  lemma AwsAccountsDistinct()
    ensures Distinct(AwsAccounts)
  {
  }
}
