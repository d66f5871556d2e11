/**
 The data of the wallet ledger: one user's wallet record (gold, crystals, the
 unlocked tests and the append-only transaction history), the errors and
 responses of the wallet controllers, the fixed prices, and the invariants a
 wallet is expected to keep.
 */
module WalletTypes {

  /** Identifier of a test that can be unlocked, e.g. "series1_test_1". */
  type TestId = string

  /** Gold paid for one crystal by an exchange. */
  const ExchangeRate: int := 100

  /** Crystals paid to unlock one test. */
  const UnlockCost: int := 5

  /** How many of the newest transactions the wallet overview shows. */
  const RecentLimit: nat := 10

  datatype Option<+T> = None | Some(value: T)

  /** The three failures a wallet controller reports to its caller. */
  datatype Error =
    | InvalidInput
    | NotFound
    | InsufficientFunds(required: int)

  datatype Result<+T> = Ok(value: T) | Err(error: Error)

  /** The `type` enum of a transaction. */
  datatype EntryKind = EarnGold | Exchange | UnlockTest

  /** One transaction of the history. A change the controller does not set
      is 0; the timestamp is the clock reading when the entry was pushed. */
  datatype LedgerEntry = LedgerEntry(
    kind: EntryKind,
    goldChange: int,
    crystalsChange: int,
    testId: Option<TestId>,
    timestamp: nat)

  /** One element of the unlocked-tests list. */
  datatype TestUnlock = TestUnlock(testId: TestId, unlockedAt: nat)

  /** The wallet part of a user record. */
  datatype Wallet = Wallet(
    gold: int,
    crystals: int,
    unlockedTests: seq<TestUnlock>,
    transactions: seq<LedgerEntry>)

  /** What a successful controller sends back. */
  datatype Response =
    | Balances(gold: int, crystals: int)
    | AlreadyUnlocked
    | NewlyUnlocked(crystals: int, unlockedTests: seq<TestId>)
    | UnlockStatus(unlocked: bool, crystals: int, gold: int)
    | WalletView(gold: int, crystals: int, unlockedTests: seq<TestId>, transactions: seq<LedgerEntry>)
    | History(transactions: seq<LedgerEntry>)

  /** A successful mutation: the wallet to save and the response to send. */
  datatype Outcome = Outcome(wallet: Wallet, response: Response)

  /** The wallet every registration creates: zero balances, empty lists. */
  function NewWallet(): (w: Wallet)
    ensures w.gold == 0 && w.crystals == 0
    ensures |w.unlockedTests| == 0 && |w.transactions| == 0
  {
    Wallet(0, 0, [], [])
  }

  /** The test ids of the unlocked list, in unlock order. */
  function UnlockedIds(tests: seq<TestUnlock>): (ids: seq<TestId>)
    ensures |ids| == |tests|
    ensures forall i :: 0 <= i < |tests| ==> ids[i] == tests[i].testId
  {
    seq(|tests|, i requires 0 <= i < |tests| => tests[i].testId)
  }

  /** Some element of the unlocked list carries `id`. */
  predicate IsUnlocked(w: Wallet, id: TestId)
  {
    id in UnlockedIds(w.unlockedTests)
  }

  /** No value occurs twice. */
  predicate Distinct<T(==)>(s: seq<T>)
  {
    forall i, j :: 0 <= i < j < |s| ==> s[i] != s[j]
  }

  /** Balances are never negative and no test is unlocked twice. */
  predicate Valid(w: Wallet)
  {
    && w.gold >= 0
    && w.crystals >= 0
    && Distinct(UnlockedIds(w.unlockedTests))
  }

  /** Sum of the gold changes recorded in `entries`. */
  function GoldRecorded(entries: seq<LedgerEntry>): int
  {
    if entries == [] then 0
    else GoldRecorded(entries[..|entries| - 1]) + entries[|entries| - 1].goldChange
  }

  /** Sum of the crystal changes recorded in `entries`. */
  function CrystalsRecorded(entries: seq<LedgerEntry>): int
  {
    if entries == [] then 0
    else CrystalsRecorded(entries[..|entries| - 1]) + entries[|entries| - 1].crystalsChange
  }

  /** The test ids named by the unlock entries of `entries`, oldest first. */
  function UnlocksRecorded(entries: seq<LedgerEntry>): seq<TestId>
  {
    if entries == [] then []
    else
      var last := entries[|entries| - 1];
      UnlocksRecorded(entries[..|entries| - 1])
        + (if last.kind == UnlockTest && last.testId.Some? then [last.testId.value] else [])
  }

  /** The history accounts for the whole wallet: the balances are the sums of
      the recorded changes and the unlocked list is the list of recorded
      unlocks. */
  predicate Audited(w: Wallet)
  {
    && w.gold == GoldRecorded(w.transactions)
    && w.crystals == CrystalsRecorded(w.transactions)
    && UnlockedIds(w.unlockedTests) == UnlocksRecorded(w.transactions)
  }

  /** Appending one entry adds exactly its changes to the recorded totals. */
  lemma RecordedAppend(entries: seq<LedgerEntry>, e: LedgerEntry)
    ensures GoldRecorded(entries + [e]) == GoldRecorded(entries) + e.goldChange
    ensures CrystalsRecorded(entries + [e]) == CrystalsRecorded(entries) + e.crystalsChange
    ensures UnlocksRecorded(entries + [e])
         == UnlocksRecorded(entries) + (if e.kind == UnlockTest && e.testId.Some? then [e.testId.value] else [])
  {
    assert (entries + [e])[..|entries + [e]| - 1] == entries;
  }

  /** The registration wallet satisfies both invariants. */
  lemma NewWalletHealthy()
    ensures Valid(NewWallet()) && Audited(NewWallet())
  {
  }
}
