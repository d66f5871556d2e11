/**
 Properties of the wallet controllers that relate several calls, or a call
 and the wallet invariants: every accepted mutation keeps a valid, audited
 wallet valid and audited; unlocking is idempotent; an unlock is visible to
 the status check; the exchange is rate-exact.
 */
module LedgerProperties {
  import opened WalletTypes
  import opened Ledger

  /** A wallet that keeps both invariants. */
  predicate Healthy(w: Wallet)
  {
    Valid(w) && Audited(w)
  }

  /** Adding a test id that is not yet listed keeps the list duplicate-free. */
  lemma DistinctAppend(ids: seq<TestId>, id: TestId)
    requires Distinct(ids) && id !in ids
    ensures Distinct(ids + [id])
  {
    var s := ids + [id];
    forall i, j | 0 <= i < j < |s|
      ensures s[i] != s[j]
    {
      if j == |ids| {
        assert s[i] == ids[i];
      }
    }
  }

  /** An accepted `addGold` keeps the wallet healthy and strictly raises its
      gold. */
  lemma AddGoldKeepsHealth(w: Wallet, amount: Option<int>, now: nat)
    requires Healthy(w)
    ensures AddGold(Some(w), amount, now).Ok? ==>
      && Healthy(AddGold(Some(w), amount, now).value.wallet)
      && AddGold(Some(w), amount, now).value.wallet.gold > w.gold
  {
    if ValidAmount(amount) {
      RecordedAppend(w.transactions, EarnEntry(amount.value, now));
    }
  }

  /** An accepted exchange keeps the wallet healthy. */
  lemma ExchangeKeepsHealth(w: Wallet, goldAmount: Option<int>, now: nat)
    requires Healthy(w)
    ensures ExchangeGoldForCrystals(Some(w), goldAmount, now).Ok? ==>
      Healthy(ExchangeGoldForCrystals(Some(w), goldAmount, now).value.wallet)
  {
    if MeetsMinimum(goldAmount) {
      var (c, d) := ExchangeQuote(goldAmount.value);
      RecordedAppend(w.transactions, ExchangeEntry(d, c, now));
    }
  }

  /** An accepted unlock keeps the wallet healthy: crystals stay
      non-negative, no test is listed twice, and the history records the
      unlock. */
  lemma UnlockKeepsHealth(w: Wallet, testId: TestId, now: nat)
    requires Healthy(w)
    ensures UnlockTestFor(Some(w), testId, now).Ok? ==>
      Healthy(UnlockTestFor(Some(w), testId, now).value.wallet)
  {
    if !IsUnlocked(w, testId) && w.crystals >= UnlockCost {
      DistinctAppend(UnlockedIds(w.unlockedTests), testId);
      RecordedAppend(w.transactions, UnlockEntry(testId, now));
    }
  }

  /** Unlocking the same test a second time is answered "already unlocked"
      and leaves the wallet of the first call as it is, so two calls charge
      at most one unlock price between them. */
  lemma UnlockIsIdempotent(w: Wallet, testId: TestId, now1: nat, now2: nat)
    requires UnlockTestFor(Some(w), testId, now1).Ok?
    ensures var w1 := UnlockTestFor(Some(w), testId, now1).value.wallet;
      && UnlockTestFor(Some(w1), testId, now2) == Ok(Outcome(w1, AlreadyUnlocked))
      && w1.crystals == if IsUnlocked(w, testId) then w.crystals else w.crystals - UnlockCost
  {
  }

  /** After an accepted unlock the status check reports the test unlocked
      and shows the balances the unlock left. */
  lemma UnlockThenCheck(w: Wallet, testId: TestId, now: nat)
    requires UnlockTestFor(Some(w), testId, now).Ok?
    ensures var w1 := UnlockTestFor(Some(w), testId, now).value.wallet;
      CheckTestUnlocked(Some(w1), testId) == Ok(UnlockStatus(true, w1.crystals, w1.gold))
  {
  }

  /** Exchanging 250 gold buys 2 crystals for 200 gold; the other 50 gold
      stay in the wallet. */
  lemma ExchangeOf250(w: Wallet, now: nat)
    requires w.gold >= 250
    ensures var r := ExchangeGoldForCrystals(Some(w), Some(250), now);
      && r.Ok?
      && r.value.wallet.gold == w.gold - 200
      && r.value.wallet.crystals == w.crystals + 2
  {
    assert ExchangeQuote(250) == (2, 200);
  }
}
