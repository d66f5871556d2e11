/**
 The six wallet controllers as pure functions. Each one receives the result of
 looking the caller's user record up (`None` when there is no such user) and
 the request's arguments, and either fails or yields the wallet to save
 together with the response to send. The read-only controllers yield only a
 response. `now` is the clock reading used for new timestamps.
 */
module Ledger {
  import opened WalletTypes
  import opened TimestampSort

  /** The request carried an amount the controller accepts: present and
      positive. */
  predicate ValidAmount(amount: Option<int>)
  {
    amount.Some? && amount.value > 0
  }

  /** The history entry an accepted `addGold` request appends. */
  function EarnEntry(amount: int, now: nat): LedgerEntry
  {
    LedgerEntry(EarnGold, amount, 0, None, now)
  }

  /** Credits `amount` gold earned from a practice quiz. The amount is
      checked before the user is looked up. */
  function AddGold(user: Option<Wallet>, amount: Option<int>, now: nat): (r: Result<Outcome>)
    ensures !ValidAmount(amount) ==> r == Err(InvalidInput)
    ensures ValidAmount(amount) && user.None? ==> r == Err(NotFound)
    ensures r.Ok? <==> ValidAmount(amount) && user.Some?
    ensures r.Ok? ==>
      var w, w' := user.value, r.value.wallet;
      && w'.gold - w.gold == amount.value
      && w'.crystals == w.crystals
      && w'.unlockedTests == w.unlockedTests
      && w'.transactions == w.transactions + [EarnEntry(amount.value, now)]
      && r.value.response == Balances(w'.gold, w'.crystals)
  {
    if amount.None? || amount.value <= 0 then Err(InvalidInput)
    else if user.None? then Err(NotFound)
    else
      var w := user.value;
      var w' := w.(gold := w.gold + amount.value,
                   transactions := w.transactions + [EarnEntry(amount.value, now)]);
      Ok(Outcome(w', Balances(w'.gold, w'.crystals)))
  }

  /** What an exchange of `goldAmount` gold buys: the whole number of
      crystals that amount pays for, and the gold those crystals cost. Any
      remainder below one crystal's price is not charged. */
  function ExchangeQuote(goldAmount: int): (q: (int, int))
    requires goldAmount >= ExchangeRate
    ensures var (crystalsToAdd, goldToDeduct) := q;
      && crystalsToAdd >= 1
      && goldToDeduct == ExchangeRate * crystalsToAdd
      && goldToDeduct <= goldAmount < goldToDeduct + ExchangeRate
  {
    var crystalsToAdd := goldAmount / ExchangeRate;
    (crystalsToAdd, crystalsToAdd * ExchangeRate)
  }

  /** The history entry an accepted exchange appends. */
  function ExchangeEntry(goldToDeduct: int, crystalsToAdd: int, now: nat): LedgerEntry
  {
    LedgerEntry(Exchange, -goldToDeduct, crystalsToAdd, None, now)
  }

  /** The minimum check of the exchange as the controller writes it: only an
      amount that is present and below the rate is refused, so a request
      without an amount gets past it. */
  predicate PassesMinimumAsWritten(goldAmount: Option<int>)
  {
    !(goldAmount.Some? && goldAmount.value < ExchangeRate)
  }

  /** The minimum check as intended: the amount is present and pays for at
      least one crystal. */
  predicate MeetsMinimum(goldAmount: Option<int>)
  {
    goldAmount.Some? && goldAmount.value >= ExchangeRate
  }

  /** Converts gold into crystals at the fixed rate. The minimum is checked
      before the user is looked up; the balance after. */
  function ExchangeGoldForCrystals(user: Option<Wallet>, goldAmount: Option<int>, now: nat): (r: Result<Outcome>)
    ensures !MeetsMinimum(goldAmount) ==> r == Err(InvalidInput)
    ensures MeetsMinimum(goldAmount) && user.None? ==> r == Err(NotFound)
    ensures MeetsMinimum(goldAmount) && user.Some? ==>
      var (crystalsToAdd, goldToDeduct) := ExchangeQuote(goldAmount.value);
      var w := user.value;
      && (w.gold < goldToDeduct <==> r == Err(InsufficientFunds(goldToDeduct)))
      && (w.gold >= goldToDeduct <==> r.Ok?)
      && (r.Ok? ==>
            var w' := r.value.wallet;
            && w'.gold == w.gold - goldToDeduct >= 0
            && w'.crystals == w.crystals + crystalsToAdd
            && w'.gold + ExchangeRate * w'.crystals == w.gold + ExchangeRate * w.crystals
            && w'.unlockedTests == w.unlockedTests
            && w'.transactions == w.transactions + [ExchangeEntry(goldToDeduct, crystalsToAdd, now)]
            && r.value.response == Balances(w'.gold, w'.crystals))
  {
    if goldAmount.None? || goldAmount.value < ExchangeRate then Err(InvalidInput)
    else
      var (crystalsToAdd, goldToDeduct) := ExchangeQuote(goldAmount.value);
      if user.None? then Err(NotFound)
      else
        var w := user.value;
        if w.gold < goldToDeduct then Err(InsufficientFunds(goldToDeduct))
        else
          var w' := w.(gold := w.gold - goldToDeduct,
                       crystals := w.crystals + crystalsToAdd,
                       transactions := w.transactions + [ExchangeEntry(goldToDeduct, crystalsToAdd, now)]);
          Ok(Outcome(w', Balances(w'.gold, w'.crystals)))
  }

  /** A request without an amount gets past the minimum check as written,
      although the same check is meant to refuse it; the controller above
      refuses it. On every present amount the two checks agree. */
  lemma MissingAmountPassesMinimum(w: Wallet, now: nat)
    ensures PassesMinimumAsWritten(None) && !MeetsMinimum(None)
    ensures ExchangeGoldForCrystals(Some(w), None, now) == Err(InvalidInput)
    ensures forall g: int :: PassesMinimumAsWritten(Some(g)) <==> MeetsMinimum(Some(g))
  {
  }

  /** The history entry an accepted unlock appends. */
  function UnlockEntry(testId: TestId, now: nat): LedgerEntry
  {
    LedgerEntry(UnlockTest, 0, -UnlockCost, Some(testId), now)
  }

  /** Buys access to one test for a fixed number of crystals. A test that is
      already unlocked is reported as such, free of charge. */
  function UnlockTestFor(user: Option<Wallet>, testId: TestId, now: nat): (r: Result<Outcome>)
    ensures user.None? <==> r == Err(NotFound)
    ensures user.Some? && IsUnlocked(user.value, testId) ==>
      r == Ok(Outcome(user.value, AlreadyUnlocked))
    ensures user.Some? && !IsUnlocked(user.value, testId) ==>
      var w := user.value;
      && (w.crystals < UnlockCost <==> r == Err(InsufficientFunds(UnlockCost)))
      && (w.crystals >= UnlockCost <==> r.Ok?)
      && (r.Ok? ==>
            var w' := r.value.wallet;
            && w'.crystals == w.crystals - UnlockCost >= 0
            && w'.gold == w.gold
            && w'.unlockedTests == w.unlockedTests + [TestUnlock(testId, now)]
            && UnlockedIds(w'.unlockedTests) == UnlockedIds(w.unlockedTests) + [testId]
            && IsUnlocked(w', testId)
            && w'.transactions == w.transactions + [UnlockEntry(testId, now)]
            && r.value.response == NewlyUnlocked(w'.crystals, UnlockedIds(w'.unlockedTests)))
  {
    if user.None? then Err(NotFound)
    else
      var w := user.value;
      if IsUnlocked(w, testId) then Ok(Outcome(w, AlreadyUnlocked))
      else if w.crystals < UnlockCost then Err(InsufficientFunds(UnlockCost))
      else
        var w' := w.(crystals := w.crystals - UnlockCost,
                     unlockedTests := w.unlockedTests + [TestUnlock(testId, now)],
                     transactions := w.transactions + [UnlockEntry(testId, now)]);
        assert UnlockedIds(w'.unlockedTests) == UnlockedIds(w.unlockedTests) + [testId];
        Ok(Outcome(w', NewlyUnlocked(w'.crystals, UnlockedIds(w'.unlockedTests))))
  }

  /** Reports whether the test is unlocked, with the current balances. */
  function CheckTestUnlocked(user: Option<Wallet>, testId: TestId): (r: Result<Response>)
    ensures user.None? <==> r == Err(NotFound)
    ensures user.Some? ==> r.Ok?
    ensures r.Ok? ==>
      && r.value.UnlockStatus?
      && (r.value.unlocked <==> exists i :: 0 <= i < |user.value.unlockedTests|
                                             && user.value.unlockedTests[i].testId == testId)
      && r.value.crystals == user.value.crystals
      && r.value.gold == user.value.gold
  {
    if user.None? then Err(NotFound)
    else
      var w := user.value;
      Ok(UnlockStatus(IsUnlocked(w, testId), w.crystals, w.gold))
  }

  /** `s` read back to front. */
  function Reversed<T>(s: seq<T>): (r: seq<T>)
    ensures |r| == |s|
    ensures forall i :: 0 <= i < |s| ==> r[i] == s[|s| - 1 - i]
  {
    if s == [] then []
    else [s[|s| - 1]] + Reversed(s[..|s| - 1])
  }

  /** The newest `RecentLimit` entries of the history, newest first. */
  function RecentNewestFirst(entries: seq<LedgerEntry>): (r: seq<LedgerEntry>)
    ensures |r| == if |entries| < RecentLimit then |entries| else RecentLimit
    ensures forall i :: 0 <= i < |r| ==> r[i] == entries[|entries| - 1 - i]
  {
    var n := if |entries| < RecentLimit then |entries| else RecentLimit;
    Reversed(entries[|entries| - n..])
  }

  /** The wallet overview: balances, unlocked test ids and the most recent
      transactions. */
  function GetWalletData(user: Option<Wallet>): (r: Result<Response>)
    ensures user.None? <==> r == Err(NotFound)
    ensures user.Some? ==> r.Ok?
    ensures r.Ok? ==>
      && r.value.WalletView?
      && r.value.gold == user.value.gold
      && r.value.crystals == user.value.crystals
      && r.value.unlockedTests == UnlockedIds(user.value.unlockedTests)
      && r.value.transactions == RecentNewestFirst(user.value.transactions)
  {
    if user.None? then Err(NotFound)
    else
      var w := user.value;
      Ok(WalletView(w.gold, w.crystals, UnlockedIds(w.unlockedTests), RecentNewestFirst(w.transactions)))
  }

  /** The full history, newest first, ties in insertion order. */
  function GetTransactions(user: Option<Wallet>): (r: Result<Response>)
    ensures user.None? <==> r == Err(NotFound)
    ensures user.Some? ==> r.Ok?
    ensures r.Ok? ==>
      && r.value.History?
      && NewestFirst(r.value.transactions)
      && multiset(r.value.transactions) == multiset(user.value.transactions)
      && StablyRearranged(r.value.transactions, user.value.transactions)
  {
    if user.None? then Err(NotFound)
    else
      SortIsStable(user.value.transactions);
      Ok(History(SortNewestFirst(user.value.transactions)))
  }
}
