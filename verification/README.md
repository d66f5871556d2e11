# Wallet ledger of the quiz-app backend, in Dafny

This project models the wallet controllers of the backend
(`controllers/walletController.js`). Each controller reads one user's wallet,
decides whether the request is allowed, and either refuses it or produces a
new wallet:

- `addGold` credits gold earned from a practice quiz.
- `exchangeGoldForCrystals` converts gold to crystals at 100 gold per crystal.
- `unlockTest` spends 5 crystals to unlock a test. It is idempotent per test.
- `checkTestUnlocked` reads whether a test is unlocked.
- `getWalletData` reads the balances, the unlocked tests and the 10 newest
  transactions.
- `getTransactions` reads the whole history, sorted newest first.

A wallet is an immutable value (`WalletTypes.Wallet`). It holds the gold, the
crystals, the list of unlocked tests and the append-only transaction history,
with the shape of the user record in `models/User.js`. Each controller is a
pure function. It takes the result of looking the user up (`None` when there
is no such user), the request's arguments and the clock reading. It returns
`Err(InvalidInput | NotFound | InsufficientFunds(required))` or the wallet to
save plus the response.

Modules:

- `WalletTypes` (`wallet_types.dfy`): records, errors, responses, the constants
  100, 5 and 10, and the registration wallet. It also holds two invariants.
  `Valid` means balances are non-negative and no test is listed twice.
  `Audited` means the balances equal the sums of the recorded changes, and the
  unlocked list equals the list of recorded unlocks.
- `TimestampSort` (`timestamp_sort.dfy`): the stable newest-first sort of the
  history. It includes the proof that this sort is the only newest-first order
  that keeps tied entries in insertion order.
- `Ledger` (`ledger.dfy`): the six controllers.
- `LedgerProperties` (`ledger_properties.dfy`): preservation of the invariants,
  unlock idempotence, unlock-then-check, and the rate-exact exchange example.
- `WalletStore` (`wallet_store.dfy`): the users as a map from id to wallet. A
  request is served by lookup, controller and save. Registration adds a fresh
  wallet. Any sequence of registrations and requests, starting from no users,
  keeps every wallet valid and audited.

The check order follows the code. `addGold` and `exchangeGoldForCrystals`
validate the amount before the user lookup, so `InvalidInput` takes precedence
over `NotFound`. `unlockTest`, `checkTestUnlocked` and the two reads look the
user up first.

Three choices of the code are kept as written:

- The exchange rate 100 is a literal at `controllers/walletController.js:49-52`.
  The unlock cost 5 is a literal at line 81. Both are constants here.
- The unlocked tests are a list, not a set. The membership test at line 85
  keeps a test id from being added twice.
- The shortfall messages at lines 58 and 90 name only the required amount, so
  `InsufficientFunds` carries only that amount.

## Model

| member | source | states |
|---|---|---|
| WalletTypes.NewWalletHealthy | controllers/authController.js:88-97 | the wallet created at registration is valid and audited |
| WalletTypes.RecordedAppend | models/User.js:21-28 | pushing one history entry adds exactly that entry's gold and crystal changes to the recorded totals, and its test id when it is an unlock |
| Ledger.AddGold | controllers/walletController.js:23-39 | a missing, zero or negative amount is InvalidInput, even for an unknown user; an unknown user is NotFound; otherwise gold rises by exactly the amount, crystals and unlocks are untouched, and exactly one earn_gold entry recording the amount is appended |
| Ledger.ExchangeQuote | controllers/walletController.js:51-52 | for an amount of at least 100: at least one crystal is bought, the gold charged is 100 times the crystals, and it is the largest such multiple not above the amount (charged <= amount < charged + 100) |
| Ledger.ExchangeGoldForCrystals | controllers/walletController.js:46-71 | an amount that is missing or below 100 is InvalidInput before the lookup; an unknown user is NotFound; the request fails with InsufficientFunds(charged) exactly when gold is below the charged amount; otherwise gold drops by the charged amount and stays non-negative, crystals rise by the crystals bought, gold + 100 * crystals is preserved, and one exchange entry records -charged / +crystals |
| Ledger.MissingAmountPassesMinimum | controllers/walletController.js:48-49 | the minimum check as written lets a request without an amount through, while the intended check refuses it; the two agree on every amount that is present |
| Ledger.UnlockTestFor | controllers/walletController.js:78-103 | an unknown user is NotFound; an already unlocked test answers "already unlocked" with the wallet unchanged; otherwise the request fails with InsufficientFunds(5) exactly when crystals are below 5; an accepted unlock spends exactly 5 crystals (leaving them non-negative), leaves gold alone, appends exactly one element (the test id, stamped with the request's clock reading) to the unlocked list and leaves the earlier elements as they were, and appends one unlock_test entry of -5 crystals naming the test |
| Ledger.CheckTestUnlocked | controllers/walletController.js:110-117 | an unknown user is NotFound; otherwise it reports unlocked exactly when some element of the unlocked list has the test id, together with the current crystals and gold; a known user always gets this answer |
| Ledger.Reversed | controllers/walletController.js:9 | the reversal has the same length and lists the elements back to front |
| Ledger.RecentNewestFirst | controllers/walletController.js:9 | it shows min(10, history length) entries, and its i-th entry is the i-th newest stored one |
| Ledger.GetWalletData | controllers/walletController.js:4-16 | an unknown user is NotFound; otherwise it reports the balances, the unlocked ids and the 10 newest transactions, newest first; a known user always gets this answer |
| Ledger.GetTransactions | controllers/walletController.js:124-130 | an unknown user is NotFound; otherwise it returns the stored entries rearranged so that timestamps never increase, entries with equal timestamps keep their stored order, and no entry is lost or duplicated; a known user always gets this answer |
| TimestampSort.Insert | controllers/walletController.js:129 | inserting into a newest-first sequence keeps it newest first and adds exactly the one entry |
| TimestampSort.SortNewestFirst | controllers/walletController.js:129 | the sorted history is newest first and is a permutation of the stored history |
| TimestampSort.InsertStamped | controllers/walletController.js:129 | an inserted entry goes in front of the entries that share its timestamp, and the order among the other entries is unchanged |
| TimestampSort.SortIsStable | controllers/walletController.js:129 | for every timestamp, the sorted history lists the entries with that timestamp in the order in which they were stored |
| TimestampSort.StampedComplete | controllers/walletController.js:129 | every stored entry is among the entries of its own timestamp |
| TimestampSort.StampedSound | controllers/walletController.js:129 | the entries of a timestamp are stored entries that carry that timestamp |
| TimestampSort.StableOrderIsUnique | controllers/walletController.js:129 | two newest-first sequences that list the entries of each timestamp in the same order are equal |
| TimestampSort.SortIsTheStableOrder | controllers/walletController.js:129 | a sequence is newest first and keeps ties in stored order exactly when it is the returned history |
| LedgerProperties.DistinctAppend | controllers/walletController.js:85-94 | appending a test id that is not yet listed keeps the unlocked list duplicate-free |
| LedgerProperties.AddGoldKeepsHealth | controllers/walletController.js:31-36 | an accepted addGold keeps the wallet valid and audited and strictly raises its gold |
| LedgerProperties.ExchangeKeepsHealth | controllers/walletController.js:57-68 | an accepted exchange keeps the wallet valid and audited |
| LedgerProperties.UnlockKeepsHealth | controllers/walletController.js:89-100 | an accepted unlock keeps the wallet valid and audited: crystals non-negative, no test listed twice, and the history records the unlock |
| LedgerProperties.UnlockIsIdempotent | controllers/walletController.js:85-87 | after an accepted unlock, unlocking the same test again answers "already unlocked" and changes nothing, and the first call charged 5 crystals only if the test was new |
| LedgerProperties.UnlockThenCheck | controllers/walletController.js:116-117 | after an accepted unlock, the status check reports the test unlocked with the balances the unlock left |
| LedgerProperties.ExchangeOf250 | controllers/walletController.js:49-62 | exchanging 250 gold with at least 250 in the wallet buys 2 crystals for 200 gold, and the other 50 gold stay |
| WalletStore.Serve | routes/walletRoutes.js:40-45 | each route runs its controller on the caller's looked-up wallet: the three reads answer with getWalletData, checkTestUnlocked or getTransactions and change nothing; addGold, exchange and unlock save the wallet an accepted request produced under the caller's id (walletController.js:38, 70, 102) and send its response, while a refused one saves nothing; no user is added or removed, users other than the caller are untouched, and an unknown caller gets NotFound or InvalidInput |
| WalletStore.Enroll | controllers/authController.js:85-98 | signing in a new user adds a fresh zero wallet; an existing user keeps their wallet; nobody else changes |
| WalletStore.ServeKeepsHealth | controllers/walletController.js:23-135 | serving any wallet request keeps every stored wallet valid and audited |
| WalletStore.StepKeepsHealth | controllers/authController.js:19-27 | a registration or a served request keeps every stored wallet valid and audited |
| WalletStore.ReplayKeepsHealth | controllers/walletController.js:23-108 | any sequence of registrations and requests keeps every stored wallet valid and audited |
| WalletStore.ReachableBalancesNonNegative | controllers/walletController.js:57-61 | starting from no users, every wallet reachable by registrations and requests has non-negative gold and crystals |
| WalletStore.DoubleUnlockChargesOnce | controllers/walletController.js:85-93 | two unlock requests for the same test: the second is answered "already unlocked" with nothing saved, and the two together charge 5 crystals if the test was new and nothing otherwise |

## Left out

- Authentication, password hashing, token signing and checking, Google
  sign-in, Express routing and server start-up are left out. They are thin
  wrappers over libraries (`controllers/authController.js`,
  `middleware/authMiddleware.js`, `routes/*.js`, `server.js`). The model
  keeps only two things from them. Registration creates a zero wallet. Each
  wallet route is a call of one controller for an authenticated user id.
- The controllers read the user id from `req.user.id`, while the middleware
  sets `req.userId`. This is request plumbing. The model is given the user id
  directly.
- Database persistence (`findById`, `save`) becomes a map lookup and a map
  update. Atomicity of concurrent writes to the same user is behaviour of the
  store, not of this code, and is not modelled.
- JavaScript number coercion is not modelled. That covers string or fractional
  amounts and NaN arithmetic. Amounts and balances are integers. A missing
  amount is `None`. The stored `gold` and `crystals` always exist (the schema
  defaults them to 0), so the `|| 0` fallbacks have nothing to do.
- Ledger.AddGold, Ledger.ExchangeGoldForCrystals: amounts and balances are exact unbounded
  integers here. The program stores them as JavaScript doubles. Those round
  above 2^53 and can reach Infinity (an amount of `1e309` passes the check at
  line 26 and makes the gold Infinity). So the exact gold change, the preserved
  `gold + 100 * crystals` and the audit sums hold for the program only while
  every value stays a safe integer.
- A missing `testId` in an unlock request is not modelled. The test id is
  always a string.
- Ledger entries have no description strings. A change a controller does not
  set is 0: crystals on `earn_gold`, gold on `unlock_test`.
- Timestamps come from a `now` parameter instead of `Date.now`. The same
  reading stamps both the unlocked-test element and the history entry of one
  request.
- Messages, `success` flags and HTTP status codes are left out. So is the
  catch-all server error (500), which only arises from store or runtime
  faults.
- `getTransactions` sorts the loaded array in place but never saves it. It is
  modelled as a read that returns the sorted copy.
- `Serve` stores the wallet again on the already-unlocked path, where the code
  does not save. The stored wallet is the same value, so the users are
  unchanged either way.

## Findings

| source | as written | input that shows it | evidently intended | confidence | as-written member | corrected member |
|---|---|---|---|---|---|---|
| controllers/walletController.js:48-49 | the minimum check `goldAmount < 100` refuses only an amount that is present and too small; `undefined < 100` is false, so a body without `goldAmount` gets past the check and reaches the exchange arithmetic with no amount; for a known user the balances become NaN, the save refuses them, and the caller gets a server error instead of an invalid-input answer | request body `{}` to the exchange route | a missing amount is refused as invalid input, as `addGold` does at line 26 | medium, not executed | Ledger.MissingAmountPassesMinimum | Ledger.ExchangeGoldForCrystals |
