/**
 The user records as a map from user id to wallet, and the wallet routes as
 one function that serves a request of one authenticated user: look the user
 up, run the controller, and save the wallet it produced. Registration adds a
 fresh wallet.
 */
module WalletStore {
  import opened WalletTypes
  import opened Ledger
  import opened LedgerProperties

  type UserId = string

  type Users = map<UserId, Wallet>

  /** The wallet routes, with the arguments each one reads from the request. */
  datatype Request =
    | ViewWallet
    | AddGoldRequest(amount: Option<int>)
    | ExchangeRequest(goldAmount: Option<int>)
    | UnlockRequest(testId: TestId)
    | StatusRequest(testId: TestId)
    | HistoryRequest

  /** The routes whose controller saves the user record. */
  predicate Mutates(req: Request)
  {
    req.AddGoldRequest? || req.ExchangeRequest? || req.UnlockRequest?
  }

  /** The lookup by id: `None` when no user has that id. */
  function Lookup(users: Users, uid: UserId): (found: Option<Wallet>)
    ensures found.Some? <==> uid in users
    ensures found.Some? ==> found.value == users[uid]
  {
    if uid in users then Some(users[uid]) else None
  }

  /** Serves `req` for user `uid` at clock reading `now`, returning the users
      after the request and what the caller is sent. */
  function Serve(users: Users, uid: UserId, req: Request, now: nat): (s: (Users, Result<Response>))
    ensures s.1.Err? ==> s.0 == users
    ensures !Mutates(req) ==> s.0 == users
    ensures s.0.Keys == users.Keys
    ensures forall u :: u in users && u != uid ==> s.0[u] == users[u]
    ensures uid !in users ==> s.1.Err? && s.1.error in {NotFound, InvalidInput}
    ensures req.ViewWallet? ==> s.1 == GetWalletData(Lookup(users, uid))
    ensures req.StatusRequest? ==> s.1 == CheckTestUnlocked(Lookup(users, uid), req.testId)
    ensures req.HistoryRequest? ==> s.1 == GetTransactions(Lookup(users, uid))
    ensures req.AddGoldRequest? ==> s == Save(users, uid, AddGold(Lookup(users, uid), req.amount, now))
    ensures req.ExchangeRequest? ==>
      s == Save(users, uid, ExchangeGoldForCrystals(Lookup(users, uid), req.goldAmount, now))
    ensures req.UnlockRequest? ==> s == Save(users, uid, UnlockTestFor(Lookup(users, uid), req.testId, now))
  {
    var user := Lookup(users, uid);
    match req
    case ViewWallet => (users, GetWalletData(user))
    case StatusRequest(testId) => (users, CheckTestUnlocked(user, testId))
    case HistoryRequest => (users, GetTransactions(user))
    case AddGoldRequest(amount) => Save(users, uid, AddGold(user, amount, now))
    case ExchangeRequest(goldAmount) => Save(users, uid, ExchangeGoldForCrystals(user, goldAmount, now))
    case UnlockRequest(testId) => Save(users, uid, UnlockTestFor(user, testId, now))
  }

  /** Saves the wallet of an accepted mutation under `uid`; a rejected one
      saves nothing. */
  function Save(users: Users, uid: UserId, r: Result<Outcome>): (s: (Users, Result<Response>))
    requires r.Ok? ==> uid in users
    ensures r.Err? ==> s == (users, Err(r.error))
    ensures r.Ok? ==> s.1 == Ok(r.value.response) && s.0 == users[uid := r.value.wallet]
  {
    match r
    case Ok(Outcome(w, response)) => (users[uid := w], Ok(response))
    case Err(e) => (users, Err(e))
  }

  /** A registration (a new account, or a first federated sign-in) creates a
      wallet with zero balances and empty lists; an existing user keeps
      theirs. */
  function Enroll(users: Users, uid: UserId): (users': Users)
    ensures users'.Keys == users.Keys + {uid}
    ensures uid in users ==> users' == users
    ensures uid !in users ==> users'[uid] == NewWallet()
    ensures forall u :: u in users ==> users'[u] == users[u]
  {
    if uid in users then users else users[uid := NewWallet()]
  }

  /** Every stored wallet is healthy. */
  predicate AllHealthy(users: Users)
  {
    forall u :: u in users ==> Healthy(users[u])
  }

  /** Serving any request keeps every stored wallet healthy. */
  lemma ServeKeepsHealth(users: Users, uid: UserId, req: Request, now: nat)
    requires AllHealthy(users)
    ensures AllHealthy(Serve(users, uid, req, now).0)
  {
    if uid in users {
      var w := users[uid];
      match req
      case AddGoldRequest(amount) => AddGoldKeepsHealth(w, amount, now);
      case ExchangeRequest(goldAmount) => ExchangeKeepsHealth(w, goldAmount, now);
      case UnlockRequest(testId) => UnlockKeepsHealth(w, testId, now);
      case _ =>
    }
  }

  /** One event the user records see: a registration or a served request. */
  datatype Event =
    | Register(uid: UserId)
    | Call(uid: UserId, req: Request, now: nat)

  /** The users after one event. */
  function Step(users: Users, e: Event): Users
  {
    match e
    case Register(uid) => Enroll(users, uid)
    case Call(uid, req, now) => Serve(users, uid, req, now).0
  }

  /** Every event keeps every stored wallet healthy. */
  lemma StepKeepsHealth(users: Users, e: Event)
    requires AllHealthy(users)
    ensures AllHealthy(Step(users, e))
  {
    match e
    case Register(uid) => NewWalletHealthy();
    case Call(uid, req, now) => ServeKeepsHealth(users, uid, req, now);
  }

  /** The users after `events`, in order, starting from `users`. */
  function Replay(users: Users, events: seq<Event>): Users
    decreases |events|
  {
    if events == [] then users
    else Replay(Step(users, events[0]), events[1..])
  }

  /** Whatever registrations and requests happen, every wallet keeps
      non-negative balances, a duplicate-free unlocked list, and a history
      that accounts for its balances and unlocks. */
  lemma {:induction false} ReplayKeepsHealth(users: Users, events: seq<Event>)
    requires AllHealthy(users)
    ensures AllHealthy(Replay(users, events))
    decreases |events|
  {
    if events != [] {
      StepKeepsHealth(users, events[0]);
      ReplayKeepsHealth(Step(users, events[0]), events[1..]);
    }
  }

  /** The property for the system as a whole: from an empty set of users,
      every reachable wallet has non-negative gold and crystals. */
  lemma ReachableBalancesNonNegative(events: seq<Event>, u: UserId)
    requires u in Replay(map[], events)
    ensures Replay(map[], events)[u].gold >= 0
    ensures Replay(map[], events)[u].crystals >= 0
  {
    ReplayKeepsHealth(map[], events);
  }

  /** Two unlock requests for the same test charge the user at most once, and
      the second one is answered "already unlocked" with nothing saved. */
  lemma DoubleUnlockChargesOnce(users: Users, uid: UserId, testId: TestId, now1: nat, now2: nat)
    requires uid in users
    requires Serve(users, uid, UnlockRequest(testId), now1).1.Ok?
    ensures var after1 := Serve(users, uid, UnlockRequest(testId), now1).0;
      var second := Serve(after1, uid, UnlockRequest(testId), now2);
      && second == (after1, Ok(AlreadyUnlocked))
      && users[uid].crystals - after1[uid].crystals
         == if IsUnlocked(users[uid], testId) then 0 else UnlockCost
  {
    var w := users[uid];
    UnlockIsIdempotent(w, testId, now1, now2);
    var w1 := UnlockTestFor(Some(w), testId, now1).value.wallet;
    var after1 := Serve(users, uid, UnlockRequest(testId), now1).0;
    assert after1 == users[uid := w1];
    assert after1[uid := w1] == after1;
  }
}
