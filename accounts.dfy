/** The relational store behind the wallet, agency, admin and auth code:
    users, agencies, wallets, payment orders, the transaction ledger, gifts,
    withdrawals, one-time codes and refresh tokens, with the consistency the
    database keeps between them (foreign keys, unique keys) and the counters
    the services maintain by hand. */
module Accounts {
  import opened Common

  type UserId = string
  type AgencyId = string

  /** An error the HTTP layer answers with `status` and `{ error: message }`. */
  datatype AppError = AppError(status: int, message: string)

  const RoleUser := "USER"
  const RoleHost := "HOST"
  const RoleAdmin := "ADMIN"
  const StatusActive := "ACTIVE"
  const StatusSuspended := "SUSPENDED"
  const StatusBanned := "BANNED"

  const Purchase := "PURCHASE"
  const GiftSent := "GIFT_SENT"
  const GiftReceived := "GIFT_RECEIVED"
  const Completed := "COMPLETED"

  /** The database's message when a row repeats a unique idempotency key. */
  const UniqueKeyViolation := "Unique constraint failed on the fields: (`idempotencyKey`)"
  /** The database's message when a row names a user that does not exist. */
  const UnknownUserViolation := "Foreign key constraint failed on the field: `userId`"
  /** The database's message when an update finds no row. */
  const MissingRecord := "Record to update not found."

  datatype User = User(
    id: UserId,
    email: Option<string>,
    phoneNumber: Option<string>,
    username: string,
    displayName: string,
    dateOfBirth: Date,
    role: string,
    status: string,
    isHost: bool,
    agencyId: Option<AgencyId>,
    diamonds: int,
    totalGiftsSent: nat,
    totalGiftsReceived: nat,
    emailVerified: bool,
    phoneVerified: bool,
    lastLoginAt: Option<nat>)

  /** commissionRate is a whole percentage. */
  datatype Agency = Agency(
    id: AgencyId,
    name: string,
    code: string,
    isActive: bool,
    commissionRate: nat,
    totalHosts: int,
    totalEarnings: int)

  datatype WalletRow = WalletRow(availableBalance: int, totalEarned: int)

  datatype OrderStatus = Created | Success | Failed

  /** The payment providers an order can be placed with. */
  const ProviderMock := "MOCK"
  const ProviderRazorpay := "RAZORPAY"

  datatype PaymentOrder = PaymentOrder(
    id: string,
    userId: UserId,
    status: OrderStatus,
    provider: string,
    amount: nat,
    diamonds: nat,
    providerOrderId: Option<string>,
    idempotencyKey: Option<string>,
    providerPaymentId: Option<string>,
    failureReason: Option<string>,
    createdAt: nat)

  /** A ledger row; orderId is the payment order a purchase credits. */
  datatype Transaction = Transaction(
    userId: UserId,
    kind: string,
    status: string,
    amount: int,
    currency: string,
    idempotencyKey: Option<string>,
    orderId: Option<string>,
    createdAt: nat)

  datatype Gift = Gift(
    giverId: UserId,
    receiverId: UserId,
    callId: Option<string>,
    giftType: string,
    diamondValue: int,
    message: Option<string>,
    createdAt: nat)

  datatype Withdrawal = Withdrawal(userId: UserId, diamonds: int, status: string, createdAt: nat)

  /** A stored one-time code: `code` holds its hash. */
  datatype OtpCode = OtpCode(
    email: Option<string>,
    phoneNumber: Option<string>,
    code: string,
    kind: string,
    expiresAt: nat,
    attempts: nat,
    verified: bool,
    createdAt: nat)

  datatype RefreshTokenRow = RefreshTokenRow(userId: UserId, tokenHash: string, expiresAt: nat)

  /** Every table at one moment. */
  datatype Tables = Tables(
    users: map<UserId, User>,
    agencies: map<AgencyId, Agency>,
    wallets: map<UserId, WalletRow>,
    orders: seq<PaymentOrder>,
    transactions: seq<Transaction>,
    gifts: seq<Gift>,
    withdrawals: seq<Withdrawal>,
    otps: seq<OtpCode>,
    refreshTokens: seq<RefreshTokenRow>)

  // ---------------------------------------------------------------------
  // Consistency of the tables

  /** Users are stored under their id, and every wallet belongs to a
      stored user. A user need not have a wallet: signup creates one, but a
      user created elsewhere (a seed script, an admin tool) may lack it. */
  ghost predicate UsersKeyed(users: map<UserId, User>, wallets: map<UserId, WalletRow>) {
    && (forall u :: u in users ==> users[u].id == u)
    && (forall u :: u in wallets ==> u in users)
  }

  /** The users whose agencyId names agency `a`. */
  function HostsOf(users: map<UserId, User>, a: AgencyId): (hosts: set<UserId>)
    ensures forall u :: u in hosts <==> u in users && users[u].agencyId == Some(a)
  {
    set u | u in users && users[u].agencyId == Some(a)
  }

  /** Agencies are stored under their non-empty id, codes are unique, and
      every membership a user holds names a stored agency. */
  ghost predicate AgenciesKeyed(users: map<UserId, User>, agencies: map<AgencyId, Agency>) {
    && "" !in agencies
    && (forall a :: a in agencies ==> agencies[a].id == a)
    && (forall a, b :: a in agencies && b in agencies && agencies[a].code == agencies[b].code ==> a == b)
    && (forall u :: u in users && Truthy(users[u].agencyId) ==> users[u].agencyId.value in agencies)
  }

  /** The counter every join and leave maintains: an agency's totalHosts is
      the number of users that belong to it. */
  ghost predicate HostsCounted(users: map<UserId, User>, agencies: map<AgencyId, Agency>) {
    forall a :: a in agencies ==> agencies[a].totalHosts == |HostsOf(users, a)|
  }

  /** Order ids are unique, every order's user exists, and a stored
      idempotency key appears on one order only. */
  ghost predicate OrdersKeyed(orders: seq<PaymentOrder>, users: map<UserId, User>) {
    && (forall i, j :: 0 <= i < j < |orders| ==> orders[i].id != orders[j].id)
    && (forall i :: 0 <= i < |orders| ==> orders[i].userId in users)
    && (forall i, j :: 0 <= i < j < |orders| && orders[i].idempotencyKey.Some? ==>
          orders[i].idempotencyKey != orders[j].idempotencyKey)
  }

  /** A stored idempotency key appears on one ledger row only. */
  ghost predicate LedgerKeyed(txns: seq<Transaction>) {
    forall i, j :: 0 <= i < j < |txns| && txns[i].idempotencyKey.Some? ==>
      txns[i].idempotencyKey != txns[j].idempotencyKey
  }

  /** Whether a ledger row is the purchase crediting order `orderId`. */
  predicate Credits(t: Transaction, orderId: string) {
    t.kind == Purchase && t.orderId == Some(orderId)
  }

  /** The number of ledger rows crediting order `orderId`. */
  function Purchases(txns: seq<Transaction>, orderId: string): (n: nat)
    ensures n <= |txns|
  {
    if txns == [] then 0
    else Purchases(txns[..|txns| - 1], orderId) + (if Credits(txns[|txns| - 1], orderId) then 1 else 0)
  }

  /** Each successful order has been credited exactly once, every other
      order not at all. */
  ghost predicate PurchasesCredited(orders: seq<PaymentOrder>, txns: seq<Transaction>) {
    forall i :: 0 <= i < |orders| ==>
      Purchases(txns, orders[i].id) == if orders[i].status == Success then 1 else 0
  }

  /** Every purchase row names a stored order. */
  ghost predicate CreditsKnownOrders(orders: seq<PaymentOrder>, txns: seq<Transaction>) {
    forall k :: 0 <= k < |txns| && txns[k].kind == Purchase ==>
      txns[k].orderId.Some? && OrderIndex(orders, txns[k].orderId.value).Some?
  }

  ghost predicate Consistent(t: Tables) {
    && UsersKeyed(t.users, t.wallets)
    && AgenciesKeyed(t.users, t.agencies)
    && HostsCounted(t.users, t.agencies)
    && OrdersKeyed(t.orders, t.users)
    && LedgerKeyed(t.transactions)
    && PurchasesCredited(t.orders, t.transactions)
    && CreditsKnownOrders(t.orders, t.transactions)
  }

  // ---------------------------------------------------------------------
  // Lookups

  /** findUnique on the order id. */
  function OrderIndex(orders: seq<PaymentOrder>, id: string): (r: Option<nat>)
    ensures r.Some? ==> r.value < |orders| && orders[r.value].id == id
    ensures r.None? ==> forall k :: 0 <= k < |orders| ==> orders[k].id != id
  {
    FirstIndex(orders, (o: PaymentOrder) => o.id == id)
  }

  /** findUnique on the order's idempotency key. */
  function KeyedOrder(orders: seq<PaymentOrder>, key: string): (r: Option<nat>)
    ensures r.Some? ==> r.value < |orders| && orders[r.value].idempotencyKey == Some(key)
    ensures r.None? ==> forall k :: 0 <= k < |orders| ==> orders[k].idempotencyKey != Some(key)
  {
    FirstIndex(orders, (o: PaymentOrder) => o.idempotencyKey == Some(key))
  }

  /** findUnique on the ledger row's idempotency key. */
  function KeyedTransaction(txns: seq<Transaction>, key: string): (r: Option<nat>)
    ensures r.Some? ==> r.value < |txns| && txns[r.value].idempotencyKey == Some(key)
    ensures r.None? ==> forall k :: 0 <= k < |txns| ==> txns[k].idempotencyKey != Some(key)
  {
    FirstIndex(txns, (t: Transaction) => t.idempotencyKey == Some(key))
  }

  /** `skip: offset, take: limit` on an ordered result. */
  function Window<T>(s: seq<T>, offset: nat, limit: nat): (w: seq<T>)
    ensures |w| <= limit
    ensures offset <= |s| ==> |w| == (if |s| - offset < limit then |s| - offset else limit) && w == s[offset..][..|w|]
    ensures offset >= |s| ==> w == []
  {
    if offset >= |s| then [] else Take(s[offset..], limit)
  }

  /** The creation instants rows are ordered by. */
  function TransactionCreatedAt(t: Transaction): int { t.createdAt }
  function OrderCreatedAt(o: PaymentOrder): int { o.createdAt }
  function GiftCreatedAt(g: Gift): int { g.createdAt }
  function WithdrawalCreatedAt(w: Withdrawal): int { w.createdAt }

  /** `value || undefined`: an empty string is left out of a token. */
  function Defined(s: Option<string>): (r: Option<string>)
    ensures r.Some? <==> Truthy(s)
    ensures r.Some? ==> r == s
  {
    if Truthy(s) then s else None
  }

  /** The claims every access token of a user is signed with. */
  function TokenClaims(u: User): (c: Claims)
    ensures c.userId == u.id && c.role == u.role && c.isHost == u.isHost
    ensures c.email == Defined(u.email) && c.phoneNumber == Defined(u.phoneNumber)
    ensures c.agencyId == Defined(u.agencyId)
  {
    Claims(u.id, Defined(u.email), Defined(u.phoneNumber), u.role, u.isHost, Defined(u.agencyId))
  }

  // ---------------------------------------------------------------------
  // Facts about the counters

  /** Replacing one user changes only that user's membership. */
  lemma {:induction false} HostsAfterUpdate(users: map<UserId, User>, u: UserId, v: User, a: AgencyId)
    ensures HostsOf(users[u := v], a) == (HostsOf(users, a) - {u}) + (if v.agencyId == Some(a) then {u} else {})
  {
    var l := HostsOf(users[u := v], a);
    var r := (HostsOf(users, a) - {u}) + (if v.agencyId == Some(a) then {u} else {});
    forall x ensures x in l <==> x in r {
      if x == u {
      } else {
        assert x in users[u := v] <==> x in users;
      }
    }
  }

  /** Replacing a stored user by a row with the same id keeps the users
      keyed and every wallet owned. */
  lemma UsersKeyedAfterUpdate(users: map<UserId, User>, wallets: map<UserId, WalletRow>, u: UserId, v: User)
    requires UsersKeyed(users, wallets) && u in users && v.id == u
    ensures UsersKeyed(users[u := v], wallets)
  {
  }

  /** Changing one user's membership to a stored agency (or to none), while
      the agencies keep their ids and codes, keeps the agencies keyed. */
  lemma {:induction false} KeyedAfterMove(users: map<UserId, User>, agencies: map<AgencyId, Agency>, u: UserId, v: User, agencies': map<AgencyId, Agency>)
    requires AgenciesKeyed(users, agencies)
    requires Truthy(v.agencyId) ==> v.agencyId.value in agencies
    requires agencies'.Keys == agencies.Keys
    requires forall a :: a in agencies ==> agencies'[a].id == agencies[a].id && agencies'[a].code == agencies[a].code
    ensures AgenciesKeyed(users[u := v], agencies')
  {
    var users' := users[u := v];
    forall x | x in users' && Truthy(users'[x].agencyId)
      ensures users'[x].agencyId.value in agencies'
    {
      if x != u {
        assert users'[x] == users[x];
      }
    }
  }

  /** Updates that leave every user's agency alone leave every count alone. */
  lemma {:induction false} HostsKept(users: map<UserId, User>, users': map<UserId, User>, agencies: map<AgencyId, Agency>, agencies': map<AgencyId, Agency>)
    requires HostsCounted(users, agencies)
    requires users'.Keys == users.Keys
    requires forall u :: u in users ==> users'[u].agencyId == users[u].agencyId
    requires agencies'.Keys == agencies.Keys
    requires forall a :: a in agencies ==> agencies'[a].totalHosts == agencies[a].totalHosts
    ensures HostsCounted(users', agencies')
  {
    forall a | a in agencies' ensures agencies'[a].totalHosts == |HostsOf(users', a)| {
      assert HostsOf(users', a) == HostsOf(users, a);
    }
  }

  /** Appending rows that credit nothing leaves every credit count alone. */
  lemma {:induction false} PurchasesAppendOther(txns: seq<Transaction>, extra: seq<Transaction>, orderId: string)
    requires forall k :: 0 <= k < |extra| ==> !Credits(extra[k], orderId)
    ensures Purchases(txns + extra, orderId) == Purchases(txns, orderId)
  {
    if extra != [] {
      var last := |extra| - 1;
      assert (txns + extra)[..|txns + extra| - 1] == txns + extra[..last];
      PurchasesAppendOther(txns, extra[..last], orderId);
    } else {
      assert txns + extra == txns;
    }
  }

  /** An order no row credits has no purchases. */
  lemma {:induction false} PurchasesNone(txns: seq<Transaction>, orderId: string)
    requires forall k :: 0 <= k < |txns| ==> !Credits(txns[k], orderId)
    ensures Purchases(txns, orderId) == 0
  {
    if txns != [] {
      PurchasesNone(txns[..|txns| - 1], orderId);
    }
  }

  /** Appending one row counts it once for the order it credits. */
  lemma {:induction false} PurchasesAppendOne(txns: seq<Transaction>, t: Transaction, orderId: string)
    ensures Purchases(txns + [t], orderId) == Purchases(txns, orderId) + if Credits(t, orderId) then 1 else 0
  {
    assert (txns + [t])[..|txns + [t]| - 1] == txns;
  }

  // ---------------------------------------------------------------------
  // The database

  class Database {
    var users: map<UserId, User>
    var agencies: map<AgencyId, Agency>
    var wallets: map<UserId, WalletRow>
    var orders: seq<PaymentOrder>
    var transactions: seq<Transaction>
    var gifts: seq<Gift>
    var withdrawals: seq<Withdrawal>
    var otps: seq<OtpCode>
    var refreshTokens: seq<RefreshTokenRow>

    function Snapshot(): Tables
      reads this
    {
      Tables(users, agencies, wallets, orders, transactions, gifts, withdrawals, otps, refreshTokens)
    }

    ghost predicate Valid()
      reads this
    {
      Consistent(Snapshot())
    }

    /** An empty database. */
    constructor ()
      ensures Valid()
      ensures Snapshot() == Tables(map[], map[], map[], [], [], [], [], [], [])
    {
      users, agencies, wallets := map[], map[], map[];
      orders, transactions, gifts, withdrawals, otps, refreshTokens := [], [], [], [], [], [];
    }
  }
}
