/** The wallet service (services/walletService.ts): top-up orders, payment
    verification that credits diamonds once, gifts that move diamonds from
    a giver to a receiver and the receiver's agency, and the balance and
    ledger queries. */
module Wallet {
  import opened Common
  import opened Accounts

  const Rupees := "INR"
  const DiamondUnits := "DIAMONDS"
  const InvalidSignature := "Invalid payment signature"

  // ---------------------------------------------------------------------
  // Top-up orders

  /** The tables after an order row is added. */
  function WithOrder(t: Tables, order: PaymentOrder): (t': Tables)
    ensures t'.orders == t.orders + [order]
    ensures t' == t.(orders := t'.orders)
  {
    t.(orders := t.orders + [order])
  }

  /** Adding a new order for an existing user, with an id and a key no other
      order holds, keeps the tables consistent. */
  lemma {:induction false} WithOrderKeepsConsistent(t: Tables, order: PaymentOrder)
    requires Consistent(t)
    requires order.userId in t.users && order.status == Created
    requires OrderIndex(t.orders, order.id).None?
    requires order.idempotencyKey.Some? ==> KeyedOrder(t.orders, order.idempotencyKey.value).None?
    ensures Consistent(WithOrder(t, order))
  {
    var os := t.orders + [order];
    assert OrdersKeyed(os, t.users) by {
      forall i, j | 0 <= i < j < |os| && os[i].idempotencyKey.Some?
        ensures os[i].idempotencyKey != os[j].idempotencyKey
      {
        if j == |t.orders| {
          assert os[i] == t.orders[i];
        }
      }
    }
    assert PurchasesCredited(os, t.transactions) by {
      forall i | 0 <= i < |os|
        ensures Purchases(t.transactions, os[i].id) == if os[i].status == Success then 1 else 0
      {
        if i == |t.orders| {
          forall k | 0 <= k < |t.transactions| ensures !Credits(t.transactions[k], order.id) {
            if t.transactions[k].kind == Purchase {
              var j := OrderIndex(t.orders, t.transactions[k].orderId.value).value;
              assert t.orders[j].id != order.id;
            }
          }
          PurchasesNone(t.transactions, order.id);
        } else {
          assert os[i] == t.orders[i];
        }
      }
    }
    assert CreditsKnownOrders(os, t.transactions) by {
      forall k | 0 <= k < |t.transactions| && t.transactions[k].kind == Purchase
        ensures OrderIndex(os, t.transactions[k].orderId.value).Some?
      {
        var j := OrderIndex(t.orders, t.transactions[k].orderId.value).value;
        assert os[j] == t.orders[j];
      }
    }
  }

  /** Once an order with key `key` is stored, the same key finds it: a
      repeated top-up request returns the order the first one created. */
  lemma {:induction false} RepeatedKeyFindsOrder(orders: seq<PaymentOrder>, order: PaymentOrder, key: string)
    requires KeyedOrder(orders, key).None?
    requires order.idempotencyKey == Some(key)
    ensures KeyedOrder(orders + [order], key) == Some(|orders|)
  {
    if orders != [] {
      assert (orders + [order])[1..] == orders[1..] + [order];
      RepeatedKeyFindsOrder(orders[1..], order, key);
    }
  }

  /** createTopupOrder: a truthy key already on an order returns that order
      untouched; otherwise a CREATED order is stored for the user with the
      provider (MOCK in development, RAZORPAY otherwise), the provider's
      order id and the amount in paise. Storing a key another
      order holds (only possible for the falsy "" key, which skips the
      lookup) or an unknown user is refused by the database. */
  method CreateTopupOrder(db: Database, userId: UserId, diamonds: nat, key: Option<string>, provider: string,
                          amountInPaise: nat, providerOrderId: string, now: nat)
    returns (r: Result<PaymentOrder, string>)
    requires db.Valid()
    modifies db
    ensures db.Valid()
    ensures Truthy(key) && KeyedOrder(old(db.orders), key.value).Some? ==>
      r == Ok(old(db.orders)[KeyedOrder(old(db.orders), key.value).value]) && db.Snapshot() == old(db.Snapshot())
    ensures !Truthy(key) && key.Some? && KeyedOrder(old(db.orders), key.value).Some? ==>
      r == Err(UniqueKeyViolation) && db.Snapshot() == old(db.Snapshot())
    ensures (key.None? || KeyedOrder(old(db.orders), key.value).None?) && userId !in old(db.users) ==>
      r == Err(UnknownUserViolation) && db.Snapshot() == old(db.Snapshot())
    ensures (key.None? || KeyedOrder(old(db.orders), key.value).None?) && userId in old(db.users) ==>
      && r.Ok?
      && r.value == PaymentOrder(r.value.id, userId, Created, provider, amountInPaise, diamonds, Some(providerOrderId), key, None, None, now)
      && OrderIndex(old(db.orders), r.value.id).None?
      && db.Snapshot() == WithOrder(old(db.Snapshot()), r.value)
  {
    if Truthy(key) {
      var k := KeyedOrder(db.orders, key.value);
      if k.Some? {
        return Ok(db.orders[k.value]);
      }
    }
    if key.Some? && KeyedOrder(db.orders, key.value).Some? {
      return Err(UniqueKeyViolation);
    }
    if userId !in db.users {
      return Err(UnknownUserViolation);
    }
    var id := FreshId(set k | 0 <= k < |db.orders| :: db.orders[k].id);
    assert OrderIndex(db.orders, id).None? by {
      forall k | 0 <= k < |db.orders| ensures db.orders[k].id != id {
        assert db.orders[k].id in set k | 0 <= k < |db.orders| :: db.orders[k].id;
      }
    }
    var order := PaymentOrder(id, userId, Created, provider, amountInPaise, diamonds, Some(providerOrderId), key, None, None, now);
    WithOrderKeepsConsistent(db.Snapshot(), order);
    db.orders := db.orders + [order];
    r := Ok(order);
  }

  // ---------------------------------------------------------------------
  // Payment verification

  datatype VerifyOutcome =
    | AlreadyProcessed(order: PaymentOrder)
    | Verified(order: PaymentOrder, transaction: Transaction, newBalance: int)

  /** The provider's signature check over (provider order id, payment id,
      signature): an HMAC in production, a fixed answer for the mock. */
  type SignatureCheck = (string, string, string) -> bool

  /** The first complaint verifyPayment raises before the signature. */
  function PaymentRefusal(orders: seq<PaymentOrder>, userId: UserId, orderId: string): (e: Option<string>)
    ensures e.None? <==> OrderIndex(orders, orderId).Some? && orders[OrderIndex(orders, orderId).value].userId == userId
    ensures OrderIndex(orders, orderId).None? ==> e == Some("Payment order not found")
  {
    match OrderIndex(orders, orderId)
    case None => Some("Payment order not found")
    case Some(i) =>
      if orders[i].userId != userId then Some("Unauthorized: Payment order belongs to different user") else None
  }

  /** The provider order id as the signature check sees it (absent reads as ""). */
  function ProviderOrderText(o: PaymentOrder): string {
    if o.providerOrderId.Some? then o.providerOrderId.value else ""
  }

  /** The ledger row of a completed purchase. */
  function PurchaseRow(o: PaymentOrder, now: nat): (row: Transaction)
    ensures Credits(row, o.id) && row.userId == o.userId && row.amount == o.amount
  {
    Transaction(o.userId, Purchase, Completed, o.amount, Rupees, None, Some(o.id), now)
  }

  /** The tables after order i fails its signature check. */
  function Rejected(t: Tables, i: nat): (t': Tables)
    requires i < |t.orders|
    ensures |t'.orders| == |t.orders| && t'.orders[i].status == Failed
    ensures t'.orders[i].failureReason == Some(InvalidSignature)
    ensures forall k :: 0 <= k < |t.orders| && k != i ==> t'.orders[k] == t.orders[k]
    ensures t' == t.(orders := t'.orders)
  {
    t.(orders := t.orders[i := t.orders[i].(status := Failed, failureReason := Some(InvalidSignature))])
  }

  /** The tables after order i is paid: the order succeeds, its owner gains
      the order's diamonds and one purchase row credits the order. */
  function Settled(t: Tables, i: nat, paymentId: string, now: nat): (t': Tables)
    requires i < |t.orders| && t.orders[i].userId in t.users
    ensures |t'.orders| == |t.orders| && t'.orders[i].status == Success
    ensures t'.orders[i] == t.orders[i].(status := Success, providerPaymentId := Some(paymentId))
    ensures forall k :: 0 <= k < |t.orders| && k != i ==> t'.orders[k] == t.orders[k]
    ensures var u := t.orders[i].userId;
      t'.users.Keys == t.users.Keys
      && t'.users[u].diamonds == t.users[u].diamonds + t.orders[i].diamonds
      && (forall v :: v in t.users && v != u ==> t'.users[v] == t.users[v])
    ensures t'.transactions == t.transactions + [PurchaseRow(t.orders[i], now)]
    ensures t' == t.(orders := t'.orders, users := t'.users, transactions := t'.transactions)
  {
    var o := t.orders[i];
    var owner := t.users[o.userId];
    t.(orders := t.orders[i := o.(status := Success, providerPaymentId := Some(paymentId))],
       users := t.users[o.userId := owner.(diamonds := owner.diamonds + o.diamonds)],
       transactions := t.transactions + [PurchaseRow(o, now)])
  }

  /** A failed signature keeps the tables consistent: the order was not
      successful, so it had no credit, and it still has none. */
  lemma {:induction false} RejectedKeepsConsistent(t: Tables, i: nat)
    requires Consistent(t) && i < |t.orders| && t.orders[i].status != Success
    ensures Consistent(Rejected(t, i))
  {
    var t' := Rejected(t, i);
    assert OrderIndexSameIds(t.orders, t'.orders) by {
      forall k | 0 <= k < |t.orders| ensures t'.orders[k].id == t.orders[k].id {}
    }
    forall k | 0 <= k < |t.transactions| && t.transactions[k].kind == Purchase
      ensures OrderIndex(t'.orders, t.transactions[k].orderId.value).Some?
    {
      OrderIndexOfSameIds(t.orders, t'.orders, t.transactions[k].orderId.value);
    }
  }

  /** Two order tables with the same ids at the same positions. */
  ghost predicate OrderIndexSameIds(a: seq<PaymentOrder>, b: seq<PaymentOrder>) {
    |a| == |b| && forall k :: 0 <= k < |a| ==> a[k].id == b[k].id
  }

  lemma {:induction false} OrderIndexOfSameIds(a: seq<PaymentOrder>, b: seq<PaymentOrder>, id: string)
    requires OrderIndexSameIds(a, b)
    ensures OrderIndex(a, id) == OrderIndex(b, id)
  {
    if a != [] {
      OrderIndexOfSameIds(a[1..], b[1..], id);
    }
  }

  /** Paying an order that had not succeeded keeps the tables consistent:
      its credit count goes from none to exactly one. */
  lemma {:induction false} SettledKeepsConsistent(t: Tables, i: nat, paymentId: string, now: nat)
    requires Consistent(t) && i < |t.orders| && t.orders[i].status != Success
    ensures t.orders[i].userId in t.users
    ensures Consistent(Settled(t, i, paymentId, now))
  {
    var t' := Settled(t, i, paymentId, now);
    assert UsersKeyed(t'.users, t'.wallets);
    assert AgenciesKeyed(t'.users, t'.agencies);
    HostsKept(t.users, t'.users, t.agencies, t'.agencies);
    assert OrderIndexSameIds(t.orders, t'.orders);
    assert OrdersKeyed(t'.orders, t'.users);
    LedgerAfterPurchase(t.orders, t'.orders, t.transactions, i, PurchaseRow(t.orders[i], now));
  }

  /** The ledger invariants survive paying order i: its one new row carries
      no key and gives the order, which had no credit, its one credit. */
  lemma {:induction false} LedgerAfterPurchase(orders: seq<PaymentOrder>, orders': seq<PaymentOrder>,
                                               txns: seq<Transaction>, i: nat, row: Transaction)
    requires LedgerKeyed(txns) && PurchasesCredited(orders, txns) && CreditsKnownOrders(orders, txns)
    requires forall a, b :: 0 <= a < b < |orders| ==> orders[a].id != orders[b].id
    requires OrderIndexSameIds(orders, orders') && i < |orders|
    requires orders[i].status != Success && orders'[i].status == Success
    requires forall k :: 0 <= k < |orders| && k != i ==> orders'[k] == orders[k]
    requires Credits(row, orders[i].id) && row.idempotencyKey.None?
    ensures LedgerKeyed(txns + [row])
    ensures PurchasesCredited(orders', txns + [row])
    ensures CreditsKnownOrders(orders', txns + [row])
  {
    var all := txns + [row];
    forall a, b | 0 <= a < b < |all| && all[a].idempotencyKey.Some?
      ensures all[a].idempotencyKey != all[b].idempotencyKey
    {
      assert all[a] == txns[a];
      if b < |txns| {
        assert all[b] == txns[b];
      }
    }
    forall k | 0 <= k < |orders'|
      ensures Purchases(all, orders'[k].id) == if orders'[k].status == Success then 1 else 0
    {
      PurchasesAppendOne(txns, row, orders[k].id);
    }
    forall k | 0 <= k < |all| && all[k].kind == Purchase
      ensures all[k].orderId.Some? && OrderIndex(orders', all[k].orderId.value).Some?
    {
      OrderIndexOfSameIds(orders, orders', all[k].orderId.value);
      if k == |txns| {
        assert OrderIndex(orders, orders[i].id).Some?;
      } else {
        assert all[k] == txns[k];
      }
    }
  }

  /** Marks order i FAILED. */
  method Reject(db: Database, i: nat)
    requires db.Valid() && i < |db.orders| && db.orders[i].status != Success
    modifies db
    ensures db.Valid()
    ensures db.Snapshot() == Rejected(old(db.Snapshot()), i)
  {
    RejectedKeepsConsistent(db.Snapshot(), i);
    db.orders := Rejected(db.Snapshot(), i).orders;
  }

  /** Completes order i: the order, the balance and the ledger change
      together, in one database transaction. */
  method Settle(db: Database, i: nat, paymentId: string, now: nat)
    requires db.Valid() && i < |db.orders| && db.orders[i].status != Success
    modifies db
    ensures db.Valid()
    ensures old(db.orders)[i].userId in old(db.users)
    ensures db.Snapshot() == Settled(old(db.Snapshot()), i, paymentId, now)
  {
    SettledKeepsConsistent(db.Snapshot(), i, paymentId, now);
    var after := Settled(db.Snapshot(), i, paymentId, now);
    db.orders, db.users, db.transactions := after.orders, after.users, after.transactions;
    assert db.Snapshot() == after;
  }

  /** verifyPayment: an unknown order or another user's order is refused
      and nothing changes; a successful order is reported as already
      processed and nothing changes (success is final); a bad signature
      marks the order FAILED; a good one settles it. */
  method VerifyPayment(db: Database, userId: UserId, orderId: string, paymentId: string, signature: string,
                       check: SignatureCheck, now: nat)
    returns (r: Result<VerifyOutcome, string>)
    requires db.Valid()
    modifies db
    ensures db.Valid()
    ensures PaymentRefusal(old(db.orders), userId, orderId).Some? ==>
      r == Err(PaymentRefusal(old(db.orders), userId, orderId).value) && db.Snapshot() == old(db.Snapshot())
    ensures PaymentRefusal(old(db.orders), userId, orderId).None? ==>
      var i := OrderIndex(old(db.orders), orderId).value;
      var o := old(db.orders)[i];
      && (o.status == Success ==> r == Ok(AlreadyProcessed(o)) && db.Snapshot() == old(db.Snapshot()))
      && (o.status != Success && !check(ProviderOrderText(o), paymentId, signature) ==>
            r == Err(InvalidSignature) && db.Snapshot() == Rejected(old(db.Snapshot()), i))
      && (o.status != Success && check(ProviderOrderText(o), paymentId, signature) ==>
            && userId in old(db.users)
            && db.Snapshot() == Settled(old(db.Snapshot()), i, paymentId, now)
            && r == Ok(Verified(db.orders[i], PurchaseRow(o, now), old(db.users)[userId].diamonds + o.diamonds)))
  {
    var i := OrderIndex(db.orders, orderId);
    if i.None? {
      return Err("Payment order not found");
    }
    var order := db.orders[i.value];
    if order.userId != userId {
      return Err("Unauthorized: Payment order belongs to different user");
    }
    if order.status == Success {
      return Ok(AlreadyProcessed(order));
    }
    if !check(ProviderOrderText(order), paymentId, signature) {
      Reject(db, i.value);
      return Err(InvalidSignature);
    }
    Settle(db, i.value, paymentId, now);
    r := Ok(Verified(db.orders[i.value], PurchaseRow(order, now), db.users[userId].diamonds));
  }

  /** In a consistent store a successful order has exactly one purchase row
      and any other order none: diamonds are credited at most once per
      order, however often verification is repeated. */
  lemma {:induction false} CreditedAtMostOnce(t: Tables, i: nat)
    requires Consistent(t) && i < |t.orders|
    ensures Purchases(t.transactions, t.orders[i].id) <= 1
    ensures Purchases(t.transactions, t.orders[i].id) == 1 <==> t.orders[i].status == Success
  {
  }

  // ---------------------------------------------------------------------
  // Gifts

  /** The agency's share of a gift of `diamonds` at `rate` percent, rounded
      down. */
  function Commission(diamonds: nat, rate: nat): (c: nat)
    ensures c * 100 <= diamonds * rate < c * 100 + 100
  {
    diamonds * rate / 100
  }

  /** A rate of at most 100 percent never takes more than the gift. */
  lemma {:induction false} CommissionWithinGift(diamonds: nat, rate: nat)
    requires rate <= 100
    ensures Commission(diamonds, rate) <= diamonds
  {
    var c := Commission(diamonds, rate);
    assert c * 100 <= diamonds * 100 by {
      assert diamonds * rate <= diamonds * 100;
    }
  }

  /** Whether the receiver's agency takes a cut: the receiver is a host
      whose agencyId is set and names a stored agency. */
  predicate Commissioned(receiver: User, agencies: map<AgencyId, Agency>) {
    receiver.isHost && Truthy(receiver.agencyId) && receiver.agencyId.value in agencies
  }

  datatype Split = Split(commission: nat, hostEarnings: int)

  /** How a gift divides between the receiver and the receiver's agency. */
  function SplitGift(receiver: User, agencies: map<AgencyId, Agency>, diamonds: nat): (s: Split)
    ensures s.commission + s.hostEarnings == diamonds
    ensures !Commissioned(receiver, agencies) ==> s.commission == 0
    ensures Commissioned(receiver, agencies) ==>
      s.commission == Commission(diamonds, agencies[receiver.agencyId.value].commissionRate)
  {
    if Commissioned(receiver, agencies) then
      var c := Commission(diamonds, agencies[receiver.agencyId.value].commissionRate);
      Split(c, diamonds - c)
    else Split(0, diamonds)
  }

  /** The row a request's idempotency key finds, when the key is truthy. */
  function Replay(txns: seq<Transaction>, key: Option<string>): (t: Option<Transaction>)
    ensures t.Some? ==> Truthy(key) && t.value in txns && t.value.idempotencyKey == key
    ensures t.None? ==> !Truthy(key) || KeyedTransaction(txns, key.value).None?
  {
    if Truthy(key) then
      match KeyedTransaction(txns, key.value)
      case Some(i) => Some(txns[i])
      case None => None
    else None
  }

  /** The first gift between the two users recorded at `createdAt`. */
  function GiftAt(gifts: seq<Gift>, giverId: UserId, receiverId: UserId, createdAt: nat): (g: Option<Gift>)
    ensures g.Some? ==>
      g.value in gifts && g.value.giverId == giverId && g.value.receiverId == receiverId && g.value.createdAt == createdAt
  {
    match FirstIndex(gifts, (g: Gift) => g.giverId == giverId && g.receiverId == receiverId && g.createdAt == createdAt)
    case Some(i) => Some(gifts[i])
    case None => None
  }

  function InsufficientText(have: int, need: int): string {
    "Insufficient balance. You have " + IntText(have) + " diamonds, need " + IntText(need)
  }

  /** A number as a template literal prints it. */
  function IntText(i: int): string {
    if i < 0 then "-" + Decimal(-i) else Decimal(i)
  }

  /** The first complaint sendGift raises once the key found no earlier
      gift, in the order the source checks: the amount, the giver, the
      giver's balance, the receiver; then the writes the database refuses
      (a repeated falsy key, a host receiver without a wallet). */
  function GiftRefusal(t: Tables, giverId: UserId, receiverId: UserId, diamonds: int, key: Option<string>)
    : (e: Option<string>)
    ensures e.None? <==>
      && diamonds > 0
      && giverId in t.users && t.users[giverId].diamonds >= diamonds
      && receiverId in t.users
      && (key.Some? ==> KeyedTransaction(t.transactions, key.value).None?)
      && (t.users[receiverId].isHost ==> receiverId in t.wallets)
    ensures diamonds <= 0 ==> e == Some("Invalid diamond amount")
  {
    if diamonds <= 0 then Some("Invalid diamond amount")
    else if giverId !in t.users then Some("Giver not found")
    else if t.users[giverId].diamonds < diamonds then Some(InsufficientText(t.users[giverId].diamonds, diamonds))
    else if receiverId !in t.users then Some("Receiver not found")
    else if t.users[receiverId].isHost && receiverId !in t.wallets then Some(MissingRecord)
    else if key.Some? && KeyedTransaction(t.transactions, key.value).Some? then Some(UniqueKeyViolation)
    else None
  }

  /** The balances after a gift: the giver pays and counts a gift sent,
      then the receiver (the same user when the two coincide) is credited
      `earnings` and counts a gift received. */
  function Transferred(users: map<UserId, User>, giverId: UserId, receiverId: UserId, diamonds: int, earnings: int)
    : (users': map<UserId, User>)
    requires giverId in users && receiverId in users
    ensures users'.Keys == users.Keys
    ensures forall u :: u in users ==>
      users'[u].id == users[u].id && users'[u].agencyId == users[u].agencyId && users'[u].isHost == users[u].isHost
  {
    var giver := users[giverId];
    var debited := users[giverId := giver.(diamonds := giver.diamonds - diamonds, totalGiftsSent := giver.totalGiftsSent + 1)];
    var credited := debited[receiverId];
    debited[receiverId := credited.(diamonds := credited.diamonds + earnings, totalGiftsReceived := credited.totalGiftsReceived + 1)]
  }

  /** The agencies after the receiver's agency earns `commission` (only a
      positive commission for a receiver with a truthy agencyId is written). */
  function Earned(agencies: map<AgencyId, Agency>, receiver: User, commission: nat): (agencies': map<AgencyId, Agency>)
    requires commission > 0 && Truthy(receiver.agencyId) ==> receiver.agencyId.value in agencies
    ensures agencies'.Keys == agencies.Keys
    ensures forall a :: a in agencies ==>
      agencies'[a].id == agencies[a].id && agencies'[a].code == agencies[a].code && agencies'[a].totalHosts == agencies[a].totalHosts
  {
    if commission > 0 && Truthy(receiver.agencyId) then
      var a := agencies[receiver.agencyId.value];
      agencies[receiver.agencyId.value := a.(totalEarnings := a.totalEarnings + commission)]
    else agencies
  }

  /** The wallets after a host receiver is credited its earnings. */
  function CreditedWallets(wallets: map<UserId, WalletRow>, receiver: User, receiverId: UserId, earnings: int)
    : (wallets': map<UserId, WalletRow>)
    requires receiver.isHost ==> receiverId in wallets
    ensures wallets'.Keys == wallets.Keys
  {
    if receiver.isHost then
      var w := wallets[receiverId];
      wallets[receiverId := WalletRow(w.availableBalance + earnings, w.totalEarned + earnings)]
    else wallets
  }

  /** The giver's debit row, carrying the request's key, then the
      receiver's credit row. */
  function GiftRows(giverId: UserId, receiverId: UserId, diamonds: nat, earnings: int, key: Option<string>, now: nat)
    : (rows: seq<Transaction>)
    ensures |rows| == 2 && rows[0].idempotencyKey == key && rows[1].idempotencyKey.None?
    ensures forall k :: 0 <= k < 2 ==> rows[k].kind != Purchase
  {
    [Transaction(giverId, GiftSent, Completed, diamonds, DiamondUnits, key, None, now),
     Transaction(receiverId, GiftReceived, Completed, earnings, DiamondUnits, None, None, now)]
  }

  /** The tables after a gift, written in the order the source writes them
      inside one database transaction: the balances, the agency's
      earnings, a host's wallet, then the gift and its two ledger rows. */
  function GiftTables(t: Tables, giverId: UserId, receiverId: UserId, diamonds: nat, giftType: string,
                      message: Option<string>, callId: Option<string>, key: Option<string>, now: nat): (t': Tables)
    requires giverId in t.users && receiverId in t.users
    requires t.users[receiverId].isHost ==> receiverId in t.wallets
    ensures t'.orders == t.orders && t'.withdrawals == t.withdrawals && t'.otps == t.otps
    ensures t'.refreshTokens == t.refreshTokens
  {
    var receiver := t.users[receiverId];
    var split := SplitGift(receiver, t.agencies, diamonds);
    t.(users := Transferred(t.users, giverId, receiverId, diamonds, split.hostEarnings),
       agencies := Earned(t.agencies, receiver, split.commission),
       wallets := CreditedWallets(t.wallets, receiver, receiverId, split.hostEarnings),
       gifts := t.gifts + [Gift(giverId, receiverId, callId, giftType, diamonds, message, now)],
       transactions := t.transactions + GiftRows(giverId, receiverId, diamonds, split.hostEarnings, key, now))
  }

  /** A gift conserves diamonds: what the giver pays is what the receiver
      is credited plus what the receiver's agency earns, and no other user,
      agency or wallet changes. A host's wallet gains the host's earnings;
      a non-host's wallet is left alone. */
  lemma {:induction false} GiftConserves(t: Tables, giverId: UserId, receiverId: UserId, diamonds: nat, giftType: string,
                                         message: Option<string>, callId: Option<string>, key: Option<string>, now: nat)
    requires giverId in t.users && receiverId in t.users && giverId != receiverId
    requires t.users[receiverId].isHost ==> receiverId in t.wallets
    ensures var t' := GiftTables(t, giverId, receiverId, diamonds, giftType, message, callId, key, now);
      var c := SplitGift(t.users[receiverId], t.agencies, diamonds).commission;
      && t'.users.Keys == t.users.Keys && t'.agencies.Keys == t.agencies.Keys
      && t.users[giverId].diamonds - t'.users[giverId].diamonds
         == (t'.users[receiverId].diamonds - t.users[receiverId].diamonds) + c
      && (forall u :: u in t.users && u != giverId && u != receiverId ==> t'.users[u] == t.users[u])
      && (forall a :: a in t.agencies ==>
            t'.agencies[a].totalEarnings - t.agencies[a].totalEarnings
            == if t.users[receiverId].agencyId == Some(a) then c else 0)
      && (t.users[receiverId].isHost ==>
            t'.wallets[receiverId].totalEarned - t.wallets[receiverId].totalEarned == diamonds - c)
      && (!t.users[receiverId].isHost ==> t'.wallets == t.wallets)
  {
    var receiver := t.users[receiverId];
    var c := SplitGift(receiver, t.agencies, diamonds).commission;
    var t' := GiftTables(t, giverId, receiverId, diamonds, giftType, message, callId, key, now);
    forall a | a in t.agencies
      ensures t'.agencies[a].totalEarnings - t.agencies[a].totalEarnings
              == if receiver.agencyId == Some(a) then c else 0
    {
      if c > 0 {
        assert Commissioned(receiver, t.agencies);
      }
    }
  }

  /** A gift keeps the tables consistent: no membership changes, so every
      agency's host count stands, and the two new ledger rows credit no
      order and repeat no key. */
  lemma {:induction false} GiftKeepsConsistent(t: Tables, giverId: UserId, receiverId: UserId, diamonds: nat, giftType: string,
                                               message: Option<string>, callId: Option<string>, key: Option<string>, now: nat)
    requires Consistent(t)
    requires giverId in t.users && receiverId in t.users
    requires key.Some? ==> KeyedTransaction(t.transactions, key.value).None?
    requires t.users[receiverId].isHost ==> receiverId in t.wallets
    ensures Consistent(GiftTables(t, giverId, receiverId, diamonds, giftType, message, callId, key, now))
  {
    var receiver := t.users[receiverId];
    var split := SplitGift(receiver, t.agencies, diamonds);
    var users := Transferred(t.users, giverId, receiverId, diamonds, split.hostEarnings);
    var agencies := Earned(t.agencies, receiver, split.commission);
    var wallets := CreditedWallets(t.wallets, receiver, receiverId, split.hostEarnings);
    var extra := GiftRows(giverId, receiverId, diamonds, split.hostEarnings, key, now);
    assert UsersKeyed(users, wallets);
    assert AgenciesKeyed(users, agencies);
    HostsKept(t.users, users, t.agencies, agencies);
    LedgerAppendGift(t.transactions, extra, key);
    assert PurchasesCredited(t.orders, t.transactions + extra) by {
      forall k | 0 <= k < |t.orders|
        ensures Purchases(t.transactions + extra, t.orders[k].id) == Purchases(t.transactions, t.orders[k].id)
      {
        PurchasesAppendOther(t.transactions, extra, t.orders[k].id);
      }
    }
    assert CreditsKnownOrders(t.orders, t.transactions + extra) by {
      forall k | 0 <= k < |t.transactions + extra| && (t.transactions + extra)[k].kind == Purchase
        ensures (t.transactions + extra)[k].orderId.Some? && OrderIndex(t.orders, (t.transactions + extra)[k].orderId.value).Some?
      {
        assert (t.transactions + extra)[k] == t.transactions[k];
      }
    }
  }

  /** The two rows of a gift repeat no key when the request's key is new. */
  lemma {:induction false} LedgerAppendGift(txns: seq<Transaction>, extra: seq<Transaction>, key: Option<string>)
    requires LedgerKeyed(txns)
    requires |extra| == 2 && extra[0].idempotencyKey == key && extra[1].idempotencyKey.None?
    requires key.Some? ==> KeyedTransaction(txns, key.value).None?
    ensures LedgerKeyed(txns + extra)
  {
    var all := txns + extra;
    forall a, b | 0 <= a < b < |all| && all[a].idempotencyKey.Some?
      ensures all[a].idempotencyKey != all[b].idempotencyKey
    {
      if b < |txns| {
        assert all[a] == txns[a] && all[b] == txns[b];
      } else if a < |txns| {
        assert all[a] == txns[a];
      }
    }
  }

  /** Once a gift is sent with a truthy key, the same key finds its ledger
      row and the row finds the gift: a repeated request is answered from
      them instead of paying twice. */
  lemma {:induction false} RepeatedKeyFindsGift(t: Tables, giverId: UserId, receiverId: UserId, diamonds: nat, giftType: string,
                                                message: Option<string>, callId: Option<string>, key: Option<string>, now: nat)
    requires giverId in t.users && receiverId in t.users
    requires t.users[receiverId].isHost ==> receiverId in t.wallets
    requires Truthy(key) && KeyedTransaction(t.transactions, key.value).None?
    ensures var t' := GiftTables(t, giverId, receiverId, diamonds, giftType, message, callId, key, now);
      && Replay(t'.transactions, key) == Some(t'.transactions[|t.transactions|])
      && t'.transactions[|t.transactions|].kind == GiftSent
      && t'.transactions[|t.transactions|].userId == giverId
      && GiftAt(t'.gifts, giverId, receiverId, now).Some?
  {
    var t' := GiftTables(t, giverId, receiverId, diamonds, giftType, message, callId, key, now);
    KeyedAppend(t.transactions, t'.transactions[|t.transactions|..], key.value);
    var p := (g: Gift) => g.giverId == giverId && g.receiverId == receiverId && g.createdAt == now;
    assert p(t'.gifts[|t.gifts|]);
  }

  /** Appending rows whose first carries a key no earlier row carries: the
      key finds that first new row. */
  lemma {:induction false} KeyedAppend(txns: seq<Transaction>, extra: seq<Transaction>, key: string)
    requires KeyedTransaction(txns, key).None?
    requires extra != [] && extra[0].idempotencyKey == Some(key)
    ensures KeyedTransaction(txns + extra, key) == Some(|txns|)
  {
    if txns != [] {
      assert (txns + extra)[1..] == txns[1..] + extra;
      KeyedAppend(txns[1..], extra, key);
    }
  }

  datatype GiftOutcome =
    | AlreadySent(earlierGift: Option<Gift>, transaction: Transaction)
    | Sent(gift: Gift, giverTransaction: Transaction, receiverTransaction: Transaction,
           giverBalance: int, receiverBalance: int, agencyCommission: nat, hostEarnings: int)

  /** Performs the writes of a gift the checks let through. */
  method RecordGift(db: Database, giverId: UserId, receiverId: UserId, diamonds: nat, giftType: string,
                    message: Option<string>, callId: Option<string>, key: Option<string>, now: nat)
    requires db.Valid()
    requires giverId in db.users && receiverId in db.users
    requires key.Some? ==> KeyedTransaction(db.transactions, key.value).None?
    requires db.users[receiverId].isHost ==> receiverId in db.wallets
    modifies db
    ensures db.Valid()
    ensures db.Snapshot() == GiftTables(old(db.Snapshot()), giverId, receiverId, diamonds, giftType, message, callId, key, now)
  {
    GiftKeepsConsistent(db.Snapshot(), giverId, receiverId, diamonds, giftType, message, callId, key, now);
    var after := GiftTables(db.Snapshot(), giverId, receiverId, diamonds, giftType, message, callId, key, now);
    db.users, db.agencies, db.wallets := after.users, after.agencies, after.wallets;
    db.gifts, db.transactions := after.gifts, after.transactions;
    assert db.Snapshot() == after;
  }

  /** sendGift: a truthy key that finds an earlier ledger row answers with
      that row and its gift and changes nothing; a refused gift changes
      nothing; otherwise the gift is recorded and the outcome reports the
      new balances and how the diamonds were divided. */
  method SendGift(db: Database, giverId: UserId, receiverId: UserId, diamonds: int, giftType: string,
                  message: Option<string>, callId: Option<string>, key: Option<string>, now: nat)
    returns (r: Result<GiftOutcome, string>)
    requires db.Valid()
    modifies db
    ensures db.Valid()
    ensures Replay(old(db.transactions), key).Some? ==>
      var row := Replay(old(db.transactions), key).value;
      r == Ok(AlreadySent(GiftAt(old(db.gifts), giverId, receiverId, row.createdAt), row))
      && db.Snapshot() == old(db.Snapshot())
    ensures Replay(old(db.transactions), key).None? && GiftRefusal(old(db.Snapshot()), giverId, receiverId, diamonds, key).Some? ==>
      r == Err(GiftRefusal(old(db.Snapshot()), giverId, receiverId, diamonds, key).value)
      && db.Snapshot() == old(db.Snapshot())
    ensures Replay(old(db.transactions), key).None? && GiftRefusal(old(db.Snapshot()), giverId, receiverId, diamonds, key).None? ==>
      var split := SplitGift(old(db.users[receiverId]), old(db.agencies), diamonds);
      && db.Snapshot() == GiftTables(old(db.Snapshot()), giverId, receiverId, diamonds, giftType, message, callId, key, now)
      && r.Ok? && r.value.Sent?
      && r.value.giverBalance == old(db.users[giverId].diamonds) - diamonds
      && r.value.receiverBalance == db.users[receiverId].diamonds
      && r.value.agencyCommission == split.commission && r.value.hostEarnings == split.hostEarnings
  {
    var replay := Replay(db.transactions, key);
    if replay.Some? {
      return Ok(AlreadySent(GiftAt(db.gifts, giverId, receiverId, replay.value.createdAt), replay.value));
    }
    var refusal := GiftRefusal(db.Snapshot(), giverId, receiverId, diamonds, key);
    if refusal.Some? {
      return Err(refusal.value);
    }
    var split := SplitGift(db.users[receiverId], db.agencies, diamonds);
    var giverBalance := db.users[giverId].diamonds - diamonds;
    RecordGift(db, giverId, receiverId, diamonds, giftType, message, callId, key, now);
    var n := |db.transactions|;
    r := Ok(Sent(db.gifts[|db.gifts| - 1], db.transactions[n - 2], db.transactions[n - 1],
                 giverBalance, db.users[receiverId].diamonds, split.commission, split.hostEarnings));
  }

  // ---------------------------------------------------------------------
  // Queries

  datatype Balance = Balance(diamonds: int, wallet: Option<WalletRow>)

  /** getBalance: the user's diamonds and wallet, if the user exists. */
  function GetBalance(db: Database, userId: UserId): (r: Result<Balance, string>)
    reads db
    ensures r.Err? <==> userId !in db.users
    ensures r.Err? ==> r.error == "User not found"
    ensures r.Ok? ==>
      && r.value.diamonds == db.users[userId].diamonds
      && (r.value.wallet.Some? <==> userId in db.wallets)
      && (userId in db.wallets ==> r.value.wallet.value == db.wallets[userId])
  {
    if userId !in db.users then Err("User not found")
    else Ok(Balance(db.users[userId].diamonds, if userId in db.wallets then Some(db.wallets[userId]) else None))
  }

  datatype TransactionPage = TransactionPage(transactions: seq<Transaction>, total: nat, limit: nat, offset: nat)

  /** The user's ledger rows, newest first. */
  function NewestOwnRows(txns: seq<Transaction>, userId: UserId): seq<Transaction> {
    SortDescBy(Filter(txns, (t: Transaction) => t.userId == userId), TransactionCreatedAt)
  }

  /** getTransactions: one window of the user's ledger, newest first, with
      the number of rows the user has in all. */
  function GetTransactions(db: Database, userId: UserId, limit: nat, offset: nat): (p: TransactionPage)
    reads db
    ensures |p.transactions| <= limit && p.limit == limit && p.offset == offset
    ensures p.transactions == Window(NewestOwnRows(db.transactions, userId), offset, limit)
    ensures p.total == |NewestOwnRows(db.transactions, userId)|
  {
    var rows := NewestOwnRows(db.transactions, userId);
    TransactionPage(Window(rows, offset, limit), |rows|, limit, offset)
  }

  /** A page holds only the user's rows, newest first, and the pages at
      offsets 0, limit, 2*limit, ... hold every row of the user. */
  lemma {:induction false} TransactionPageSound(txns: seq<Transaction>, userId: UserId, limit: nat, offset: nat)
    ensures var page := Window(NewestOwnRows(txns, userId), offset, limit);
      && (forall k :: 0 <= k < |page| ==> page[k].userId == userId && page[k] in txns)
      && SortedDesc(page, TransactionCreatedAt)
    ensures multiset(NewestOwnRows(txns, userId)) == multiset(Filter(txns, (t: Transaction) => t.userId == userId))
  {
    var own := Filter(txns, (t: Transaction) => t.userId == userId);
    var rows := NewestOwnRows(txns, userId);
    SortDescBySorted(own, TransactionCreatedAt);
    SortDescByPermutes(own, TransactionCreatedAt);
    SortDescByMembers(own, TransactionCreatedAt);
    FilterMembers(txns, (t: Transaction) => t.userId == userId);
    var page := Window(rows, offset, limit);
    forall k | 0 <= k < |page| ensures page[k].userId == userId && page[k] in txns {
      assert page[k] == rows[offset + k];
      assert rows[offset + k] in own;
    }
  }
}
