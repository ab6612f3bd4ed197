/** The HTTP routes of routes/wallet.ts, run after requireAuth has attached
    the caller: request validation in the order the handlers check it, the
    status each outcome is answered with, and the query defaults. */
module WalletRoutes {
  import opened Common
  import opened Accounts
  import opened Wallet

  /** The largest top-up one request may ask for. */
  const MaxTopup := 100000
  /** The page size when the query gives none. */
  const DefaultPageSize: nat := 50

  datatype WalletResponse =
    | OrderCreated(message: string, order: PaymentOrder)
    | PaymentAnswer(message: string, verification: VerifyOutcome)
    | GiftAnswer(message: string, giving: GiftOutcome)
    | BalanceAnswer(balance: Balance)
    | TransactionsAnswer(page: TransactionPage)
    | OrdersAnswer(orders: seq<PaymentOrder>, total: nat, limit: nat, offset: nat)
    | Failure(status: int, error: string)

  /** The HTTP status a response is sent with. */
  function Status(r: WalletResponse): int {
    match r
    case OrderCreated(_, _) => 201
    case Failure(status, _) => status
    case _ => 200
  }

  // ---------------------------------------------------------------------
  // POST /wallet/topup

  /** The topup body check: a falsy or non-positive amount, then an amount
      over 100,000, is refused. */
  function TopupRefusal(diamonds: Option<int>): (e: Option<string>)
    ensures e.None? <==> diamonds.Some? && 0 < diamonds.value <= MaxTopup
    ensures !TruthyInt(diamonds) ==> e == Some("Invalid diamond amount")
  {
    if !TruthyInt(diamonds) || diamonds.value <= 0 then Some("Invalid diamond amount")
    else if diamonds.value > MaxTopup then Some("Maximum 100,000 diamonds per transaction")
    else None
  }

  /** POST /wallet/topup: a refused body is answered 400 and stores nothing;
      otherwise the order (new, or the one the key already names) is
      answered 201, and a database refusal 500 with its message, storing
      nothing. */
  method Topup(db: Database, userId: UserId, diamonds: Option<int>, key: Option<string>, provider: string,
               amountInPaise: nat, providerOrderId: string, now: nat)
    returns (resp: WalletResponse)
    requires db.Valid()
    modifies db
    ensures db.Valid()
    ensures TopupRefusal(diamonds).Some? ==>
      resp == Failure(400, TopupRefusal(diamonds).value) && db.Snapshot() == old(db.Snapshot())
    ensures TopupRefusal(diamonds).None? && Truthy(key) && KeyedOrder(old(db.orders), key.value).Some? ==>
      && resp == OrderCreated("Payment order created", old(db.orders)[KeyedOrder(old(db.orders), key.value).value])
      && db.Snapshot() == old(db.Snapshot())
    ensures TopupRefusal(diamonds).None? && !Truthy(key) && key.Some? && KeyedOrder(old(db.orders), key.value).Some? ==>
      resp == Failure(500, UniqueKeyViolation) && db.Snapshot() == old(db.Snapshot())
    ensures TopupRefusal(diamonds).None? && (key.None? || KeyedOrder(old(db.orders), key.value).None?) ==>
      && (userId !in old(db.users) ==> resp == Failure(500, UnknownUserViolation) && db.Snapshot() == old(db.Snapshot()))
      && (userId in old(db.users) ==>
            && resp.OrderCreated? && resp.message == "Payment order created"
            && resp.order.userId == userId && resp.order.diamonds == diamonds.value && resp.order.status == Created
            && resp.order.idempotencyKey == key && OrderIndex(old(db.orders), resp.order.id).None?
            && db.Snapshot() == WithOrder(old(db.Snapshot()), resp.order))
    ensures Status(resp) == 201 <==> resp.OrderCreated?
  {
    var refusal := TopupRefusal(diamonds);
    if refusal.Some? {
      return Failure(400, refusal.value);
    }
    var r := CreateTopupOrder(db, userId, diamonds.value, key, provider, amountInPaise, providerOrderId, now);
    if r.Err? {
      return Failure(500, r.error);
    }
    resp := OrderCreated("Payment order created", r.value);
  }

  // ---------------------------------------------------------------------
  // POST /wallet/verify

  /** POST /wallet/verify: all three payment fields must be truthy (400
      otherwise, touching nothing); any failure of the service is answered
      400 with its message; success says whether it was already processed. */
  method Verify(db: Database, userId: UserId, orderId: Option<string>, paymentId: Option<string>,
                signature: Option<string>, check: SignatureCheck, now: nat)
    returns (resp: WalletResponse)
    requires db.Valid()
    modifies db
    ensures db.Valid()
    ensures !(Truthy(orderId) && Truthy(paymentId) && Truthy(signature)) ==>
      resp == Failure(400, "Missing required payment details") && db.Snapshot() == old(db.Snapshot())
    ensures Truthy(orderId) && Truthy(paymentId) && Truthy(signature) ==>
      && (PaymentRefusal(old(db.orders), userId, orderId.value).Some? ==>
            resp == Failure(400, PaymentRefusal(old(db.orders), userId, orderId.value).value)
            && db.Snapshot() == old(db.Snapshot()))
      && (PaymentRefusal(old(db.orders), userId, orderId.value).None? ==>
            var i := OrderIndex(old(db.orders), orderId.value).value;
            var o := old(db.orders)[i];
            && (o.status == Success ==>
                  resp == PaymentAnswer("Payment already processed", AlreadyProcessed(o))
                  && db.Snapshot() == old(db.Snapshot()))
            && (o.status != Success && !check(ProviderOrderText(o), paymentId.value, signature.value) ==>
                  resp == Failure(400, InvalidSignature) && db.Snapshot() == Rejected(old(db.Snapshot()), i))
            && (o.status != Success && check(ProviderOrderText(o), paymentId.value, signature.value) ==>
                  && db.Snapshot() == Settled(old(db.Snapshot()), i, paymentId.value, now)
                  && resp == PaymentAnswer("Payment verified and diamonds credited",
                                           Verified(db.orders[i], PurchaseRow(o, now), old(db.users)[userId].diamonds + o.diamonds))))
  {
    if !Truthy(orderId) || !Truthy(paymentId) || !Truthy(signature) {
      return Failure(400, "Missing required payment details");
    }
    var r := VerifyPayment(db, userId, orderId.value, paymentId.value, signature.value, check, now);
    if r.Err? {
      return Failure(400, r.error);
    }
    if r.value.AlreadyProcessed? {
      return PaymentAnswer("Payment already processed", r.value);
    }
    resp := PaymentAnswer("Payment verified and diamonds credited", r.value);
  }

  // ---------------------------------------------------------------------
  // POST /wallet/send-gift

  /** The send-gift body check, in the handler's order. */
  function GiftRequestRefusal(giverId: UserId, receiverId: Option<UserId>, diamonds: Option<int>, giftType: Option<string>)
    : (e: Option<string>)
    ensures e.None? <==>
      Truthy(receiverId) && diamonds.Some? && diamonds.value > 0 && Truthy(giftType) && receiverId.value != giverId
    ensures !Truthy(receiverId) ==> e == Some("Receiver ID is required")
  {
    if !Truthy(receiverId) then Some("Receiver ID is required")
    else if !TruthyInt(diamonds) || diamonds.value <= 0 then Some("Invalid diamond amount")
    else if !Truthy(giftType) then Some("Gift type is required")
    else if giverId == receiverId.value then Some("Cannot send gift to yourself")
    else None
  }

  /** POST /wallet/send-gift: a refused body is answered 400 and changes
      nothing; a self-gift never reaches the service, so every gift the
      route records moves diamonds between two different users; any
      failure of the service is answered 400. */
  method SendGiftRoute(db: Database, giverId: UserId, receiverId: Option<UserId>, diamonds: Option<int>,
                       giftType: Option<string>, message: Option<string>, callId: Option<string>,
                       key: Option<string>, now: nat)
    returns (resp: WalletResponse)
    requires db.Valid()
    modifies db
    ensures db.Valid()
    ensures GiftRequestRefusal(giverId, receiverId, diamonds, giftType).Some? ==>
      resp == Failure(400, GiftRequestRefusal(giverId, receiverId, diamonds, giftType).value)
      && db.Snapshot() == old(db.Snapshot())
    ensures GiftRequestRefusal(giverId, receiverId, diamonds, giftType).None? ==>
      && receiverId.value != giverId
      && (resp.Failure? ==> resp.status == 400 && db.Snapshot() == old(db.Snapshot()))
      && (resp.GiftAnswer? ==>
            resp.message == if resp.giving.AlreadySent? then "Gift already sent" else "Gift sent successfully")
      && (Replay(old(db.transactions), key).Some? ==>
            var row := Replay(old(db.transactions), key).value;
            resp == GiftAnswer("Gift already sent", AlreadySent(GiftAt(old(db.gifts), giverId, receiverId.value, row.createdAt), row))
            && db.Snapshot() == old(db.Snapshot()))
      && (Replay(old(db.transactions), key).None?
          && GiftRefusal(old(db.Snapshot()), giverId, receiverId.value, diamonds.value, key).Some? ==>
            resp == Failure(400, GiftRefusal(old(db.Snapshot()), giverId, receiverId.value, diamonds.value, key).value))
      && (Replay(old(db.transactions), key).None?
          && GiftRefusal(old(db.Snapshot()), giverId, receiverId.value, diamonds.value, key).None? ==>
            resp.GiftAnswer? && resp.giving.Sent?
            && db.Snapshot() == GiftTables(old(db.Snapshot()), giverId, receiverId.value, diamonds.value, giftType.value,
                                           message, callId, key, now))
      && (resp.Failure? || resp.GiftAnswer?)
  {
    var refusal := GiftRequestRefusal(giverId, receiverId, diamonds, giftType);
    if refusal.Some? {
      return Failure(400, refusal.value);
    }
    var r := SendGift(db, giverId, receiverId.value, diamonds.value, giftType.value, message, callId, key, now);
    if r.Err? {
      return Failure(400, r.error);
    }
    var text := if r.value.AlreadySent? then "Gift already sent" else "Gift sent successfully";
    resp := GiftAnswer(text, r.value);
  }

  // ---------------------------------------------------------------------
  // Queries

  /** GET /wallet/balance: the caller's diamonds and wallet; 500 with the
      service's message for an unknown user. */
  function BalanceRoute(db: Database, userId: UserId): (resp: WalletResponse)
    reads db
    ensures userId !in db.users ==> resp == Failure(500, "User not found")
    ensures userId in db.users ==>
      && resp.BalanceAnswer? && resp.balance.diamonds == db.users[userId].diamonds
      && resp.balance.wallet == (if userId in db.wallets then Some(db.wallets[userId]) else None)
  {
    match GetBalance(db, userId)
    case Err(e) => Failure(500, e)
    case Ok(b) => BalanceAnswer(b)
  }

  /** GET /wallet/transactions: the window of the caller's ledger, newest
      first, that getTransactions answers; limit defaults to 50 and offset
      to 0. */
  function TransactionsRoute(db: Database, userId: UserId, limit: Option<nat>, offset: Option<nat>): (resp: WalletResponse)
    reads db
    ensures resp.TransactionsAnswer?
    ensures resp.page.limit == OrDefault(limit, DefaultPageSize) && resp.page.offset == OrDefault(offset, 0)
    ensures resp.page.transactions == Window(NewestOwnRows(db.transactions, userId), OrDefault(offset, 0), OrDefault(limit, DefaultPageSize))
    ensures resp.page.total == |Filter(db.transactions, (t: Transaction) => t.userId == userId)|
  {
    TransactionsAnswer(GetTransactions(db, userId, OrDefault(limit, DefaultPageSize), OrDefault(offset, 0)))
  }

  /** GET /wallet/payment-orders: the caller's orders, newest first, one
      window at a time (limit 50 and offset 0 by default), and how many
      there are. */
  function PaymentOrdersRoute(db: Database, userId: UserId, limit: Option<nat>, offset: Option<nat>): (resp: WalletResponse)
    reads db
    ensures resp.OrdersAnswer?
    ensures |resp.orders| <= resp.limit == OrDefault(limit, DefaultPageSize)
    ensures resp.offset == OrDefault(offset, 0)
    ensures resp.total == |Filter(db.orders, OwnedBy(userId))|
    ensures resp.orders == Window(SortDescBy(Filter(db.orders, OwnedBy(userId)), OrderCreatedAt), resp.offset, resp.limit)
    ensures forall k :: 0 <= k < |resp.orders| ==> resp.orders[k] in db.orders && resp.orders[k].userId == userId
    ensures SortedDesc(resp.orders, OrderCreatedAt)
  {
    var own := Filter(db.orders, OwnedBy(userId));
    var rows := SortDescBy(own, OrderCreatedAt);
    SortDescByMembers(own, OrderCreatedAt);
    SortDescBySorted(own, OrderCreatedAt);
    FilterMembers(db.orders, OwnedBy(userId));
    var n := OrDefault(limit, DefaultPageSize);
    var skip := OrDefault(offset, 0);
    var page := Window(rows, skip, n);
    assert forall k :: 0 <= k < |page| ==> page[k] == rows[skip + k];
    OrdersAnswer(page, |own|, n, skip)
  }

  /** The `where: { userId }` of the payment-order listing. */
  function OwnedBy(userId: UserId): PaymentOrder -> bool {
    (o: PaymentOrder) => o.userId == userId
  }
}
