/** The audit routes of routes/admin.ts: every route sits behind the admin
    gate; the listing routes build a `where` filter from the query
    parameters actually supplied and answer one window of the matching
    rows, newest first, with their count and grouped totals; the ledger
    route gathers one user's rows and sums them up. Date parsing is a
    parameter. */
module Admin {
  import opened Common
  import opened Accounts
  import opened AuthMiddleware

  /** The window an audit listing answers when the query names none. */
  const DefaultAuditLimit := 100

  // ---------------------------------------------------------------------
  // The gate

  /** requireAuth followed by requireAdmin, as the router mounts them: the
      401 or 403 a request is refused with, or None for an admin. */
  function AdminGate(header: Option<string>, verify: TokenVerifier): (e: Option<AppError>)
    ensures e.None? <==>
      exists token :: header == Some(BearerPrefix + token) && verify(token).Some? && verify(token).value.role == RoleAdmin
    ensures e.Some? ==> e.value.status == 401 || e.value.status == 403
  {
    match Authenticate(header, verify)
    case Err(err) => Some(err)
    case Ok(claims) =>
      var token := BearerToken(header).value;
      assert forall t :: header == Some(BearerPrefix + t) ==> t == token by {
        forall t | header == Some(BearerPrefix + t) { BearerRoundTrip(t); }
      }
      RequireAdmin(Some(claims))
  }

  // ---------------------------------------------------------------------
  // Filters

  /** `new Date(text)`, in milliseconds. */
  type DateParser = string -> int

  /** A createdAt bound: `gte` and `lte` as given. */
  datatype DateRange = DateRange(gte: Option<int>, lte: Option<int>)

  /** A Prisma `where` object: column equalities, and a createdAt range. */
  datatype Where = Where(fields: map<string, string>, createdAt: Option<DateRange>)

  predicate InRange(r: DateRange, at: int) {
    (r.gte.Some? ==> r.gte.value <= at) && (r.lte.Some? ==> at <= r.lte.value)
  }

  /** A row, seen through its columns and its creation instant, passes the
      filter. A column the row lacks (a null) equals nothing. */
  predicate Matches(w: Where, columns: map<string, string>, at: int) {
    (forall k :: k in w.fields ==> k in columns && columns[k] == w.fields[k])
    && (w.createdAt.Some? ==> InRange(w.createdAt.value, at))
  }

  /** What a query parameter asks of a row: nothing when absent or empty,
      the column's value otherwise. */
  predicate Given(name: string, value: Option<string>, columns: map<string, string>) {
    Truthy(value) ==> name in columns && columns[name] == value.value
  }

  /** What startDate and endDate ask of a creation instant. */
  predicate InDates(startDate: Option<string>, endDate: Option<string>, parse: DateParser, at: int) {
    (Truthy(startDate) ==> parse(startDate.value) <= at) && (Truthy(endDate) ==> at <= parse(endDate.value))
  }

  /** What a listing query asks of a row: agreement with each column
      parameter supplied, and a creation instant within the dates given. */
  predicate Asks(k1: string, v1: Option<string>, k2: string, v2: Option<string>, k3: string, v3: Option<string>,
                 startDate: Option<string>, endDate: Option<string>, parse: DateParser,
                 columns: map<string, string>, at: int) {
    Given(k1, v1, columns) && Given(k2, v2, columns) && Given(k3, v3, columns) && InDates(startDate, endDate, parse, at)
  }

  /** The createdAt range: present only when startDate or endDate is, and
      with only the bounds given. */
  function DateFilter(startDate: Option<string>, endDate: Option<string>, parse: DateParser): (r: Option<DateRange>)
    ensures r.Some? <==> Truthy(startDate) || Truthy(endDate)
    ensures r.Some? ==> (r.value.gte.Some? <==> Truthy(startDate)) && (r.value.lte.Some? <==> Truthy(endDate))
    ensures forall at :: (r.None? || InRange(r.value, at)) <==> InDates(startDate, endDate, parse, at)
  {
    if Truthy(startDate) || Truthy(endDate) then
      Some(DateRange(if Truthy(startDate) then Some(parse(startDate.value)) else None,
                     if Truthy(endDate) then Some(parse(endDate.value)) else None))
    else None
  }

  /** The `where` of a listing route, built field by field from its three
      column parameters and the date bounds: it holds exactly the
      parameters supplied, and a row passes it exactly when it agrees with
      each of them. */
  method AuditWhere(k1: string, v1: Option<string>, k2: string, v2: Option<string>, k3: string, v3: Option<string>,
                    startDate: Option<string>, endDate: Option<string>, parse: DateParser)
    returns (w: Where)
    requires k1 != k2 && k1 != k3 && k2 != k3
    ensures w.fields.Keys <= {k1, k2, k3}
    ensures (k1 in w.fields <==> Truthy(v1)) && (k2 in w.fields <==> Truthy(v2)) && (k3 in w.fields <==> Truthy(v3))
    ensures w.createdAt.Some? <==> Truthy(startDate) || Truthy(endDate)
    ensures forall columns, at :: Matches(w, columns, at) <==> Asks(k1, v1, k2, v2, k3, v3, startDate, endDate, parse, columns, at)
  {
    var fields: map<string, string> := map[];
    if Truthy(v1) {
      fields := fields[k1 := v1.value];
    }
    if Truthy(v2) {
      fields := fields[k2 := v2.value];
    }
    if Truthy(v3) {
      fields := fields[k3 := v3.value];
    }
    w := Where(fields, DateFilter(startDate, endDate, parse));
  }

  // ---------------------------------------------------------------------
  // Listings

  /** An audit listing: one window of the matching rows, how many match,
      and the window asked for. */
  datatype Page<T> = Page(rows: seq<T>, total: nat, limit: nat, offset: nat)

  /** `parseInt(q ?? default)`: unlike the user-facing routes, an explicit
      0 is kept. */
  function QueryOr(q: Option<nat>, default: nat): (n: nat)
    ensures q.Some? ==> n == q.value
    ensures q.None? ==> n == default
  {
    if q.Some? then q.value else default
  }


  /** The test a `where` puts to a row. */
  function Passes<T>(w: Where, columns: T -> map<string, string>, at: T -> int): T -> bool {
    x => Matches(w, columns(x), at(x))
  }

  function Min(a: int, b: int): int {
    if a < b then a else b
  }

  /** p is one window (limit and offset as the query gives them, 100 and 0
      by default) of the rows `wanted` picks, newest first, with how many
      there are in all. The window is cut from NewestFirst, so which rows
      it holds is fixed, rows with equal timestamps included; the clauses
      after it spell out what that window is like. */
  ghost predicate PageOf<T>(p: Page<T>, rows: seq<T>, wanted: T -> bool, at: T -> int, limit: Option<nat>, offset: Option<nat>) {
    && p.limit == QueryOr(limit, DefaultAuditLimit) && p.offset == QueryOr(offset, 0)
    && p.total == |Filter(rows, wanted)|
    && p.rows == Window(NewestFirst(rows, wanted, at), p.offset, p.limit)
    && |p.rows| <= p.limit
    && (p.offset <= p.total ==> |p.rows| == Min(p.limit, p.total - p.offset))
    && (forall k :: 0 <= k < |p.rows| ==> p.rows[k] in rows && wanted(p.rows[k]))
    && SortedDesc(p.rows, at)
  }

  /** findMany with the filter, newest first, skipping `offset` rows and
      taking `limit`, and count with the same filter. */
  function AuditList<T>(rows: seq<T>, columns: T -> map<string, string>, at: T -> int, w: Where,
                        limit: Option<nat>, offset: Option<nat>): (p: Page<T>)
    ensures PageOf(p, rows, Passes(w, columns, at), at, limit, offset)
  {
    var wanted := Passes(w, columns, at);
    var n := QueryOr(limit, DefaultAuditLimit);
    var skip := QueryOr(offset, 0);
    var p := Page(Window(NewestFirst(rows, wanted, at), skip, n), |Filter(rows, wanted)|, n, skip);
    WindowOfNewestFirst(rows, wanted, at, skip, n);
    p
  }

  /** A window of the newest-first rows holds only wanted table rows, in
      order, and is as long as the rows after the offset allow. */
  lemma WindowOfNewestFirst<T>(rows: seq<T>, wanted: T -> bool, at: T -> int, skip: nat, n: nat)
    ensures var page := Window(NewestFirst(rows, wanted, at), skip, n);
      && (skip <= |Filter(rows, wanted)| ==> |page| == Min(n, |Filter(rows, wanted)| - skip))
      && (forall k :: 0 <= k < |page| ==> page[k] in rows && wanted(page[k]))
      && SortedDesc(page, at)
  {
    var sorted := NewestFirst(rows, wanted, at);
    NewestFirstMembers(rows, wanted, at);
    WindowInside(sorted, rows, wanted, at, skip, n);
  }

  /** The newest-first rows are the wanted table rows, as many as there are. */
  lemma NewestFirstMembers<T>(rows: seq<T>, wanted: T -> bool, at: T -> int)
    ensures |NewestFirst(rows, wanted, at)| == |Filter(rows, wanted)|
    ensures forall x :: x in NewestFirst(rows, wanted, at) ==> x in rows && wanted(x)
  {
    var sorted := NewestFirst(rows, wanted, at);
    FilterMembers(rows, wanted);
    assert |sorted| == |multiset(sorted)| == |multiset(Filter(rows, wanted))|;
    forall x | x in sorted ensures x in rows && wanted(x) {
      assert x in multiset(sorted);
    }
  }

  /** A window holds elements of what it is cut from, keeps its order and
      is as long as the elements after the offset allow. */
  lemma WindowInside<T>(s: seq<T>, rows: seq<T>, wanted: T -> bool, at: T -> int, skip: nat, n: nat)
    requires SortedDesc(s, at)
    requires forall x :: x in s ==> x in rows && wanted(x)
    ensures skip <= |s| ==> |Window(s, skip, n)| == Min(n, |s| - skip)
    ensures forall k :: 0 <= k < |Window(s, skip, n)| ==> Window(s, skip, n)[k] in rows && wanted(Window(s, skip, n)[k])
    ensures SortedDesc(Window(s, skip, n), at)
  {
  }

  /** Two filters that agree on every element keep the same elements. */
  lemma {:induction false} FilterSame<T>(s: seq<T>, p: T -> bool, q: T -> bool)
    requires forall x :: p(x) == q(x)
    ensures Filter(s, p) == Filter(s, q)
  {
    if s != [] {
      FilterSame(s[1..], p, q);
    }
  }

  /** The test a `where` built by AuditWhere puts to a row is what the
      query asks of it. */
  lemma WhereAsks<T>(w: Where, columns: T -> map<string, string>, at: T -> int,
                     k1: string, v1: Option<string>, k2: string, v2: Option<string>, k3: string, v3: Option<string>,
                     startDate: Option<string>, endDate: Option<string>, parse: DateParser, wanted: T -> bool)
    requires forall columns, at :: Matches(w, columns, at) <==> Asks(k1, v1, k2, v2, k3, v3, startDate, endDate, parse, columns, at)
    requires forall x :: wanted(x) == Asks(k1, v1, k2, v2, k3, v3, startDate, endDate, parse, columns(x), at(x))
    ensures forall x :: Passes(w, columns, at)(x) == wanted(x)
  {
    forall x ensures Passes(w, columns, at)(x) == wanted(x) {
      assert Passes(w, columns, at)(x) == Matches(w, columns(x), at(x));
    }
  }

  /** A window of the rows the `where` passes is a window of the rows
      the query asks for. */
  lemma PageOfWanted<T>(p: Page<T>, rows: seq<T>, w: Where, columns: T -> map<string, string>, at: T -> int,
                        limit: Option<nat>, offset: Option<nat>, wanted: T -> bool)
    requires forall x :: Passes(w, columns, at)(x) == wanted(x)
    requires PageOf(p, rows, Passes(w, columns, at), at, limit, offset)
    ensures Filter(rows, Passes(w, columns, at)) == Filter(rows, wanted)
    ensures PageOf(p, rows, wanted, at, limit, offset)
  {
    FilterSame(rows, Passes(w, columns, at), wanted);
  }

  // ---------------------------------------------------------------------
  // Grouped totals

  /** How many rows of a group there are, and the sum of their amounts. */
  datatype Totals = Totals(count: nat, sum: int)

  /** The total of f over a sequence (Array.prototype.reduce from 0). */
  function Sum<T>(s: seq<T>, f: T -> int): int {
    if s == [] then 0 else f(s[0]) + Sum(s[1..], f)
  }

  lemma {:induction false} SumAppend<T>(a: seq<T>, b: seq<T>, f: T -> int)
    ensures Sum(a + b, f) == Sum(a, f) + Sum(b, f)
  {
    if a != [] {
      SumAppend(a[1..], b, f);
      assert (a + b)[1..] == a[1..] + b;
    } else {
      assert a + b == b;
    }
  }

  /** Taking the i-th term out of a sum. */
  lemma {:induction false} SumRemove<T>(t: seq<T>, i: nat, f: T -> int)
    requires i < |t|
    ensures multiset(t[..i] + t[i + 1..]) == multiset(t) - multiset{t[i]}
    ensures Sum(t, f) == f(t[i]) + Sum(t[..i] + t[i + 1..], f)
  {
    var before, after := t[..i], t[i + 1..];
    var tail := [t[i]] + after;
    assert t == before + tail;
    assert multiset(t) == multiset(before) + multiset{t[i]} + multiset(after);
    SumAppend(before, tail, f);
    SumAppend(before, after, f);
    assert tail[1..] == after;
  }

  /** A sum does not depend on the order of its terms. */
  lemma {:induction false} SumPermutation<T>(s: seq<T>, t: seq<T>, f: T -> int)
    requires multiset(s) == multiset(t)
    ensures Sum(s, f) == Sum(t, f)
    decreases |s|
  {
    if s == [] {
      assert |t| == |multiset(t)|;
    } else {
      assert s == [s[0]] + s[1..];
      assert multiset(s) == multiset{s[0]} + multiset(s[1..]);
      assert s[0] in t by {
        assert s[0] in multiset(t);
      }
      var i :| 0 <= i < |t| && t[i] == s[0];
      var rest := t[..i] + t[i + 1..];
      SumRemove(t, i, f);
      assert multiset(s[1..]) == multiset(rest);
      SumPermutation(s[1..], rest, f);
    }
  }

  /** Summing f over the rows p keeps is summing g over all rows, where g
      is f on the rows p keeps and 0 elsewhere. */
  lemma {:induction false} SumFilter<T>(s: seq<T>, p: T -> bool, f: T -> int, g: T -> int)
    requires forall x :: g(x) == (if p(x) then f(x) else 0)
    ensures Sum(Filter(s, p), f) == Sum(s, g)
  {
    if s != [] {
      SumFilter(s[1..], p, f, g);
      var head := if p(s[0]) then [s[0]] else [];
      SumAppend(head, Filter(s[1..], p), f);
      if p(s[0]) {
        assert head[1..] == [];
      }
    }
  }

  /** The rows a group holds. */
  function InGroup<T, K(==)>(key: T -> K, k: K): T -> bool {
    x => key(x) == k
  }

  /** groupBy with _count and _sum of one amount: one entry per key that
      occurs. */
  function GroupBy<T, K(==)>(rows: seq<T>, key: T -> K, amount: T -> int): (g: map<K, Totals>)
    ensures g.Keys == set i | 0 <= i < |rows| :: key(rows[i])
  {
    if rows == [] then map[]
    else
      var rest := GroupBy(rows[1..], key, amount);
      assert forall i :: 0 < i < |rows| ==> rows[i] == rows[1..][i - 1];
      var k := key(rows[0]);
      var prev := if k in rest then rest[k] else Totals(0, 0);
      rest[k := Totals(prev.count + 1, prev.sum + amount(rows[0]))]
  }

  /** Each group counts exactly the rows with its key and sums exactly
      their amounts. */
  lemma {:induction false} GroupByTotals<T, K>(rows: seq<T>, key: T -> K, amount: T -> int, k: K)
    requires k in GroupBy(rows, key, amount)
    ensures GroupBy(rows, key, amount)[k] ==
      Totals(|Filter(rows, InGroup(key, k))|, Sum(Filter(rows, InGroup(key, k)), amount))
  {
    var rest := GroupBy(rows[1..], key, amount);
    var head := if key(rows[0]) == k then [rows[0]] else [];
    assert Filter(rows, InGroup(key, k)) == head + Filter(rows[1..], InGroup(key, k));
    SumAppend(head, Filter(rows[1..], InGroup(key, k)), amount);
    if k in rest {
      GroupByTotals(rows[1..], key, amount, k);
    } else {
      forall i | 0 <= i < |rows[1..]| ensures !InGroup(key, k)(rows[1..][i]) {
        assert key(rows[1..][i]) in rest.Keys;
      }
      FilterNone(rows[1..], InGroup(key, k));
    }
  }

  /** Nothing passes a filter no element satisfies. */
  lemma {:induction false} FilterNone<T>(s: seq<T>, p: T -> bool)
    requires forall i :: 0 <= i < |s| ==> !p(s[i])
    ensures Filter(s, p) == []
  {
    if s != [] {
      FilterNone(s[1..], p);
    }
  }

  // ---------------------------------------------------------------------
  // The listing routes

  function OrderStatusName(s: OrderStatus): string {
    match s
    case Created => "CREATED"
    case Success => "SUCCESS"
    case Failed => "FAILED"
  }

  /** The columns each listing filters on; a gift without a call has no
      callId to match. */
  function TransactionColumns(t: Transaction): map<string, string> {
    map["userId" := t.userId, "type" := t.kind, "status" := t.status]
  }

  function OrderColumns(o: PaymentOrder): map<string, string> {
    map["userId" := o.userId, "status" := OrderStatusName(o.status), "provider" := o.provider]
  }

  function GiftColumns(g: Gift): map<string, string> {
    var pair := map["giverId" := g.giverId, "receiverId" := g.receiverId];
    if g.callId.Some? then pair["callId" := g.callId.value] else pair
  }

  /** The transactions a query asks for, in the table's own terms. */
  function TransactionsAsked(userId: Option<string>, kind: Option<string>, status: Option<string>,
                             startDate: Option<string>, endDate: Option<string>, parse: DateParser): Transaction -> bool {
    (t: Transaction) => (Truthy(userId) ==> t.userId == userId.value) && (Truthy(kind) ==> t.kind == kind.value)
      && (Truthy(status) ==> t.status == status.value) && InDates(startDate, endDate, parse, t.createdAt)
  }

  function OrdersAsked(userId: Option<string>, status: Option<string>, provider: Option<string>,
                       startDate: Option<string>, endDate: Option<string>, parse: DateParser): PaymentOrder -> bool {
    (o: PaymentOrder) => (Truthy(userId) ==> o.userId == userId.value) && (Truthy(status) ==> OrderStatusName(o.status) == status.value)
      && (Truthy(provider) ==> o.provider == provider.value) && InDates(startDate, endDate, parse, o.createdAt)
  }

  function GiftsAsked(giverId: Option<string>, receiverId: Option<string>, callId: Option<string>,
                      startDate: Option<string>, endDate: Option<string>, parse: DateParser): Gift -> bool {
    (g: Gift) => (Truthy(giverId) ==> g.giverId == giverId.value) && (Truthy(receiverId) ==> g.receiverId == receiverId.value)
      && (Truthy(callId) ==> g.callId == Some(callId.value)) && InDates(startDate, endDate, parse, g.createdAt)
  }

  /** Each table's own reading of a query is what the query asks of the
      row's filtered columns. */
  lemma TransactionsAskedAsks(userId: Option<string>, kind: Option<string>, status: Option<string>,
                              startDate: Option<string>, endDate: Option<string>, parse: DateParser)
    ensures forall t :: (TransactionsAsked(userId, kind, status, startDate, endDate, parse)(t)
      == Asks("userId", userId, "type", kind, "status", status, startDate, endDate, parse, TransactionColumns(t), TransactionCreatedAt(t)))
  {
  }

  lemma OrdersAskedAsks(userId: Option<string>, status: Option<string>, provider: Option<string>,
                        startDate: Option<string>, endDate: Option<string>, parse: DateParser)
    ensures forall o :: (OrdersAsked(userId, status, provider, startDate, endDate, parse)(o)
      == Asks("userId", userId, "status", status, "provider", provider, startDate, endDate, parse, OrderColumns(o), OrderCreatedAt(o)))
  {
  }

  lemma GiftsAskedAsks(giverId: Option<string>, receiverId: Option<string>, callId: Option<string>,
                       startDate: Option<string>, endDate: Option<string>, parse: DateParser)
    ensures forall g :: (GiftsAsked(giverId, receiverId, callId, startDate, endDate, parse)(g)
      == Asks("giverId", giverId, "receiverId", receiverId, "callId", callId, startDate, endDate, parse, GiftColumns(g), GiftCreatedAt(g)))
  {
  }

  /** The keys and amounts the summaries group and sum by. */
  function KindAndStatus(t: Transaction): (string, string) { (t.kind, t.status) }
  function TransactionAmount(t: Transaction): int { t.amount }
  function StatusAndProvider(o: PaymentOrder): (string, string) { (OrderStatusName(o.status), o.provider) }
  function OrderAmount(o: PaymentOrder): int { o.amount }
  function OrderDiamonds(o: PaymentOrder): int { o.diamonds }
  function GiftKind(g: Gift): string { g.giftType }
  function GiftValue(g: Gift): int { g.diamondValue }

  datatype TransactionAudit = TransactionAudit(page: Page<Transaction>, summary: map<(string, string), Totals>)

  /** The payment-order statistics: per (status, provider), the count and
      the sums of amount and of diamonds. */
  datatype OrderAudit = OrderAudit(page: Page<PaymentOrder>, amounts: map<(string, string), Totals>,
                                   diamonds: map<(string, string), Totals>)

  datatype GiftAudit = GiftAudit(page: Page<Gift>, stats: map<string, Totals>)

  /** GET /admin/transactions: one window of the transactions the query
      asks for, newest first, how many there are, and their count and
      amount per (type, status). */
  method AuditTransactions(db: Database, header: Option<string>, verify: TokenVerifier,
                           userId: Option<string>, kind: Option<string>, status: Option<string>,
                           startDate: Option<string>, endDate: Option<string>, parse: DateParser,
                           limit: Option<nat>, offset: Option<nat>)
    returns (r: Result<TransactionAudit, AppError>)
    ensures AdminGate(header, verify).Some? <==> r.Err?
    ensures r.Err? ==> r.error == AdminGate(header, verify).value
    ensures r.Ok? ==>
      var asked := TransactionsAsked(userId, kind, status, startDate, endDate, parse);
      && PageOf(r.value.page, db.transactions, asked, TransactionCreatedAt, limit, offset)
      && r.value.summary == GroupBy(Filter(db.transactions, asked), KindAndStatus, TransactionAmount)
  {
    var refusal := AdminGate(header, verify);
    if refusal.Some? {
      return Err(refusal.value);
    }
    var w := AuditWhere("userId", userId, "type", kind, "status", status, startDate, endDate, parse);
    var asked := TransactionsAsked(userId, kind, status, startDate, endDate, parse);
    TransactionsAskedAsks(userId, kind, status, startDate, endDate, parse);
    WhereAsks(w, TransactionColumns, TransactionCreatedAt, "userId", userId, "type", kind, "status", status,
              startDate, endDate, parse, asked);
    var page := AuditList(db.transactions, TransactionColumns, TransactionCreatedAt, w, limit, offset);
    PageOfWanted(page, db.transactions, w, TransactionColumns, TransactionCreatedAt, limit, offset, asked);
    r := Ok(TransactionAudit(page, GroupBy(Filter(db.transactions, Passes(w, TransactionColumns, TransactionCreatedAt)),
                                           KindAndStatus, TransactionAmount)));
  }

  /** GET /admin/payment-orders: likewise for payment orders, with their
      count, amount and diamonds per (status, provider). */
  method AuditOrders(db: Database, header: Option<string>, verify: TokenVerifier,
                     userId: Option<string>, status: Option<string>, provider: Option<string>,
                     startDate: Option<string>, endDate: Option<string>, parse: DateParser,
                     limit: Option<nat>, offset: Option<nat>)
    returns (r: Result<OrderAudit, AppError>)
    ensures AdminGate(header, verify).Some? <==> r.Err?
    ensures r.Err? ==> r.error == AdminGate(header, verify).value
    ensures r.Ok? ==>
      var asked := OrdersAsked(userId, status, provider, startDate, endDate, parse);
      && PageOf(r.value.page, db.orders, asked, OrderCreatedAt, limit, offset)
      && r.value.amounts == GroupBy(Filter(db.orders, asked), StatusAndProvider, OrderAmount)
      && r.value.diamonds == GroupBy(Filter(db.orders, asked), StatusAndProvider, OrderDiamonds)
  {
    var refusal := AdminGate(header, verify);
    if refusal.Some? {
      return Err(refusal.value);
    }
    var w := AuditWhere("userId", userId, "status", status, "provider", provider, startDate, endDate, parse);
    var asked := OrdersAsked(userId, status, provider, startDate, endDate, parse);
    OrdersAskedAsks(userId, status, provider, startDate, endDate, parse);
    WhereAsks(w, OrderColumns, OrderCreatedAt, "userId", userId, "status", status, "provider", provider,
              startDate, endDate, parse, asked);
    var page := AuditList(db.orders, OrderColumns, OrderCreatedAt, w, limit, offset);
    PageOfWanted(page, db.orders, w, OrderColumns, OrderCreatedAt, limit, offset, asked);
    var matching := Filter(db.orders, Passes(w, OrderColumns, OrderCreatedAt));
    r := Ok(OrderAudit(page, GroupBy(matching, StatusAndProvider, OrderAmount),
                       GroupBy(matching, StatusAndProvider, OrderDiamonds)));
  }

  /** GET /admin/gifts: likewise for gifts, with their count and value per
      gift type. */
  method AuditGifts(db: Database, header: Option<string>, verify: TokenVerifier,
                    giverId: Option<string>, receiverId: Option<string>, callId: Option<string>,
                    startDate: Option<string>, endDate: Option<string>, parse: DateParser,
                    limit: Option<nat>, offset: Option<nat>)
    returns (r: Result<GiftAudit, AppError>)
    ensures AdminGate(header, verify).Some? <==> r.Err?
    ensures r.Err? ==> r.error == AdminGate(header, verify).value
    ensures r.Ok? ==>
      var asked := GiftsAsked(giverId, receiverId, callId, startDate, endDate, parse);
      && PageOf(r.value.page, db.gifts, asked, GiftCreatedAt, limit, offset)
      && r.value.stats == GroupBy(Filter(db.gifts, asked), GiftKind, GiftValue)
  {
    var refusal := AdminGate(header, verify);
    if refusal.Some? {
      return Err(refusal.value);
    }
    var w := AuditWhere("giverId", giverId, "receiverId", receiverId, "callId", callId, startDate, endDate, parse);
    var asked := GiftsAsked(giverId, receiverId, callId, startDate, endDate, parse);
    GiftsAskedAsks(giverId, receiverId, callId, startDate, endDate, parse);
    WhereAsks(w, GiftColumns, GiftCreatedAt, "giverId", giverId, "receiverId", receiverId, "callId", callId,
              startDate, endDate, parse, asked);
    var page := AuditList(db.gifts, GiftColumns, GiftCreatedAt, w, limit, offset);
    PageOfWanted(page, db.gifts, w, GiftColumns, GiftCreatedAt, limit, offset, asked);
    r := Ok(GiftAudit(page, GroupBy(Filter(db.gifts, Passes(w, GiftColumns, GiftCreatedAt)), GiftKind, GiftValue)));
  }

  // ---------------------------------------------------------------------
  // The user ledger

  /** A creation instant within the ledger's date filter (none: any). */
  predicate During(range: Option<DateRange>, at: int) {
    range.None? || InRange(range.value, at)
  }

  /** The rows of each table the ledger gathers for a user. */
  function TransactionsOf(userId: UserId, range: Option<DateRange>): Transaction -> bool {
    (t: Transaction) => t.userId == userId && During(range, t.createdAt)
  }

  function OrdersOf(userId: UserId, range: Option<DateRange>): PaymentOrder -> bool {
    (o: PaymentOrder) => o.userId == userId && During(range, o.createdAt)
  }

  function GiftsGivenBy(userId: UserId, range: Option<DateRange>): Gift -> bool {
    (g: Gift) => g.giverId == userId && During(range, g.createdAt)
  }

  function GiftsReceivedBy(userId: UserId, range: Option<DateRange>): Gift -> bool {
    (g: Gift) => g.receiverId == userId && During(range, g.createdAt)
  }

  function WithdrawalsOf(userId: UserId, range: Option<DateRange>): Withdrawal -> bool {
    (w: Withdrawal) => w.userId == userId && During(range, w.createdAt)
  }

  predicate IsSuccess(o: PaymentOrder) { o.status == Success }
  predicate IsCompleted(w: Withdrawal) { w.status == Completed }
  function WithdrawalDiamonds(w: Withdrawal): int { w.diamonds }

  /** What an order adds to the purchases: its diamonds once it succeeded. */
  function PurchasedDiamonds(o: PaymentOrder): int {
    if IsSuccess(o) then o.diamonds else 0
  }

  /** What a withdrawal takes out: its diamonds once it completed. */
  function WithdrawnDiamonds(w: Withdrawal): int {
    if IsCompleted(w) then w.diamonds else 0
  }

  /** A user's net flow over a period, in the tables' own terms: diamonds
      bought in successful orders and gifts received, less gifts sent and
      completed withdrawals. */
  function NetFlow(t: Tables, userId: UserId, range: Option<DateRange>): int {
    Sum(Filter(t.orders, OrdersOf(userId, range)), PurchasedDiamonds)
    + Sum(Filter(t.gifts, GiftsReceivedBy(userId, range)), GiftValue)
    - Sum(Filter(t.gifts, GiftsGivenBy(userId, range)), GiftValue)
    - Sum(Filter(t.withdrawals, WithdrawalsOf(userId, range)), WithdrawnDiamonds)
  }

  /** The rows p picks, newest first (findMany ordered by createdAt
      descending). */
  function NewestFirst<T>(rows: seq<T>, p: T -> bool, at: T -> int): (r: seq<T>)
    ensures multiset(r) == multiset(Filter(rows, p))
    ensures SortedDesc(r, at)
  {
    SortDescByPermutes(Filter(rows, p), at);
    SortDescBySorted(Filter(rows, p), at);
    SortDescBy(Filter(rows, p), at)
  }

  /** Summing the rows `keep` picks from the newest-first list is summing g
      over the table's rows, whatever their order. */
  lemma TotalOfNewest<T>(rows: seq<T>, p: T -> bool, at: T -> int, keep: T -> bool, f: T -> int, g: T -> int)
    requires forall x :: g(x) == (if keep(x) then f(x) else 0)
    ensures Sum(Filter(NewestFirst(rows, p, at), keep), f) == Sum(Filter(rows, p), g)
  {
    SumFilter(NewestFirst(rows, p, at), keep, f, g);
    SumPermutation(NewestFirst(rows, p, at), Filter(rows, p), g);
  }

  datatype LedgerSummary = LedgerSummary(currentBalance: int, totalPurchased: int, totalGiftsSent: int,
                                         totalGiftsReceived: int, totalWithdrawn: int, netFlow: int)

  datatype Ledger = Ledger(user: User, wallet: Option<WalletRow>, transactions: seq<Transaction>,
                           paymentOrders: seq<PaymentOrder>, giftsGiven: seq<Gift>, giftsReceived: seq<Gift>,
                           withdrawals: seq<Withdrawal>, summary: LedgerSummary)

  /** The summary block, computed from the gathered lists as the route
      does: filter, then reduce. */
  function Summarize(user: User, orders: seq<PaymentOrder>, given: seq<Gift>, received: seq<Gift>,
                     withdrawals: seq<Withdrawal>): LedgerSummary {
    var purchased := Sum(Filter(orders, IsSuccess), OrderDiamonds);
    var sent := Sum(given, GiftValue);
    var got := Sum(received, GiftValue);
    var withdrawn := Sum(Filter(withdrawals, IsCompleted), WithdrawalDiamonds);
    LedgerSummary(user.diamonds, purchased, sent, got, withdrawn, purchased + got - sent - withdrawn)
  }

  /** The lists of the ledger, newest first. */
  function Gather(t: Tables, userId: UserId, range: Option<DateRange>): (l: Ledger)
    requires userId in t.users
    ensures l.user == t.users[userId] && l.wallet == (if userId in t.wallets then Some(t.wallets[userId]) else None)
    ensures multiset(l.transactions) == multiset(Filter(t.transactions, TransactionsOf(userId, range)))
    ensures multiset(l.paymentOrders) == multiset(Filter(t.orders, OrdersOf(userId, range)))
    ensures multiset(l.giftsGiven) == multiset(Filter(t.gifts, GiftsGivenBy(userId, range)))
    ensures multiset(l.giftsReceived) == multiset(Filter(t.gifts, GiftsReceivedBy(userId, range)))
    ensures multiset(l.withdrawals) == multiset(Filter(t.withdrawals, WithdrawalsOf(userId, range)))
    ensures SortedDesc(l.transactions, TransactionCreatedAt) && SortedDesc(l.paymentOrders, OrderCreatedAt)
    ensures SortedDesc(l.giftsGiven, GiftCreatedAt) && SortedDesc(l.giftsReceived, GiftCreatedAt)
    ensures SortedDesc(l.withdrawals, WithdrawalCreatedAt)
    ensures l.summary.currentBalance == t.users[userId].diamonds
    ensures l.summary.totalPurchased == Sum(Filter(t.orders, OrdersOf(userId, range)), PurchasedDiamonds)
    ensures l.summary.totalGiftsSent == Sum(Filter(t.gifts, GiftsGivenBy(userId, range)), GiftValue)
    ensures l.summary.totalGiftsReceived == Sum(Filter(t.gifts, GiftsReceivedBy(userId, range)), GiftValue)
    ensures l.summary.totalWithdrawn == Sum(Filter(t.withdrawals, WithdrawalsOf(userId, range)), WithdrawnDiamonds)
    ensures l.summary.netFlow == NetFlow(t, userId, range)
  {
    var user := t.users[userId];
    var orders := NewestFirst(t.orders, OrdersOf(userId, range), OrderCreatedAt);
    var given := NewestFirst(t.gifts, GiftsGivenBy(userId, range), GiftCreatedAt);
    var received := NewestFirst(t.gifts, GiftsReceivedBy(userId, range), GiftCreatedAt);
    var withdrawals := NewestFirst(t.withdrawals, WithdrawalsOf(userId, range), WithdrawalCreatedAt);
    TotalOfNewest(t.orders, OrdersOf(userId, range), OrderCreatedAt, IsSuccess, OrderDiamonds, PurchasedDiamonds);
    TotalOfNewest(t.withdrawals, WithdrawalsOf(userId, range), WithdrawalCreatedAt, IsCompleted, WithdrawalDiamonds, WithdrawnDiamonds);
    SumPermutation(given, Filter(t.gifts, GiftsGivenBy(userId, range)), GiftValue);
    SumPermutation(received, Filter(t.gifts, GiftsReceivedBy(userId, range)), GiftValue);
    Ledger(user, if userId in t.wallets then Some(t.wallets[userId]) else None,
           NewestFirst(t.transactions, TransactionsOf(userId, range), TransactionCreatedAt),
           orders, given, received, withdrawals, Summarize(user, orders, given, received, withdrawals))
  }

  /** GET /admin/users/:userId/ledger: behind the admin gate, 404 for an
      unknown user, and otherwise the user's rows of every table over the
      period asked for, with their totals. */
  function UserLedger(t: Tables, header: Option<string>, verify: TokenVerifier, userId: UserId,
                      startDate: Option<string>, endDate: Option<string>, parse: DateParser): (r: Result<Ledger, AppError>)
    ensures AdminGate(header, verify).Some? ==> r == Err(AdminGate(header, verify).value)
    ensures AdminGate(header, verify).None? && userId !in t.users ==> r == Err(AppError(404, "User not found"))
    ensures AdminGate(header, verify).None? && userId in t.users ==>
      r == Ok(Gather(t, userId, DateFilter(startDate, endDate, parse)))
  {
    match AdminGate(header, verify)
    case Some(e) => Err(e)
    case None =>
      if userId !in t.users then Err(AppError(404, "User not found"))
      else Ok(Gather(t, userId, DateFilter(startDate, endDate, parse)))
  }

  /** A new gift adds its value to the receiver's net flow and takes it
      from the giver's, when it falls in the period. */
  lemma GiftChangesFlow(t: Tables, g: Gift, u: UserId, range: Option<DateRange>)
    ensures NetFlow(t.(gifts := t.gifts + [g]), u, range) == NetFlow(t, u, range)
      + (if g.receiverId == u && During(range, g.createdAt) then g.diamondValue else 0)
      - (if g.giverId == u && During(range, g.createdAt) then g.diamondValue else 0)
  {
    FilterAppend(t.gifts, [g], GiftsGivenBy(u, range));
    FilterAppend(t.gifts, [g], GiftsReceivedBy(u, range));
    SumAppend(Filter(t.gifts, GiftsGivenBy(u, range)), Filter([g], GiftsGivenBy(u, range)), GiftValue);
    SumAppend(Filter(t.gifts, GiftsReceivedBy(u, range)), Filter([g], GiftsReceivedBy(u, range)), GiftValue);
  }

  /** So a gift between two users moves its value from the giver's net
      flow to the receiver's and leaves everyone else's alone. */
  lemma GiftMovesFlow(t: Tables, g: Gift, range: Option<DateRange>, other: UserId)
    requires g.giverId != g.receiverId && During(range, g.createdAt)
    requires other != g.giverId && other != g.receiverId
    ensures var t' := t.(gifts := t.gifts + [g]);
      && NetFlow(t', g.giverId, range) == NetFlow(t, g.giverId, range) - g.diamondValue
      && NetFlow(t', g.receiverId, range) == NetFlow(t, g.receiverId, range) + g.diamondValue
      && NetFlow(t', other, range) == NetFlow(t, other, range)
  {
    GiftChangesFlow(t, g, g.giverId, range);
    GiftChangesFlow(t, g, g.receiverId, range);
    GiftChangesFlow(t, g, other, range);
  }

  /** A new payment order adds its diamonds to its owner's net flow when it
      has succeeded, and nothing otherwise. */
  lemma OrderAddsFlow(t: Tables, o: PaymentOrder, u: UserId, range: Option<DateRange>)
    ensures NetFlow(t.(orders := t.orders + [o]), u, range) ==
      NetFlow(t, u, range) + (if o.userId == u && During(range, o.createdAt) && o.status == Success then o.diamonds else 0)
  {
    FilterAppend(t.orders, [o], OrdersOf(u, range));
    SumAppend(Filter(t.orders, OrdersOf(u, range)), Filter([o], OrdersOf(u, range)), PurchasedDiamonds);
  }
}
