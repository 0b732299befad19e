/** The store behind the café back end (backend/database.go): the users, menu,
    orders and order_items tables as fields of a `Provider`, and the statements
    the back end runs against them. A failure the database driver could report
    is an input of each operation (`dbFails`, `TxFault`, `UpdateFault`), so that
    every error path of the source is a path of the model. */
module Database {
  import opened Domain

  /** A row of the orders table: an order without its lines. */
  datatype OrderRow = OrderRow(id: int, total: Kopecks, status: string, createdAt: Timestamp)

  /** A row of the order_items table. */
  datatype OrderLine = OrderLine(orderId: int, menuItemId: int, quantity: int)

  /** Which statement of the order-placement transaction the database refuses.
      `PriceQueryFails(k)` and `LineInsertFails(k)` name the k-th requested line
      (counting from 0); the price query of a line also fails, without any
      injected fault, when its menu item does not exist. */
  datatype TxFault =
    | NoFault
    | BeginFails
    | HeaderInsertFails
    | PriceQueryFails(line: nat)
    | LineInsertFails(line: nat)
    | TotalUpdateFails

  /** Which of the two statements of a menu update the database refuses. */
  datatype UpdateFault = NoUpdateFault | UpdateFails | ReadBackFails

  /** What an analytics query computes and how it groups: `Sum` and `Count` of
      orders, grouped by hour (`HH24:00`), day (`YYYY-MM-DD`) or month
      (`YYYY-MM`), over the orders created in the last day, week, month or year. */
  datatype Aggregate = SumOfTotals | CountOfOrders
  datatype TimeUnit = Hour | Day | Month
  datatype Window = LastDay | LastWeek | LastMonth | LastYear
  datatype AnalyticsQuery = AnalyticsQuery(aggregate: Aggregate, unit: TimeUnit, window: Window)

  // ---------------------------------------------------------------------------
  // Users

  /** `k` is the index of the first user registered under `email`. */
  predicate FirstWithEmail(users: seq<User>, email: string, k: int)
  {
    0 <= k < |users| && users[k].email == email &&
    forall j :: 0 <= j < k ==> users[j].email != email
  }

  /** The row a single-row query `WHERE email = $1` returns: the first match. */
  function FindByEmail(users: seq<User>, email: string): (r: Option<User>)
    ensures r.None? <==> forall k :: 0 <= k < |users| ==> users[k].email != email
    ensures r.Some? ==> exists k :: FirstWithEmail(users, email, k) && users[k] == r.value
  {
    if users == [] then None
    else if users[0].email == email then
      assert FirstWithEmail(users, email, 0);
      Some(users[0])
    else
      var r := FindByEmail(users[1..], email);
      if r.Some? then
        var k :| FirstWithEmail(users[1..], email, k) && users[1..][k] == r.value;
        assert FirstWithEmail(users, email, k + 1);
        r
      else
        r
  }

  /** No two users share an email. */
  predicate UniqueEmails(users: seq<User>)
  {
    forall i, j :: 0 <= i < j < |users| ==> users[i].email != users[j].email
  }

  /** Appending a user under an email no one has makes that user the match for it. */
  lemma {:induction false} FindAfterAppend(users: seq<User>, u: User)
    requires FindByEmail(users, u.email).None?
    ensures FindByEmail(users + [u], u.email) == Some(u)
    ensures UniqueEmails(users) ==> UniqueEmails(users + [u])
  {
    if users != [] {
      assert (users + [u])[1..] == users[1..] + [u];
      FindAfterAppend(users[1..], u);
    }
  }

  // ---------------------------------------------------------------------------
  // Orders

  /** Every requested line names an existing menu item. */
  predicate AllOnMenu(items: seq<OrderItem>, menu: map<int, MenuItem>)
  {
    forall k :: 0 <= k < |items| ==> items[k].menuItemId in menu
  }

  /** The index of the first line whose menu item is missing, `|items|` if none is. */
  function FirstOffMenu(items: seq<OrderItem>, menu: map<int, MenuItem>): (m: nat)
    ensures m <= |items|
    ensures forall k :: 0 <= k < m ==> items[k].menuItemId in menu
    ensures m < |items| ==> items[m].menuItemId !in menu
  {
    if items == [] then 0
    else if items[0].menuItemId !in menu then 0
    else 1 + FirstOffMenu(items[1..], menu)
  }

  /** The value of an order: Σ price · quantity over its lines, prices read from `menu`. */
  function Total(items: seq<OrderItem>, menu: map<int, MenuItem>): Kopecks
    requires AllOnMenu(items, menu)
  {
    if items == [] then 0
    else menu[items[0].menuItemId].price * items[0].quantity + Total(items[1..], menu)
  }

  /** The total of a concatenation is the sum of the totals. */
  lemma {:induction false} TotalAppend(a: seq<OrderItem>, b: seq<OrderItem>, menu: map<int, MenuItem>)
    requires AllOnMenu(a + b, menu)
    ensures AllOnMenu(a, menu) && AllOnMenu(b, menu)
    ensures Total(a + b, menu) == Total(a, menu) + Total(b, menu)
  {
    assert forall k :: 0 <= k < |a| ==> a[k] == (a + b)[k];
    assert forall k :: 0 <= k < |b| ==> b[k] == (a + b)[|a| + k];
    if a == [] {
      assert a + b == b;
    } else {
      assert (a + b)[1..] == a[1..] + b;
      TotalAppend(a[1..], b, menu);
    }
  }

  /** With non-negative prices and positive quantities no order is worth less than nothing. */
  lemma {:induction false} TotalNonNegative(items: seq<OrderItem>, menu: map<int, MenuItem>)
    requires AllOnMenu(items, menu)
    requires forall id :: id in menu ==> menu[id].price >= 0
    requires forall k :: 0 <= k < |items| ==> items[k].quantity > 0
    ensures Total(items, menu) >= 0
  {
    if items != [] {
      var price, quantity := menu[items[0].menuItemId].price, items[0].quantity;
      assert price * quantity >= 0;
      TotalNonNegative(items[1..], menu);
    }
  }

  /** The order_items rows placement writes for `items` under order `orderId`. */
  function LinesOf(orderId: int, items: seq<OrderItem>): seq<OrderLine>
  {
    seq(|items|, k requires 0 <= k < |items| => OrderLine(orderId, items[k].menuItemId, items[k].quantity))
  }

  /** The transaction reaches its commit: every statement it runs succeeds. */
  predicate Commits(items: seq<OrderItem>, menu: map<int, MenuItem>, fault: TxFault)
  {
    AllOnMenu(items, menu) &&
    match fault
    case NoFault => true
    case PriceQueryFails(k) => k >= |items|
    case LineInsertFails(k) => k >= |items|
    case _ => false
  }

  /** The error of the first statement that fails, in the order the transaction
      runs them: begin, header insert, then per line its price query and its
      insert, then the total update. */
  function TxError(items: seq<OrderItem>, menu: map<int, MenuItem>, fault: TxFault): Error
    requires !Commits(items, menu, fault)
  {
    var m := FirstOffMenu(items, menu);
    match fault
    case BeginFails => StorageError
    case HeaderInsertFails => OrderInsertFailed
    case PriceQueryFails(k) =>
      if k < m then PriceLookupFailed(items[k].menuItemId) else PriceLookupFailed(items[m].menuItemId)
    case LineInsertFails(k) =>
      if k < m then OrderItemInsertFailed else PriceLookupFailed(items[m].menuItemId)
    case TotalUpdateFails =>
      if m < |items| then PriceLookupFailed(items[m].menuItemId) else TotalUpdateFailed
    case NoFault => PriceLookupFailed(items[m].menuItemId)
  }

  /** What placing `items` returns when the next order id is `nextId`. */
  function Placement(items: seq<OrderItem>, menu: map<int, MenuItem>, nextId: int, now: Timestamp, fault: TxFault): Result<Order>
  {
    if Commits(items, menu, fault) then Ok(Order(nextId, Total(items, menu), InProgress, now, items))
    else Err(TxError(items, menu, fault))
  }

  /** A placement succeeds exactly when every line is on the menu and no
      statement is refused; it then carries the next id, the status
      "В работе", the lines as requested and their Σ price · quantity, which
      is never negative when prices are not and quantities are positive. */
  lemma {:induction false} PlacementSucceeds(items: seq<OrderItem>, menu: map<int, MenuItem>, nextId: int, now: Timestamp, fault: TxFault)
    requires forall id :: id in menu ==> menu[id].price >= 0
    requires forall k :: 0 <= k < |items| ==> items[k].quantity > 0
    ensures (exists k :: 0 <= k < |items| && items[k].menuItemId !in menu) ==> Placement(items, menu, nextId, now, fault).Err?
    ensures fault == NoFault ==> (Placement(items, menu, nextId, now, fault).Ok? <==> AllOnMenu(items, menu))
    ensures Placement(items, menu, nextId, now, fault).Ok? ==>
      var o := Placement(items, menu, nextId, now, fault).value;
      o.id == nextId && o.status == InProgress && o.items == items && o.createdAt == now &&
      AllOnMenu(items, menu) && o.total == Total(items, menu) && o.total >= 0
  {
    if AllOnMenu(items, menu) {
      TotalNonNegative(items, menu);
    }
  }

  /** Items at 100.00 and 50.00, ordered twice and once: the order is worth
      250.00, has two lines, and completing it keeps that total. */
  lemma PlacementExample()
    ensures
      var menu := map[1 := MenuItem(1, "Латте", "", 10000, "t0"), 2 := MenuItem(2, "Круассан", "", 5000, "t0")];
      var items := [OrderItem(1, 2), OrderItem(2, 1)];
      var placed := Placement(items, menu, 7, "t1", NoFault);
      && placed == Ok(Order(7, 25000, InProgress, "t1", items))
      && LinesOf(7, items) == [OrderLine(7, 1, 2), OrderLine(7, 2, 1)]
      && SetStatus(map[7 := OrderRow(7, 25000, InProgress, "t1")], 7, Completed)[7] == OrderRow(7, 25000, Completed, "t1")
  {
    var menu := map[1 := MenuItem(1, "Латте", "", 10000, "t0"), 2 := MenuItem(2, "Круассан", "", 5000, "t0")];
    var items := [OrderItem(1, 2), OrderItem(2, 1)];
    assert items[1..][1..] == [];
    assert Total(items, menu) == 25000;
  }

  /** `orders` with the status of order `id` replaced, if there is such an order. */
  function SetStatus(orders: map<int, OrderRow>, id: int, status: string): (r: map<int, OrderRow>)
    ensures r.Keys == orders.Keys
    ensures forall k :: k in r && k != id ==> r[k] == orders[k]
    ensures id in orders ==> r[id] == orders[id].(status := status)
  {
    if id in orders then orders[id := orders[id].(status := status)] else orders
  }

  /** Writing the same status twice is the same as writing it once. */
  lemma SetStatusIdempotent(orders: map<int, OrderRow>, id: int, status: string)
    ensures SetStatus(SetStatus(orders, id, status), id, status) == SetStatus(orders, id, status)
  {
  }

  // ---------------------------------------------------------------------------
  // Menu and orders listings

  predicate IncreasingMenuIds(rows: seq<MenuItem>)
  {
    forall i, j :: 0 <= i < j < |rows| ==> rows[i].id < rows[j].id
  }

  function MenuIds(rows: seq<MenuItem>): set<int>
  {
    set k | 0 <= k < |rows| :: rows[k].id
  }

  /** An orders row as a listing shows it: no lines. */
  function Listed(row: OrderRow): Order
  {
    Order(row.id, row.total, row.status, row.createdAt, [])
  }

  predicate IncreasingOrderIds(rows: seq<Order>)
  {
    forall i, j :: 0 <= i < j < |rows| ==> rows[i].id < rows[j].id
  }

  function OrderIds(rows: seq<Order>): set<int>
  {
    set k | 0 <= k < |rows| :: rows[k].id
  }

  /** The analytics periods the store knows. */
  predicate KnownPeriod(period: string)
  {
    period == "day" || period == "week" || period == "month" || period == "year"
  }

  // ---------------------------------------------------------------------------
  // Consistency of the tables

  /** Keys are row ids issued by the sequences (which start at 1); every order
      line belongs to an existing order. */
  ghost predicate Consistent(menu: map<int, MenuItem>, menuSeq: int, orders: map<int, OrderRow>, orderSeq: int, lines: seq<OrderLine>)
  {
    1 <= menuSeq && 1 <= orderSeq &&
    (forall id :: id in menu ==> 1 <= id < menuSeq && menu[id].id == id) &&
    (forall id :: id in orders ==> 1 <= id < orderSeq && orders[id].id == id) &&
    (forall k :: 0 <= k < |lines| ==> lines[k].orderId in orders)
  }

  /** A header under the next order id, with lines of that order, keeps the tables consistent. */
  lemma HeaderInsertKeepsConsistent(menu: map<int, MenuItem>, menuSeq: int, orders: map<int, OrderRow>, orderSeq: int,
                                    lines: seq<OrderLine>, row: OrderRow, items: seq<OrderItem>)
    requires Consistent(menu, menuSeq, orders, orderSeq, lines)
    requires row.id == orderSeq
    ensures orderSeq !in orders
    ensures Consistent(menu, menuSeq, orders[orderSeq := row], orderSeq + 1, lines + LinesOf(orderSeq, items))
  {
  }

  /** Drawing an order id and then rolling back keeps the tables consistent. */
  lemma SequenceAdvanceKeepsConsistent(menu: map<int, MenuItem>, menuSeq: int, orders: map<int, OrderRow>, orderSeq: int,
                                       lines: seq<OrderLine>)
    requires Consistent(menu, menuSeq, orders, orderSeq, lines)
    ensures Consistent(menu, menuSeq, orders, orderSeq + 1, lines)
  {
  }

  /** A menu row joins a listing's id set. */
  lemma MenuIdsSnoc(rows: seq<MenuItem>, m: MenuItem)
    ensures MenuIds(rows + [m]) == MenuIds(rows) + {m.id}
  {
    var s := rows + [m];
    assert forall k :: 0 <= k < |rows| ==> s[k] == rows[k];
    assert s[|rows|] == m;
    forall x | x in MenuIds(s) ensures x in MenuIds(rows) + {m.id} {
      var k :| 0 <= k < |s| && s[k].id == x;
      if k < |rows| { assert rows[k].id == x; }
    }
  }

  /** An order joins a listing's id set. */
  lemma OrderIdsSnoc(rows: seq<Order>, o: Order)
    ensures OrderIds(rows + [o]) == OrderIds(rows) + {o.id}
  {
    var s := rows + [o];
    assert forall k :: 0 <= k < |rows| ==> s[k] == rows[k];
    assert s[|rows|] == o;
    forall x | x in OrderIds(s) ensures x in OrderIds(rows) + {o.id} {
      var k :| 0 <= k < |s| && s[k].id == x;
      if k < |rows| { assert rows[k].id == x; }
    }
  }

  // ---------------------------------------------------------------------------
  // Outcomes of the order transaction, statement by statement

  /** Lines before `i` are on the menu, so the first missing one is not before `i`. */
  lemma FirstOffMenuFrom(items: seq<OrderItem>, menu: map<int, MenuItem>, i: nat)
    requires i <= |items| && AllOnMenu(items[..i], menu)
    ensures FirstOffMenu(items, menu) >= i
  {
  }

  /** The price query of line `i` fails: the placement fails with that line's menu item. */
  lemma PriceLookupOutcome(items: seq<OrderItem>, menu: map<int, MenuItem>, nextId: int, now: Timestamp, fault: TxFault, i: nat)
    requires i < |items| && AllOnMenu(items[..i], menu)
    requires !fault.BeginFails? && !fault.HeaderInsertFails?
    requires fault.PriceQueryFails? ==> fault.line >= i
    requires fault.LineInsertFails? ==> fault.line >= i
    requires items[i].menuItemId !in menu || fault == PriceQueryFails(i)
    ensures Placement(items, menu, nextId, now, fault) == Err(PriceLookupFailed(items[i].menuItemId))
  {
    FirstOffMenuFrom(items, menu, i);
    var m := FirstOffMenu(items, menu);
    assert items[i].menuItemId !in menu ==> m == i;
    assert !Commits(items, menu, fault);
  }

  /** The insert of line `i` fails after its price was read: the placement fails there. */
  lemma LineInsertOutcome(items: seq<OrderItem>, menu: map<int, MenuItem>, nextId: int, now: Timestamp, i: nat)
    requires i < |items| && AllOnMenu(items[..i + 1], menu)
    ensures Placement(items, menu, nextId, now, LineInsertFails(i)) == Err(OrderItemInsertFailed)
  {
    FirstOffMenuFrom(items, menu, i + 1);
  }

  /** Every line was priced and inserted: only the total update is left. */
  lemma LinesDoneOutcome(items: seq<OrderItem>, menu: map<int, MenuItem>, nextId: int, now: Timestamp, fault: TxFault)
    requires AllOnMenu(items, menu)
    requires !fault.BeginFails? && !fault.HeaderInsertFails?
    requires fault.PriceQueryFails? ==> fault.line >= |items|
    requires fault.LineInsertFails? ==> fault.line >= |items|
    ensures fault == TotalUpdateFails ==> Placement(items, menu, nextId, now, fault) == Err(TotalUpdateFailed)
    ensures fault != TotalUpdateFails ==> Placement(items, menu, nextId, now, fault) == Ok(Order(nextId, Total(items, menu), InProgress, now, items))
  {
    assert FirstOffMenu(items, menu) == |items|;
  }

  // ---------------------------------------------------------------------------

  /** The database. Ids of menu items and orders come from sequences
      (`menuSeq`, `orderSeq` hold their next values), which, as in PostgreSQL,
      do not roll back with a transaction. */
  class Provider {
    var users: seq<User>
    var menu: map<int, MenuItem>
    var orders: map<int, OrderRow>
    var lines: seq<OrderLine>
    var menuSeq: int
    var orderSeq: int

    /** Keys are row ids issued by the sequences; every line belongs to an order. */
    ghost predicate Valid()
      reads this
    {
      Consistent(menu, menuSeq, orders, orderSeq, lines)
    }

    /** An empty database. */
    constructor ()
      ensures Valid()
      ensures users == [] && menu == map[] && orders == map[] && lines == []
    {
      users, menu, orders, lines := [], map[], map[], [];
      menuSeq, orderSeq := 1, 1;
    }

    // --- users -------------------------------------------------------------

    /** INSERT INTO users: one more row, as given. */
    method CreateUser(username: string, email: string, hashedPassword: string, dbFails: bool) returns (err: Option<Error>)
      requires Valid()
      modifies this`users
      ensures Valid()
      ensures err == if dbFails then Some(StorageError) else None
      ensures users == if dbFails then old(users) else old(users) + [User(username, email, hashedPassword)]
    {
      if dbFails {
        return Some(StorageError);
      }
      users := users + [User(username, email, hashedPassword)];
      return None;
    }

    /** Whether some user has `email`; a failed query answers (false, error). */
    function CheckUserByEmail(email: string, dbFails: bool): (r: (bool, Option<Error>))
      reads this
      ensures dbFails ==> r == (false, Some(StorageError))
      ensures !dbFails ==> r.1 == None
      ensures !dbFails ==> (r.0 <==> exists k :: 0 <= k < |users| && users[k].email == email)
    {
      if dbFails then (false, Some(StorageError))
      else (FindByEmail(users, email).Some?, None)
    }

    /** Name and password hash of the first user with `email`. */
    function GetUsernameAndHashedPassword(email: string, dbFails: bool): (r: (string, string, Option<Error>))
      reads this
      ensures dbFails ==> r == ("", "", Some(StorageError))
      ensures !dbFails && (forall k :: 0 <= k < |users| ==> users[k].email != email) ==> r == ("", "", Some(NoRows))
      ensures r.2 == None ==> !dbFails && exists k :: FirstWithEmail(users, email, k) && users[k] == User(r.0, email, r.1)
      ensures !dbFails && (exists k :: 0 <= k < |users| && users[k].email == email) ==> r.2 == None
    {
      if dbFails then ("", "", Some(StorageError))
      else match FindByEmail(users, email)
        case None => ("", "", Some(NoRows))
        case Some(u) => (u.name, u.password, None)
    }

    // --- menu --------------------------------------------------------------

    /** SELECT ... FROM menu ORDER BY id ASC: every menu row, once, by ascending id. */
    method FetchMenuItems(dbFails: bool) returns (r: Result<seq<MenuItem>>)
      requires Valid()
      ensures r.Ok? <==> !dbFails
      ensures r.Err? ==> r.error == StorageError
      ensures r.Ok? ==> IncreasingMenuIds(r.value) && MenuIds(r.value) == menu.Keys
      ensures r.Ok? ==> forall k :: 0 <= k < |r.value| ==> r.value[k].id in menu && r.value[k] == menu[r.value[k].id]
    {
      if dbFails {
        return Err(StorageError);
      }
      var rows: seq<MenuItem> := [];
      var id := 1;
      while id < menuSeq
        invariant 1 <= id <= menuSeq
        invariant forall k :: 0 <= k < |rows| ==> rows[k].id < id && rows[k].id in menu && rows[k] == menu[rows[k].id]
        invariant IncreasingMenuIds(rows)
        invariant MenuIds(rows) == set x | x in menu && x < id
      {
        if id in menu {
          MenuIdsSnoc(rows, menu[id]);
          rows := rows + [menu[id]];
        }
        id := id + 1;
      }
      assert (set x | x in menu && x < id) == menu.Keys;
      return Ok(rows);
    }

    /** INSERT INTO menu ... RETURNING: the new row gets the next id and the
        database's creation time; the id and time passed in are ignored. */
    method AddMenuItem(item: MenuItem, now: Timestamp, dbFails: bool) returns (r: Result<MenuItem>)
      requires Valid()
      modifies this`menu, this`menuSeq
      ensures Valid()
      ensures dbFails ==> r == Err(StorageError) && menu == old(menu) && menuSeq == old(menuSeq)
      ensures !dbFails ==> r == Ok(MenuItem(old(menuSeq), item.name, item.description, item.price, now))
      ensures !dbFails ==> old(menuSeq) !in old(menu) && menu == old(menu)[old(menuSeq) := r.value] && menuSeq == old(menuSeq) + 1
    {
      if dbFails {
        return Err(StorageError);
      }
      var created := MenuItem(menuSeq, item.name, item.description, item.price, now);
      menu := menu[menuSeq := created];
      menuSeq := menuSeq + 1;
      return Ok(created);
    }

    /** UPDATE menu SET name, description, price WHERE id, then re-read that row.
        An unknown id updates nothing and the re-read finds no row. */
    method UpdateMenuItem(item: MenuItem, fault: UpdateFault) returns (r: Result<MenuItem>)
      requires Valid()
      modifies this`menu
      ensures Valid()
      ensures fault == UpdateFails || item.id !in old(menu) ==> menu == old(menu)
      ensures fault != UpdateFails && item.id in old(menu) ==>
        menu == old(menu)[item.id := MenuItem(item.id, item.name, item.description, item.price, old(menu)[item.id].createdAt)]
      ensures r.Ok? <==> fault == NoUpdateFault && item.id in old(menu)
      ensures r.Ok? ==> item.id in menu && r.value == menu[item.id]
      ensures fault == NoUpdateFault && item.id !in old(menu) ==> r == Err(NoRows)
      ensures fault != NoUpdateFault ==> r == Err(StorageError)
    {
      if fault == UpdateFails {
        return Err(StorageError);
      }
      if item.id in menu {
        menu := menu[item.id := menu[item.id].(name := item.name, description := item.description, price := item.price)];
      }
      if fault == ReadBackFails {
        return Err(StorageError);
      }
      if item.id !in menu {
        return Err(NoRows);
      }
      return Ok(menu[item.id]);
    }

    /** DELETE FROM menu WHERE id: removes that row if there is one, nothing else. */
    method DeleteMenuItem(id: int, dbFails: bool) returns (err: Option<Error>)
      requires Valid()
      modifies this`menu
      ensures Valid()
      ensures err == if dbFails then Some(StorageError) else None
      ensures menu == if dbFails then old(menu) else old(menu) - {id}
    {
      if dbFails {
        return Some(StorageError);
      }
      menu := menu - {id};
      return None;
    }

    // --- orders ------------------------------------------------------------

    /** The effect of placing `items`: the result is `Placement`; on success one
        new header under a fresh id and one line per item, in order; on failure
        the orders and order_items tables are as before. The menu and users are
        never touched. */
    twostate predicate Placed(items: seq<OrderItem>, now: Timestamp, fault: TxFault, new r: Result<Order>)
      reads this
    {
      && r == Placement(items, old(menu), old(orderSeq), now, fault)
      && menu == old(menu) && users == old(users) && menuSeq == old(menuSeq)
      && orderSeq == (if fault.BeginFails? || fault.HeaderInsertFails? then old(orderSeq) else old(orderSeq) + 1)
      && (r.Ok? ==>
            && old(orderSeq) !in old(orders)
            && orders == old(orders)[r.value.id := OrderRow(r.value.id, r.value.total, InProgress, now)]
            && lines == old(lines) + LinesOf(r.value.id, items))
      && (r.Err? ==> orders == old(orders) && lines == old(lines))
    }

    /** One transaction: insert a header with total 0 and status "В работе",
        then per line read its price, add price · quantity to the total and
        insert the line, then write the total back. Any failure rolls back. */
    method AddOrder(items: seq<OrderItem>, now: Timestamp, fault: TxFault) returns (r: Result<Order>)
      requires Valid()
      modifies this`orders, this`lines, this`orderSeq
      ensures Valid()
      ensures Placed(items, now, fault, r)
    {
      if fault == BeginFails {
        return Err(StorageError);
      }
      // the deferred rollback restores this snapshot
      var savedOrders, savedLines := orders, lines;
      if fault == HeaderInsertFails {
        return Err(OrderInsertFailed);
      }
      var id := orderSeq;
      HeaderInsertKeepsConsistent(menu, menuSeq, orders, orderSeq, lines, OrderRow(id, 0, InProgress, now), []);
      SequenceAdvanceKeepsConsistent(menu, menuSeq, orders, orderSeq, lines);
      orderSeq := orderSeq + 1;
      orders := orders[id := OrderRow(id, 0, InProgress, now)];

      var total: Kopecks := 0;
      var i := 0;
      while i < |items|
        invariant 0 <= i <= |items|
        invariant AllOnMenu(items[..i], menu)
        invariant fault.PriceQueryFails? ==> fault.line >= i
        invariant fault.LineInsertFails? ==> fault.line >= i
        invariant total == Total(items[..i], menu)
        invariant orderSeq == id + 1 && id !in savedOrders
        invariant Consistent(menu, menuSeq, savedOrders, id, savedLines)
        invariant Consistent(menu, menuSeq, savedOrders, id + 1, savedLines)
        invariant orders == savedOrders[id := OrderRow(id, 0, InProgress, now)]
        invariant lines == savedLines + LinesOf(id, items[..i])
      {
        var item := items[i];
        if item.menuItemId !in menu || fault == PriceQueryFails(i) {
          orders, lines := savedOrders, savedLines;
          PriceLookupOutcome(items, menu, id, now, fault, i);
          return Err(PriceLookupFailed(item.menuItemId));
        }
        var price := menu[item.menuItemId].price;
        assert items[..i + 1] == items[..i] + [item];
        TotalAppend(items[..i], [item], menu);
        total := total + price * item.quantity;
        if fault == LineInsertFails(i) {
          orders, lines := savedOrders, savedLines;
          LineInsertOutcome(items, menu, id, now, i);
          return Err(OrderItemInsertFailed);
        }
        assert LinesOf(id, items[..i + 1]) == LinesOf(id, items[..i]) + [OrderLine(id, item.menuItemId, item.quantity)];
        lines := lines + [OrderLine(id, item.menuItemId, item.quantity)];
        i := i + 1;
      }
      assert items[..i] == items;
      LinesDoneOutcome(items, menu, id, now, fault);
      if fault == TotalUpdateFails {
        orders, lines := savedOrders, savedLines;
        return Err(TotalUpdateFailed);
      }
      HeaderInsertKeepsConsistent(menu, menuSeq, savedOrders, id, savedLines, OrderRow(id, total, InProgress, now), items);
      orders := savedOrders[id := OrderRow(id, total, InProgress, now)];
      return Ok(Order(id, total, InProgress, now, items));
    }

    /** SELECT ... FROM orders ORDER BY id ASC: every header, once, by ascending
        id, without its lines. */
    method FetchOrders(dbFails: bool) returns (r: Result<seq<Order>>)
      requires Valid()
      ensures r.Ok? <==> !dbFails
      ensures r.Err? ==> r.error == StorageError
      ensures r.Ok? ==> IncreasingOrderIds(r.value) && OrderIds(r.value) == orders.Keys
      ensures r.Ok? ==> forall k :: 0 <= k < |r.value| ==>
                          r.value[k].id in orders && r.value[k] == Listed(orders[r.value[k].id])
    {
      if dbFails {
        return Err(StorageError);
      }
      var rows: seq<Order> := [];
      var id := 1;
      while id < orderSeq
        invariant 1 <= id <= orderSeq
        invariant forall k :: 0 <= k < |rows| ==> rows[k].id < id && rows[k].id in orders && rows[k] == Listed(orders[rows[k].id])
        invariant IncreasingOrderIds(rows)
        invariant OrderIds(rows) == set x | x in orders && x < id
      {
        if id in orders {
          var order := Listed(orders[id]);
          OrderIdsSnoc(rows, order);
          rows := rows + [order];
        }
        id := id + 1;
      }
      assert (set x | x in orders && x < id) == orders.Keys;
      return Ok(rows);
    }

    /** UPDATE orders SET status WHERE id: any status string, and an unknown id
        is not an error. */
    method UpdateOrderStatus(orderId: int, status: string, dbFails: bool) returns (err: Option<Error>)
      requires Valid()
      modifies this`orders
      ensures Valid()
      ensures err == if dbFails then Some(StorageError) else None
      ensures orders == if dbFails then old(orders) else SetStatus(old(orders), orderId, status)
    {
      if dbFails {
        return Some(StorageError);
      }
      orders := SetStatus(orders, orderId, status);
      return None;
    }

    // --- analytics ---------------------------------------------------------

    /** The revenue query for `period`; the period is checked before the query runs. */
    function FetchRevenue(period: string, dbFails: bool): (r: Result<AnalyticsQuery>)
      ensures !KnownPeriod(period) ==> r == Err(InvalidPeriod)
      ensures KnownPeriod(period) ==> (r.Ok? <==> !dbFails)
      ensures KnownPeriod(period) && dbFails ==> r == Err(StorageError)
      ensures r.Ok? ==> r.value.aggregate == SumOfTotals
    {
      var query :=
        if period == "day" then Some(AnalyticsQuery(SumOfTotals, Hour, LastDay))
        else if period == "week" then Some(AnalyticsQuery(SumOfTotals, Day, LastWeek))
        else if period == "month" then Some(AnalyticsQuery(SumOfTotals, Day, LastMonth))
        else if period == "year" then Some(AnalyticsQuery(SumOfTotals, Month, LastYear))
        else None;
      if query.None? then Err(InvalidPeriod)
      else if dbFails then Err(StorageError)
      else Ok(query.value)
    }

    /** The order-count query for `period`; the period is checked before the query runs. */
    function FetchOrderCounts(period: string, dbFails: bool): (r: Result<AnalyticsQuery>)
      ensures !KnownPeriod(period) ==> r == Err(InvalidPeriod)
      ensures KnownPeriod(period) ==> (r.Ok? <==> !dbFails)
      ensures KnownPeriod(period) && dbFails ==> r == Err(StorageError)
      ensures r.Ok? ==> r.value.aggregate == CountOfOrders
    {
      var query :=
        if period == "day" then Some(AnalyticsQuery(CountOfOrders, Hour, LastDay))
        else if period == "week" then Some(AnalyticsQuery(CountOfOrders, Day, LastWeek))
        else if period == "month" then Some(AnalyticsQuery(CountOfOrders, Day, LastMonth))
        else if period == "year" then Some(AnalyticsQuery(CountOfOrders, Month, LastYear))
        else None;
      if query.None? then Err(InvalidPeriod)
      else if dbFails then Err(StorageError)
      else Ok(query.value)
    }
  }

  /** Revenue and order counts group the same periods the same way. */
  lemma AnalyticsAgree(p: Provider, period: string, dbFails: bool)
    ensures p.FetchRevenue(period, dbFails).Ok? == p.FetchOrderCounts(period, dbFails).Ok?
    ensures p.FetchRevenue(period, dbFails).Ok? ==>
      p.FetchRevenue(period, dbFails).value.(aggregate := CountOfOrders) == p.FetchOrderCounts(period, dbFails).value
  {
  }
}
