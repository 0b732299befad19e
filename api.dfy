/** The request checks of the café back end's HTTP handlers (backend/api.go)
    and what each handler hands on to the account and order logic. Binding
    JSON, routing and the wording of messages are not modelled; a refused
    request is its HTTP status code and the reason for it. */
module Api {
  import opened Domain
  import opened Database
  import opened Usecases

  /** Why a handler refuses or fails a request. */
  datatype Reason =
    | MissingCredentials      // a required field is empty
    | UsernameLength          // name outside [minUsername, maxUsername] bytes
    | PasswordLength          // password outside [minPassword, maxPassword] bytes
    | AccountNotCreated       // registration failed below the handler
    | LoginFailed(cause: Error)
    | EmptyOrder              // an order without lines
    | InvalidOrderItem        // a line with a non-positive id or quantity
    | OrderNotPlaced          // placement failed below the handler
    | InvalidStatus           // a status other than completed or canceled
    | StatusNotUpdated
    | UnknownPeriod           // an analytics period outside day/week/month/year
    | AnalyticsFailed

  /** A handler's answer: 200 with a body, or an HTTP error. */
  datatype Reply<+T> = Reply200(body: T) | HttpError(code: int, reason: Reason)

  /** The outcome of a request check. */
  datatype Checked<+T> = Accepted(value: T) | Rejected(reason: Reason)

  /** One element of the `items` array of an order request. */
  datatype OrderItemInput = OrderItemInput(menuItemId: int, quantity: int)

  // ---------------------------------------------------------------------------
  // Lengths: Go's len of a string counts the bytes of its UTF-8 encoding

  function Utf8Width(c: char): nat
  {
    if (c as int) < 0x80 then 1
    else if (c as int) < 0x800 then 2
    else if (c as int) < 0x10000 then 3
    else 4
  }

  /** The number of bytes `s` takes in UTF-8. */
  function Utf8Length(s: string): (n: nat)
    ensures |s| <= n <= 4 * |s|
    ensures (forall k :: 0 <= k < |s| ==> (s[k] as int) < 0x80) ==> n == |s|
  {
    if s == [] then 0 else Utf8Width(s[0]) + Utf8Length(s[1..])
  }

  // ---------------------------------------------------------------------------
  // Order lines

  /** A line the order handler lets through. */
  predicate ValidLine(item: OrderItemInput)
  {
    item.menuItemId > 0 && item.quantity > 0
  }

  /** An order request the handler passes on: at least one line, every line valid. */
  predicate OrderAcceptable(input: seq<OrderItemInput>)
  {
    input != [] && forall k :: 0 <= k < |input| ==> ValidLine(input[k])
  }

  /** The lines as the order logic receives them. */
  function ToOrderItems(input: seq<OrderItemInput>): seq<OrderItem>
  {
    seq(|input|, k requires 0 <= k < |input| => OrderItem(input[k].menuItemId, input[k].quantity))
  }

  /** Check the request lines and copy them, index by index, into a fresh array. */
  method BuildOrderItems(input: seq<OrderItemInput>) returns (r: Checked<seq<OrderItem>>)
    ensures input == [] ==> r == Rejected(EmptyOrder)
    ensures r.Accepted? <==> OrderAcceptable(input)
    ensures input != [] && r.Rejected? ==> r.reason == InvalidOrderItem
    ensures r.Accepted? ==> |r.value| == |input|
    ensures r.Accepted? ==> forall k :: 0 <= k < |input| ==>
      r.value[k].menuItemId == input[k].menuItemId && r.value[k].quantity == input[k].quantity
  {
    if |input| == 0 {
      return Rejected(EmptyOrder);
    }
    var orderItems := new OrderItem[|input|];
    for i := 0 to |input|
      invariant forall k :: 0 <= k < i ==> ValidLine(input[k])
      invariant forall k :: 0 <= k < i ==> orderItems[k] == OrderItem(input[k].menuItemId, input[k].quantity)
    {
      var item := input[i];
      if item.menuItemId <= 0 || item.quantity <= 0 {
        return Rejected(InvalidOrderItem);
      }
      orderItems[i] := OrderItem(item.menuItemId, item.quantity);
    }
    return Accepted(orderItems[..]);
  }

  // ---------------------------------------------------------------------------
  // Statuses and periods

  /** The statuses a client may set. */
  predicate AllowedStatus(status: string)
  {
    status == Completed || status == Canceled
  }

  /** The periods the analytics handlers accept. */
  predicate AllowedPeriod(period: string)
  {
    period == "day" || period == "week" || period == "month" || period == "year"
  }

  /** The handlers' whitelist and the store's switch admit the same periods. */
  lemma PeriodWhitelistsAgree(period: string)
    ensures AllowedPeriod(period) <==> KnownPeriod(period)
  {
  }

  /** The period the order-count handler works with: "day" when none is given. */
  function CountsPeriod(period: string): string
  {
    if period == "" then "day" else period
  }

  // ---------------------------------------------------------------------------

  /** The HTTP server: configured length bounds and the logic it calls. */
  class Server {
    const minPassword: int
    const maxPassword: int
    const minUsername: int
    const maxUsername: int
    const uc: Usecase

    ghost predicate Valid()
      reads this, uc, uc.p
    {
      uc.Valid()
    }

    constructor (minPassword: int, maxPassword: int, minUsername: int, maxUsername: int, uc: Usecase)
      requires uc.Valid()
      ensures Valid()
      ensures this.minPassword == minPassword && this.maxPassword == maxPassword
      ensures this.minUsername == minUsername && this.maxUsername == maxUsername
      ensures this.uc == uc
    {
      this.minPassword, this.maxPassword := minPassword, maxPassword;
      this.minUsername, this.maxUsername := minUsername, maxUsername;
      this.uc := uc;
    }

    /** The checks of a registration request, in the order the handler makes
        them: no empty field, then the name's length, then the password's.
        The email's length is not checked. */
    function CheckRegistration(name: string, email: string, password: string): (r: Option<Reason>)
      ensures r.None? <==>
        && name != "" && email != "" && password != ""
        && minUsername <= Utf8Length(name) <= maxUsername
        && minPassword <= Utf8Length(password) <= maxPassword
      ensures name == "" || email == "" || password == "" ==> r == Some(MissingCredentials)
      ensures r == Some(UsernameLength) <==>
        name != "" && email != "" && password != "" && !(minUsername <= Utf8Length(name) <= maxUsername)
      ensures r == Some(PasswordLength) <==>
        && name != "" && email != "" && password != ""
        && minUsername <= Utf8Length(name) <= maxUsername
        && !(minPassword <= Utf8Length(password) <= maxPassword)
    {
      if name == "" || password == "" || email == "" then Some(MissingCredentials)
      else if Utf8Length(name) < minUsername || Utf8Length(name) > maxUsername then Some(UsernameLength)
      else if Utf8Length(password) < minPassword || Utf8Length(password) > maxPassword then Some(PasswordLength)
      else None
    }

    /** POST /api/register. */
    method Register(name: string, email: string, password: string, salt: Salt, faults: RegisterFaults) returns (r: Reply<string>)
      requires Valid()
      modifies uc.p`users
      ensures Valid()
      ensures CheckRegistration(name, email, password).Some? ==>
        r == HttpError(401, CheckRegistration(name, email, password).value) && uc.p.users == old(uc.p.users)
      ensures CheckRegistration(name, email, password).None? ==>
        (r.Reply200? <==> uc.Admits(old(uc.p.users), email, password, salt, faults))
      ensures r.HttpError? && CheckRegistration(name, email, password).None? ==>
        r == HttpError(500, AccountNotCreated) && uc.p.users == old(uc.p.users)
      ensures r.Reply200? ==>
        r.body == "OK!" && uc.p.users == old(uc.p.users) + [User(name, email, uc.hash(password, salt).value)]
    {
      var rejection := CheckRegistration(name, email, password);
      if rejection.Some? {
        return HttpError(401, rejection.value);
      }
      var err := uc.Register(name, email, password, salt, faults);
      if err.Some? {
        return HttpError(500, AccountNotCreated);
      }
      return Reply200("OK!");
    }

    /** POST /api/login. */
    method Login(email: string, password: string, now: Instant, faults: AuthFaults) returns (r: Reply<string>)
      ensures email == "" || password == "" ==> r == HttpError(401, MissingCredentials)
      ensures r.Reply200? <==> email != "" && password != "" && uc.Authenticate(email, password, now, faults).Ok?
      ensures r.Reply200? ==> r.body == uc.Authenticate(email, password, now, faults).value
      ensures email != "" && password != "" && uc.Authenticate(email, password, now, faults).Err? ==>
        r == HttpError(500, LoginFailed(uc.Authenticate(email, password, now, faults).error))
    {
      if email == "" || password == "" {
        return HttpError(401, MissingCredentials);
      }
      var token := uc.Authenticate(email, password, now, faults);
      if token.Err? {
        return HttpError(500, LoginFailed(token.error));
      }
      return Reply200(token.value);
    }

    /** POST /api/orders. */
    method AddOrder(input: seq<OrderItemInput>, now: Timestamp, fault: TxFault) returns (r: Reply<Order>)
      requires Valid()
      modifies uc.p`orders, uc.p`lines, uc.p`orderSeq
      ensures Valid()
      ensures !OrderAcceptable(input) ==> unchanged(uc.p)
      ensures input == [] ==> r == HttpError(400, EmptyOrder)
      ensures input != [] && !OrderAcceptable(input) ==> r == HttpError(400, InvalidOrderItem)
      ensures OrderAcceptable(input) ==>
        var placed := Placement(ToOrderItems(input), old(uc.p.menu), old(uc.p.orderSeq), now, fault);
        && uc.p.Placed(ToOrderItems(input), now, fault, placed)
        && r == if placed.Ok? then Reply200(placed.value) else HttpError(500, OrderNotPlaced)
    {
      var built := BuildOrderItems(input);
      if built.Rejected? {
        return HttpError(400, built.reason);
      }
      var orderItems := built.value;
      assert orderItems == ToOrderItems(input);
      var placed := uc.AddOrder(orderItems, now, fault);
      if placed.Err? {
        return HttpError(500, OrderNotPlaced);
      }
      return Reply200(placed.value);
    }

    /** PUT /api/orders/:id/status. */
    method UpdateOrderStatus(orderId: int, status: string, dbFails: bool) returns (r: Reply<string>)
      requires Valid()
      modifies uc.p`orders
      ensures Valid()
      ensures !AllowedStatus(status) ==> r == HttpError(400, InvalidStatus) && uc.p.orders == old(uc.p.orders)
      ensures AllowedStatus(status) ==> (r.Reply200? <==> !dbFails)
      ensures AllowedStatus(status) && dbFails ==> r == HttpError(500, StatusNotUpdated) && uc.p.orders == old(uc.p.orders)
      ensures r.Reply200? ==> uc.p.orders == SetStatus(old(uc.p.orders), orderId, status)
    {
      if status != Completed && status != Canceled {
        return HttpError(400, InvalidStatus);
      }
      var err := uc.UpdateOrderStatus(orderId, status, dbFails);
      if err.Some? {
        return HttpError(500, StatusNotUpdated);
      }
      return Reply200("Статус заказа обновлен");
    }

    /** GET /api/revenue?period=... */
    method GetRevenue(period: string, dbFails: bool) returns (r: Reply<AnalyticsQuery>)
      ensures !AllowedPeriod(period) ==> r == HttpError(400, UnknownPeriod)
      ensures AllowedPeriod(period) ==> (r.Reply200? <==> !dbFails)
      ensures AllowedPeriod(period) && dbFails ==> r == HttpError(500, AnalyticsFailed)
      ensures r.Reply200? ==> r.body.aggregate == SumOfTotals
    {
      if period != "day" && period != "week" && period != "month" && period != "year" {
        return HttpError(400, UnknownPeriod);
      }
      var data := uc.GetRevenue(period, dbFails);
      if data.Err? {
        return HttpError(500, AnalyticsFailed);
      }
      return Reply200(data.value);
    }

    /** GET /api/order_counts?period=...; no period means "day". */
    method GetOrderCounts(period: string, dbFails: bool) returns (r: Reply<AnalyticsQuery>)
      ensures period == "" ==> r == if dbFails then HttpError(500, AnalyticsFailed) else Reply200(AnalyticsQuery(CountOfOrders, Hour, LastDay))
      ensures period != "" && !AllowedPeriod(period) ==> r == HttpError(400, UnknownPeriod)
      ensures AllowedPeriod(period) ==> (r.Reply200? <==> !dbFails)
      ensures AllowedPeriod(period) && dbFails ==> r == HttpError(500, AnalyticsFailed)
      ensures r.Reply200? ==> r.body.aggregate == CountOfOrders
    {
      var chosen := CountsPeriod(period);
      if chosen != "day" && chosen != "week" && chosen != "month" && chosen != "year" {
        return HttpError(400, UnknownPeriod);
      }
      var data := uc.GetOrderCounts(chosen, dbFails);
      if data.Err? {
        return HttpError(500, AnalyticsFailed);
      }
      return Reply200(data.value);
    }
  }
}
