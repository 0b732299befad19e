/** The account logic and the order pass-throughs of the café back end
    (backend/usecase.go). bcrypt and token signing are not modelled: a Usecase
    is given a password hasher, its verifier and a token issuer as functions,
    and the one fact used about them is that a hash verifies against the
    password it was made from. */
module Usecases {
  import opened Domain
  import opened Database

  /** The random salt bcrypt draws for one hash. */
  type Salt = nat

  /** A clock reading; a token's expiry is reckoned from it. */
  type Instant = int

  /** Every hash the hasher produces verifies against its own password. */
  ghost predicate SoundHasher(hash: (string, Salt) -> Option<string>, verify: (string, string) -> bool)
  {
    forall password, salt :: hash(password, salt).Some? ==> verify(hash(password, salt).value, password)
  }

  /** Which of the two lookups of authentication the database refuses. */
  datatype AuthFaults = AuthFaults(lookupFails: bool, fetchFails: bool)

  const NoAuthFaults := AuthFaults(false, false)

  /** Which of the two statements of registration the database refuses. */
  datatype RegisterFaults = RegisterFaults(lookupFails: bool, insertFails: bool)

  class Usecase {
    const p: Provider
    /** bcrypt's GenerateFromPassword; `None` when it refuses the password. */
    const hash: (string, Salt) -> Option<string>
    /** bcrypt's CompareHashAndPassword, true when they match. */
    const verify: (string, string) -> bool
    /** The signed token for a user name, issued at an instant. */
    const issue: (string, Instant) -> string

    ghost predicate Valid()
      reads this, p
    {
      p.Valid() && SoundHasher(hash, verify)
    }

    constructor (p: Provider, hash: (string, Salt) -> Option<string>, verify: (string, string) -> bool,
                 issue: (string, Instant) -> string)
      requires p.Valid() && SoundHasher(hash, verify)
      ensures Valid()
      ensures this.p == p && this.hash == hash && this.verify == verify && this.issue == issue
    {
      this.p, this.hash, this.verify, this.issue := p, hash, verify, issue;
    }

    /** Look the user up by email, check the password against the stored hash,
        and issue a token for the stored user name. A failed existence check
        reads as "not found", because backend/usecase.go tests `!exist` before `err`;
        its later test of that `err` can never fire (an error comes with
        exist == false) and has no counterpart here. */
    function Authenticate(email: string, password: string, now: Instant, faults: AuthFaults): (r: Result<string>)
      reads p
      ensures faults.lookupFails ==> r == Err(UserNotFound)
      ensures (forall k :: 0 <= k < |p.users| ==> p.users[k].email != email) ==> r == Err(UserNotFound)
      ensures !faults.lookupFails && FindByEmail(p.users, email).Some? && faults.fetchFails ==> r == Err(StorageError)
      ensures r.Ok? <==>
        && !faults.lookupFails && !faults.fetchFails
        && exists k :: FirstWithEmail(p.users, email, k) && verify(p.users[k].password, password)
      ensures r.Ok? ==> exists k :: FirstWithEmail(p.users, email, k) && r.value == issue(p.users[k].name, now)
      ensures !faults.lookupFails && !faults.fetchFails && FindByEmail(p.users, email).Some? && !r.Ok? ==>
        r == Err(InvalidCredentials)
    {
      var check := p.CheckUserByEmail(email, faults.lookupFails);
      var exist := check.0;
      if !exist then Err(UserNotFound)
      else
        var row := p.GetUsernameAndHashedPassword(email, faults.fetchFails);
        var name, hashedPassword := row.0, row.1;
        if row.2.Some? then Err(row.2.value)
        else if !verify(hashedPassword, password) then Err(InvalidCredentials)
        else Ok(issue(name, now))
    }

    /** Registration goes through: the email is free, the hasher accepts the
        password, and neither statement fails. */
    predicate Admits(users: seq<User>, email: string, password: string, salt: Salt, faults: RegisterFaults)
    {
      !faults.lookupFails && FindByEmail(users, email).None? && hash(password, salt).Some? && !faults.insertFails
    }

    /** Refuse an email already taken, else hash the password and store the user. */
    method Register(name: string, email: string, password: string, salt: Salt, faults: RegisterFaults) returns (err: Option<Error>)
      requires Valid()
      modifies p`users
      ensures Valid()
      ensures faults.lookupFails ==> err == Some(StorageError)
      ensures !faults.lookupFails && (exists k :: 0 <= k < |old(p.users)| && old(p.users)[k].email == email) ==>
        err == Some(UserAlreadyExists)
      ensures !faults.lookupFails && FindByEmail(old(p.users), email).None? && hash(password, salt).None? ==>
        err == Some(HashFailed)
      ensures !faults.lookupFails && FindByEmail(old(p.users), email).None? && hash(password, salt).Some? && faults.insertFails ==>
        err == Some(StorageError)
      ensures err.None? <==> Admits(old(p.users), email, password, salt, faults)
      ensures err.None? ==> p.users == old(p.users) + [User(name, email, hash(password, salt).value)]
      ensures err.Some? ==> p.users == old(p.users)
      ensures err.None? ==> forall now :: Authenticate(email, password, now, NoAuthFaults) == Ok(issue(name, now))
      ensures UniqueEmails(old(p.users)) ==> UniqueEmails(p.users)
    {
      var (exist, lookupErr) := p.CheckUserByEmail(email, faults.lookupFails);
      if lookupErr.Some? {
        return lookupErr;
      }
      if exist {
        return Some(UserAlreadyExists);
      }
      var hashed := hash(password, salt);
      if hashed.None? {
        return Some(HashFailed);
      }
      FindAfterAppend(p.users, User(name, email, hashed.value));
      err := p.CreateUser(name, email, hashed.value, faults.insertFails);
    }

    /** Two registrations under one email: once the first has gone through,
        the second is refused and the users table keeps the first account. */
    method RegisterTwice(name: string, email: string, password: string, salt: Salt, faults: RegisterFaults,
                         name2: string, password2: string, salt2: Salt, faults2: RegisterFaults)
      returns (first: Option<Error>, second: Option<Error>)
      requires Valid()
      modifies p`users
      ensures Valid()
      ensures first.None? <==> Admits(old(p.users), email, password, salt, faults)
      ensures first.None? && !faults2.lookupFails ==> second == Some(UserAlreadyExists)
      ensures first.None? ==> p.users == old(p.users) + [User(name, email, hash(password, salt).value)]
      ensures first.None? ==> forall now :: Authenticate(email, password, now, NoAuthFaults) == Ok(issue(name, now))
    {
      first := Register(name, email, password, salt, faults);
      ghost var registered := p.users;
      assert first.None? ==> registered[|registered| - 1].email == email;
      second := Register(name2, email, password2, salt2, faults2);
      assert first.None? ==> second.Some? && p.users == registered;
    }

    /** Placing an order is the store's transaction, unchanged. */
    method AddOrder(items: seq<OrderItem>, now: Timestamp, fault: TxFault) returns (r: Result<Order>)
      requires Valid()
      modifies p`orders, p`lines, p`orderSeq
      ensures Valid()
      ensures p.Placed(items, now, fault, r)
    {
      r := p.AddOrder(items, now, fault);
    }

    /** Changing a status is the store's single-row update, unchanged. */
    method UpdateOrderStatus(orderId: int, status: string, dbFails: bool) returns (err: Option<Error>)
      requires Valid()
      modifies p`orders
      ensures Valid()
      ensures err == if dbFails then Some(StorageError) else None
      ensures p.orders == if dbFails then old(p.orders) else SetStatus(old(p.orders), orderId, status)
    {
      err := p.UpdateOrderStatus(orderId, status, dbFails);
    }

    /** The revenue query of the store, unchanged. */
    function GetRevenue(period: string, dbFails: bool): (r: Result<AnalyticsQuery>)
      ensures !KnownPeriod(period) ==> r == Err(InvalidPeriod)
      ensures KnownPeriod(period) ==> (r.Ok? <==> !dbFails)
    {
      p.FetchRevenue(period, dbFails)
    }

    /** The order-count query of the store, unchanged. */
    function GetOrderCounts(period: string, dbFails: bool): (r: Result<AnalyticsQuery>)
      ensures !KnownPeriod(period) ==> r == Err(InvalidPeriod)
      ensures KnownPeriod(period) ==> (r.Ok? <==> !dbFails)
    {
      p.FetchOrderCounts(period, dbFails)
    }
  }
}
