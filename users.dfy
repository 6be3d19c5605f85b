/** A shop account (models.py, class User): e-mail check and normalisation at construction,
    the stored password digest, the session flag and the order history. The SHA-256 digest is
    not modelled: the account is given the digest function it uses, and nothing here relies on
    what that function computes. */
module Users {
  import opened Results
  import opened Emails
  import opened Orders
  import opened OrderHistory

  class User {
    const email: string
    const hashedPassword: string
    const name: string
    const address: string
    /** `hashlib.sha256(...).hexdigest()`, as the function the account was built with. */
    const digest: string -> string
    /** The password given at construction. Ghost: it is used to state what `VerifyPassword`
        accepts and is never kept by the account. */
    ghost const rawPassword: string
    var orders: seq<Order>
    var loggedIn: bool

    /** The stored e-mail matches the pattern and is in lower case, the stored digest is that
        of the construction password, and the history is in date order. */
    ghost predicate Valid()
      reads this
    {
      && MatchesPattern(email) && Lower(email) == email
      && hashedPassword == digest(rawPassword)
      && SortedByDate(orders)
    }

    /** The body of `User.__init__` once the e-mail has passed the check. */
    constructor (email: string, password: string, digest: string -> string, name: string := "", address: string := "")
      requires NormalizeEmail(email).Ok?
      ensures Valid()
      ensures this.email == Lower(email) && this.name == name && this.address == address
      ensures this.digest == digest && hashedPassword == digest(password) && rawPassword == password
      ensures orders == [] && !loggedIn
    {
      this.email := NormalizeEmail(email).value;
      this.hashedPassword := digest(password);
      this.rawPassword := password;
      this.name := name;
      this.address := address;
      this.digest := digest;
      this.orders := [];
      this.loggedIn := false;
    }

    /** `User(email, password, name="", address="")`: raises `ValueError("Invalid email format")`
        exactly when the e-mail does not match; otherwise a logged-out account with no orders,
        the lower-cased e-mail, and a password that verifies. */
    static method Create(email: string, password: string, digest: string -> string,
                         name: string := "", address: string := "") returns (r: Result<User>)
      ensures r.Err? <==> !MatchesPattern(email)
      ensures r.Err? ==> r.error == InvalidEmail
      ensures r.Ok? ==> fresh(r.value) && r.value.Valid()
      ensures r.Ok? ==> r.value.email == Lower(email) && r.value.name == name && r.value.address == address
      ensures r.Ok? ==> r.value.digest == digest && r.value.hashedPassword == digest(password)
      ensures r.Ok? ==> r.value.orders == [] && !r.value.loggedIn && r.value.VerifyPassword(password)
    {
      var normalized := NormalizeEmail(email);
      if normalized.Err? {
        r := Err(normalized.error);
      } else {
        var u := new User(email, password, digest, name, address);
        r := Ok(u);
      }
    }

    /** `verify_password`: accepts exactly the candidates whose digest equals that of the
        construction password, so in particular that password itself. */
    function VerifyPassword(password: string): (ok: bool)
      reads this
      requires Valid()
      ensures ok <==> digest(password) == digest(rawPassword)
      ensures password == rawPassword ==> ok
    {
      hashedPassword == digest(password)
    }

    /** `login`: succeeds exactly when the password verifies, and then opens the session; a
        failed attempt leaves the session as it was, open or closed. */
    method Login(password: string) returns (ok: bool)
      requires Valid()
      modifies this`loggedIn
      ensures Valid()
      ensures ok == VerifyPassword(password)
      ensures loggedIn == (ok || old(loggedIn))
    {
      if VerifyPassword(password) {
        loggedIn := true;
        ok := true;
      } else {
        ok := false;
      }
    }

    /** `logout`: always closes the session. */
    method Logout()
      requires Valid()
      modifies this`loggedIn
      ensures Valid() && !loggedIn
    {
      loggedIn := false;
    }

    /** `add_order`: append, then sort by order date. On a history in date order the result is
        the old history with the new order inserted after every order not later than it. */
    method AddOrder(order: Order)
      requires Valid()
      modifies this`orders
      ensures Valid()
      ensures orders == SortByDate(old(orders) + [order])
      ensures orders == InsertByDate(old(orders), order)
      ensures |orders| == |old(orders)| + 1
      ensures multiset(orders) == multiset(old(orders)) + multiset{order}
    {
      AppendThenSort(orders, order);
      orders := orders + [order];
      orders := SortByDate(orders);
    }

    /** `get_order_history`: the history, in date order. */
    function GetOrderHistory(): (r: seq<Order>)
      reads this
      requires Valid()
      ensures SortedByDate(r)
      ensures multiset(r) == multiset(orders)
    {
      orders
    }
  }
}
