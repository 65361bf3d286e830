/**
  routes/auth_routes.py: registration, login, logout and the
  `login_required` gate, over the customer table and the Flask session.
  Rendering, flashing and redirects are left out; a handler returns the
  error it would show, None on success. Password hashing and checking are
  werkzeug's: they are the parameters `hash` and `check`.
*/
module AuthRoutes {
  import opened Wrappers
  import opened Strings
  import opened Models
  import opened Database

  /** A value stored in the session: a customer id or a text. */
  datatype SessionValue = IdValue(id: int) | TextValue(text: string)

  /** The signed-cookie session of one browser. */
  class Session {
    var entries: map<string, SessionValue>

    constructor ()
      ensures entries == map[]
    {
      entries := map[];
    }
  }

  /** The session of a logged-in customer: exactly its id and its username. */
  function LoggedIn(id: int, username: string): map<string, SessionValue> {
    map["user_id" := IdValue(id), "username" := TextValue(username)]
  }

  /** The position of the first customer with that username. */
  function CustomerNamed(cs: seq<Customer>, username: string): (r: Option<nat>)
    ensures r.None? <==> forall i :: 0 <= i < |cs| ==> cs[i].username != username
    ensures r.Some? ==> r.value < |cs| && cs[r.value].username == username
    ensures r.Some? ==> forall j :: 0 <= j < r.value ==> cs[j].username != username
  {
    FirstWhere(cs, (c: Customer) => c.username == username)
  }

  /** The position of the first customer with that email. */
  function CustomerWithEmail(cs: seq<Customer>, email: string): (r: Option<nat>)
    ensures r.None? <==> forall i :: 0 <= i < |cs| ==> cs[i].email != email
    ensures r.Some? ==> r.value < |cs| && cs[r.value].email == email
    ensures r.Some? ==> forall j :: 0 <= j < r.value ==> cs[j].email != email
  {
    FirstWhere(cs, (c: Customer) => c.email == email)
  }

  // ---------------------------------------------------------------------------
  // Registration

  /** The validation chain of `register`, first failing check first. */
  function RegistrationError(customers: seq<Customer>, username: string, email: string,
                             password: string, confirmPassword: string): Option<string>
  {
    if username == "" || email == "" || password == "" then Some("All fields are required.")
    else if password != confirmPassword then Some("Passwords do not match.")
    else if CustomerNamed(customers, username).Some? then Some("User " + username + " is already registered.")
    else if CustomerWithEmail(customers, email).Some? then Some("Email " + email + " is already registered.")
    else None
  }

  /** `register`: on a validation error nothing is stored and the session is untouched;
      otherwise one customer is added, with the hashed password and the company ("" when the
      form has none), and the session gains its id and username (without being cleared). */
  method Register(db: Store, session: Session, username: string, email: string, password: string,
                  confirmPassword: string, company: Option<string>, hash: string -> string)
    returns (error: Option<string>)
    requires db.Valid()
    modifies db`customers, session`entries
    ensures db.Valid()
    ensures error == RegistrationError(old(db.customers), username, email, password, confirmPassword)
    ensures error.Some? ==> db.customers == old(db.customers) && session.entries == old(session.entries)
    ensures error.None? ==>
      && db.customers == old(db.customers) + [Customer(email, username, hash(password), Some(company.GetOr("")), None)]
      && session.entries == old(session.entries)["user_id" := IdValue(|db.customers|)]["username" := TextValue(username)]
  {
    error := None;
    if username == "" || email == "" || password == "" {
      error := Some("All fields are required.");
    } else if password != confirmPassword {
      error := Some("Passwords do not match.");
    } else if CustomerNamed(db.customers, username).Some? {
      error := Some("User " + username + " is already registered.");
    } else if CustomerWithEmail(db.customers, email).Some? {
      error := Some("Email " + email + " is already registered.");
    }
    if error.None? {
      var newUser := Customer(email, username, hash(password), Some(company.GetOr("")), None);
      db.customers := db.customers + [newUser];
      assert db.customers[|db.customers| - 1] == newUser;
      var id := |db.customers|;
      session.entries := session.entries["user_id" := IdValue(id)];
      session.entries := session.entries["username" := TextValue(newUser.username)];
    }
  }

  // ---------------------------------------------------------------------------
  // Login and logout

  /** The customer `login` looks up: by email when the identifier contains '@', else by username. */
  function LoginCandidate(customers: seq<Customer>, identifier: string): Option<nat> {
    if '@' in identifier then CustomerWithEmail(customers, identifier) else CustomerNamed(customers, identifier)
  }

  const LoginFailure := "Invalid email/username or password."

  /** `login`: an unknown customer and a wrong password give the same error and leave the session
      alone; a success clears the session and then stores exactly the id and the username. */
  method Login(db: Store, session: Session, identifier: string, password: string, check: (string, string) -> bool)
    returns (error: Option<string>)
    modifies session`entries
    ensures var u := LoginCandidate(db.customers, identifier);
      error.None? <==> u.Some? && check(db.customers[u.value].passwordHash, password)
    ensures error.Some? ==> error == Some(LoginFailure) && session.entries == old(session.entries)
    ensures error.None? ==>
      var u := LoginCandidate(db.customers, identifier).value;
      session.entries == LoggedIn(u + 1, db.customers[u].username)
  {
    var user: Option<nat>;
    if '@' in identifier {
      user := CustomerWithEmail(db.customers, identifier);
    } else {
      user := CustomerNamed(db.customers, identifier);
    }
    error := None;
    if user.None? {
      error := Some(LoginFailure);
    } else if !check(db.customers[user.value].passwordHash, password) {
      error := Some(LoginFailure);
    }
    if error.None? {
      session.entries := map[];
      session.entries := session.entries["user_id" := IdValue(user.value + 1)];
      session.entries := session.entries["username" := TextValue(db.customers[user.value].username)];
    }
  }

  /** `logout` */
  method Logout(session: Session)
    modifies session`entries
    ensures session.entries == map[]
  {
    session.entries := map[];
  }

  // ---------------------------------------------------------------------------
  // The gate

  /** What a view wrapped by `login_required` answers. */
  datatype Gated<T> = RedirectToLogin | Granted(result: T)

  /** `login_required(view)` called with the session `entries`: the view is consulted only when
      a user id is in the session. */
  function LoginRequired<T>(entries: map<string, SessionValue>, view: () -> T): (r: Gated<T>)
    ensures r.RedirectToLogin? <==> "user_id" !in entries
    ensures r.Granted? ==> r.result == view()
  {
    if "user_id" !in entries then RedirectToLogin else Granted(view())
  }

  // ---------------------------------------------------------------------------
  // Properties

  /** The checks come in this order: a missing field hides a password mismatch, a mismatch hides a
      taken username, and a taken username hides a taken email. A registration passes exactly when
      all fields are given, the passwords match and neither name is taken. */
  lemma RegistrationPrecedence(customers: seq<Customer>, username: string, email: string,
                               password: string, confirmPassword: string)
    ensures (username == "" || email == "" || password == "") ==>
      RegistrationError(customers, username, email, password, confirmPassword) == Some("All fields are required.")
    ensures username != "" && email != "" && password != "" && password != confirmPassword ==>
      RegistrationError(customers, username, email, password, confirmPassword) == Some("Passwords do not match.")
    ensures RegistrationError(customers, username, email, password, confirmPassword).None? <==>
      && username != "" && email != "" && password != "" && password == confirmPassword
      && (forall i :: 0 <= i < |customers| ==> customers[i].username != username)
      && (forall i :: 0 <= i < |customers| ==> customers[i].email != email)
  {
  }

  /** A successful registration keeps usernames and emails unique. */
  lemma RegistrationKeepsCustomersUnique(customers: seq<Customer>, username: string, email: string,
                                         password: string, confirmPassword: string, c: Customer)
    requires CustomersUnique(customers)
    requires RegistrationError(customers, username, email, password, confirmPassword).None?
    requires c.username == username && c.email == email
    ensures CustomersUnique(customers + [c])
  {
    var s := customers + [c];
    forall i, j | 0 <= i < j < |s| ensures s[i].username != s[j].username && s[i].email != s[j].email {
      assert s[i] == customers[i];
      if j < |customers| {
        assert s[j] == customers[j];
      }
    }
  }

  /** The lookup follows the identifier's shape: the candidate's email is the identifier when it
      contains '@', its username otherwise; there is no candidate when no customer matches. */
  lemma LoginLookupByShape(customers: seq<Customer>, identifier: string)
    ensures var u := LoginCandidate(customers, identifier);
      && (u.Some? ==> u.value < |customers|)
      && ('@' in identifier && u.Some? ==> customers[u.value].email == identifier)
      && ('@' !in identifier && u.Some? ==> customers[u.value].username == identifier)
      && ('@' in identifier && u.None? ==> forall i :: 0 <= i < |customers| ==> customers[i].email != identifier)
      && ('@' !in identifier && u.None? ==> forall i :: 0 <= i < |customers| ==> customers[i].username != identifier)
  {
  }

  /** A logged-in session opens the gate, a cleared one does not. */
  lemma GateFollowsLogin<T>(id: int, username: string, view: () -> T)
    ensures LoginRequired(LoggedIn(id, username), view) == Granted(view())
    ensures LoginRequired(map[], view) == RedirectToLogin
  {
  }
}
