/** The login and signup page: the password-strength meter, the fixed admin entry,
    case-insensitive lookup of an account and registration of a new one. */
module Auth {
  import opened Types
  import opened Text
  import opened Storage
  import opened Session

  predicate HasDigit(p: string)
  {
    exists i :: 0 <= i < |p| && IsDigit(p[i])
  }

  /** A character outside `[a-zA-Z0-9]`. */
  predicate HasSymbol(p: string)
  {
    exists i :: 0 <= i < |p| && !IsAlphanumeric(p[i])
  }

  /** The strength of a password as a reference definition: longer than 10 characters
      is 3; otherwise one point for being non-empty, one for being longer than 6, and
      one for holding both a digit and a symbol. */
  function Strength(p: string): (s: nat)
    ensures s <= 3
    ensures s == 0 <==> p == []
    ensures |p| > 10 ==> s == 3
  {
    if |p| > 10 then 3
    else (if |p| > 0 then 1 else 0) + (if |p| > 6 then 1 else 0) + (if HasDigit(p) && HasSymbol(p) then 1 else 0)
  }

  /** Strength never decreases when a character is appended... */
  lemma StrengthGrowsWithLength(p: string, c: char)
    ensures Strength(p + [c]) >= Strength(p)
  {
    var q := p + [c];
    if HasDigit(p) {
      var i :| 0 <= i < |p| && IsDigit(p[i]);
      assert q[i] == p[i];
    }
    if HasSymbol(p) {
      var i :| 0 <= i < |p| && !IsAlphanumeric(p[i]);
      assert q[i] == p[i];
    }
  }

  /** ...but the strength of a long password does not depend on its characters. */
  lemma LongPasswordsAreStrong(p: string, q: string)
    requires |p| > 10 && |q| > 10
    ensures Strength(p) == Strength(q) == 3
  {
  }

  /** The fixed admin email and password that lead to the admin console. */
  const AdminEmail := "birukf37@gmail.com"
  const AdminPassword := "admin20"

  const FillCredentialsMessage := "Please fill in credentials."
  const AccountNotFoundMessage := "Account not found. Please register an operative identity."
  const MissingUsernameMessage := "Please choose an Operative Name (Username)"
  const FillAllFieldsMessage := "Please fill in all fields"
  const InvalidEmailMessage := "Invalid email format"
  const EmailTakenMessage := "This email is already registered."

  /** The account a login name selects: a non-empty email or username equal to it
      case-insensitively. */
  predicate MatchesLogin(u: UserProfile, name: string): (b: bool)
    ensures b ==> name != ""
  {
    (u.email.Some? && u.email.value != "" && Lower(u.email.value) == Lower(name))
    || (u.username != "" && Lower(u.username) == Lower(name))
  }

  /** `users.find(...)` for a login: the first matching account. */
  function FindLogin(db: seq<UserProfile>, name: string): (r: Option<nat>)
    ensures r.Some? ==> r.value < |db| && MatchesLogin(db[r.value], name)
    ensures r.Some? ==> forall j :: 0 <= j < r.value ==> !MatchesLogin(db[j], name)
    ensures r.None? <==> forall j :: 0 <= j < |db| ==> !MatchesLogin(db[j], name)
  {
    if db == [] then None
    else if MatchesLogin(db[0], name) then Some(0)
    else match FindLogin(db[1..], name)
      case None => None
      case Some(k) => Some(k + 1)
  }

  /** An account registered under this email, compared case-insensitively; usernames are
      not compared. */
  predicate EmailTaken(db: seq<UserProfile>, email: string): (b: bool)
    ensures db == [] ==> !b
    ensures b ==> email != ""
  {
    exists j :: 0 <= j < |db| && db[j].email.Some? && db[j].email.value != ""
                && Lower(db[j].email.value) == Lower(email)
  }

  /** The simulated device string of a new account. */
  function DeviceType(innerWidth: int): (d: string)
    ensures d == "Mobile (iPhone/Android)" <==> innerWidth < 768
    ensures d != "Mobile (iPhone/Android)" ==> d == "Desktop PC"
  {
    if innerWidth < 768 then "Mobile (iPhone/Android)" else "Desktop PC"
  }

  /** A new account: FREE, no signals used, a 1000 Standard account at 1% risk with all
      notifications on, the cyan card and an empty history. */
  function NewUser(id: string, username: string, email: string, joinDate: string, device: string): (u: UserProfile)
    ensures u.id == id && u.username == username && u.email == Some(email)
    ensures u.plan == FREE && u.planExpiryDate.None? && u.signalsUsedLifetime == 0 && u.signalsUsedToday == 0
    ensures u.settings == UserSettings(1000.0, 1.0, Standard, Some(Notifications(true, true, true)))
    ensures u.idTheme == "cyan" && u.tradeHistory == [] && u.journalEntries.None? && u.lastDevice == Some(device)
  {
    UserProfile(id, username, Some(email), FREE, None, 0, 0, joinDate,
      UserSettings(1000.0, 1.0, Standard, Some(Notifications(true, true, true))),
      "cyan", None, [], None, Some(device), None)
  }

  /** What a submit leads to. */
  datatype Outcome =
    | AdminEntry
    | Failed(message: string)
    | LoggedIn(user: UserProfile)
    | SignedUp(user: UserProfile, users: seq<UserProfile>)

  predicate IsAdminCredential(email: string, password: string)
  {
    Lower(email) == AdminEmail && password == AdminPassword
  }

  /** `handleSubmit` as a function of the form, the stored user list and the values the
      page draws from the browser. */
  function Submit(isLogin: bool, email: string, username: string, password: string,
                  stored: Option<seq<UserProfile>>, freshId: string, joinDate: string, device: string): (o: Outcome)
    ensures IsAdminCredential(email, password) ==> o == AdminEntry
    ensures o.LoggedIn? ==> isLogin && password != "" && FindLogin(stored.GetOr([]), email).Some?
                            && o.user == stored.GetOr([])[FindLogin(stored.GetOr([]), email).value]
    ensures o.SignedUp? ==> !isLogin && o.users == stored.GetOr([]) + [o.user]
                            && o.user == NewUser(freshId, username, email, joinDate, device)
  {
    var db := stored.GetOr([]);
    if IsAdminCredential(email, password) then AdminEntry
    else if isLogin then
      if email == "" || password == "" then Failed(FillCredentialsMessage)
      else match FindLogin(db, email)
        case Some(i) => LoggedIn(db[i])
        case None => Failed(AccountNotFoundMessage)
    else
      if username == "" then Failed(MissingUsernameMessage)
      else if email == "" || password == "" then Failed(FillAllFieldsMessage)
      else if !Contains(email, "@") then Failed(InvalidEmailMessage)
      else if EmailTaken(db, email) then Failed(EmailTakenMessage)
      else
        var u := NewUser(freshId, username, email, joinDate, device);
        SignedUp(u, db + [u])
  }

  /** The signup checks and their order: a missing username is reported before missing
      fields, these before a malformed email, that before a taken email; a signup that
      clears all four is registered. */
  lemma SignupCheckOrder(email: string, username: string, password: string,
                         stored: Option<seq<UserProfile>>, freshId: string, joinDate: string, device: string)
    requires !IsAdminCredential(email, password)
    ensures var o := Submit(false, email, username, password, stored, freshId, joinDate, device);
      && (username == "" ==> o == Failed(MissingUsernameMessage))
      && (username != "" && (email == "" || password == "") ==> o == Failed(FillAllFieldsMessage))
      && (username != "" && email != "" && password != "" && !Contains(email, "@") ==> o == Failed(InvalidEmailMessage))
      && (username != "" && email != "" && password != "" && Contains(email, "@") ==>
            (EmailTaken(stored.GetOr([]), email) ==> o == Failed(EmailTakenMessage))
            && (!EmailTaken(stored.GetOr([]), email) ==> o.SignedUp?))
  {
  }

  /** Login never compares the password: any two non-empty passwords, neither of them
      the admin pair, give the same outcome. */
  lemma LoginIgnoresPassword(email: string, username: string, p1: string, p2: string,
                             stored: Option<seq<UserProfile>>, freshId: string, joinDate: string, device: string)
    requires p1 != "" && p2 != ""
    requires !IsAdminCredential(email, p1) && !IsAdminCredential(email, p2)
    ensures Submit(true, email, username, p1, stored, freshId, joinDate, device)
         == Submit(true, email, username, p2, stored, freshId, joinDate, device)
  {
  }

  /** A login name finds an account exactly when some account matches it. */
  lemma LoginFindsMatch(email: string, password: string, db: seq<UserProfile>, freshId: string, joinDate: string, device: string)
    requires email != "" && password != "" && !IsAdminCredential(email, password)
    ensures Submit(true, email, "", password, Some(db), freshId, joinDate, device).LoggedIn?
        <==> exists j :: 0 <= j < |db| && MatchesLogin(db[j], email)
  {
  }

  /** No two accounts share an email up to case. */
  predicate UniqueEmails(db: seq<UserProfile>)
  {
    forall i, j :: 0 <= i < j < |db| && db[i].email.Some? && db[j].email.Some? && db[i].email.value != ""
      ==> Lower(db[i].email.value) != Lower(db[j].email.value)
  }

  /** Signing up keeps the emails unique. */
  lemma SignupKeepsEmailsUnique(email: string, username: string, password: string,
                                db: seq<UserProfile>, freshId: string, joinDate: string, device: string)
    requires UniqueEmails(db)
    ensures var o := Submit(false, email, username, password, Some(db), freshId, joinDate, device);
      o.SignedUp? ==> UniqueEmails(o.users)
  {
    var o := Submit(false, email, username, password, Some(db), freshId, joinDate, device);
    if o.SignedUp? {
      var r := o.users;
      assert !EmailTaken(db, email);
      forall i, j | 0 <= i < j < |r| && r[i].email.Some? && r[j].email.Some? && r[i].email.value != ""
        ensures Lower(r[i].email.value) != Lower(r[j].email.value)
      {
        if j == |db| {
          assert r[i] == db[i] && r[j].email == Some(email);
        } else {
          assert r[i] == db[i] && r[j] == db[j];
        }
      }
    }
  }

  /** After signing up, logging in with the same email finds an account. */
  lemma SignupThenLogin(email: string, username: string, password: string,
                        db: seq<UserProfile>, freshId: string, joinDate: string, device: string)
    requires !IsAdminCredential(email, password)
    requires Submit(false, email, username, password, Some(db), freshId, joinDate, device).SignedUp?
    ensures var o := Submit(false, email, username, password, Some(db), freshId, joinDate, device);
      Submit(true, email, "", password, Some(o.users), freshId, joinDate, device).LoggedIn?
  {
    var o := Submit(false, email, username, password, Some(db), freshId, joinDate, device);
    assert o.users[|db|] == o.user;
    assert MatchesLogin(o.user, email);
  }

  /** Where the page navigates. */
  datatype Route = StayOnAuth | AdminRoute | DashboardRoute

  /** The page's state: the mode, the form, the error line and the strength meter. */
  class AuthView {
    var isLogin: bool
    var email: string
    var username: string
    var password: string
    var error: string
    var passwordStrength: nat
    var route: Route
    const store: LocalStore

    constructor(store: LocalStore)
      ensures this.store == store && isLogin && email == "" && username == "" && password == ""
      ensures error == "" && passwordStrength == 0 && route == StayOnAuth
    {
      this.store := store;
      isLogin := true;
      email := "";
      username := "";
      password := "";
      error := "";
      passwordStrength := 0;
      route := StayOnAuth;
    }

    /** `calculateStrength`, scoring the password the way the page does. */
    method CalculateStrength(pass: string)
      modifies this
      ensures passwordStrength == Strength(pass)
      ensures password == old(password) && email == old(email) && username == old(username)
      ensures isLogin == old(isLogin) && error == old(error) && route == old(route)
    {
      var score := 0;
      if |pass| > 0 {
        score := 1;
      }
      if |pass| > 6 {
        score := score + 1;
      }
      if HasDigit(pass) && HasSymbol(pass) {
        score := score + 1;
      }
      if |pass| > 10 {
        score := 3;
      }
      passwordStrength := score;
    }

    /** `handlePasswordChange`. */
    method HandlePasswordChange(val: string)
      modifies this
      ensures password == val && passwordStrength == Strength(val)
      ensures email == old(email) && username == old(username) && isLogin == old(isLogin)
    {
      password := val;
      CalculateStrength(val);
    }

    /** `handleSubmit`, with the new id, the clock and the window width passed in;
        `onLogin` is the application's `handleLogin`. */
    method HandleSubmit(app: App, freshId: string, joinDate: string, innerWidth: int)
      requires store == app.store
      modifies this, store, app
      ensures var o := Submit(old(isLogin), old(email), old(username), old(password), old(store.users),
                              freshId, joinDate, DeviceType(innerWidth));
        && (o.AdminEntry? ==> store.adminAuth && route == AdminRoute && error == ""
                              && store.session == old(store.session) && store.users == old(store.users)
                              && app.user == old(app.user))
        && (o.Failed? ==> error == o.message && route == old(route) && store.adminAuth == old(store.adminAuth)
                          && store.session == old(store.session) && store.users == old(store.users)
                          && app.user == old(app.user))
        && (o.LoggedIn? ==> store.session == Some(o.user) && store.users == old(store.users)
                            && app.user == Some(o.user) && route == DashboardRoute && error == "")
        && (o.SignedUp? ==> store.session == Some(o.user) && store.users == Some(o.users)
                            && app.user == Some(o.user) && route == DashboardRoute && error == "")
      ensures !IsAdminCredential(old(email), old(password)) ==> store.adminAuth == old(store.adminAuth)
      ensures isLogin == old(isLogin) && email == old(email) && username == old(username)
      ensures password == old(password) && passwordStrength == old(passwordStrength)
      ensures app.isLoading == old(app.isLoading)
    {
      error := "";
      if Lower(email) == AdminEmail && password == AdminPassword {
        store.adminAuth := true;
        route := AdminRoute;
        return;
      }
      var users := if store.users.Some? then store.users.value else [];
      if isLogin {
        if email == "" || password == "" {
          error := FillCredentialsMessage;
          return;
        }
        var found := FindLogin(users, email);
        if found.Some? {
          var foundUser := users[found.value];
          store.session := Some(foundUser);
          app.HandleLogin(foundUser);
          route := DashboardRoute;
        } else {
          error := AccountNotFoundMessage;
        }
      } else {
        if username == "" {
          error := MissingUsernameMessage;
          return;
        }
        if email == "" || password == "" {
          error := FillAllFieldsMessage;
          return;
        }
        if !Contains(email, "@") {
          error := InvalidEmailMessage;
          return;
        }
        if EmailTaken(users, email) {
          error := EmailTakenMessage;
          return;
        }
        var newUser := NewUser(freshId, username, email, joinDate, DeviceType(innerWidth));
        users := users + [newUser];
        store.users := Some(users);
        store.session := Some(newUser);
        app.HandleLogin(newUser);
        route := DashboardRoute;
      }
    }
  }
}
