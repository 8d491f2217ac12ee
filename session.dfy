/** The application shell: reconciling the cached session with the master user list
    at start-up, and the `updateUser` operation every page writes its changes through. */
module Session {
  import opened Types
  import opened Storage

  /** `db.findIndex(u => u.id === id)`: the first position holding that id. */
  function FindIndex(db: seq<UserProfile>, id: string): (r: Option<nat>)
    ensures r.Some? ==> r.value < |db| && db[r.value].id == id
    ensures r.Some? ==> forall j :: 0 <= j < r.value ==> db[j].id != id
    ensures r.None? <==> forall j :: 0 <= j < |db| ==> db[j].id != id
  {
    if db == [] then None
    else if db[0].id == id then Some(0)
    else match FindIndex(db[1..], id)
      case None => None
      case Some(k) => Some(k + 1)
  }

  /** Overwriting the record that FindIndex found with one of the same id keeps it the
      first one with that id. */
  lemma {:induction false} FindIndexAfterWrite(db: seq<UserProfile>, i: nat, v: UserProfile)
    requires FindIndex(db, v.id) == Some(i)
    ensures FindIndex(db[i := v], v.id) == Some(i)
  {
    if i > 0 {
      assert db[i := v][1..] == db[1..][i - 1 := v];
      FindIndexAfterWrite(db[1..], i - 1, v);
    }
  }

  /** A plan whose expiry date lies before `now`. */
  predicate Expired(u: UserProfile, now: int): (b: bool)
    ensures u.planExpiryDate.None? ==> !b
    ensures u.planExpiryDate.Some? && u.planExpiryDate.value >= now ==> !b
  {
    u.planExpiryDate.Some? && u.planExpiryDate.value < now
  }

  /** The automatic downgrade: the plan becomes FREE, the expiry is cleared, and
      nothing else about the record changes. */
  function Downgrade(u: UserProfile): (r: UserProfile)
    ensures r.plan == FREE && r.planExpiryDate == None
    ensures r.(plan := u.plan, planExpiryDate := u.planExpiryDate) == u
  {
    u.(plan := FREE, planExpiryDate := None)
  }

  /** What the start-up effect leaves behind: the user handed to the UI, and the
      'tv_session' and 'tv_users' keys. */
  datatype Boot = Boot(user: Option<UserProfile>, session: Option<UserProfile>, users: Option<seq<UserProfile>>)

  /** The session reconciliation as a function of the stored keys and the clock. */
  function Reconcile(session: Option<UserProfile>, users: Option<seq<UserProfile>>, now: int): (r: Boot)
    ensures r.user.Some? <==> session.Some?
    ensures session.Some? ==> r.session == r.user && r.user.value.id == session.value.id
    ensures session.None? ==> r.session.None?
    ensures r.users.Some? <==> users.Some?
    ensures users.Some? ==> |r.users.value| == |users.value|
  {
    match session
    case None => Boot(None, None, users)
    case Some(cached) =>
      match users
      case None => Boot(Some(cached), session, users)
      case Some(db) =>
        match FindIndex(db, cached.id)
        case None => Boot(Some(cached), session, users)
        case Some(i) =>
          if Expired(db[i], now) then
            var master := Downgrade(db[i]);
            Boot(Some(master), Some(master), Some(db[i := master]))
          else
            Boot(Some(db[i]), Some(db[i]), users)
  }

  /** With no stored session nobody is logged in and nothing is written. */
  lemma ReconcileNoSession(users: Option<seq<UserProfile>>, now: int)
    ensures Reconcile(None, users, now) == Boot(None, None, users)
  {
  }

  /** Without a master list, or without a record of the session's id in it, the cached
      session is used as it is and neither key changes. */
  lemma ReconcileWithoutMaster(cached: UserProfile, users: Option<seq<UserProfile>>, now: int)
    requires users.None? || forall j :: 0 <= j < |users.value| ==> users.value[j].id != cached.id
    ensures Reconcile(Some(cached), users, now) == Boot(Some(cached), Some(cached), users)
  {
  }

  /** With a master record the session becomes that record, downgraded when its
      expiry has passed; the session key and the list entry then agree with it. */
  lemma ReconcileAdoptsMaster(cached: UserProfile, db: seq<UserProfile>, i: nat, now: int)
    requires i < |db| && db[i].id == cached.id
    requires forall j :: 0 <= j < i ==> db[j].id != cached.id
    ensures var b := Reconcile(Some(cached), Some(db), now);
      && b.user.Some? && b.session == b.user && b.users.Some?
      && |b.users.value| == |db| && b.users.value[i] == b.user.value
      && (forall j :: 0 <= j < |db| && j != i ==> b.users.value[j] == db[j])
      && b.user.value == (if Expired(db[i], now) then Downgrade(db[i]) else db[i])
      && (!Expired(db[i], now) ==> b.users == Some(db))
  {
    assert FindIndex(db, cached.id) == Some(i);
  }

  /** A plan that expired before `now` comes out as FREE without an expiry date; an
      absent or future expiry keeps the plan. */
  lemma ReconcileDowngradesExpired(cached: UserProfile, db: seq<UserProfile>, i: nat, now: int)
    requires i < |db| && db[i].id == cached.id
    requires forall j :: 0 <= j < i ==> db[j].id != cached.id
    ensures var b := Reconcile(Some(cached), Some(db), now);
      && (db[i].planExpiryDate.Some? && db[i].planExpiryDate.value < now ==>
            b.user.value.plan == FREE && b.user.value.planExpiryDate == None)
      && (db[i].planExpiryDate.None? || db[i].planExpiryDate.value >= now ==>
            b.user.value.plan == db[i].plan && b.users == Some(db))
  {
    assert FindIndex(db, cached.id) == Some(i);
  }

  /** Running the reconciliation a second time at the same instant changes nothing. */
  lemma ReconcileIdempotent(session: Option<UserProfile>, users: Option<seq<UserProfile>>, now: int)
    ensures var b := Reconcile(session, users, now);
      Reconcile(b.session, b.users, now) == b
  {
    var b := Reconcile(session, users, now);
    if session.Some? && users.Some? {
      var db := users.value;
      var id := session.value.id;
      match FindIndex(db, id)
      case None =>
      case Some(i) =>
        if Expired(db[i], now) {
          var master := Downgrade(db[i]);
          assert b.session == Some(master) && b.users == Some(db[i := master]);
          FindIndexAfterWrite(db, i, master);
          assert db[i := master][i] == master;
        }
    }
  }

  /** `{ ...user, ...updates }`: the keys present in the update take its values,
      every other field keeps the user's. */
  function Merge(u: UserProfile, p: UserPatch): (r: UserProfile)
    ensures r.(signalsUsedLifetime := u.signalsUsedLifetime, signalsUsedToday := u.signalsUsedToday,
               tradeHistory := u.tradeHistory, journalEntries := u.journalEntries, settings := u.settings) == u
    ensures r.signalsUsedLifetime == p.signalsUsedLifetime.GetOr(u.signalsUsedLifetime)
    ensures r.signalsUsedToday == p.signalsUsedToday.GetOr(u.signalsUsedToday)
    ensures r.tradeHistory == p.tradeHistory.GetOr(u.tradeHistory)
    ensures r.journalEntries == (if p.journalEntries.Some? then p.journalEntries else u.journalEntries)
    ensures r.settings == p.settings.GetOr(u.settings)
  {
    u.(signalsUsedLifetime := p.signalsUsedLifetime.GetOr(u.signalsUsedLifetime),
       signalsUsedToday := p.signalsUsedToday.GetOr(u.signalsUsedToday),
       tradeHistory := p.tradeHistory.GetOr(u.tradeHistory),
       journalEntries := if p.journalEntries.Some? then p.journalEntries else u.journalEntries,
       settings := p.settings.GetOr(u.settings))
  }

  /** An empty update leaves the user as it is, and the id never changes. */
  lemma MergeNoChanges(u: UserProfile, p: UserPatch)
    ensures Merge(u, NoChanges) == u
    ensures Merge(u, p).id == u.id
  {
  }

  /** The list write in `updateUser`: the first record with the updated user's id is
      replaced, and a list without that id is left alone. */
  function WriteBack(db: seq<UserProfile>, u: UserProfile): (r: seq<UserProfile>)
    ensures |r| == |db|
    ensures (forall j :: 0 <= j < |db| ==> db[j].id != u.id) ==> r == db
  {
    match FindIndex(db, u.id)
    case None => db
    case Some(i) => db[i := u]
  }

  /** Only the entry at the matching index changes; every other entry stays. */
  lemma WriteBackOnlyAtIndex(db: seq<UserProfile>, u: UserProfile, i: nat)
    requires i < |db| && db[i].id == u.id
    requires forall j :: 0 <= j < i ==> db[j].id != u.id
    ensures WriteBack(db, u)[i] == u
    ensures forall j :: 0 <= j < |db| && j != i ==> WriteBack(db, u)[j] == db[j]
  {
    assert FindIndex(db, u.id) == Some(i);
  }

  /** Writing the same user back twice is the same as writing it once. */
  lemma WriteBackIdempotent(db: seq<UserProfile>, u: UserProfile)
    ensures WriteBack(WriteBack(db, u), u) == WriteBack(db, u)
  {
    match FindIndex(db, u.id)
    case None =>
    case Some(i) =>
      FindIndexAfterWrite(db, i, u);
      assert db[i := u][i := u] == db[i := u];
  }

  /** The application state that App.tsx keeps: the logged-in user and the storage. */
  class App {
    var user: Option<UserProfile>
    var isLoading: bool
    const store: LocalStore

    constructor(store: LocalStore)
      ensures this.store == store && user == None && isLoading
    {
      this.store := store;
      user := None;
      isLoading := true;
    }

    /** The start-up effect. */
    method LoadSession(now: int)
      modifies this, store
      ensures var b := Reconcile(old(store.session), old(store.users), now);
        && store.session == b.session && store.users == b.users
        && (if old(store.session).Some? then user == b.user else user == old(user))
      ensures store.adminAuth == old(store.adminAuth) && !isLoading
    {
      if store.session.Some? {
        var currentUser := store.session.value;
        if store.users.Some? {
          var db := store.users.value;
          var found := FindIndex(db, currentUser.id);
          if found.Some? {
            var masterRecord := db[found.value];
            if masterRecord.planExpiryDate.Some? && masterRecord.planExpiryDate.value < now {
              masterRecord := masterRecord.(plan := FREE);
              masterRecord := masterRecord.(planExpiryDate := None);
              var index := FindIndex(db, masterRecord.id);
              db := db[index.value := masterRecord];
              store.users := Some(db);
            }
            currentUser := masterRecord;
            store.session := Some(currentUser);
          }
        }
        user := Some(currentUser);
      }
      isLoading := false;
    }

    /** `updateUser`: merge the update into the current user and write the result to
        the UI state, the session key and the user's entry in the master list. */
    method UpdateUser(updates: UserPatch)
      modifies this, store
      ensures old(user).None? ==>
        user == old(user) && store.session == old(store.session) && store.users == old(store.users)
      ensures old(user).Some? ==>
        var u := Merge(old(user).value, updates);
        && user == Some(u) && store.session == Some(u)
        && store.users == (if old(store.users).Some? then Some(WriteBack(old(store.users).value, u)) else None)
      ensures store.adminAuth == old(store.adminAuth) && isLoading == old(isLoading)
    {
      if user.None? {
        return;
      }
      var updatedUser := Merge(user.value, updates);
      user := Some(updatedUser);
      store.session := Some(updatedUser);
      if store.users.Some? {
        var db := store.users.value;
        var index := FindIndex(db, updatedUser.id);
        if index.Some? {
          db := db[index.value := updatedUser];
          store.users := Some(db);
        }
      }
    }

    /** `handleLogin`: the page that logged the user in has already written the session. */
    method HandleLogin(loggedInUser: UserProfile)
      modifies this
      ensures user == Some(loggedInUser) && isLoading == old(isLoading)
    {
      user := Some(loggedInUser);
    }
  }
}
