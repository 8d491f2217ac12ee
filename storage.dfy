/** The browser's local storage, holding the three keys the core reads and writes.
    Values are kept as records: serialising and parsing them is the identity here. */
module Storage {
  import opened Types

  class LocalStore {
    /** The 'tv_session' key. */
    var session: Option<UserProfile>
    /** The 'tv_users' key, the master user list. */
    var users: Option<seq<UserProfile>>
    /** Whether the 'tv_admin_auth' key holds 'true'. */
    var adminAuth: bool

    constructor(session: Option<UserProfile>, users: Option<seq<UserProfile>>, adminAuth: bool)
      ensures this.session == session && this.users == users && this.adminAuth == adminAuth
    {
      this.session := session;
      this.users := users;
      this.adminAuth := adminAuth;
    }
  }
}
