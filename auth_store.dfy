/** The authentication/session store (`useAuthStore`): the signed-in user,
    that user's profile row and a loading flag that is cleared once the
    first session notification arrives. The cart store reads `user`. */
module Auth {
  import opened Backend

  /** The session's user; only the id and the e-mail address are used. */
  datatype User = User(id: UserId, email: string)

  /** The generic message returned when an awaited call rejects. */
  const UnexpectedError: string := "auth: unexpected error"
  /** The message `updateProfile` returns when nobody is signed in. */
  const NotSignedIn: string := "auth: user is not signed in"

  /** `signUp` and `signIn` share one mapping from the backend's answer to
      what they resolve to: `{}` on success, the backend's own message on
      an error answer, the generic message when the call rejects. */
  function AuthReply(reply: Outcome): Response
  {
    Resolve(reply, UnexpectedError)
  }

  /** The profile `fetchProfile` leaves behind: the row read for the
      signed-in user when the read returns one, otherwise what was there. */
  function ProfileAfterFetch(user: Option<User>, current: Option<Profile>,
                             profiles: map<UserId, Profile>, lookup: Outcome): (p: Option<Profile>)
    ensures user.None? || !lookup.Ok? ==> p == current
    ensures p != current ==> p.Some? && user.Some? && user.value.id in profiles && p.value == profiles[user.value.id]
    ensures user.Some? && lookup.Ok? && user.value.id in profiles ==> p == Some(profiles[user.value.id])
  {
    if user.Some? && lookup.Ok? && user.value.id in profiles then Some(profiles[user.value.id])
    else current
  }

  class AuthStore {
    var user: Option<User>
    var profile: Option<Profile>
    var loading: bool
    /** The backend the store talks to. */
    const db: Database

    /** The store as created: nobody signed in, no profile, still loading. */
    constructor (db: Database)
      ensures user == None && profile == None && loading
      ensures this.db == db
    {
      user := None;
      profile := None;
      loading := true;
      this.db := db;
    }

    /** `signUp`: asks the backend to create the account (its full name goes
        along as account metadata) and reports the answer. The store's own
        fields are not touched; a new session arrives only through
        `OnAuthStateChange`. */
    method SignUp(email: string, password: string, fullName: string, reply: Outcome) returns (r: Response)
      ensures r == Done <==> reply == Ok
      ensures reply.Err? ==> r == Failed(reply.message)
      ensures reply == Throw ==> r == Failed(UnexpectedError)
    {
      r := AuthReply(reply);
    }

    /** `signIn`: asks the backend to sign in with e-mail and password and
        reports the answer; like `signUp` it leaves the store's fields alone. */
    method SignIn(email: string, password: string, reply: Outcome) returns (r: Response)
      ensures r == Done <==> reply == Ok
      ensures reply.Err? ==> r == Failed(reply.message)
      ensures reply == Throw ==> r == Failed(UnexpectedError)
    {
      r := AuthReply(reply);
    }

    /** `signOut`: once the backend call has returned, user and profile are
        cleared; `loading` is left as it was. When the call rejects the
        assignment after it never runs. */
    method SignOut(reply: Outcome)
      modifies this`user, this`profile
      ensures reply != Throw ==> user == None && profile == None
      ensures reply == Throw ==> user == old(user) && profile == old(profile)
      ensures loading == old(loading)
    {
      if reply == Throw {
        return;
      }
      user, profile := None, None;
    }

    /** `fetchProfile`: without a user nothing is read; otherwise the
        profile is replaced only when the read returns a row. */
    method FetchProfile(lookup: Outcome)
      modifies this`profile
      ensures profile == ProfileAfterFetch(user, old(profile), db.profiles, lookup)
    {
      if user.None? {
        return;
      }
      // `.single()` on the primary key: a row, or no data (error or rejection).
      if lookup.Ok? && user.value.id in db.profiles {
        profile := Some(db.profiles[user.value.id]);
      }
    }

    /** `updateProfile`: refuses without a user, passes a backend error
        through without reading the profile again, and on success writes
        the row and re-reads the profile. A rejection of that re-read lands
        in the same `catch` and yields the generic message, although the
        write has happened. */
    method UpdateProfile(updates: ProfileUpdate, write: Outcome, refetch: Outcome) returns (r: Response)
      modifies this`profile, db`profiles
      ensures user.None? ==> r == Failed(NotSignedIn)
      ensures user.Some? && write.Err? ==> r == Failed(write.message)
      ensures user.Some? && write == Throw ==> r == Failed(UnexpectedError)
      ensures user.None? || !write.Ok? ==> db.profiles == old(db.profiles) && profile == old(profile)
      ensures user.Some? && write.Ok? ==>
                && db.profiles == (if user.value.id in old(db.profiles)
                                   then old(db.profiles)[user.value.id := ApplyUpdate(old(db.profiles)[user.value.id], updates)]
                                   else old(db.profiles))
                && profile == ProfileAfterFetch(user, old(profile), db.profiles, refetch)
                && r == (if refetch == Throw then Failed(UnexpectedError) else Done)
    {
      if user.None? {
        return Failed(NotSignedIn);
      }
      match write {
        case Err(m) => return Failed(m);
        case Throw => return Failed(UnexpectedError);
        case Ok =>
      }
      db.UpdateProfile(user.value.id, updates);
      FetchProfile(refetch);
      if refetch == Throw {
        return Failed(UnexpectedError);
      }
      return Done;
    }

    /** The `onAuthStateChange` listener: takes the session's user (or
        none), ends loading, and reads the profile only when there is a user. */
    method OnAuthStateChange(session: Option<User>, lookup: Outcome)
      modifies this`user, this`loading, this`profile
      ensures user == session && !loading
      ensures profile == ProfileAfterFetch(session, old(profile), db.profiles, lookup)
    {
      user, loading := session, false;
      if session.Some? {
        FetchProfile(lookup);
      }
    }
  }
}
