/** The account repository: `FindByEmail`, a single-row lookup, and `CreateUser`, which
    writes a user row and its profile row in one transaction. */
module AuthRepo {
  import opened Wrappers
  import opened Models
  import opened Store

  class AuthRepository {
    const db: Database

    constructor (db: Database)
      ensures this.db == db
    {
      this.db := db;
    }

    /** `FindByEmail`: the user with the e-mail, or an error; no row is an error too, so
        the method never reports "no user" without one. */
    method FindByEmail(email: string, fault: Option<string>) returns (r: Result<User>)
      ensures fault.Some? ==> r == Err(fault.value)
      ensures fault.None? ==> (r.Ok? <==> HasEmail(db.users, email))
      ensures fault.None? && !HasEmail(db.users, email) ==> r == Err(NoRows)
      ensures r.Ok? ==> r.value in db.users && r.value.email == email
      ensures r.Ok? ==> UserByEmail(db.users, email) == Some(r.value)
    {
      if fault.Some? {
        return Err(fault.value);
      }
      var row := UserByEmail(db.users, email);
      if row.None? {
        return Err(NoRows);
      }
      return Ok(row.value);
    }

    /** `CreateUser`: inside one transaction, give the caller's user a new id, insert the
        user row, insert its profile row and commit; the deferred rollback discards
        whatever the transaction did when any step fails. The caller's user object is
        returned as `withId`: its id is set once the transaction has begun. */
    method CreateUser(user: User, newId: Uuid, now: int, faults: TxFaults) returns (withId: User, err: Option<string>)
      modifies db
      ensures faults.begin.Some? ==> withId == user && err == faults.begin
      ensures faults.begin.None? ==> withId == user.(id := newId)
      ensures err.None? <==>
        faults == TxFaults(None, None, None, None) &&
        !HasEmail(old(db.users), user.email) && !HasUser(old(db.users), newId) && !HasProfile(old(db.profiles), newId)
      ensures err.None? ==>
        db.users == old(db.users) + [NewUser(newId, user.email, user.password)] &&
        db.profiles == old(db.profiles) + [NewProfile(newId, now)]
      ensures err.Some? ==> db.users == old(db.users) && db.profiles == old(db.profiles)
      ensures old(db.Valid()) ==> db.Valid()
    {
      if faults.begin.Some? {
        return user, faults.begin;
      }
      // The transaction's own view of the tables; it reaches the store only on commit.
      var txUsers := db.users;
      var txProfiles := db.profiles;
      withId := user.(id := newId);

      if HasEmail(txUsers, withId.email) || HasUser(txUsers, withId.id) {
        return withId, Some(UniqueViolation);
      }
      if faults.insertUser.Some? {
        return withId, faults.insertUser;
      }
      txUsers := txUsers + [NewUser(withId.id, withId.email, withId.password)];

      if HasProfile(txProfiles, withId.id) {
        return withId, Some(UniqueViolation);
      }
      if faults.insertProfile.Some? {
        return withId, faults.insertProfile;
      }
      txProfiles := txProfiles + [NewProfile(withId.id, now)];

      if faults.commit.Some? {
        return withId, faults.commit;
      }
      if db.Valid() {
        AppendAccountValid(db.users, db.profiles, NewUser(newId, user.email, user.password), NewProfile(newId, now));
      }
      db.users := txUsers;
      db.profiles := txProfiles;
      return withId, None;
    }
  }

  /** What a successful `CreateUser` leaves is readable: the e-mail finds the new user,
      with role `'user'`, and its id finds the empty profile row. */
  lemma CreatedAccountReadable(users: seq<User>, profiles: seq<Profile>, id: Uuid,
                               email: string, password: string, now: int)
    requires !HasEmail(users, email) && !HasProfile(profiles, id)
    ensures UserByEmail(users + [NewUser(id, email, password)], email) == Some(User(id, email, password, "user"))
    ensures ProfileOf(profiles + [NewProfile(id, now)], id) == Some(Profile(id, None, None, None, None, None, now, None))
  {
    FindAppended(users, NewUser(id, email, password));
    ProfileAppended(profiles, NewProfile(id, now));
  }
}
