/** The two account tables, `users` and `profile`, that account creation writes and the
    profile repository reads and updates. Each table is its rows in insertion order; the
    constraints the schema enforces (unique e-mail, the user id as primary key of both
    tables) and the pairing that account creation maintains make up `Valid`. */
module Store {
  import opened Wrappers
  import opened Models

  /** The error a unique or primary-key constraint raises. */
  const UniqueViolation: string := "duplicate key value violates unique constraint"

  predicate HasUser(users: seq<User>, id: Uuid) {
    exists i :: 0 <= i < |users| && users[i].id == id
  }

  predicate HasEmail(users: seq<User>, email: string) {
    exists i :: 0 <= i < |users| && users[i].email == email
  }

  predicate HasProfile(profiles: seq<Profile>, id: Uuid) {
    exists j :: 0 <= j < |profiles| && profiles[j].userId == id
  }

  /** Every user has a profile row and every profile row belongs to a user. */
  predicate Paired(users: seq<User>, profiles: seq<Profile>) {
    (forall i :: 0 <= i < |users| ==> HasProfile(profiles, users[i].id)) &&
    (forall j :: 0 <= j < |profiles| ==> HasUser(users, profiles[j].userId))
  }

  predicate UniqueUsers(users: seq<User>) {
    forall i, j :: 0 <= i < j < |users| ==> users[i].id != users[j].id && users[i].email != users[j].email
  }

  predicate UniqueProfiles(profiles: seq<Profile>) {
    forall i, j :: 0 <= i < j < |profiles| ==> profiles[i].userId != profiles[j].userId
  }

  /** The first user with the e-mail: the row `QueryRow` scans. */
  function UserByEmail(users: seq<User>, email: string): (r: Option<User>)
    ensures r.Some? ==> r.value in users && r.value.email == email
    ensures r.None? <==> !HasEmail(users, email)
  {
    if users == [] then None
    else if users[0].email == email then Some(users[0])
    else
      var r := UserByEmail(users[1..], email);
      assert HasEmail(users, email) ==> users[0].email == email || HasEmail(users[1..], email) by {
        if HasEmail(users, email) {
          var i :| 0 <= i < |users| && users[i].email == email;
          if i > 0 {
            assert users[1..][i - 1].email == email;
          }
        }
      }
      assert HasEmail(users[1..], email) ==> HasEmail(users, email) by {
        if HasEmail(users[1..], email) {
          var i :| 0 <= i < |users[1..]| && users[1..][i].email == email;
          assert users[i + 1].email == email;
        }
      }
      r
  }

  /** The first user with the identifier. */
  function UserById(users: seq<User>, id: Uuid): (r: Option<User>)
    ensures r.Some? ==> r.value in users && r.value.id == id
    ensures r.None? <==> !HasUser(users, id)
  {
    if users == [] then None
    else if users[0].id == id then Some(users[0])
    else
      var r := UserById(users[1..], id);
      assert HasUser(users, id) ==> users[0].id == id || HasUser(users[1..], id) by {
        if HasUser(users, id) {
          var i :| 0 <= i < |users| && users[i].id == id;
          if i > 0 {
            assert users[1..][i - 1].id == id;
          }
        }
      }
      assert HasUser(users[1..], id) ==> HasUser(users, id) by {
        if HasUser(users[1..], id) {
          var i :| 0 <= i < |users[1..]| && users[1..][i].id == id;
          assert users[i + 1].id == id;
        }
      }
      r
  }

  /** The first profile row of the user. */
  function ProfileOf(profiles: seq<Profile>, id: Uuid): (r: Option<Profile>)
    ensures r.Some? ==> r.value in profiles && r.value.userId == id
    ensures r.None? <==> !HasProfile(profiles, id)
  {
    if profiles == [] then None
    else if profiles[0].userId == id then Some(profiles[0])
    else
      var r := ProfileOf(profiles[1..], id);
      assert HasProfile(profiles, id) ==> profiles[0].userId == id || HasProfile(profiles[1..], id) by {
        if HasProfile(profiles, id) {
          var j :| 0 <= j < |profiles| && profiles[j].userId == id;
          if j > 0 {
            assert profiles[1..][j - 1].userId == id;
          }
        }
      }
      assert HasProfile(profiles[1..], id) ==> HasProfile(profiles, id) by {
        if HasProfile(profiles[1..], id) {
          var j :| 0 <= j < |profiles[1..]| && profiles[1..][j].userId == id;
          assert profiles[j + 1].userId == id;
        }
      }
      r
  }

  /** The profile row created with an account: only the key and the creation time. */
  function NewProfile(id: Uuid, now: int): Profile {
    Profile(id, None, None, None, None, None, now, None)
  }

  /** The user row created by registration; the role is always `'user'`. */
  function NewUser(id: Uuid, email: string, password: string): User {
    User(id, email, password, "user")
  }

  /** After an account is appended, looking its e-mail up finds it, provided the e-mail
      was free. */
  lemma {:induction false} FindAppended(users: seq<User>, u: User)
    requires !HasEmail(users, u.email)
    ensures UserByEmail(users + [u], u.email) == Some(u)
  {
    if users != [] {
      assert (users + [u])[1..] == users[1..] + [u];
      assert users[0].email != u.email;
      FindAppended(users[1..], u);
    }
  }

  /** After a profile row is appended for a user without one, looking the user's
      profile up finds it. */
  lemma {:induction false} ProfileAppended(profiles: seq<Profile>, p: Profile)
    requires !HasProfile(profiles, p.userId)
    ensures ProfileOf(profiles + [p], p.userId) == Some(p)
  {
    if profiles != [] {
      assert (profiles + [p])[1..] == profiles[1..] + [p];
      assert profiles[0].userId != p.userId;
      ProfileAppended(profiles[1..], p);
    }
  }

  /** Whether each step of the account-creation transaction fails, and with what error:
      `BEGIN`, the two inserts (apart from constraint violations, which the tables
      decide) and `COMMIT`. */
  datatype TxFaults = TxFaults(begin: Option<string>, insertUser: Option<string>,
                               insertProfile: Option<string>, commit: Option<string>)

  /** The account store. */
  class Database {
    var users: seq<User>
    var profiles: seq<Profile>

    predicate Valid()
      reads this
    {
      UniqueUsers(users) && UniqueProfiles(profiles) && Paired(users, profiles)
    }

    constructor ()
      ensures users == [] && profiles == [] && Valid()
    {
      users := [];
      profiles := [];
    }
  }

  /** Appending a user with a fresh id and e-mail together with its profile keeps the
      tables consistent and paired. */
  lemma AppendAccountValid(users: seq<User>, profiles: seq<Profile>, u: User, p: Profile)
    requires UniqueUsers(users) && UniqueProfiles(profiles) && Paired(users, profiles)
    requires !HasEmail(users, u.email) && !HasUser(users, u.id) && !HasProfile(profiles, u.id)
    requires p.userId == u.id
    ensures UniqueUsers(users + [u]) && UniqueProfiles(profiles + [p]) && Paired(users + [u], profiles + [p])
  {
    var us := users + [u];
    var ps := profiles + [p];
    forall i, j | 0 <= i < j < |us| ensures us[i].id != us[j].id && us[i].email != us[j].email {
      if j == |users| {
        assert us[i] == users[i];
      }
    }
    forall i, j | 0 <= i < j < |ps| ensures ps[i].userId != ps[j].userId {
      if j == |profiles| {
        assert ps[i] == profiles[i];
      }
    }
    forall i | 0 <= i < |us| ensures HasProfile(ps, us[i].id) {
      if i == |users| {
        assert ps[|profiles|].userId == u.id;
      } else {
        assert us[i] == users[i];
        var j :| 0 <= j < |profiles| && profiles[j].userId == users[i].id;
        assert ps[j].userId == us[i].id;
      }
    }
    forall j | 0 <= j < |ps| ensures HasUser(us, ps[j].userId) {
      if j == |profiles| {
        assert us[|users|].id == p.userId;
      } else {
        assert ps[j] == profiles[j];
        var i :| 0 <= i < |users| && users[i].id == profiles[j].userId;
        assert us[i].id == ps[j].userId;
      }
    }
  }
}
