/** The profile repository: `GetProfile`, `UpdateProfile` with its dynamically built
    `UPDATE profile SET ... WHERE user_id = $n` statement, `VerifyPassword` and
    `UpdatePassword`.

    The statement is modelled by its `SET` entries, its argument list and the number of
    the `WHERE` placeholder; the database's reading of it (`Assign`, `ApplyAll`,
    `ExecuteUpdate`) binds placeholder `$i` to argument `i` and writes each named column,
    so that the effect of the built statement can be proved field by field. */
module ProfileRepo {
  import opened Wrappers
  import opened GoInt
  import opened Text
  import opened Models
  import opened Store

  /** A value bound to a placeholder: a text field, the update time, or the user id. */
  datatype Arg = Str(s: string) | Instant(t: int) | Key(id: Uuid)

  /** One `column = value` entry of the `SET` clause. */
  datatype Field = Field(column: string, value: Arg)

  /** An `UPDATE profile` statement: its `SET` entries, the arguments bound to `$1`,
      `$2`, ..., and the placeholder number the `WHERE user_id` clause uses. */
  datatype Statement = Statement(setParts: seq<string>, args: seq<Arg>, whereArg: int)

  /** `fmt.Sprintf("<column> = $%d", n)`. */
  function Assignment(column: string, n: int): string {
    column + " = $" + FormatInt(n)
  }

  function Optional(column: string, v: Option<string>): (fs: seq<Field>)
    ensures |fs| <= 1
  {
    if v.Some? then [Field(column, Str(v.value))] else []
  }

  /** The fields of the patch that are present, in the order `UpdateProfile` checks them. */
  function Present(p: Profile): seq<Field> {
    Optional("firstname", p.firstName) + Optional("lastname", p.lastName) +
    Optional("phone_number", p.phoneNumber) + Optional("avatar", p.avatar)
  }

  /** The `SET` entries for `fs`, numbered consecutively from `first`. */
  function Rendered(fs: seq<Field>, first: int): (r: seq<string>)
    ensures |r| == |fs|
  {
    seq(|fs|, i requires 0 <= i < |fs| => Assignment(fs[i].column, first + i))
  }

  function Values(fs: seq<Field>): (r: seq<Arg>)
    ensures |r| == |fs|
  {
    seq(|fs|, i requires 0 <= i < |fs| => fs[i].value)
  }

  /** The statement `UpdateProfile` executes for the patch `p` at time `now`, or none when
      no personal field is present. With k present fields there are k + 1 `SET` entries
      (`updated_at` last, numbered k + 1), k + 2 arguments (the user id last), and the
      `WHERE` placeholder is $(k + 2), the number of arguments. */
  function UpdateStatement(p: Profile, now: int): (r: Option<Statement>)
    ensures r.None? <==> p.firstName.None? && p.lastName.None? && p.phoneNumber.None? && p.avatar.None?
    ensures r.Some? ==>
      var st := r.value;
      |st.setParts| == |Present(p)| + 1 && |st.args| == |st.setParts| + 1 && st.whereArg == |st.args| &&
      st.setParts[|st.setParts| - 1] == Assignment("updated_at", |st.setParts|) &&
      st.args[|st.args| - 2] == Instant(now) && st.args[|st.args| - 1] == Key(p.userId)
  {
    var present := Present(p);
    if present == [] then None
    else
      var fs := present + [Field("updated_at", Instant(now))];
      Some(Statement(Rendered(fs, 1), Values(fs) + [Key(p.userId)], |fs| + 1))
  }

  /** The builder's state: the entries and arguments of the fields `fs` so far, and the
      number the next placeholder gets. */
  predicate Built(setParts: seq<string>, args: seq<Arg>, argId: int, fs: seq<Field>) {
    setParts == Rendered(fs, 1) && args == Values(fs) && argId == |fs| + 1
  }

  /** One step of the builder: appending the entry for `f`, numbered `argId`, and its
      value keeps the entries and arguments those of the fields so far. */
  lemma Step(setParts: seq<string>, args: seq<Arg>, argId: int, fs: seq<Field>, f: Field)
    requires Built(setParts, args, argId, fs)
    ensures Built(setParts + [Assignment(f.column, argId)], args + [f.value], argId + 1, fs + [f])
  {
    assert forall i :: 0 <= i < |fs| ==> (fs + [f])[i] == fs[i];
  }

  /** `UpdateProfile`'s statement builder: `setParts` and `args` grow field by field while
      `argId` counts the placeholders. */
  method BuildUpdate(p: Profile, now: int) returns (st: Option<Statement>)
    ensures st == UpdateStatement(p, now)
  {
    var setParts: seq<string> := [];
    var args: seq<Arg> := [];
    var argId := 1;
    ghost var fs: seq<Field> := [];

    if p.firstName.Some? {
      Step(setParts, args, argId, fs, Field("firstname", Str(p.firstName.value)));
      setParts := setParts + [Assignment("firstname", argId)];
      args := args + [Str(p.firstName.value)];
      argId := argId + 1;
      fs := fs + [Field("firstname", Str(p.firstName.value))];
    }
    assert fs == Optional("firstname", p.firstName);
    if p.lastName.Some? {
      Step(setParts, args, argId, fs, Field("lastname", Str(p.lastName.value)));
      setParts := setParts + [Assignment("lastname", argId)];
      args := args + [Str(p.lastName.value)];
      argId := argId + 1;
      fs := fs + [Field("lastname", Str(p.lastName.value))];
    }
    assert fs == Optional("firstname", p.firstName) + Optional("lastname", p.lastName);
    if p.phoneNumber.Some? {
      Step(setParts, args, argId, fs, Field("phone_number", Str(p.phoneNumber.value)));
      setParts := setParts + [Assignment("phone_number", argId)];
      args := args + [Str(p.phoneNumber.value)];
      argId := argId + 1;
      fs := fs + [Field("phone_number", Str(p.phoneNumber.value))];
    }
    assert fs == Optional("firstname", p.firstName) + Optional("lastname", p.lastName) +
                 Optional("phone_number", p.phoneNumber);
    if p.avatar.Some? {
      Step(setParts, args, argId, fs, Field("avatar", Str(p.avatar.value)));
      setParts := setParts + [Assignment("avatar", argId)];
      args := args + [Str(p.avatar.value)];
      argId := argId + 1;
      fs := fs + [Field("avatar", Str(p.avatar.value))];
    }
    assert fs == Present(p);

    if |setParts| == 0 {
      return None;
    }

    Step(setParts, args, argId, fs, Field("updated_at", Instant(now)));
    setParts := setParts + [Assignment("updated_at", argId)];
    args := args + [Instant(now)];
    argId := argId + 1;
    fs := fs + [Field("updated_at", Instant(now))];

    args := args + [Key(p.userId)];
    return Some(Statement(setParts, args, argId));
  }

  // ---------------------------------------------------------------- the database's reading

  /** Whether `v` can be stored in profile column `column`. */
  predicate Fits(column: string, v: Arg) {
    (v.Str? && (column == "firstname" || column == "lastname" || column == "phone_number" || column == "avatar"))
    || (v.Instant? && column == "updated_at")
  }

  /** The row with `column` set to `v`. */
  function Put(row: Profile, column: string, v: Arg): Profile
    requires Fits(column, v)
  {
    if column == "firstname" then row.(firstName := Some(v.s))
    else if column == "lastname" then row.(lastName := Some(v.s))
    else if column == "phone_number" then row.(phoneNumber := Some(v.s))
    else if column == "avatar" then row.(avatar := Some(v.s))
    else row.(updatedAt := Some(v.t))
  }

  /** The profile column a `SET` entry names. The five columns the builder can emit
      start with distinct letters, so the first letter tells them apart here; entries
      the builder never emits are not told apart this way. */
  function ColumnOf(part: string): string {
    if part == [] then ""
    else if part[0] == 'f' then "firstname"
    else if part[0] == 'l' then "lastname"
    else if part[0] == 'p' then "phone_number"
    else if part[0] == 'a' then "avatar"
    else if part[0] == 'u' then "updated_at"
    else ""
  }

  /** The placeholder number of the entry `column = $n`: the digits after the prefix. */
  function PlaceholderOf(part: string, column: string): (r: Option<int>)
    ensures r.Some? ==> InInt64(r.value)
  {
    var prefix := column + " = $";
    if HasPrefix(part, prefix) then
      var n := Atoi(part[|prefix|..]);
      if n.err.None? then Some(n.value) else None
    else None
  }

  /** Every entry's placeholder reads back as the number it was printed with. */
  lemma PlaceholderRoundTrip(column: string, n: int)
    requires InInt64(n)
    ensures PlaceholderOf(Assignment(column, n), column) == Some(n)
  {
    var prefix := column + " = $";
    assert Assignment(column, n)[|prefix|..] == FormatInt(n);
    AtoiFormatInt(n);
  }

  /** Executing one `SET` entry on a row: the column it names gets the argument bound to
      its placeholder; an unknown column, a missing argument or a value of the wrong kind
      is an error. */
  function Assign(row: Profile, part: string, args: seq<Arg>): Option<Profile>
  {
    var column := ColumnOf(part);
    match PlaceholderOf(part, column)
    case None => None
    case Some(n) =>
      if 1 <= n <= |args| && Fits(column, args[n - 1]) then Some(Put(row, column, args[n - 1])) else None
  }

  /** Executing every `SET` entry on a row, left to right. */
  function ApplyAll(row: Profile, parts: seq<string>, args: seq<Arg>): Option<Profile>
    decreases |parts|
  {
    if parts == [] then Some(row)
    else
      match Assign(row, parts[0], args)
      case None => None
      case Some(next) => ApplyAll(next, parts[1..], args)
  }

  /** Executing the statement on the table: rows whose `user_id` equals the `WHERE`
      argument are updated, the others stay as they are. */
  function ExecuteUpdate(rows: seq<Profile>, st: Statement): Option<seq<Profile>>
  {
    if 1 <= st.whereArg <= |st.args| && st.args[st.whereArg - 1].Key? then
      UpdateRows(rows, st.setParts, st.args, st.args[st.whereArg - 1].id)
    else None
  }

  function UpdateRows(rows: seq<Profile>, parts: seq<string>, args: seq<Arg>, id: Uuid): Option<seq<Profile>>
  {
    if rows == [] then Some([])
    else
      var head := if rows[0].userId == id then ApplyAll(rows[0], parts, args) else Some(rows[0]);
      var rest := UpdateRows(rows[1..], parts, args, id);
      if head.Some? && rest.Some? then Some([head.value] + rest.value) else None
  }

  // ---------------------------------------------------------------- what the update does

  /** The profile after a patch: each present field replaced, each absent one kept,
      `updated_at` set to now, and `point`, `created_at` and `user_id` untouched. */
  function Patched(row: Profile, p: Profile, now: int): Profile {
    row.(firstName := if p.firstName.Some? then p.firstName else row.firstName,
         lastName := if p.lastName.Some? then p.lastName else row.lastName,
         phoneNumber := if p.phoneNumber.Some? then p.phoneNumber else row.phoneNumber,
         avatar := if p.avatar.Some? then p.avatar else row.avatar,
         updatedAt := Some(now))
  }

  /** The table after the patch: the user's rows patched, all other rows unchanged. */
  function PatchAll(rows: seq<Profile>, p: Profile, now: int): (r: seq<Profile>)
    ensures |r| == |rows|
    ensures forall i :: 0 <= i < |rows| ==> r[i].userId == rows[i].userId
  {
    seq(|rows|, i requires 0 <= i < |rows| => if rows[i].userId == p.userId then Patched(rows[i], p, now) else rows[i])
  }

  predicate AllFit(fs: seq<Field>) {
    forall i :: 0 <= i < |fs| ==> Fits(fs[i].column, fs[i].value) && ColumnOf(fs[i].column) == fs[i].column
  }

  /** Writing the fields into the row one after another. */
  function PutAll(row: Profile, fs: seq<Field>): Profile
    requires AllFit(fs)
    decreases |fs|
  {
    if fs == [] then row else PutAll(Put(row, fs[0].column, fs[0].value), fs[1..])
  }

  /** Executing the rendered entries of `fs`, with each field's value at its placeholder,
      writes exactly those fields. */
  lemma {:induction false} ApplyRendered(row: Profile, fs: seq<Field>, first: int, args: seq<Arg>)
    requires AllFit(fs) && 1 <= first && first - 1 + |fs| <= |args| && first + |fs| <= MaxInt64
    requires forall i :: 0 <= i < |fs| ==> args[first - 1 + i] == fs[i].value
    ensures ApplyAll(row, Rendered(fs, first), args) == Some(PutAll(row, fs))
    decreases |fs|
  {
    if fs != [] {
      var parts := Rendered(fs, first);
      PlaceholderRoundTrip(fs[0].column, first);
      assert parts[0] == Assignment(fs[0].column, first);
      assert ColumnOf(parts[0]) == fs[0].column by {
        assert fs[0].column != [] && parts[0][0] == fs[0].column[0];
      }
      assert Assign(row, parts[0], args) == Some(Put(row, fs[0].column, fs[0].value));
      assert parts[1..] == Rendered(fs[1..], first + 1);
      ApplyRendered(Put(row, fs[0].column, fs[0].value), fs[1..], first + 1, args);
    }
  }

  lemma {:induction false} PutAllAppend(row: Profile, fs: seq<Field>, gs: seq<Field>)
    requires AllFit(fs) && AllFit(gs)
    ensures AllFit(fs + gs) && PutAll(row, fs + gs) == PutAll(PutAll(row, fs), gs)
    decreases |fs|
  {
    if fs == [] {
      assert fs + gs == gs;
    } else {
      assert (fs + gs)[1..] == fs[1..] + gs;
      PutAllAppend(Put(row, fs[0].column, fs[0].value), fs[1..], gs);
    }
  }

  lemma PutOptional(row: Profile, column: string, v: Option<string>)
    requires Fits(column, Str("")) && ColumnOf(column) == column
    ensures AllFit(Optional(column, v))
    ensures PutAll(row, Optional(column, v)) == if v.Some? then Put(row, column, Str(v.value)) else row
  {
  }

  /** Writing the present fields and the time stamp one after another is the patch. */
  lemma PatchedIsPutAll(row: Profile, p: Profile, now: int)
    ensures AllFit(Present(p) + [Field("updated_at", Instant(now))])
    ensures PutAll(row, Present(p) + [Field("updated_at", Instant(now))]) == Patched(row, p, now)
  {
    var first := Optional("firstname", p.firstName);
    var last := Optional("lastname", p.lastName);
    var phone := Optional("phone_number", p.phoneNumber);
    var avatar := Optional("avatar", p.avatar);
    var stamp := [Field("updated_at", Instant(now))];
    PutOptional(row, "firstname", p.firstName);
    var r1 := PutAll(row, first);
    PutOptional(r1, "lastname", p.lastName);
    var r2 := PutAll(r1, last);
    PutOptional(r2, "phone_number", p.phoneNumber);
    var r3 := PutAll(r2, phone);
    PutOptional(r3, "avatar", p.avatar);
    var r4 := PutAll(r3, avatar);
    assert ColumnOf("updated_at") == "updated_at";
    PutAllAppend(row, first, last);
    PutAllAppend(row, first + last, phone);
    PutAllAppend(row, first + last + phone, avatar);
    PutAllAppend(row, Present(p), stamp);
    assert PutAll(r4, stamp) == Put(r4, "updated_at", Instant(now));
  }

  /** The built statement, executed on any row, applies the patch to it. */
  lemma StatementPatches(row: Profile, p: Profile, now: int)
    requires UpdateStatement(p, now).Some?
    ensures var st := UpdateStatement(p, now).value;
      ApplyAll(row, st.setParts, st.args) == Some(Patched(row, p, now))
  {
    var fs := Present(p) + [Field("updated_at", Instant(now))];
    var st := UpdateStatement(p, now).value;
    PatchedIsPutAll(row, p, now);
    assert st.setParts == Rendered(fs, 1) && st.args == Values(fs) + [Key(p.userId)];
    ApplyRendered(row, fs, 1, st.args);
  }

  /** Executing the built statement on the table yields the patched table. */
  lemma ExecutePatches(rows: seq<Profile>, p: Profile, now: int)
    requires UpdateStatement(p, now).Some?
    ensures ExecuteUpdate(rows, UpdateStatement(p, now).value) == Some(PatchAll(rows, p, now))
  {
    var st := UpdateStatement(p, now).value;
    forall i | 0 <= i < |rows|
      ensures ApplyAll(rows[i], st.setParts, st.args) == Some(Patched(rows[i], p, now))
    {
      StatementPatches(rows[i], p, now);
    }
    UpdateRowsPatch(rows, st.setParts, st.args, p, now);
  }

  lemma {:induction false} UpdateRowsPatch(rows: seq<Profile>, parts: seq<string>, args: seq<Arg>, p: Profile, now: int)
    requires forall i :: 0 <= i < |rows| ==> ApplyAll(rows[i], parts, args) == Some(Patched(rows[i], p, now))
    ensures UpdateRows(rows, parts, args, p.userId) == Some(PatchAll(rows, p, now))
  {
    if rows != [] {
      assert forall i :: 0 <= i < |rows[1..]| ==> rows[1..][i] == rows[i + 1];
      UpdateRowsPatch(rows[1..], parts, args, p, now);
      assert PatchAll(rows, p, now) == [PatchAll(rows, p, now)[0]] + PatchAll(rows[1..], p, now);
    }
  }

  // ---------------------------------------------------------------- passwords

  /** The two results of `VerifyPassword`: the stored hash (empty on error) and the error. */
  datatype HashLookup = HashLookup(hash: string, err: Option<string>)

  /** What `VerifyPassword` answers. It has no password parameter: the password the
      caller supplies plays no part in the answer. */
  function StoredHash(users: seq<User>, id: Uuid, fault: Option<string>): (r: HashLookup)
    ensures r.err.None? ==> exists i :: 0 <= i < |users| && users[i].id == id && users[i].password == r.hash
    ensures fault.None? && HasUser(users, id) ==> r.err.None?
    ensures r.err.Some? ==> r.hash == ""
  {
    if fault.Some? then HashLookup("", fault)
    else
      match UserById(users, id)
      case None => HashLookup("", Some(NoRows))
      case Some(u) =>
        assert exists i :: 0 <= i < |users| && users[i] == u;
        HashLookup(u.password, None)
  }

  /** `UPDATE users SET password = $1 WHERE id = $2`. */
  function WithPassword(users: seq<User>, id: Uuid, hash: string): (r: seq<User>)
    ensures |r| == |users|
    ensures forall i :: 0 <= i < |users| ==> r[i].id == users[i].id && r[i].email == users[i].email
  {
    seq(|users|, i requires 0 <= i < |users| => if users[i].id == id then users[i].(password := hash) else users[i])
  }

  /** After the password of an existing user is updated, the hash read back is the new one. */
  lemma {:induction false} PasswordUpdated(users: seq<User>, id: Uuid, hash: string)
    requires HasUser(users, id)
    ensures StoredHash(WithPassword(users, id, hash), id, None) == HashLookup(hash, None)
  {
    assert HasUser(WithPassword(users, id, hash), id) by {
      var i :| 0 <= i < |users| && users[i].id == id;
      assert WithPassword(users, id, hash)[i].id == id;
    }
    FirstWithId(WithPassword(users, id, hash), id, hash);
  }

  lemma {:induction false} FirstWithId(users: seq<User>, id: Uuid, hash: string)
    requires forall i :: 0 <= i < |users| && users[i].id == id ==> users[i].password == hash
    ensures UserById(users, id).Some? ==> UserById(users, id).value.password == hash
  {
    if users != [] && users[0].id != id {
      FirstWithId(users[1..], id, hash);
    }
  }

  /** A password update keeps the store's constraints: ids and e-mails are untouched. */
  lemma PasswordKeepsValid(users: seq<User>, profiles: seq<Profile>, id: Uuid, hash: string)
    requires UniqueUsers(users) && UniqueProfiles(profiles) && Paired(users, profiles)
    ensures UniqueUsers(WithPassword(users, id, hash)) && Paired(WithPassword(users, id, hash), profiles)
  {
    var us := WithPassword(users, id, hash);
    forall j | 0 <= j < |profiles| ensures HasUser(us, profiles[j].userId) {
      var i :| 0 <= i < |users| && users[i].id == profiles[j].userId;
      assert us[i].id == profiles[j].userId;
    }
  }

  /** A profile patch keeps the store's constraints: no `user_id` changes. */
  lemma PatchKeepsValid(users: seq<User>, profiles: seq<Profile>, p: Profile, now: int)
    requires UniqueUsers(users) && UniqueProfiles(profiles) && Paired(users, profiles)
    ensures UniqueProfiles(PatchAll(profiles, p, now)) && Paired(users, PatchAll(profiles, p, now))
  {
    var ps := PatchAll(profiles, p, now);
    forall i | 0 <= i < |users| ensures HasProfile(ps, users[i].id) {
      var j :| 0 <= j < |profiles| && profiles[j].userId == users[i].id;
      assert ps[j].userId == users[i].id;
    }
    forall j | 0 <= j < |ps| ensures HasUser(users, ps[j].userId) {
      assert ps[j].userId == profiles[j].userId;
    }
  }

  class ProfileRepository {
    const db: Database

    constructor (db: Database)
      ensures this.db == db
    {
      this.db := db;
    }

    /** `GetProfile`: the user's profile row, or an error (no row is an error). */
    method GetProfile(userId: Uuid, fault: Option<string>) returns (r: Result<Profile>)
      ensures fault.Some? ==> r == Err(fault.value)
      ensures fault.None? ==> (r.Ok? <==> HasProfile(db.profiles, userId))
      ensures r.Ok? ==> r.value in db.profiles && r.value.userId == userId
    {
      if fault.Some? {
        return Err(fault.value);
      }
      var row := ProfileOf(db.profiles, userId);
      if row.None? {
        return Err(NoRows);
      }
      return Ok(row.value);
    }

    /** `UpdateProfile`, with `time.Now()` as the parameter `now`. With nothing to set it
        returns without executing anything; otherwise it returns the result of executing
        the statement. */
    method UpdateProfile(p: Profile, now: int, fault: Option<string>) returns (err: Option<string>, executed: bool)
      modifies db
      ensures db.users == old(db.users)
      ensures executed <==> UpdateStatement(p, now).Some?
      ensures err == (if executed then fault else None)
      ensures executed && fault.None? ==> db.profiles == PatchAll(old(db.profiles), p, now)
      ensures !executed || fault.Some? ==> db.profiles == old(db.profiles)
      ensures old(db.Valid()) ==> db.Valid()
    {
      var st := BuildUpdate(p, now);
      if st.None? {
        return None, false;
      }
      if fault.Some? {
        return fault, true;
      }
      ExecutePatches(db.profiles, p, now);
      if db.Valid() {
        PatchKeepsValid(db.users, db.profiles, p, now);
      }
      db.profiles := ExecuteUpdate(db.profiles, st.value).value;
      return None, true;
    }

    /** `VerifyPassword`: the stored hash of the user, whatever `oldPassword` is. */
    method VerifyPassword(userId: Uuid, oldPassword: string, fault: Option<string>) returns (hash: string, err: Option<string>)
      ensures HashLookup(hash, err) == StoredHash(db.users, userId, fault)
    {
      if fault.Some? {
        return "", fault;
      }
      var row := UserById(db.users, userId);
      if row.None? {
        return "", Some(NoRows);
      }
      return row.value.password, None;
    }

    /** `UpdatePassword`: store the new hash for the user. */
    method UpdatePassword(userId: Uuid, hash: string, fault: Option<string>) returns (err: Option<string>)
      modifies db
      ensures err == fault
      ensures fault.None? ==> db.users == WithPassword(old(db.users), userId, hash)
      ensures fault.Some? ==> db.users == old(db.users)
      ensures db.profiles == old(db.profiles)
      ensures old(db.Valid()) ==> db.Valid()
    {
      if fault.Some? {
        return fault;
      }
      if db.Valid() {
        PasswordKeepsValid(db.users, db.profiles, userId, hash);
      }
      db.users := WithPassword(db.users, userId, hash);
      return None;
    }
  }
}
