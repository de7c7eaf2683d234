/** The authentication handler: logging in with e-mail and password, and registering a
    new account. The account store is reached through the authentication repository;
    the password hasher and the token issuer are foreign and appear as inputs. */
module AuthHandler {
  import opened Wrappers
  import opened Models
  import opened Store
  import opened AuthRepo
  import opened Http

  /** `dtos.AuthRequest` after binding. */
  datatype AuthRequest = AuthRequest(email: string, password: string)

  /** `dtos.AuthResponse`. */
  datatype AuthResponse = AuthResponse(userId: Uuid, token: string)

  /** What a request ends in: the handler's own response, or a run-time panic that the
      recovery middleware of `gin.Default` turns into a bare 500. */
  datatype Outcome<D> = Answered(resp: Response<D>) | Panicked(reason: string)

  /** A call the handler makes on a collaborator. */
  datatype AuthCall =
    | FindByEmailCall(email: string)
    | CompareHash(password: string, hash: string)
    | GenToken(userId: Uuid, role: string)
    | GenHash(password: string)
    | CreateUserCall(email: string, password: string)

  const NilDereference: string := "runtime error: invalid memory address or nil pointer dereference"

  /** How the login continues after comparing the password with the stored hash. */
  datatype Verdict = Proceed | Reject | Crash

  /** The comparison step as written: on any failure it logs `err.Error()`, which on a
      mismatch reported without an error dereferences a nil error. */
  function CompareAsWritten(valid: bool, err: Option<string>): Verdict {
    if err.Some? || !valid then (if err.None? then Crash else Reject) else Proceed
  }

  /** The comparison step as intended: any failure rejects the credentials. */
  function Compare(valid: bool, err: Option<string>): (v: Verdict)
    ensures v == Proceed <==> valid && err.None?
    ensures v != Crash
  {
    if err.Some? || !valid then Reject else Proceed
  }

  /** A wrong password for a known e-mail, which the hasher reports as "no match" with no
      error, crashes the step as written and is rejected by the intended one. */
  lemma WrongPasswordCrashes()
    ensures CompareAsWritten(false, None) == Crash
    ensures Compare(false, None) == Reject
  {
  }

  /** The two steps differ on exactly that input. */
  lemma CompareDiffersOnlyOnMismatch(valid: bool, err: Option<string>)
    ensures CompareAsWritten(valid, err) != Compare(valid, err) <==> !valid && err.None?
  {
  }

  /** Every check `Login` passes before issuing a token. */
  predicate Authenticated(users: seq<User>, body: Option<AuthRequest>, findFault: Option<string>,
                          matches: (string, string) -> bool, compareErr: Option<string>)
  {
    body.Some? && findFault.None? && HasEmail(users, body.value.email) &&
    compareErr.None? && matches(body.value.password, UserByEmail(users, body.value.email).value.password)
  }

  class AuthHandler {
    const repo: AuthRepository

    constructor (repo: AuthRepository)
      ensures this.repo == repo
    {
      this.repo := repo;
    }

    /** The chain of `Login`, with the comparison step as a parameter. `findFault` is a
        database error, `matches` and `compareErr` the hasher's comparison, `token` the
        issued token or the issuer's error. */
    method LoginWith(body: Option<AuthRequest>, findFault: Option<string>, matches: (string, string) -> bool,
                     compareErr: Option<string>, token: Result<string>, step: (bool, Option<string>) -> Verdict)
      returns (out: Outcome<AuthResponse>, calls: seq<AuthCall>)
      ensures body.None? ==> out == Answered(Failure(StatusBadRequest, "Invalid Request Body")) && calls == []
      ensures body.Some? ==> |calls| >= 1 && calls[0] == FindByEmailCall(body.value.email)
      ensures body.Some? && (findFault.Some? || !HasEmail(repo.db.users, body.value.email)) ==>
        out == Answered(Failure(StatusInternalServerError, "Something went wrong")) && |calls| == 1
      ensures body.Some? && findFault.None? && HasEmail(repo.db.users, body.value.email) ==>
        var u := UserByEmail(repo.db.users, body.value.email).value;
        var v := step(matches(body.value.password, u.password), compareErr);
        |calls| >= 2 && calls[1] == CompareHash(body.value.password, u.password) &&
        (v == Crash ==> out == Panicked(NilDereference) && |calls| == 2) &&
        (v == Reject ==> out == Answered(Failure(StatusUnauthorized, "Invalid Email or Password")) && |calls| == 2) &&
        (v == Proceed ==>
          (calls == [FindByEmailCall(u.email), CompareHash(body.value.password, u.password), GenToken(u.id, u.role)] &&
           out == Answered(if token.Ok? then Success(StatusOK, "", Some(AuthResponse(u.id, token.value)))
                           else Failure(StatusInternalServerError, "Failed to Generate Token"))))
    {
      if body.None? {
        return Answered(Failure(StatusBadRequest, "Invalid Request Body")), [];
      }
      var req := body.value;
      calls := [FindByEmailCall(req.email)];
      var user := repo.FindByEmail(req.email, findFault);
      if user.Err? {
        return Answered(Failure(StatusInternalServerError, "Something went wrong")), calls;
      }
      var u := user.value;
      calls := calls + [CompareHash(req.password, u.password)];
      var v := step(matches(req.password, u.password), compareErr);
      if v == Crash {
        return Panicked(NilDereference), calls;
      }
      if v == Reject {
        return Answered(Failure(StatusUnauthorized, "Invalid Email or Password")), calls;
      }
      calls := calls + [GenToken(u.id, u.role)];
      if token.Err? {
        return Answered(Failure(StatusInternalServerError, "Failed to Generate Token")), calls;
      }
      return Answered(Success(StatusOK, "", Some(AuthResponse(u.id, token.value)))), calls;
    }

    /** `Login` as written. A wrong password for a known e-mail panics. */
    method LoginAsWritten(body: Option<AuthRequest>, findFault: Option<string>, matches: (string, string) -> bool,
                          compareErr: Option<string>, token: Result<string>)
      returns (out: Outcome<AuthResponse>, calls: seq<AuthCall>)
      ensures out.Panicked? <==>
        body.Some? && findFault.None? && HasEmail(repo.db.users, body.value.email) && compareErr.None? &&
        !matches(body.value.password, UserByEmail(repo.db.users, body.value.email).value.password)
    {
      out, calls := LoginWith(body, findFault, matches, compareErr, token, CompareAsWritten);
    }

    /** `Login` with the comparison step as intended. It never panics; it answers 200
        with the user's id and a token exactly when the credentials check out and a
        token is issued, and an unknown e-mail is a server error, not a 401. */
    method Login(body: Option<AuthRequest>, findFault: Option<string>, matches: (string, string) -> bool,
                 compareErr: Option<string>, token: Result<string>)
      returns (out: Outcome<AuthResponse>, calls: seq<AuthCall>)
      ensures out.Answered?
      ensures out.resp.success <==> Authenticated(repo.db.users, body, findFault, matches, compareErr) && token.Ok?
      ensures out.resp.success ==>
        var u := UserByEmail(repo.db.users, body.value.email).value;
        u.email == body.value.email && out.resp == Success(StatusOK, "", Some(AuthResponse(u.id, token.value)))
      ensures body.Some? && findFault.None? && !HasEmail(repo.db.users, body.value.email) ==>
        out.resp.code == StatusInternalServerError
      ensures body.Some? && findFault.None? && HasEmail(repo.db.users, body.value.email) &&
              !Authenticated(repo.db.users, body, findFault, matches, compareErr) ==>
        out.resp == Failure(StatusUnauthorized, "Invalid Email or Password")
      ensures (exists k :: 0 <= k < |calls| && calls[k].GenToken?) <==> Authenticated(repo.db.users, body, findFault, matches, compareErr)
    {
      out, calls := LoginWith(body, findFault, matches, compareErr, token, Compare);
      if Authenticated(repo.db.users, body, findFault, matches, compareErr) {
        assert calls[2].GenToken?;
      }
    }

    /** `Register`. `hashed` is the hasher's result for the password; `newId`, `now` and
        `faults` are what account creation draws on. */
    method Register(body: Option<AuthRequest>, hashed: Result<string>, newId: Uuid, now: int, faults: TxFaults)
      returns (resp: Response<()>, calls: seq<AuthCall>)
      modifies repo.db
      ensures body.None? ==> resp == Failure(StatusBadRequest, "Invalid Request Body") && calls == []
      ensures body.Some? && hashed.Err? ==>
        resp == Failure(StatusInternalServerError, "Failed to Hash Password") && calls == [GenHash(body.value.password)]
      ensures body.Some? && hashed.Ok? ==>
        calls == [GenHash(body.value.password), CreateUserCall(body.value.email, hashed.value)]
      ensures body.Some? && hashed.Ok? && !resp.success ==> resp == Failure(StatusConflict, "Email Already Exists")
      ensures resp.success <==>
        body.Some? && hashed.Ok? && faults == TxFaults(None, None, None, None) &&
        !HasEmail(old(repo.db.users), body.value.email) && !HasUser(old(repo.db.users), newId) &&
        !HasProfile(old(repo.db.profiles), newId)
      ensures resp.success ==> (resp == Success(StatusCreated, "Register Successfully", None) &&
        repo.db.users == old(repo.db.users) + [NewUser(newId, body.value.email, hashed.value)] &&
        repo.db.profiles == old(repo.db.profiles) + [NewProfile(newId, now)])
      ensures !resp.success ==> repo.db.users == old(repo.db.users) && repo.db.profiles == old(repo.db.profiles)
      ensures old(repo.db.Valid()) ==> repo.db.Valid()
    {
      if body.None? {
        return Failure(StatusBadRequest, "Invalid Request Body"), [];
      }
      var req := body.value;
      calls := [GenHash(req.password)];
      if hashed.Err? {
        return Failure(StatusInternalServerError, "Failed to Hash Password"), calls;
      }
      var user := User(0, req.email, hashed.value, "");
      calls := calls + [CreateUserCall(req.email, hashed.value)];
      var _, err := repo.CreateUser(user, newId, now, faults);
      if err.Some? {
        return Failure(StatusConflict, "Email Already Exists"), calls;
      }
      resp := Success(StatusCreated, "Register Successfully", None);
    }
  }
}
