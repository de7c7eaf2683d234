/** The profile handler: reading the caller's profile, patching it (with an optional
    avatar upload) and changing the password. Each endpoint first identifies the caller
    from the request context; the repository calls act on the account store, and the
    foreign pieces (image storage, the password hasher) are inputs. */
module ProfileHandler {
  import opened Wrappers
  import opened Models
  import opened Store
  import opened ProfileRepo
  import opened Http

  /** `dtos.ProfileResponse`. */
  datatype ProfileResponse = ProfileResponse(userId: Uuid, firstName: Option<string>, lastName: Option<string>,
                                             phoneNumber: Option<string>, avatar: Option<string>, point: Option<int>)

  /** The response body for a profile row: its six visible fields as they are. */
  function ResponseOf(p: Profile): ProfileResponse {
    ProfileResponse(p.userId, p.firstName, p.lastName, p.phoneNumber, p.avatar, p.point)
  }

  /** `dtos.UpdateProfileRequest` after binding; `avatar` says whether a file was sent. */
  datatype UpdateProfileRequest = UpdateProfileRequest(firstName: Option<string>, lastName: Option<string>,
                                                       phoneNumber: Option<string>, avatar: bool)

  /** `dtos.ChangePasswordRequest` after binding. */
  datatype ChangePasswordRequest = ChangePasswordRequest(oldPassword: string, newPassword: string, confirmPassword: string)

  /** A call the handler makes on a collaborator. */
  datatype ProfileCall =
    | GetProfileCall(userId: Uuid)
    | SaveImage(folder: string)
    | UpdateProfileCall(profile: Profile)
    | VerifyPasswordCall(userId: Uuid, oldPassword: string)
    | CompareHash(password: string, hash: string)
    | GenHash(password: string)
    | UpdatePasswordCall(userId: Uuid, hash: string)

  /** The 401 answer for a caller the context does not identify. */
  function Unauthorized<D>(claims: ClaimsSlot): Response<D>
    requires !claims.Claims?
  {
    Failure(StatusUnauthorized, "Unauthorized: " + GetUserFromContext(claims).error)
  }

  /** The patch `UpdateProfile` hands to the repository: the caller's id, the three
      optional fields, and the stored avatar path only when a file was uploaded. The
      other fields keep their zero values. */
  function PatchFor(userId: Uuid, req: UpdateProfileRequest, savedPath: string): (r: Profile)
    ensures r.userId == userId && r.avatar == (if req.avatar then Some(savedPath) else None)
    ensures r.firstName == req.firstName && r.lastName == req.lastName && r.phoneNumber == req.phoneNumber
  {
    Profile(userId, req.firstName, req.lastName, req.phoneNumber,
            if req.avatar then Some(savedPath) else None, None, 0, None)
  }

  /** Without an upload the patch leaves every row's avatar as it was. */
  lemma NoUploadKeepsAvatars(rows: seq<Profile>, userId: Uuid, req: UpdateProfileRequest, savedPath: string, now: int)
    requires !req.avatar
    ensures forall i :: 0 <= i < |rows| ==> PatchAll(rows, PatchFor(userId, req, savedPath), now)[i].avatar == rows[i].avatar
  {
  }

  /** An upload replaces the caller's avatar with the stored path, even the empty path
      `SaveImage` returns when it fails; no other user's row changes. */
  lemma UploadSetsAvatar(rows: seq<Profile>, userId: Uuid, req: UpdateProfileRequest, savedPath: string, now: int)
    requires req.avatar
    ensures forall i :: 0 <= i < |rows| ==>
      PatchAll(rows, PatchFor(userId, req, savedPath), now)[i] ==
        (if rows[i].userId == userId then Patched(rows[i], PatchFor(userId, req, savedPath), now) else rows[i])
    ensures forall i :: 0 <= i < |rows| && rows[i].userId == userId ==>
      PatchAll(rows, PatchFor(userId, req, savedPath), now)[i].avatar == Some(savedPath)
  {
  }

  /** What the collaborators of `ChangePassword` return: a database error for the hash
      lookup, the hasher's comparison (`matches`, and its error), the hash of the new
      password, and a database error for the update. */
  datatype PasswordOutcomes = PasswordOutcomes(verifyFault: Option<string>, matches: (string, string) -> bool,
                                               compareErr: Option<string>, newHash: Result<string>,
                                               updateFault: Option<string>)

  /** The checks `ChangePassword` passes before it hashes the new password: a known
      caller, a bound body, matching new and confirmed passwords, a stored hash, and a
      hash comparison that succeeds without error. */
  predicate Verified(users: seq<User>, claims: ClaimsSlot, body: Option<ChangePasswordRequest>, env: PasswordOutcomes)
  {
    claims.Claims? && body.Some? && body.value.newPassword == body.value.confirmPassword &&
    StoredHash(users, claims.userId, env.verifyFault).err.None? &&
    env.compareErr.None? && env.matches(body.value.oldPassword, StoredHash(users, claims.userId, env.verifyFault).hash)
  }

  /** The answer `ChangePassword` writes. It succeeds exactly when the old password is
      verified and the new hash is computed and stored; a wrong old password, an unknown
      user or a failing lookup is 401, and only the hasher and the update answer 500. */
  function PasswordReply(users: seq<User>, claims: ClaimsSlot, body: Option<ChangePasswordRequest>, env: PasswordOutcomes)
    : (r: Response<()>)
    ensures r.success <==> Verified(users, claims, body, env) && env.newHash.Ok? && env.updateFault.None?
    ensures r.success ==> r == Success(StatusOK, "Password changed successfully", None)
    ensures r.code == StatusBadRequest <==>
      claims.Claims? && (body.None? || body.value.newPassword != body.value.confirmPassword)
    ensures r.code == StatusUnauthorized <==>
      !claims.Claims? || (body.Some? && body.value.newPassword == body.value.confirmPassword &&
                          !Verified(users, claims, body, env))
    ensures r.code == StatusInternalServerError <==>
      Verified(users, claims, body, env) && (env.newHash.Err? || env.updateFault.Some?)
    ensures Verified(users, claims, body, env) && env.newHash.Err? ==>
      r == Failure(StatusInternalServerError, "Failed to hash new password")
  {
    if !claims.Claims? then Unauthorized(claims)
    else if body.None? then Failure(StatusBadRequest, "Invalid request body")
    else if body.value.newPassword != body.value.confirmPassword then
      Failure(StatusBadRequest, "New password and confirm password do not match")
    else if !Verified(users, claims, body, env) then Failure(StatusUnauthorized, "Invalid old password")
    else if env.newHash.Err? then Failure(StatusInternalServerError, "Failed to hash new password")
    else if env.updateFault.Some? then Failure(StatusInternalServerError, "Failed to update password")
    else Success(StatusOK, "Password changed successfully", None)
  }

  /** The calls `ChangePassword` makes, in order. The password is updated exactly when
      the old one is verified and the new hash is computed, and then with that hash for
      the caller; the hash lookup comes first whenever the request gets that far. */
  function PasswordCalls(users: seq<User>, claims: ClaimsSlot, body: Option<ChangePasswordRequest>, env: PasswordOutcomes)
    : (calls: seq<ProfileCall>)
    ensures (exists k :: 0 <= k < |calls| && calls[k].UpdatePasswordCall?) <==>
      Verified(users, claims, body, env) && env.newHash.Ok?
    ensures forall k :: 0 <= k < |calls| && calls[k].UpdatePasswordCall? ==>
      calls[k] == UpdatePasswordCall(claims.userId, env.newHash.value)
    ensures calls != [] <==> claims.Claims? && body.Some? && body.value.newPassword == body.value.confirmPassword
    ensures calls != [] ==> calls[0] == VerifyPasswordCall(claims.userId, body.value.oldPassword)
  {
    if !claims.Claims? || body.None? || body.value.newPassword != body.value.confirmPassword then []
    else
      var req, stored := body.value, StoredHash(users, claims.userId, env.verifyFault);
      var verify := [VerifyPasswordCall(claims.userId, req.oldPassword)];
      if stored.err.Some? then verify
      else
        var compared := verify + [CompareHash(req.oldPassword, stored.hash)];
        if !Verified(users, claims, body, env) then compared
        else
          var hashed := compared + [GenHash(req.newPassword)];
          if env.newHash.Err? then hashed
          else
            var all := hashed + [UpdatePasswordCall(claims.userId, env.newHash.value)];
            assert all[3].UpdatePasswordCall?;
            all
  }

  class ProfileHandler {
    const repo: ProfileRepository

    constructor (repo: ProfileRepository)
      ensures this.repo == repo
    {
      this.repo := repo;
    }

    /** `GetProfile`: the caller's profile, 404 when the repository has none. */
    method GetProfile(claims: ClaimsSlot, fault: Option<string>) returns (resp: Response<ProfileResponse>, calls: seq<ProfileCall>)
      ensures !claims.Claims? ==> resp == Unauthorized(claims) && calls == []
      ensures claims.Claims? ==> calls == [GetProfileCall(claims.userId)]
      ensures claims.Claims? ==> (resp.success <==> fault.None? && HasProfile(repo.db.profiles, claims.userId))
      ensures claims.Claims? && !resp.success ==> resp == Failure(StatusNotFound, "Profile not found")
      ensures resp.success ==> (resp.code == StatusOK && resp.data.Some? &&
        exists row :: row in repo.db.profiles && row.userId == claims.userId && resp.data.value == ResponseOf(row))
    {
      var caller := GetUserFromContext(claims);
      if caller.Err? {
        return Unauthorized(claims), [];
      }
      calls := [GetProfileCall(caller.value.userId)];
      var profile := repo.GetProfile(caller.value.userId, fault);
      if profile.Err? {
        return Failure(StatusNotFound, "Profile not found"), calls;
      }
      resp := Success(StatusOK, "", Some(ResponseOf(profile.value)));
    }

    /** `UpdateProfile`. `savedPath` is what `SaveImage` returns for an uploaded avatar
        (empty when it fails), `now` the clock, `fault` a database error. */
    method UpdateProfile(claims: ClaimsSlot, body: Option<UpdateProfileRequest>, savedPath: string, now: int, fault: Option<string>)
      returns (resp: Response<()>, calls: seq<ProfileCall>)
      modifies repo.db
      ensures repo.db.users == old(repo.db.users)
      ensures !claims.Claims? ==> resp == Unauthorized(claims) && calls == [] && repo.db.profiles == old(repo.db.profiles)
      ensures claims.Claims? && body.None? ==>
        resp == Failure(StatusBadRequest, "Invalid request body") && calls == [] && repo.db.profiles == old(repo.db.profiles)
      ensures claims.Claims? && body.Some? ==>
        var p := PatchFor(claims.userId, body.value, savedPath);
        var applied := UpdateStatement(p, now).Some? && fault.None?;
        calls == (if body.value.avatar then [SaveImage("avatars")] else []) + [UpdateProfileCall(p)] &&
        repo.db.profiles == (if applied then PatchAll(old(repo.db.profiles), p, now) else old(repo.db.profiles)) &&
        resp == (if UpdateStatement(p, now).Some? && fault.Some? then Failure(StatusInternalServerError, "Failed to update profile")
                 else Success(StatusOK, "Profile updated successfully", None))
      ensures old(repo.db.Valid()) ==> repo.db.Valid()
    {
      var caller := GetUserFromContext(claims);
      if caller.Err? {
        return Unauthorized(claims), [];
      }
      if body.None? {
        return Failure(StatusBadRequest, "Invalid request body"), [];
      }
      var req := body.value;
      var avatarPath: Option<string> := None;
      calls := [];
      if req.avatar {
        calls := [SaveImage("avatars")];
        avatarPath := Some(savedPath);
      }
      var profile := Profile(caller.value.userId, req.firstName, req.lastName, req.phoneNumber, avatarPath, None, 0, None);
      calls := calls + [UpdateProfileCall(profile)];
      var err, _ := repo.UpdateProfile(profile, now, fault);
      if err.Some? {
        return Failure(StatusInternalServerError, "Failed to update profile"), calls;
      }
      resp := Success(StatusOK, "Profile updated successfully", None);
    }

    /** `ChangePassword`. `env` stands for what the database and the password hasher
        return. */
    method ChangePassword(claims: ClaimsSlot, body: Option<ChangePasswordRequest>, env: PasswordOutcomes)
      returns (resp: Response<()>, calls: seq<ProfileCall>)
      modifies repo.db
      ensures resp == PasswordReply(old(repo.db.users), claims, body, env)
      ensures calls == PasswordCalls(old(repo.db.users), claims, body, env)
      ensures repo.db.users ==
        (if resp.success then WithPassword(old(repo.db.users), claims.userId, env.newHash.value) else old(repo.db.users))
      ensures repo.db.profiles == old(repo.db.profiles)
      ensures old(repo.db.Valid()) ==> repo.db.Valid()
    {
      var caller := GetUserFromContext(claims);
      if caller.Err? {
        return Unauthorized(claims), [];
      }
      if body.None? {
        return Failure(StatusBadRequest, "Invalid request body"), [];
      }
      var req := body.value;
      if req.newPassword != req.confirmPassword {
        return Failure(StatusBadRequest, "New password and confirm password do not match"), [];
      }
      var userId := caller.value.userId;
      calls := [VerifyPasswordCall(userId, req.oldPassword)];
      var hashed, err := repo.VerifyPassword(userId, req.oldPassword, env.verifyFault);
      if err.Some? {
        return Failure(StatusUnauthorized, "Invalid old password"), calls;
      }
      calls := calls + [CompareHash(req.oldPassword, hashed)];
      var ok := env.matches(req.oldPassword, hashed);
      if env.compareErr.Some? || !ok {
        return Failure(StatusUnauthorized, "Invalid old password"), calls;
      }
      calls := calls + [GenHash(req.newPassword)];
      if env.newHash.Err? {
        return Failure(StatusInternalServerError, "Failed to hash new password"), calls;
      }
      calls := calls + [UpdatePasswordCall(userId, env.newHash.value)];
      var updateErr := repo.UpdatePassword(userId, env.newHash.value, env.updateFault);
      if updateErr.Some? {
        return Failure(StatusInternalServerError, "Failed to update password"), calls;
      }
      resp := Success(StatusOK, "Password changed successfully", None);
    }
  }

  /** After a successful password change the stored hash the next change compares
      against is the new one. */
  lemma ChangedPasswordIsStored(users: seq<User>, userId: Uuid, newHash: string)
    requires HasUser(users, userId)
    ensures StoredHash(WithPassword(users, userId, newHash), userId, None) == HashLookup(newHash, None)
  {
    PasswordUpdated(users, userId, newHash);
  }
}
