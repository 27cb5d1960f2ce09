/** The account routes (routes/users.js): the guards of the profile, password,
    account-deletion and role handlers, and the writes each one performs once its
    guards pass. The `/me...` routes and their compatibility aliases share their
    handler bodies, so each pair is one function here. */
module Users {
  import opened Wrappers
  import opened Js
  import opened Http

  const UsersTable := "users"

  const ProfileRequired := Failure(400, "Prénom et nom sont requis")
  const PasswordsRequired := Failure(400, "Mot de passe actuel et nouveau mot de passe requis")
  const PasswordTooShort := Failure(400, "Le nouveau mot de passe doit contenir au moins 8 caractères")
  const UserNotFound := Failure(404, "Utilisateur non trouvé")
  const WrongCurrentPassword := Failure(401, "Mot de passe actuel incorrect")
  const AccountPasswordRequired := Failure(400, "Mot de passe requis pour supprimer le compte")
  const WrongPassword := Failure(401, "Mot de passe incorrect")
  const SelfDeletion := Failure(400, "Vous ne pouvez pas supprimer votre propre compte")
  const InvalidRole := Failure(400, "Rôle invalide (user, admin ou staff)")

  /** The shortest new password accepted. */
  const MinPasswordLength := 8

  /** The roles a user may be given. */
  const Roles := ["user", "admin", "staff"]

  /** `UPDATE users SET is_active = false ... WHERE id = $1`: a deactivation, which
      keeps the row. */
  function SoftDelete(id: Value): Write
  {
    Update(UsersTable, [("is_active", Bool(false))], id)
  }

  // ===========================================================================
  // PUT /me and PUT /profile

  /** The body of a profile update. */
  datatype ProfileBody = ProfileBody(firstname: Value, lastname: Value, phone: Value)

  /** The profile update of the user `userId`; `updateFails` says whether the UPDATE
      throws. The profile read back after the update is not modelled. */
  function UpdateProfile(body: ProfileBody, userId: Value, updateFails: bool): Outcome
  {
    if !Truthy(body.firstname) || !Truthy(body.lastname) then Reject(ProfileRequired)
    else if updateFails then Reject(ServerError)
    else
      Outcome([Update(UsersTable, [("firstname", body.firstname), ("lastname", body.lastname),
                                   ("phone", Or(body.phone, Null))], userId)],
              Succeeded)
  }

  /** Both names are required, with 400 and nothing written otherwise; an accepted
      update writes the two names as given and the phone, which is stored as `null`
      exactly when it is falsy (the empty string included). */
  lemma ProfileRules(body: ProfileBody, userId: Value, updateFails: bool)
    ensures var o := UpdateProfile(body, userId, updateFails);
      && (o.reply == Failed(ProfileRequired) <==> !Truthy(body.firstname) || !Truthy(body.lastname))
      && (o.reply.Failed? ==> o.writes == [])
      && (o.reply == Succeeded <==> Truthy(body.firstname) && Truthy(body.lastname) && !updateFails)
      && (o.reply == Succeeded ==>
            && |o.writes| == 1 && o.writes[0].Update? && o.writes[0].table == UsersTable
            && o.writes[0].id == userId
            && o.writes[0].assignments[0] == ("firstname", body.firstname)
            && o.writes[0].assignments[1] == ("lastname", body.lastname)
            && o.writes[0].assignments[2].0 == "phone")
  {
  }

  /** The stored phone: `null` for a missing or empty phone, the phone otherwise. */
  lemma ProfilePhone(body: ProfileBody, userId: Value)
    requires Truthy(body.firstname) && Truthy(body.lastname)
    ensures var phone := UpdateProfile(body, userId, false).writes[0].assignments[2].1;
      && (phone == Null <==> !Truthy(body.phone))
      && (Truthy(body.phone) ==> phone == body.phone)
      && (body.phone == Str("") ==> phone == Null)
  {
  }

  // ===========================================================================
  // PUT /me/password and PUT /password

  /** `v.length < n`: the length of a string; `undefined` for any other value, and
      `undefined < n` is false. */
  predicate ShorterThan(v: Value, n: nat)
  {
    v.Str? && |v.s| < n
  }

  /** What `bcrypt.compare` and `bcrypt.hash` take as the password: a string (or a
      Buffer, which a JSON body cannot hold); any other value makes them throw. */
  predicate BcryptAccepts(password: Value)
  {
    password.Str?
  }

  /** The password change. `current` is the body's `currentPassword` (`oldPassword` on
      the alias route); `storedHash` is what the lookup of `userId` finds, `matches`
      the answer of `bcrypt.compare(current, storedHash)`, `newHash` the result of
      `bcrypt.hash(newPassword, 10)`, and `updateFails` whether the UPDATE throws.
      bcrypt throwing on a password that is not a string lands in the `catch`. */
  function ChangePassword(current: Value, newPassword: Value, userId: Value, storedHash: Option<Value>,
                          matches: bool, newHash: Value, updateFails: bool): Outcome
  {
    if !Truthy(current) || !Truthy(newPassword) then Reject(PasswordsRequired)
    else if ShorterThan(newPassword, MinPasswordLength) then Reject(PasswordTooShort)
    else if storedHash.None? then Reject(UserNotFound)
    else if !BcryptAccepts(current) then Reject(ServerError)
    else if !matches then Reject(WrongCurrentPassword)
    else if !BcryptAccepts(newPassword) then Reject(ServerError)
    else if updateFails then Reject(ServerError)
    else Outcome([Update(UsersTable, [("password_hash", newHash)], userId)], Succeeded)
  }

  /** The two guards on the body come before the lookup: when either refuses, the
      answer is the same whatever the database and bcrypt would have said. */
  lemma PasswordGuardsFirst(current: Value, newPassword: Value, userId: Value,
                            storedHash: Option<Value>, matches: bool, newHash: Value, updateFails: bool,
                            storedHash': Option<Value>, matches': bool, newHash': Value, updateFails': bool)
    requires !Truthy(current) || !Truthy(newPassword) || ShorterThan(newPassword, MinPasswordLength)
    ensures ChangePassword(current, newPassword, userId, storedHash, matches, newHash, updateFails)
         == ChangePassword(current, newPassword, userId, storedHash', matches', newHash', updateFails')
    ensures ChangePassword(current, newPassword, userId, storedHash, matches, newHash, updateFails).writes == []
  {
  }

  /** Missing passwords answer 400 before the length is looked at; a string new
      password of fewer than 8 characters answers 400 too; a missing user answers 404,
      a wrong current password 401; only a verified change of string passwords writes,
      and it writes the new hash of this user and nothing else. */
  lemma PasswordRules(current: Value, newPassword: Value, userId: Value, storedHash: Option<Value>,
                      matches: bool, newHash: Value, updateFails: bool)
    ensures var o := ChangePassword(current, newPassword, userId, storedHash, matches, newHash, updateFails);
      && (o.reply == Failed(PasswordsRequired) <==> !Truthy(current) || !Truthy(newPassword))
      && (Truthy(current) && newPassword.Str? && 0 < |newPassword.s| < MinPasswordLength ==>
            o.reply == Failed(PasswordTooShort))
      && (o.reply.Failed? ==> o.writes == [])
      && (o.reply == Failed(WrongCurrentPassword) <==>
            Truthy(current) && Truthy(newPassword) && !ShorterThan(newPassword, MinPasswordLength)
            && storedHash.Some? && current.Str? && !matches)
      && (o.reply == Succeeded <==>
            Truthy(current) && Truthy(newPassword) && !ShorterThan(newPassword, MinPasswordLength)
            && storedHash.Some? && current.Str? && matches && newPassword.Str? && !updateFails)
      && (o.reply == Succeeded ==> o.writes == [Update(UsersTable, [("password_hash", newHash)], userId)])
  {
  }

  /** An accepted new password is a string of at least 8 characters. The length check
      lets a truthy value that is not a string through (its `length` is `undefined`),
      and such a value only fails later, when `bcrypt.hash` throws: 500, nothing
      written. */
  lemma AcceptedPasswordLength(current: Value, newPassword: Value, userId: Value, storedHash: Option<Value>,
                               matches: bool, newHash: Value, updateFails: bool)
    ensures var o := ChangePassword(current, newPassword, userId, storedHash, matches, newHash, updateFails);
      o.reply == Succeeded ==> newPassword.Str? && |newPassword.s| >= MinPasswordLength
    ensures Truthy(newPassword) && !newPassword.Str? ==> !ShorterThan(newPassword, MinPasswordLength)
    ensures Truthy(current) && current.Str? && Truthy(newPassword) && !newPassword.Str? && storedHash.Some?
            && matches ==>
              ChangePassword(current, newPassword, userId, storedHash, matches, newHash, updateFails)
                == Reject(ServerError)
  {
  }

  // ===========================================================================
  // DELETE /me/account and DELETE /account

  /** The deletion of one's own account, with the same oracles as `ChangePassword`. */
  function DeactivateAccount(password: Value, userId: Value, storedHash: Option<Value>, matches: bool,
                             updateFails: bool): Outcome
  {
    if !Truthy(password) then Reject(AccountPasswordRequired)
    else if storedHash.None? then Reject(UserNotFound)
    else if !BcryptAccepts(password) then Reject(ServerError)
    else if !matches then Reject(WrongPassword)
    else if updateFails then Reject(ServerError)
    else Outcome([SoftDelete(userId)], Succeeded)
  }

  /** The password is required (400) and checked (401) first, a password that is not a
      string making `bcrypt.compare` throw (500); a confirmed deletion is
      a soft delete of this user: one UPDATE setting `is_active` to false, and no
      DELETE. */
  lemma DeactivateRules(password: Value, userId: Value, storedHash: Option<Value>, matches: bool,
                        updateFails: bool)
    ensures var o := DeactivateAccount(password, userId, storedHash, matches, updateFails);
      && (o.reply == Failed(AccountPasswordRequired) <==> !Truthy(password))
      && (o.reply == Failed(UserNotFound) <==> Truthy(password) && storedHash.None?)
      && (o.reply == Failed(WrongPassword) <==> Truthy(password) && storedHash.Some? && password.Str? && !matches)
      && (Truthy(password) && storedHash.Some? && !password.Str? ==> o.reply == Failed(ServerError))
      && (o.reply.Failed? ==> o.writes == [])
      && (o.reply == Succeeded <==> Truthy(password) && storedHash.Some? && password.Str? && matches && !updateFails)
      && (o.reply == Succeeded ==> o.writes == [SoftDelete(userId)])
      && (forall w | w in o.writes :: !w.Delete?)
  {
  }

  // ===========================================================================
  // DELETE /:id (admin)

  /** An admin deactivates the user `targetId` (`req.params.id`); `adminId` is the
      acting admin's `req.userId`, compared with `===`. */
  function DeleteUser(targetId: Value, adminId: Value, updateFails: bool): Outcome
  {
    if targetId == adminId then Reject(SelfDeletion)
    else if updateFails then Reject(ServerError)
    else Outcome([SoftDelete(targetId)], Succeeded)
  }

  /** An admin's own id is refused with 400 and nothing is written; any other id is
      deactivated, not deleted, so no write ever touches the admin's own row. */
  lemma DeleteUserRules(targetId: Value, adminId: Value, updateFails: bool)
    ensures var o := DeleteUser(targetId, adminId, updateFails);
      && (o.reply == Failed(SelfDeletion) <==> targetId == adminId)
      && (o.reply.Failed? ==> o.writes == [])
      && (o.reply == Succeeded <==> targetId != adminId && !updateFails)
      && (o.reply == Succeeded ==> o.writes == [SoftDelete(targetId)])
      && (forall w | w in o.writes :: w.Update? && w.id != adminId && w.assignments == [("is_active", Bool(false))])
  {
  }

  /** `===` compares types too: a route parameter, which is a string, never equals a
      numeric id, so the self-deletion guard only fires when the acting id is a string
      as well. */
  lemma SelfDeletionNeedsSameType(param: string, adminId: int, updateFails: bool)
    ensures DeleteUser(Str(param), Num(adminId), updateFails).reply != Failed(SelfDeletion)
  {
  }

  // ===========================================================================
  // PUT /:id/role (admin)

  /** `!role || !['user', 'admin', 'staff'].includes(role)`, negated. */
  predicate ValidRole(role: Value)
  {
    Truthy(role) && role.Str? && role.s in Roles
  }

  /** The role change of the user `targetId`. */
  function UpdateRole(targetId: Value, role: Value, updateFails: bool): Outcome
  {
    if !ValidRole(role) then Reject(InvalidRole)
    else if updateFails then Reject(ServerError)
    else Outcome([Update(UsersTable, [("role", role)], targetId)], Succeeded)
  }

  /** Exactly the three role names are accepted; anything else answers 400 and writes
      nothing; an accepted role is written as given. */
  lemma RoleRules(targetId: Value, role: Value, updateFails: bool)
    ensures var o := UpdateRole(targetId, role, updateFails);
      && (o.reply == Failed(InvalidRole) <==>
            !(role == Str("user") || role == Str("admin") || role == Str("staff")))
      && (o.reply.Failed? ==> o.writes == [])
      && (o.reply == Succeeded ==> o.writes == [Update(UsersTable, [("role", role)], targetId)])
  {
  }
}
