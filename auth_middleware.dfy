/**
 * The `auth` and `adminAuth` middleware: the chain of checks a request's
 * `x-auth-token` header goes through before a protected handler runs.
 *
 * `jwt.verify` with the server secret, followed by reading `decoded.user.id`,
 * is the parameter `verify` (None when the signature, the expiry or the
 * payload shape is wrong); `ObjectId.isValid` is the parameter `isValidId`
 * (an id that cannot be cast makes `findById` throw, which lands in the same
 * catch as a bad token).
 */
module AuthMiddleware {
  import opened Common
  import opened Collection
  import opened UserModel

  /** What the middleware does with a request: hand it on with `req.user` set, or answer it itself. */
  datatype Gate = Pass(user: Doc<User>) | Stop(response: Response<()>)

  const NoToken := "No token, authorization denied"
  const BadToken := "Token is not valid"
  const UnknownUser := "User not found"
  const AdminOnly := "Access denied. Admin only."

  /** `auth`: reject without a token, with a bad token, for a missing or a banned user; otherwise pass the stored user on. */
  function Authenticate(users: seq<Doc<User>>, token: Option<string>,
                        verify: string -> Option<Id>, isValidId: Id -> bool): (g: Gate)
    ensures !Truthy(token) ==> g == Stop(Err(401, NoToken))
    ensures g.Pass? ==> && Truthy(token) && verify(token.value) == Some(g.user.id)
                        && g.user in users && !g.user.body.profile.isBanned
    ensures g.Stop? ==> g.response.Code() in {401, 403} && !g.response.Ok?
    ensures Truthy(token) && (verify(token.value).None? || !isValidId(verify(token.value).value)) ==>
              g == Stop(Err(401, BadToken))
    ensures (&& Truthy(token) && verify(token.value).Some? && isValidId(verify(token.value).value)
             && Find(users, verify(token.value).value).None?) ==>
              g == Stop(Err(401, UnknownUser))
    ensures g.Stop? && g.response.Banned? ==>
              && Truthy(token) && verify(token.value).Some? && isValidId(verify(token.value).value)
              && Find(users, verify(token.value).value).Some?
              && var u := Find(users, verify(token.value).value).value;
              && u.body.profile.isBanned && g.response.banReason == u.body.profile.banReason
  {
    if !Truthy(token) then Stop(Err(401, NoToken))
    else match verify(token.value)
      case None => Stop(Err(401, BadToken))
      case Some(id) =>
        if !isValidId(id) then Stop(Err(401, BadToken))
        else match Find(users, id)
          case None => Stop(Err(401, UnknownUser))
          case Some(u) =>
            if u.body.profile.isBanned then Stop(Banned(u.body.profile.banReason))
            else Pass(u)
  }

  /** A valid token for a stored user who is not banned always gets through, with that very user as `req.user`. */
  lemma AuthenticateAccepts(users: seq<Doc<User>>, token: Option<string>,
                            verify: string -> Option<Id>, isValidId: Id -> bool, k: nat)
    requires UniqueIds(users) && k < |users|
    requires Truthy(token) && verify(token.value) == Some(users[k].id) && isValidId(users[k].id)
    requires !users[k].body.profile.isBanned
    ensures Authenticate(users, token, verify, isValidId) == Pass(users[k])
  {
    FindAt(users, k);
  }

  /** A valid token for a banned user is answered with 403 and that user's ban reason. */
  lemma AuthenticateRejectsBanned(users: seq<Doc<User>>, token: Option<string>,
                                  verify: string -> Option<Id>, isValidId: Id -> bool, k: nat)
    requires UniqueIds(users) && k < |users|
    requires Truthy(token) && verify(token.value) == Some(users[k].id) && isValidId(users[k].id)
    requires users[k].body.profile.isBanned
    ensures Authenticate(users, token, verify, isValidId) == Stop(Banned(users[k].body.profile.banReason))
  {
    FindAt(users, k);
  }

  /** `adminAuth`: everything `auth` rejects, it rejects the same way; of what `auth` passes, only admins get through. */
  function AdminAuthenticate(users: seq<Doc<User>>, token: Option<string>,
                             verify: string -> Option<Id>, isValidId: Id -> bool): (g: Gate)
    ensures Authenticate(users, token, verify, isValidId).Stop? ==> g == Authenticate(users, token, verify, isValidId)
    ensures g.Pass? <==> Authenticate(users, token, verify, isValidId).Pass?
                         && Authenticate(users, token, verify, isValidId).user.body.profile.isAdmin
    ensures g.Pass? ==> g == Authenticate(users, token, verify, isValidId)
    ensures g.Stop? && !Authenticate(users, token, verify, isValidId).Stop? ==> g == Stop(Err(403, AdminOnly))
  {
    match Authenticate(users, token, verify, isValidId)
    case Stop(r) => Stop(r)
    case Pass(u) =>
      if !u.body.profile.isAdmin then Stop(Err(403, AdminOnly))
      else Pass(u)
  }
}
