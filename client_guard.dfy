/** ClientGuard.canActivate: admits a request only when its user is a client. */
module ClientGuard {
  import opened Common
  import opened Records
  import opened AuthService
  import opened JwtStrategy

  const ClientAccessRequired := Forbidden("Client access required")

  /** True for a user tagged 'client'; a missing user or any other tag (admins
      included) is Forbidden. The guard never answers false. */
  function CanActivate(user: Option<RequestUser>): (r: Result<bool>)
    ensures r.Ok? <==> user.Some? && user.value.userType == "client"
    ensures r.Err? ==> r.error == ClientAccessRequired
    ensures r != Ok(false)
  {
    if user.None? || user.value.userType != "client" then Err(ClientAccessRequired)
    else Ok(true)
  }

  /** A client-only route behind the token strategy and this guard: Ok with
      the user, or the first guard's error. */
  function AuthorizeClientRoute(clients: map<Id, Client>, admins: map<Id, Admin>, payload: JwtPayload): Result<RequestUser> {
    var user :- Validate(clients, admins, payload);
    var _ :- CanActivate(Some(user));
    Ok(user)
  }

  /** Across the two guards: a token reaches a client-only route exactly when
      it is a 'client' token whose subject is a client; an admin token with an
      existing subject is refused as Forbidden. */
  lemma ClientRoutesAdmitOnlyClients(clients: map<Id, Client>, admins: map<Id, Admin>, payload: JwtPayload)
    ensures var r := AuthorizeClientRoute(clients, admins, payload);
            && (r.Ok? <==> payload.kind == "client" && payload.sub in clients)
            && (r.Ok? ==> r.value == ClientUser(clients[payload.sub], "client"))
            && (payload.kind == "admin" && payload.sub in admins ==> r == Err(ClientAccessRequired))
  {
  }
}
