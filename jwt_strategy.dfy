/** JwtStrategy.validate: turns the claims of a verified token into the
    request's user, by looking the subject up in the table its `type` names. */
module JwtStrategy {
  import opened Common
  import opened Records
  import opened AuthService

  /** `{ ...record, userType }` as attached to the request (the record is the
      full row, password hash included). */
  datatype RequestUser =
    | ClientUser(client: Client, userType: string)
    | AdminUser(admin: Admin, userType: string)

  const ClientNotFound := Unauthorized("Client not found")
  const AdminNotFound := Unauthorized("Admin not found")
  const InvalidUserType := Unauthorized("Invalid user type")

  /** A 'client' token yields the client row tagged 'client', an 'admin' token
      the admin row tagged 'admin'; an unknown subject or any other type is
      Unauthorized. */
  function Validate(clients: map<Id, Client>, admins: map<Id, Admin>, payload: JwtPayload): (r: Result<RequestUser>)
    ensures payload.kind == "client" ==>
              && (r.Ok? <==> payload.sub in clients)
              && (r.Ok? ==> r.value == ClientUser(clients[payload.sub], "client"))
              && (r.Err? ==> r.error == ClientNotFound)
    ensures payload.kind == "admin" ==>
              && (r.Ok? <==> payload.sub in admins)
              && (r.Ok? ==> r.value == AdminUser(admins[payload.sub], "admin"))
              && (r.Err? ==> r.error == AdminNotFound)
    ensures payload.kind != "client" && payload.kind != "admin" ==> r == Err(InvalidUserType)
  {
    if payload.kind == "client" then
      if payload.sub !in clients then Err(ClientNotFound)
      else Ok(ClientUser(clients[payload.sub], "client"))
    else if payload.kind == "admin" then
      if payload.sub !in admins then Err(AdminNotFound)
      else Ok(AdminUser(admins[payload.sub], "admin"))
    else Err(InvalidUserType)
  }

  /** Every user the strategy attaches carries the tag of the table it came from. */
  lemma UserTypeMatchesTable(clients: map<Id, Client>, admins: map<Id, Admin>, payload: JwtPayload)
    requires Validate(clients, admins, payload).Ok?
    ensures var u := Validate(clients, admins, payload).value;
            && (u.ClientUser? <==> u.userType == "client")
            && (u.AdminUser? <==> u.userType == "admin")
            && u.userType == payload.kind
  {
  }
}
