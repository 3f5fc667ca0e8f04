/** AuthService: credential checks for clients and admins, and login, which
    signs a token for a validated account. bcrypt and the JWT signer are
    outside this model: they are functions the `Crypto` value carries. */
module AuthService {
  import opened Common
  import opened Records

  /** The claims of an access token. `kind` (the `type` claim) is 'client' or 'admin' when the
      service signs it; a token presented later may carry any string. */
  datatype JwtPayload = JwtPayload(sub: Id, email: string, kind: string)

  /** bcrypt hash (password, salt rounds), bcrypt compare (plain, hash) and
      the JWT signer. */
  datatype Crypto = Crypto(
    hash: (string, int) -> string,
    compare: (string, string) -> bool,
    sign: JwtPayload -> string)

  const SaltRounds := 12

  function HashPassword(crypto: Crypto, password: string): string {
    crypto.hash(password, SaltRounds)
  }

  /** `generateToken`: signs the payload as given. */
  function GenerateToken(crypto: Crypto, payload: JwtPayload): string {
    crypto.sign(payload)
  }

  const InvalidCredentials := Unauthorized("Invalid credentials")

  /** `{ ...clientWithoutPassword, type: 'client' }`. */
  datatype ValidatedClient = ValidatedClient(client: ClientView, kind: string)

  /** `{ ...adminWithoutPassword, type: 'admin' }`. */
  datatype ValidatedAdmin = ValidatedAdmin(admin: AdminView, kind: string)

  /** `validateClient`: the client with this e-mail whose stored hash matches
      the password, without its password and tagged 'client'; otherwise
      Unauthorized with one message for both causes. */
  function ValidateClient(clients: map<Id, Client>, crypto: Crypto, email: string, password: string): (r: Result<ValidatedClient>)
    requires ClientTable(clients)
    ensures r.Ok? <==> exists k :: k in clients && clients[k].email == email && crypto.compare(password, clients[k].password)
    ensures r.Err? ==> r.error == InvalidCredentials
    ensures r.Ok? ==> r.value.kind == "client" && r.value.client.email == email
    ensures r.Ok? ==> r.value.client.id in clients && r.value.client == View(clients[r.value.client.id])
  {
    match ClientByEmail(clients, email)
    case None => Err(InvalidCredentials)
    case Some(c) =>
      if !crypto.compare(password, c.password) then Err(InvalidCredentials)
      else Ok(ValidatedClient(View(c), "client"))
  }

  /** `validateAdmin`: the same rule over the admin table, tagged 'admin'. */
  function ValidateAdmin(admins: map<Id, Admin>, crypto: Crypto, email: string, password: string): (r: Result<ValidatedAdmin>)
    requires AdminTable(admins)
    ensures r.Ok? <==> exists k :: k in admins && admins[k].email == email && crypto.compare(password, admins[k].password)
    ensures r.Err? ==> r.error == InvalidCredentials
    ensures r.Ok? ==> r.value.kind == "admin" && r.value.admin.email == email
    ensures r.Ok? ==> r.value.admin.id in admins && r.value.admin == AdminViewOf(admins[r.value.admin.id])
  {
    match AdminByEmail(admins, email)
    case None => Err(InvalidCredentials)
    case Some(a) =>
      if !crypto.compare(password, a.password) then Err(InvalidCredentials)
      else Ok(ValidatedAdmin(AdminViewOf(a), "admin"))
  }

  /** An unknown e-mail and a wrong password are indistinguishable to the caller. */
  lemma CredentialFailuresIndistinguishable(
    clients: map<Id, Client>, crypto: Crypto, unknownEmail: string, knownEmail: string, wrongPassword: string, anyPassword: string)
    requires ClientTable(clients)
    requires !EmailTaken(clients, unknownEmail)
    requires ValidateClient(clients, crypto, knownEmail, wrongPassword).Err?
    ensures ValidateClient(clients, crypto, unknownEmail, anyPassword) == ValidateClient(clients, crypto, knownEmail, wrongPassword)
  {
  }

  datatype ClientLogin = ClientLogin(accessToken: string, client: ValidatedClient)

  datatype AdminLogin = AdminLogin(accessToken: string, admin: ValidatedAdmin)

  /** `loginClient`: validation failures propagate unchanged; on success the
      token is signed over {sub: id, email, type: 'client'} of the validated client. */
  function LoginClient(clients: map<Id, Client>, crypto: Crypto, email: string, password: string): (r: Result<ClientLogin>)
    requires ClientTable(clients)
    ensures var v := ValidateClient(clients, crypto, email, password);
            && (r.Ok? <==> v.Ok?)
            && (r.Err? ==> r.error == InvalidCredentials)
            && (r.Ok? ==> r.value.client == v.value
                          && r.value.accessToken == crypto.sign(JwtPayload(v.value.client.id, email, "client")))
  {
    var client :- ValidateClient(clients, crypto, email, password);
    var payload := JwtPayload(client.client.id, client.client.email, "client");
    Ok(ClientLogin(GenerateToken(crypto, payload), client))
  }

  /** `loginAdmin`: the same composition with type 'admin'. */
  function LoginAdmin(admins: map<Id, Admin>, crypto: Crypto, email: string, password: string): (r: Result<AdminLogin>)
    requires AdminTable(admins)
    ensures var v := ValidateAdmin(admins, crypto, email, password);
            && (r.Ok? <==> v.Ok?)
            && (r.Err? ==> r.error == InvalidCredentials)
            && (r.Ok? ==> r.value.admin == v.value
                          && r.value.accessToken == crypto.sign(JwtPayload(v.value.admin.id, email, "admin")))
  {
    var admin :- ValidateAdmin(admins, crypto, email, password);
    var payload := JwtPayload(admin.admin.id, admin.admin.email, "admin");
    Ok(AdminLogin(GenerateToken(crypto, payload), admin))
  }
}
