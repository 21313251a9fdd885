/**
 * The client login controller: the `/client` endpoints that take a session
 * from anonymous, through a pending e-mail verification, to connected as a
 * client, and back on logout.  The collaborators the controller calls (client
 * lookup, password verifier, code generator, mail sender, user lookup, client
 * creation) are parameters of the endpoint methods.
 */
module ClientLogin {
  import opened Wrappers
  import opened SessionManager

  const LoginError := "Identifiant ou mot de passe incorrect"
  const RegisterError := "L'inscription a échoué. Veuillez réessayer."
  const UnauthorizedError := "Merci de vous authentifier pour accéder à cette ressource."
  const VerificationCodeError := "Code de vérification incorrect. Veuillez réessayer."

  const LoginUrl := "/client/login"
  const RegisterUrl := "/client/register"
  const VerifyUrl := "/client/verify"
  const DashboardUrl := "/client/dashboard"

  /** The HTTP statuses the endpoints answer with: 200, 302, 400 and 401. */
  datatype Status = Ok | Found | BadRequest | Unauthorized

  /** The user record the dashboard returns. */
  datatype UserView = UserView(userId: nat, firstName: string, lastName: string, email: string)

  /** A stored client account as the client service returns it; `password` is the stored hash. */
  datatype ClientAccount = ClientAccount(email: string, password: string)

  /** A value of the JSON response map. */
  datatype Value = Text(text: string) | UserObject(user: Option<UserView>)

  /** A response entity: status and the response map's entries. */
  datatype Reply = Reply(status: Status, body: map<string, Value>)

  /** A verification e-mail handed to the mail sender. */
  datatype Mail = Mail(to: string, code: string)

  /** The exception the mail sender may throw. */
  datatype MessagingException = MessagingException

  /** What the user service finds for the connected e-mail; null when there is none. */
  function UserByEmail(users: map<string, UserView>, email: Option<string>): Option<UserView>
  {
    if email.Some? && email.value in users then Some(users[email.value]) else None
  }

  class ClientLoginController {
    /** The login attributes of the caller's HTTP session. */
    var session: Session
    /** Verification e-mails sent so far, oldest first. */
    var outbox: seq<Mail>

    constructor ()
      ensures session == Anonymous && outbox == []
    {
      session := Anonymous;
      outbox := [];
    }

    /** GET /client/login: redirect a connected client to the dashboard. */
    method LoginPage() returns (r: Reply)
      ensures IsUserConnectedAsClient(session) <==> r.status == Found
      ensures IsUserConnectedAsClient(session) ==> r.body == map["url" := Text(DashboardUrl)]
      ensures !IsUserConnectedAsClient(session) ==> r == Reply(Ok, map["url" := Text(LoginUrl)])
    {
      if IsUserConnectedAsClient(session) {
        r := Reply(Found, map["url" := Text(DashboardUrl)]);
      } else {
        r := Reply(Ok, map["url" := Text(LoginUrl)]);
      }
    }

    /**
     * POST /client/login: check the password, then e-mail a fresh code and
     * leave the session waiting for it.  `generatedCode` is the code the
     * generator produces; `mailDelivered` is false when the mail sender throws.
     */
    method Login(email: string, password: string, clients: map<string, ClientAccount>,
                 passwordMatches: (string, string) -> bool, generatedCode: string, mailDelivered: bool)
      returns (r: Result<Reply, MessagingException>)
      modifies this
      ensures !(email in clients && passwordMatches(password, clients[email].password)) ==>
                r == Success(Reply(Unauthorized, map["error" := Text(LoginError)]))
                && session == old(session) && outbox == old(outbox)
      ensures email in clients && passwordMatches(password, clients[email].password) && !mailDelivered ==>
                r == Failure(MessagingException) && session == old(session) && outbox == old(outbox)
      ensures email in clients && passwordMatches(password, clients[email].password) && mailDelivered ==>
                r == Success(Reply(Ok, map["url" := Text(VerifyUrl)]))
                && session == SetUserToVerify(email, Client, generatedCode)
                && outbox == old(outbox) + [Mail(email, generatedCode)]
      // a login never connects a session that was not connected, and the code
      // waiting in the session is the one just e-mailed
      ensures IsUserConnectedAsClient(session) ==> session == old(session)
      ensures outbox != old(outbox) ==>
                |outbox| > 0 && session.verificationCode == Some(outbox[|outbox| - 1].code)
    {
      if email in clients && passwordMatches(password, clients[email].password) {
        var code := generatedCode;
        if !mailDelivered {
          return Failure(MessagingException);
        }
        outbox := outbox + [Mail(email, code)];
        session := SetUserToVerify(email, Client, code);
        r := Success(Reply(Ok, map["url" := Text(VerifyUrl)]));
      } else {
        r := Success(Reply(Unauthorized, map["error" := Text(LoginError)]));
      }
    }

    /** GET /client/register. */
    method RegisterPage() returns (r: Reply)
      ensures r.status == Ok && r.body == map["url" := Text(RegisterUrl)]
    {
      r := Reply(Ok, map["url" := Text(RegisterUrl)]);
    }

    /** POST /client/register: `created` is what the client service's creation returns. */
    method Register(created: Option<UserView>) returns (r: Reply)
      ensures r.status == BadRequest <==> created.None?
      ensures created.None? ==> r.body == map["error" := Text(RegisterError)]
      ensures created.Some? ==> r == Reply(Found, map["url" := Text(LoginUrl)])
    {
      if created.None? {
        r := Reply(BadRequest, map["error" := Text(RegisterError)]);
      } else {
        r := Reply(Found, map["url" := Text(LoginUrl)]);
      }
    }

    /** GET /client/dashboard: the connected client's user record, or a pointer to the login page. */
    method Dashboard(users: map<string, UserView>) returns (r: Reply)
      ensures r.status == Ok <==> IsUserConnectedAsClient(session)
      ensures IsUserConnectedAsClient(session) ==>
                r.body == map["object" := UserObject(UserByEmail(users, GetConnectedUserEmail(session)))]
      ensures !IsUserConnectedAsClient(session) ==>
                r == Reply(Unauthorized, map["error" := Text(UnauthorizedError), "url" := Text(LoginUrl)])
    {
      if IsUserConnectedAsClient(session) {
        var client := UserByEmail(users, GetConnectedUserEmail(session));
        r := Reply(Ok, map["object" := UserObject(client)]);
      } else {
        r := Reply(Unauthorized, map["error" := Text(UnauthorizedError), "url" := Text(LoginUrl)]);
      }
    }

    /** GET /client/logout: whatever the session held, it is cleared. */
    method Logout() returns (r: Reply)
      modifies this
      ensures session == Anonymous && !IsUserConnectedAsClient(session)
      ensures outbox == old(outbox)
      ensures r == Reply(Ok, map["url" := Text(LoginUrl)])
    {
      session := Anonymous;
      r := Reply(Ok, map["url" := Text(LoginUrl)]);
    }

    /**
     * POST /client/verify: exact comparison of the submitted code with the
     * saved one; a session with no saved code never matches.  The pending
     * user type is not consulted.
     */
    method Verify(code: string) returns (r: Reply)
      modifies this
      ensures GetVerificationCode(old(session)) == Some(code) ==>
                r == Reply(Ok, map["url" := Text(DashboardUrl)])
                && session == SetUserAsConnected(GetConnectedUserEmail(old(session)), Client)
      ensures GetVerificationCode(old(session)) != Some(code) ==>
                r == Reply(Unauthorized, map["error" := Text(VerificationCodeError)])
                && session == old(session)
      ensures r.status == Ok ==> IsUserConnectedAsClient(session) && session.email == old(session).email
      ensures outbox == old(outbox)
    {
      var savedCode := GetVerificationCode(session);
      if savedCode == Some(code) {
        session := SetUserAsConnected(GetConnectedUserEmail(session), Client);
        r := Reply(Ok, map["url" := Text(DashboardUrl)]);
      } else {
        r := Reply(Unauthorized, map["error" := Text(VerificationCodeError)]);
      }
    }
  }

  /**
   * The two-factor journey on a fresh session: a correct password, a wrong
   * code, the e-mailed code, then logout.  The statuses are those of the
   * dashboard before verification, the wrong-code verify, the dashboard
   * after the right code, and the dashboard after logout.
   */
  method TwoFactorJourney(email: string, password: string, clients: map<string, ClientAccount>,
                          passwordMatches: (string, string) -> bool, code: string, wrongCode: string,
                          users: map<string, UserView>)
    returns (statuses: seq<Status>, mailed: seq<Mail>)
    requires email in clients && passwordMatches(password, clients[email].password)
    requires wrongCode != code
    ensures statuses == [Unauthorized, Unauthorized, Ok, Unauthorized]
    ensures mailed == [Mail(email, code)]
  {
    var c := new ClientLoginController();
    var login := c.Login(email, password, clients, passwordMatches, code, true);
    var early := c.Dashboard(users);
    var wrong := c.Verify(wrongCode);
    var right := c.Verify(code);
    var inside := c.Dashboard(users);
    var bye := c.Logout();
    var after := c.Dashboard(users);
    statuses := [early.status, wrong.status, inside.status, after.status];
    mailed := c.outbox;
  }
}
