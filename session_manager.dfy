/**
 * The login attributes an HTTP session carries, and the session-manager
 * operations the client login controller calls on them.  The session
 * manager's own code is not part of this model; its operations are given
 * here the meaning the controller relies on.
 */
module SessionManager {
  import opened Wrappers

  /** The user type the client endpoints store and test for. */
  const Client := "client"

  /**
   * `email` is the address being verified, or connected once verified;
   * `verificationCode` is the one-time code waiting to be submitted.
   */
  datatype Session = Session(
    email: Option<string>,
    userType: Option<string>,
    verificationCode: Option<string>,
    connected: bool)

  /** A session with no login state: never logged in, or logged out (every attribute cleared). */
  const Anonymous := Session(None, None, None, false)

  predicate IsUserConnectedAsClient(s: Session)
  {
    s.connected && s.userType == Some(Client)
  }

  /**
   * The e-mail of the session's user: the one stored by the last login,
   * whether its code is still pending or already verified.
   */
  function GetConnectedUserEmail(s: Session): Option<string>
  {
    s.email
  }

  /** The code waiting to be submitted; null once consumed or never set. */
  function GetVerificationCode(s: Session): Option<string>
  {
    s.verificationCode
  }

  /** Records a login whose password check passed and whose code is pending. */
  function SetUserToVerify(email: string, userType: string, code: string): (r: Session)
    ensures !IsUserConnectedAsClient(r)
    ensures r.verificationCode == Some(code) && r.email == Some(email)
  {
    Session(Some(email), Some(userType), Some(code), false)
  }

  /** Promotes the session to connected; the pending code is consumed. */
  function SetUserAsConnected(email: Option<string>, userType: string): (r: Session)
    ensures r.connected && r.verificationCode == None
    ensures userType == Client ==> IsUserConnectedAsClient(r)
  {
    Session(email, Some(userType), None, true)
  }

}
