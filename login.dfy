/**
 * The login form: a credentials record edited field by field and a check
 * against one hard-coded account that either invokes the form's callback
 * or alerts.
 */
module Login {

  datatype CredentialField = Username | Password

  datatype Credentials = Credentials(username: string, password: string)
  {
    function Get(f: CredentialField): string
    {
      match f
      case Username => username
      case Password => password
    }

    /** The record with field `f` replaced by `v`. */
    function With(f: CredentialField, v: string): (c: Credentials)
      ensures c.Get(f) == v
      ensures forall g :: g != f ==> c.Get(g) == Get(g)
    {
      match f
      case Username => this.(username := v)
      case Password => this.(password := v)
    }
  }

  const AdminUsername := "admin"
  const AdminPassword := "admin123"

  /** The single effect of pressing the login button. */
  datatype LoginOutcome = CallOnLogin | AlertInvalid

  /** The button's decision: only the exact hard-coded pair is accepted. */
  function Decide(c: Credentials): (o: LoginOutcome)
    ensures o == CallOnLogin <==> c == Credentials(AdminUsername, AdminPassword)
    ensures o == AlertInvalid <==> c != Credentials(AdminUsername, AdminPassword)
  {
    if c.username == AdminUsername && c.password == AdminPassword then CallOnLogin else AlertInvalid
  }

  class LoginForm {
    var credentials: Credentials

    constructor ()
      ensures credentials == Credentials("", "")
    {
      credentials := Credentials("", "");
    }

    method HandleChange(f: CredentialField, value: string)
      modifies this
      ensures credentials == old(credentials).With(f, value)
    {
      credentials := credentials.With(f, value);
    }

    /** Reads the credentials and decides; it changes nothing. */
    method HandleLogin() returns (o: LoginOutcome)
      ensures o == CallOnLogin <==> credentials.username == AdminUsername && credentials.password == AdminPassword
      ensures o == Decide(credentials)
    {
      if credentials.username == AdminUsername && credentials.password == AdminPassword {
        o := CallOnLogin;
      } else {
        o := AlertInvalid;
      }
    }
  }
}
