/** The credential check `authenticate` and the decorator `isAuthenticated`,
    whose wrapper reads `username` and `password` from its keyword arguments
    and takes the "Access Granted" or the "Access Denied" branch. */
module PasswordMatcher {

  /** `authenticate(username, password)` */
  function Authenticate(username: string, password: string): (ok: bool)
    ensures ok <==> (username, password) == ("admin", "secret")
  {
    username == "admin" && password == "secret"
  }

  /** The branch the wrapper takes (it prints one of two messages). */
  datatype Branch = AccessGranted | AccessDenied

  /** How a call of the wrapper ends: a KeyError for a missing keyword
      argument, or a normal return of None after taking a branch. */
  datatype Outcome = KeyError(key: string) | Returned(branch: Branch)

  type Kwargs = map<string, string>

  /** The wrapper around the decorated function: `kwargs["username"]` is read
      first, then `kwargs["password"]`. */
  function Wrapper(kwargs: Kwargs): (out: Outcome)
    ensures "username" !in kwargs ==> out == KeyError("username")
    ensures "username" in kwargs && "password" !in kwargs ==> out == KeyError("password")
    ensures out == Returned(AccessGranted)
        <==> "username" in kwargs && "password" in kwargs
             && kwargs["username"] == "admin" && kwargs["password"] == "secret"
    ensures out == Returned(AccessDenied)
        <==> "username" in kwargs && "password" in kwargs
             && !(kwargs["username"] == "admin" && kwargs["password"] == "secret")
  {
    if "username" !in kwargs then KeyError("username")
    else if "password" !in kwargs then KeyError("password")
    else if Authenticate(kwargs["username"], kwargs["password"]) then Returned(AccessGranted)
    else Returned(AccessDenied)
  }

  /** `isAuthenticated(func)`: the wrapper it returns never calls `func`. */
  function IsAuthenticated(func: Kwargs -> Kwargs): (wrapper: Kwargs -> Outcome)
    ensures forall kwargs :: wrapper(kwargs) == Wrapper(kwargs)
  {
    kwargs => Wrapper(kwargs)
  }

  /** The decorated `authenticate_user(**kwargs)`, which returns its arguments. */
  function AuthenticateUser(kwargs: Kwargs): (r: Kwargs)
    ensures r.Keys == kwargs.Keys
    ensures forall k :: k in r ==> r[k] == kwargs[k]
  {
    kwargs
  }

  /** Only the pair ("admin", "secret") is accepted. */
  lemma AuthenticateExactly(username: string, password: string)
    ensures Authenticate(username, password) ==> username == "admin" && password == "secret"
    ensures Authenticate("admin", "secret")
  {
  }

  /** The right user name with any other password is refused. */
  lemma WrongPasswordRejected(password: string)
    requires password != "secret"
    ensures !Authenticate("admin", password)
  {
  }

  /** Any other user name is refused, whatever the password. */
  lemma OtherUserRejected(username: string, password: string)
    requires username != "admin"
    ensures !Authenticate(username, password)
  {
  }

  /** The wrapper's outcome does not depend on the decorated function. */
  lemma WrapperIgnoresFunc(f: Kwargs -> Kwargs, g: Kwargs -> Kwargs, kwargs: Kwargs)
    ensures IsAuthenticated(f)(kwargs) == IsAuthenticated(g)(kwargs)
  {
  }

  /** The script's call `authenticate_user(username="admin", password="secret")`
      takes the "Access Granted" branch. */
  lemma DecoratedCallGranted()
    ensures IsAuthenticated(AuthenticateUser)(map["username" := "admin", "password" := "secret"])
         == Returned(AccessGranted)
  {
  }
}
