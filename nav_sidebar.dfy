/**
 * The signed-in version of the sidebar. Its menu and category rows are the expressions of the
 * `Sidebar` module; what it adds is the user card: the user read from the token cookie, a
 * dropdown opened and closed by clicking the card, and the logout action. Decoding the token is
 * a parameter.
 */
module NavSidebar {
  import opened Wrappers
  import Login

  /**
   * The claims a decoded token carries. The `as { id; email; name }` cast checks nothing, so a
   * claim the token lacks is `undefined`, written `None` here like `null`.
   */
  datatype Claims = Claims(id: Option<string>, email: Option<string>, name: Option<string>)

  /** The `user` object: each field is a string or `null`. */
  datatype User = User(id: Option<string>, email: Option<string>, name: Option<string>)

  /** The user shown when there is no token. */
  const Anonymous := User(None, None, None)

  /**
   * `Cookies.get("token") ? jwtDecode(token) : { id: null, email: null, name: null }`. The decoder
   * yields `None` where `jwtDecode` throws on a malformed token; the sidebar then fails to render,
   * which is `None` here.
   */
  function UserOf(token: Option<string>, decode: string -> Option<Claims>): (u: Option<User>)
    ensures u.None? <==> Login.Truthy(token) && decode(token.value).None?
    ensures !Login.Truthy(token) ==> u == Some(Anonymous)
    ensures Login.Truthy(token) && decode(token.value).Some? ==>
              var c := decode(token.value).value; u == Some(User(c.id, c.email, c.name))
  {
    if Login.Truthy(token) then
      match decode(token.value)
      case None => None
      case Some(c) => Some(User(c.id, c.email, c.name))
    else Some(Anonymous)
  }

  /**
   * A well-formed token that carries none of the three claims renders exactly like no token:
   * nothing checks the claims the cast promises.
   */
  lemma ClaimlessTokenLooksAnonymous(token: string, decode: string -> Option<Claims>)
    requires token != "" && decode(token) == Some(Claims(None, None, None))
    ensures UserOf(Some(token), decode) == UserOf(None, decode) == Some(Anonymous)
  {
  }

  /** The sidebar's state and the token cookie it reads. */
  class NavSidebarState {
    var open: bool
    var token: Option<string>

    /** `useState(false)`, with whatever token the cookie holds. */
    constructor (token: Option<string>)
      ensures !open && this.token == token
    {
      open := false;
      this.token := token;
    }

    /** `handleOption`: open or close the user dropdown. */
    method HandleOption()
      modifies this
      ensures open == !old(open)
      ensures unchanged(this`token)
    {
      open := !open;
    }

    /** Clicking the card twice leaves the dropdown as it was. */
    method HandleOptionTwice()
      modifies this
      ensures open == old(open)
      ensures unchanged(this`token)
    {
      HandleOption();
      HandleOption();
    }

    /** `handleLogout`: remove the cookie and go to the login page (the path is returned). */
    method HandleLogout(decode: string -> Option<Claims>) returns (path: string)
      modifies this
      ensures token == None && path == "/login"
      ensures UserOf(token, decode) == Some(Anonymous)
      ensures unchanged(this`open)
    {
      token := None;
      path := "/login";
    }
  }
}
