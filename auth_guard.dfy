/**
 * The web app's route guards. The identity provider's session is reduced to
 * whether the user is logged in and which roles it reports; the guards'
 * redirect to the login page and navigation to "/unauthorized" are recorded
 * in the outcome instead of being performed.
 */
module AuthGuard {
  import opened Wrappers

  const AdminRole := "ADMIN"
  const UnauthorizedPath := "/unauthorized"

  /** What the identity provider reports about the current user. */
  datatype Session = Session(loggedIn: bool, roles: set<string>)

  /** A guard's decision: activate the route, send the user to log in, or send them to the unauthorized page. */
  datatype Outcome = Allow | Login(redirectUri: string) | Unauthorized {
    /** The value the guard resolves to. */
    predicate Activates() {
      this.Allow?
    }
  }

  /** requiredRoles.some(role => isUserInRole(role)), one role after the other. */
  function AnyInRole(required: seq<string>, s: Session): (r: bool)
    ensures r <==> exists i :: 0 <= i < |required| && required[i] in s.roles
  {
    if required == [] then false
    else if required[0] in s.roles then true
    else
      var r := AnyInRole(required[1..], s);
      assert r ==> exists i :: 0 <= i < |required| && required[i] in s.roles by {
        if r {
          var i :| 0 <= i < |required[1..]| && required[1..][i] in s.roles;
          assert required[i + 1] in s.roles;
        }
      }
      r
  }

  /**
   * authGuard: a user who is not logged in is sent to log in and come back
   * to the requested URL; a route listing roles needs one of them.
   * `required` is None when the route's data has no roles entry.
   */
  function Guard(s: Session, required: Option<seq<string>>, origin: string, url: string): (o: Outcome)
    ensures !s.loggedIn ==> o == Login(origin + url)
    ensures s.loggedIn && (required.None? || required.value == []) ==> o == Allow
    ensures s.loggedIn && required.Some? && required.value != [] ==>
      (o.Activates() <==> exists i :: 0 <= i < |required.value| && required.value[i] in s.roles)
    ensures o.Activates() || o == Unauthorized || o == Login(origin + url)
  {
    if !s.loggedIn then Login(origin + url)
    else if required.Some? && |required.value| > 0 && !AnyInRole(required.value, s) then Unauthorized
    else Allow
  }

  /** adminGuard: like authGuard with the single required role ADMIN. */
  function AdminGuard(s: Session, origin: string, url: string): (o: Outcome)
    ensures !s.loggedIn ==> o == Login(origin + url)
    ensures o.Activates() <==> s.loggedIn && AdminRole in s.roles
    ensures s.loggedIn && AdminRole !in s.roles ==> o == Unauthorized
  {
    if !s.loggedIn then Login(origin + url)
    else if AdminRole !in s.roles then Unauthorized
    else Allow
  }

  /** authGuard with the roles [ADMIN] decides exactly as adminGuard. */
  lemma AdminGuardIsGuard(s: Session, origin: string, url: string)
    ensures Guard(s, Some([AdminRole]), origin, url) == AdminGuard(s, origin, url)
  {
    if s.loggedIn {
      assert AnyInRole([AdminRole], s) <==> AdminRole in s.roles by {
        assert [AdminRole][0] == AdminRole;
      }
    }
  }

  /** Whatever the route asks, a user who is not logged in never gets through. */
  lemma NotLoggedInBlocked(s: Session, required: Option<seq<string>>, origin: string, url: string)
    requires !s.loggedIn
    ensures !Guard(s, required, origin, url).Activates() && !AdminGuard(s, origin, url).Activates()
  {
  }

  /** Requiring more roles never turns a logged-in user away who was let in before. */
  lemma MoreRolesNoStricter(s: Session, required: seq<string>, extra: seq<string>, origin: string, url: string)
    requires s.loggedIn && required != []
    requires Guard(s, Some(required), origin, url).Activates()
    ensures Guard(s, Some(required + extra), origin, url).Activates()
  {
    var i :| 0 <= i < |required| && required[i] in s.roles;
    assert (required + extra)[i] == required[i];
  }
}
