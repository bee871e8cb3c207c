/** The role hook: the signed-in user's row of `user_roles`, read once per user, and the
    permission flags derived from it. The query's outcome is a parameter. */
module UserRoleHook {
  import opened Wrappers
  import opened Access

  /** How the role query ended: an error reply, an exception, or a reply with the row's
      `role` (`None` when the user has no row). */
  datatype RoleReply = QueryError | Thrown | Row(role: Option<string>)

  /** The role the hook stores for a signed-in user: the row's role when it is set, and
      `user` on an error, an exception or a missing or empty role. The value is cast,
      not checked, so an unknown role is kept as it is. */
  function ResolvedRole(reply: RoleReply): (r: string)
    ensures r != ""
    ensures reply.Row? && reply.role.Some? && reply.role.value != "" ==> r == reply.role.value
    ensures !(reply.Row? && reply.role.Some? && reply.role.value != "") ==> r == "user"
  {
    match reply
    case QueryError => "user"
    case Thrown => "user"
    case Row(role) => if role.Some? && role.value != "" then role.value else "user"
  }

  predicate IsAdmin(role: Option<string>)
  {
    role == Some("admin")
  }

  predicate IsModerator(role: Option<string>)
  {
    role == Some("moderator")
  }

  /** `isAdmin || isModerator`. */
  predicate CanApproveAds(role: Option<string>)
  {
    IsAdmin(role) || IsModerator(role)
  }

  /** Only an `admin` or `moderator` row grants the review pages, and only an `admin` row
      the administrator's pages; an error, an exception or a missing row grants
      nothing. */
  lemma FlagsFromReply(reply: RoleReply)
    ensures CanApproveAds(Some(ResolvedRole(reply))) <==>
      reply == Row(Some("admin")) || reply == Row(Some("moderator"))
    ensures IsAdmin(Some(ResolvedRole(reply))) <==> reply == Row(Some("admin"))
    ensures IsAdmin(Some(ResolvedRole(reply))) ==> CanApproveAds(Some(ResolvedRole(reply)))
    ensures !(IsAdmin(Some(ResolvedRole(reply))) && IsModerator(Some(ResolvedRole(reply))))
  {
  }

  /** A signed-in user whose role query fails or finds no row is sent home by the review
      pages once the role is known. */
  lemma FailedRoleRedirected(reply: RoleReply)
    requires reply.QueryError? || reply.Thrown? || reply == Row(None)
    ensures Redirect(false, true, false, CanApproveAds(Some(ResolvedRole(reply)))) == Some("/")
  {
  }

  class RoleState {
    var role: Option<string>
    var loading: bool

    constructor ()
      ensures role.None? && loading
    {
      role := None;
      loading := true;
    }

    /** `fetchRole`: no user means no role; otherwise the role comes from the reply.
        Loading ends on every path. */
    method FetchRole(hasUser: bool, reply: RoleReply)
      modifies this
      ensures !hasUser ==> role.None?
      ensures hasUser ==> role == Some(ResolvedRole(reply))
      ensures !loading
    {
      if !hasUser {
        role := None;
        loading := false;
        return;
      }
      match reply {
        case QueryError =>
          role := Some("user");
        case Thrown =>
          role := Some("user");
        case Row(r) =>
          role := Some(if r.Some? && r.value != "" then r.value else "user");
      }
      loading := false;
    }

    /** The flags the hook returns. */
    function Flags(): (bool, bool, bool)
      reads this
    {
      (IsAdmin(role), IsModerator(role), CanApproveAds(role))
    }
  }
}
