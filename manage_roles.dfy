/** The administrators' role manager: the list of role rows with display names, granting
    a role by e-mail address, and revoking one. The database answers are parameters. */
module ManageRoles {
  import opened Wrappers
  import opened Text

  /** A row of `user_roles`. */
  datatype RoleRow = RoleRow(id: string, userId: string, role: string, createdAt: string)

  /** A row of `profiles` (`user_id, display_name`). */
  datatype Profile = Profile(userId: string, displayName: Option<string>)

  datatype UserWithRole = UserWithRole(id: string, userId: string, role: string, displayName: string, createdAt: string)

  const DEFAULT_NAME := "کاربر"

  /** `profiles.find(p => p.user_id === userId)`: the first matching profile. */
  function FindProfile(profiles: seq<Profile>, userId: string): (r: Option<Profile>)
    ensures r.Some? ==> r.value in profiles && r.value.userId == userId
    ensures r.None? ==> forall p :: p in profiles ==> p.userId != userId
  {
    if |profiles| == 0 then None
    else if profiles[0].userId == userId then Some(profiles[0])
    else FindProfile(profiles[1..], userId)
  }

  /** `profiles?.find(...)?.display_name || "کاربر"`. */
  function DisplayName(profiles: seq<Profile>, userId: string): (r: string)
    ensures r != ""
    ensures (forall p :: p in profiles ==> p.userId != userId) ==> r == DEFAULT_NAME
  {
    var p := FindProfile(profiles, userId);
    if p.Some? && p.value.displayName.Some? && p.value.displayName.value != "" then p.value.displayName.value
    else DEFAULT_NAME
  }

  /** The first profile of a user decides the name, whatever later profiles say. */
  lemma FirstProfileNames(before: seq<Profile>, p: Profile, after: seq<Profile>)
    requires forall q :: q in before ==> q.userId != p.userId
    requires p.displayName.Some? && p.displayName.value != ""
    ensures DisplayName(before + [p] + after, p.userId) == p.displayName.value
  {
    FirstProfile(before, p, after);
  }

  lemma {:induction false} FirstProfile(before: seq<Profile>, p: Profile, after: seq<Profile>)
    requires forall q :: q in before ==> q.userId != p.userId
    ensures FindProfile(before + [p] + after, p.userId) == Some(p)
  {
    if |before| > 0 {
      assert (before + [p] + after)[1..] == before[1..] + [p] + after;
      FirstProfile(before[1..], p, after);
    }
  }

  /** `usersWithDetails`: each role row, in order, with its display name. */
  function WithDetails(rows: seq<RoleRow>, profiles: seq<Profile>): (r: seq<UserWithRole>)
    ensures |r| == |rows|
    ensures forall i :: 0 <= i < |rows| ==>
      r[i] == UserWithRole(rows[i].id, rows[i].userId, rows[i].role, DisplayName(profiles, rows[i].userId), rows[i].createdAt)
  {
    seq(|rows|, i requires 0 <= i < |rows| =>
      UserWithRole(rows[i].id, rows[i].userId, rows[i].role, DisplayName(profiles, rows[i].userId), rows[i].createdAt))
  }

  /** The remove button is drawn for every row but the signed-in user's own. */
  predicate RemoveShown(u: UserWithRole, currentUser: Option<string>)
  {
    currentUser != Some(u.userId)
  }

  /** How the `get_user_id_by_email` call ended: a reply without an error (its id,
      null when the address is unknown), an error reply, or an exception. */
  datatype LookupReply = UserId(id: Option<string>) | LookupError | LookupThrew

  /** A lookup that names a user: no error and a non-empty id. */
  predicate FoundUser(lookup: LookupReply)
  {
    lookup.UserId? && lookup.id.Some? && lookup.id.value != ""
  }

  /** How the insert of a new role row ended. `Duplicate` is the error code `23505`. */
  datatype InsertReply = Inserted | Duplicate | InsertError

  /** The toast the last action showed. */
  datatype Notice =
    | NoNotice
    | EmailMissing
    | UserNotFound
    | AlreadyHasRole
    | RoleAdded(role: string)
    | AddFailed
    | SelfRemoval
    | RoleRemoved
    | RemoveFailed
    | FetchFailed

  class RoleManager {
    var users: seq<UserWithRole>
    var loading: bool
    var newEmail: string
    var newRole: string
    var adding: bool
    var notice: Notice

    constructor ()
      ensures users == [] && loading && newEmail == "" && newRole == "moderator" && !adding && notice == NoNotice
    {
      users := [];
      loading := true;
      newEmail := "";
      newRole := "moderator";
      adding := false;
      notice := NoNotice;
    }

    /** The e-mail box and the role select. */
    method SetInput(email: string, role: string)
      modifies this
      ensures newEmail == email && newRole == role
      ensures users == old(users) && loading == old(loading) && adding == old(adding) && notice == old(notice)
    {
      newEmail := email;
      newRole := role;
    }

    /** `fetchUsers`: `rows` is the role query (`None` an error), `profiles` the profile
        query, whose failure only costs the names. */
    method FetchUsers(rows: Option<seq<RoleRow>>, profiles: Option<seq<Profile>>)
      modifies this
      ensures rows.None? ==> users == old(users) && notice == FetchFailed
      ensures rows.Some? ==> users == WithDetails(rows.value, profiles.GetOr([])) && notice == old(notice)
      ensures !loading && newEmail == old(newEmail) && newRole == old(newRole) && adding == old(adding)
    {
      if rows.None? {
        notice := FetchFailed;
      } else {
        users := WithDetails(rows.value, profiles.GetOr([]));
      }
      loading := false;
    }

    /** `addUserRole`. A blank address is refused before any lookup. Otherwise the
        trimmed address is looked up; an error reply or an unknown address is refused
        before any insert, and an exception is reported as a failure to add the role; a
        duplicate gets its own message; only a
        stored row clears the box and reloads the list (from `rows` and `profiles`).
        `lookedUp` and `insertedRow` are what went to the database. */
    method AddUserRole(lookup: LookupReply, insert: InsertReply,
                       rows: Option<seq<RoleRow>>, profiles: Option<seq<Profile>>)
      returns (lookedUp: Option<string>, insertedRow: Option<(string, string)>)
      modifies this
      ensures Trim(old(newEmail)) == "" ==>
        lookedUp.None? && insertedRow.None? && notice == EmailMissing && users == old(users) && newEmail == old(newEmail)
      ensures Trim(old(newEmail)) != "" ==> lookedUp == Some(Trim(old(newEmail)))
      ensures Trim(old(newEmail)) != "" && lookup == LookupThrew ==>
        insertedRow.None? && notice == AddFailed && users == old(users) && newEmail == old(newEmail)
      ensures Trim(old(newEmail)) != "" && lookup != LookupThrew && !FoundUser(lookup) ==>
        insertedRow.None? && notice == UserNotFound && users == old(users) && newEmail == old(newEmail)
      ensures Trim(old(newEmail)) != "" && FoundUser(lookup) ==>
        && insertedRow == Some((lookup.id.value, old(newRole)))
        && (insert == Duplicate ==> notice == AlreadyHasRole && users == old(users) && newEmail == old(newEmail))
        && (insert == InsertError ==> notice == AddFailed && users == old(users) && newEmail == old(newEmail))
        && (insert == Inserted && rows.Some? ==>
              notice == RoleAdded(old(newRole)) && newEmail == "" && users == WithDetails(rows.value, profiles.GetOr([])))
        && (insert == Inserted && rows.None? ==> notice == FetchFailed && newEmail == "" && users == old(users))
      ensures Trim(old(newEmail)) == "" ==> adding == old(adding)
      ensures Trim(old(newEmail)) != "" ==> !adding
      ensures newRole == old(newRole)
      ensures Trim(old(newEmail)) != "" && FoundUser(lookup) && insert == Inserted ==> !loading
      ensures !(Trim(old(newEmail)) != "" && FoundUser(lookup) && insert == Inserted) ==> loading == old(loading)
    {
      lookedUp := None;
      insertedRow := None;
      var email := Trim(newEmail);
      if email == "" {
        notice := EmailMissing;
        return;
      }
      adding := true;
      lookedUp := Some(email);
      if lookup == LookupThrew {
        notice := AddFailed;
        adding := false;
        return;
      }
      if !FoundUser(lookup) {
        notice := UserNotFound;
        adding := false;
        return;
      }
      insertedRow := Some((lookup.id.value, newRole));
      match insert {
        case Duplicate =>
          notice := AlreadyHasRole;
        case InsertError =>
          notice := AddFailed;
        case Inserted =>
          notice := RoleAdded(newRole);
          newEmail := "";
          FetchUsers(rows, profiles);
      }
      adding := false;
    }

    /** `removeUserRole(roleId, userId)`: one's own role is refused before any delete;
        otherwise the row is deleted (`deleteOk`) and the list reloaded. `deleted` is
        the role id sent to the delete. */
    method RemoveUserRole(roleId: string, userId: string, currentUser: Option<string>, deleteOk: bool,
                          rows: Option<seq<RoleRow>>, profiles: Option<seq<Profile>>)
      returns (deleted: Option<string>)
      modifies this
      ensures currentUser == Some(userId) ==> deleted.None? && notice == SelfRemoval && users == old(users)
      ensures currentUser != Some(userId) ==> deleted == Some(roleId)
      ensures currentUser != Some(userId) && !deleteOk ==> notice == RemoveFailed && users == old(users)
      ensures currentUser != Some(userId) && deleteOk && rows.Some? ==>
        notice == RoleRemoved && users == WithDetails(rows.value, profiles.GetOr([]))
      ensures currentUser != Some(userId) && deleteOk && rows.None? ==> notice == FetchFailed && users == old(users)
      ensures newEmail == old(newEmail) && newRole == old(newRole) && adding == old(adding)
      ensures currentUser != Some(userId) && deleteOk ==> !loading
      ensures !(currentUser != Some(userId) && deleteOk) ==> loading == old(loading)
    {
      if currentUser == Some(userId) {
        notice := SelfRemoval;
        deleted := None;
        return;
      }
      deleted := Some(roleId);
      if !deleteOk {
        notice := RemoveFailed;
        return;
      }
      notice := RoleRemoved;
      FetchUsers(rows, profiles);
    }
  }
}
