/**
 * The role management page (`/admin/role-management`), reserved to super
 * admins: the access check on load, the create-user form, the role change
 * and deletion guards, and the role badges and counters. Each handler is one
 * step: the answer of its `fetch` (or of `confirm`) is a parameter, and the
 * requests, toasts and navigations it causes are recorded in order.
 */
module RoleManagement {
  import opened Common
  import opened Text
  import opened Sequences

  /** The signed-in account, as `/api/admin/auth/me` returns it. */
  datatype Profile = Profile(id: string, email: string, name: Option<string>, role: string)

  /** A row of the user table. */
  datatype UserRow = UserRow(
    id: string, email: string, name: Option<string>, role: string, createdAt: int, magazineCount: nat)

  /** The fields of the create-user dialog. */
  datatype UserForm = UserForm(email: string, name: string, password: string, role: string)

  /** The dialog's initial and reset contents. */
  const EmptyForm := UserForm("", "", "", "ADMIN")

  /** The outcome of a `fetch`: an OK response, a refused one with its JSON `error` field, or an exception. */
  datatype Reply = Ok | Refused(error: Option<string>) | Thrown

  /** The outcome of the call to `/api/admin/auth/me`. */
  datatype MeReply = Me(profile: Profile) | MeRefused | MeThrown

  /** A request sent to the users API. */
  datatype Request = CreateUser(form: UserForm) | UpdateRole(userId: string, role: string) | DeleteUser(userId: string) | ListUsers

  /** A toast shown to the user. */
  datatype Toast = Success(text: string) | Failure(text: string)

  /** The toast after a refused or failed request: the server's error when it gave one, else `fallback`. */
  function FailureToast(reply: Reply, fallback: string): (t: Toast)
    requires !reply.Ok?
    ensures t.Failure?
    ensures reply.Refused? && TruthyOpt(reply.error) ==> t.text == reply.error.value
    ensures reply.Thrown? || !TruthyOpt(reply.error) ==> t.text == fallback
  {
    if reply.Refused? then Failure(OptOrElse(reply.error, fallback)) else Failure(fallback)
  }

  /** The create-user guard: the trimmed email or the trimmed password is empty. */
  function MissingCredentials(f: UserForm): (missing: bool)
    ensures missing <==> IsBlank(f.email) || IsBlank(f.password)
  {
    TrimEmptyIffBlank(f.email);
    TrimEmptyIffBlank(f.password);
    !Truthy(Trim(f.email)) || !Truthy(Trim(f.password))
  }

  /** The badge variant of a role. */
  function RoleBadgeVariant(role: string): (v: string)
    ensures role == "SUPER_ADMIN" <==> v == "default"
    ensures role == "ADMIN" <==> v == "secondary"
    ensures role != "SUPER_ADMIN" && role != "ADMIN" <==> v == "outline"
  {
    match role
    case "SUPER_ADMIN" => "default"
    case "ADMIN" => "secondary"
    case _ => "outline"
  }

  /** The icon of a role: a shield for super admins, a person for everyone else. */
  datatype Icon = Shield | Person

  function RoleIcon(role: string): (i: Icon)
    ensures i == Shield <==> role == "SUPER_ADMIN"
  {
    if role == "SUPER_ADMIN" then Shield else Person
  }

  /** The badge text: "Super Admin" for super admins, "Admin" for every other role. */
  function RoleLabel(role: string): (s: string)
    ensures role == "SUPER_ADMIN" <==> s == "Super Admin"
    ensures role != "SUPER_ADMIN" <==> s == "Admin"
  {
    if role == "SUPER_ADMIN" then "Super Admin" else "Admin"
  }

  /** The filter of the counters: users with this role. */
  function HasRole(role: string): UserRow -> bool {
    (u: UserRow) => u.role == role
  }

  /** A role counter: "Super Admin" counts SUPER_ADMIN, "Admin" counts ADMIN. */
  function RoleCount(users: seq<UserRow>, role: string): (n: nat)
    ensures n <= |users|
    ensures n == 0 <==> forall i :: 0 <= i < |users| ==> users[i].role != role
    ensures n == |users| <==> forall i :: 0 <= i < |users| ==> users[i].role == role
  {
    CountExtremes(users, HasRole(role));
    Count(users, HasRole(role))
  }

  /** No user has two roles, so the counters of two roles never exceed the number of users. */
  lemma RoleCountersWithinTotal(users: seq<UserRow>, role: string, role': string)
    requires role != role'
    ensures RoleCount(users, role) + RoleCount(users, role') <= |users|
  {
    DisjointCounts(users, HasRole(role), HasRole(role'));
  }

  /** The role select and the delete button of a row are disabled on the signed-in user's own row. */
  predicate RowActionsDisabled(rowId: string, currentUserId: string) {
    rowId == currentUserId
  }

  /**
   * With distinct user ids, the signed-in user's row is the one and only row
   * of the table whose controls are disabled; a user missing from the table
   * disables no row.
   */
  lemma OnlyOwnRowDisabled(users: seq<UserRow>, currentUserId: string)
    requires forall i, j :: 0 <= i < j < |users| ==> users[i].id != users[j].id
    ensures (exists i :: 0 <= i < |users| && RowActionsDisabled(users[i].id, currentUserId)) <==>
      exists u :: u in users && u.id == currentUserId
    ensures forall i, j ::
      0 <= i < |users| && 0 <= j < |users| &&
      RowActionsDisabled(users[i].id, currentUserId) && RowActionsDisabled(users[j].id, currentUserId)
      ==> i == j
  {
  }

  class RoleManagementPage {
    /** The signed-in super admin, once the access check has accepted them. */
    var currentUser: Option<Profile>
    var users: seq<UserRow>
    var form: UserForm
    var dialogOpen: bool
    /** Requests sent to the users API, oldest first. */
    var requests: seq<Request>
    var toasts: seq<Toast>
    /** Paths passed to `router.push`, oldest first. */
    var navigations: seq<string>

    constructor ()
      ensures currentUser == None && users == [] && form == EmptyForm && !dialogOpen
      ensures requests == [] && toasts == [] && navigations == []
    {
      currentUser, users, form, dialogOpen := None, [], EmptyForm, false;
      requests, toasts, navigations := [], [], [];
    }

    /**
     * `checkAuth`: a signed-in super admin stays on the page; any other
     * signed-in account is sent to the dashboard with an error toast; a
     * refused or failed check is sent to the login page.
     */
    method CheckAuth(reply: MeReply)
      modifies this`currentUser, this`toasts, this`navigations
      ensures reply.Me? && reply.profile.role == "SUPER_ADMIN" ==>
        currentUser == Some(reply.profile) && toasts == old(toasts) && navigations == old(navigations)
      ensures reply.Me? && reply.profile.role != "SUPER_ADMIN" ==>
        && currentUser == old(currentUser)
        && toasts == old(toasts) + [Failure("Bạn không có quyền truy cập trang này")]
        && navigations == old(navigations) + ["/admin/home"]
      ensures !reply.Me? ==>
        currentUser == old(currentUser) && toasts == old(toasts) && navigations == old(navigations) + ["/admin/login"]
    {
      match reply {
        case Me(profile) =>
          if profile.role != "SUPER_ADMIN" {
            toasts := toasts + [Failure("Bạn không có quyền truy cập trang này")];
            navigations := navigations + ["/admin/home"];
            return;
          }
          currentUser := Some(profile);
        case MeRefused =>
          navigations := navigations + ["/admin/login"];
        case MeThrown =>
          navigations := navigations + ["/admin/login"];
      }
    }

    /** The users list arrived: an OK reply replaces the table, anything else keeps it. */
    method UsersLoaded(reply: Reply, rows: seq<UserRow>)
      modifies this`users, this`toasts
      ensures users == if reply.Ok? then rows else old(users)
      ensures toasts == old(toasts) + (if reply.Thrown? then [Failure("Không thể tải danh sách người dùng")] else [])
    {
      if reply.Ok? {
        users := rows;
      } else if reply.Thrown? {
        toasts := toasts + [Failure("Không thể tải danh sách người dùng")];
      }
    }

    /**
     * `handleCreateUser`: a blank email or password is refused before any
     * request; otherwise the form is posted, and on success the dialog closes,
     * the form is reset and the list is fetched again.
     */
    method HandleCreateUser(reply: Reply)
      modifies this`form, this`dialogOpen, this`requests, this`toasts
      ensures MissingCredentials(old(form)) ==>
        && requests == old(requests) && form == old(form) && dialogOpen == old(dialogOpen)
        && toasts == old(toasts) + [Failure("Vui lòng nhập đầy đủ thông tin")]
      ensures !MissingCredentials(old(form)) && reply.Ok? ==>
        && requests == old(requests) + [CreateUser(old(form)), ListUsers]
        && form == EmptyForm && !dialogOpen
        && toasts == old(toasts) + [Success("Tạo người dùng thành công")]
      ensures !MissingCredentials(old(form)) && !reply.Ok? ==>
        && requests == old(requests) + [CreateUser(old(form))]
        && form == old(form) && dialogOpen == old(dialogOpen)
        && toasts == old(toasts) + [FailureToast(reply, "Có lỗi xảy ra khi tạo người dùng")]
    {
      if MissingCredentials(form) {
        toasts := toasts + [Failure("Vui lòng nhập đầy đủ thông tin")];
        return;
      }
      requests := requests + [CreateUser(form)];
      if reply.Ok? {
        toasts := toasts + [Success("Tạo người dùng thành công")];
        dialogOpen := false;
        form := EmptyForm;
        requests := requests + [ListUsers];
        assert requests == old(requests) + [CreateUser(old(form)), ListUsers];
      } else {
        toasts := toasts + [FailureToast(reply, "Có lỗi xảy ra khi tạo người dùng")];
      }
    }

    /** `handleUpdateRole`: one's own role cannot be changed; any other change is sent, and on success the list is fetched again. */
    method HandleUpdateRole(userId: string, newRole: string, reply: Reply)
      requires currentUser.Some?
      modifies this`requests, this`toasts
      ensures RowActionsDisabled(userId, currentUser.value.id) ==>
        requests == old(requests) && toasts == old(toasts) + [Failure("Bạn không thể thay đổi role của chính mình")]
      ensures !RowActionsDisabled(userId, currentUser.value.id) ==>
        && requests == old(requests) + [UpdateRole(userId, newRole)] + (if reply.Ok? then [ListUsers] else [])
        && toasts == old(toasts) +
             [if reply.Ok? then Success("Cập nhật role thành công") else FailureToast(reply, "Có lỗi xảy ra khi cập nhật role")]
    {
      if userId == currentUser.value.id {
        toasts := toasts + [Failure("Bạn không thể thay đổi role của chính mình")];
        return;
      }
      requests := requests + [UpdateRole(userId, newRole)];
      if reply.Ok? {
        toasts := toasts + [Success("Cập nhật role thành công")];
        requests := requests + [ListUsers];
      } else {
        toasts := toasts + [FailureToast(reply, "Có lỗi xảy ra khi cập nhật role")];
      }
    }

    /**
     * `handleDeleteUser`: one's own account cannot be deleted; any other
     * deletion is sent only after the user confirms it.
     */
    method HandleDeleteUser(userId: string, confirmed: bool, reply: Reply)
      requires currentUser.Some?
      modifies this`requests, this`toasts
      ensures RowActionsDisabled(userId, currentUser.value.id) ==>
        requests == old(requests) && toasts == old(toasts) + [Failure("Bạn không thể xóa tài khoản của chính mình")]
      ensures !RowActionsDisabled(userId, currentUser.value.id) && !confirmed ==>
        requests == old(requests) && toasts == old(toasts)
      ensures !RowActionsDisabled(userId, currentUser.value.id) && confirmed ==>
        && requests == old(requests) + [DeleteUser(userId)] + (if reply.Ok? then [ListUsers] else [])
        && toasts == old(toasts) +
             [if reply.Ok? then Success("Xóa người dùng thành công") else FailureToast(reply, "Có lỗi xảy ra khi xóa người dùng")]
    {
      if userId == currentUser.value.id {
        toasts := toasts + [Failure("Bạn không thể xóa tài khoản của chính mình")];
        return;
      }
      if !confirmed {
        return;
      }
      requests := requests + [DeleteUser(userId)];
      if reply.Ok? {
        toasts := toasts + [Success("Xóa người dùng thành công")];
        requests := requests + [ListUsers];
      } else {
        toasts := toasts + [FailureToast(reply, "Có lỗi xảy ra khi xóa người dùng")];
      }
    }
  }
}
