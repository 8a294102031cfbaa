/**
 * The user-management dashboard: search over the cached user list, fixed-size
 * pages, the local list updates after delete, create and update, and the
 * validation of the password and user forms.
 */
module Dashboard {
  import opened Wrappers
  import opened Text
  import opened Lists
  import opened Api
  import opened Accounts

  const UsersPerPage: nat := 8

  const LoadFailed: String := "Ошибка загрузки"
  const PasswordTooShort: String := "Пароль должен содержать не менее 8 символов"
  const PasswordsDiffer: String := "Пароли не совпадают"
  const PasswordUpdated: String := "Пароль успешно обновлен!"
  const PasswordUpdateFailed: String := "Ошибка при обновлении пароля"
  const UsernameRequired: String := "Логин обязателен"
  const FullNameRequired: String := "Полное имя обязательно"
  const PasswordRequired: String := "Пароль обязателен"
  const UserCreated: String := "Пользователь успешно создан!"
  const CreateFailed: String := "Ошибка создания пользователя"
  const UserUpdated: String := "Данные пользователя обновлены!"
  const UpdateFailed: String := "Ошибка обновления пользователя"

  // ---------------------------------------------------------------- search

  /** Case-insensitive match of the search term against login, full name (when set) and role. */
  predicate MatchesSearch(u: User, term: String): (b: bool)
    ensures term == [] ==> b
    ensures b ==> |term| <= |u.username| || (u.fullName.Some? && |term| <= |u.fullName.value|) || |term| <= |u.role|
  {
    var t := Lower(term);
    || Includes(Lower(u.username), t)
    || (u.fullName.Some? && Includes(Lower(u.fullName.value), t))
    || Includes(Lower(u.role), t)
  }

  /** `filteredUsers`: the users matching the search term, in list order. */
  function FilteredUsers(users: seq<User>, term: String): (r: seq<User>)
    ensures |r| <= |users|
    ensures forall i :: 0 <= i < |r| ==> MatchesSearch(r[i], term) && r[i] in users
  {
    Filter(users, u => MatchesSearch(u, term))
  }

  /** A user is listed exactly when the lowered term occurs in one of its lowered fields. */
  lemma FilteredUsersMembership(users: seq<User>, term: String, u: User)
    ensures u in FilteredUsers(users, term) <==>
      (&& u in users
       && (|| (exists i :: OccursAt(Lower(u.username), Lower(term), i))
           || (u.fullName.Some? && exists i :: OccursAt(Lower(u.fullName.value), Lower(term), i))
           || (exists i :: OccursAt(Lower(u.role), Lower(term), i))))
  {
    FilterMembership(users, u => MatchesSearch(u, term), u);
    IncludesIff(Lower(u.username), Lower(term));
    if u.fullName.Some? {
      IncludesIff(Lower(u.fullName.value), Lower(term));
    }
    IncludesIff(Lower(u.role), Lower(term));
  }

  /** An empty search box lists every user. */
  lemma EmptySearchKeepsAll(users: seq<User>)
    ensures FilteredUsers(users, []) == users
  {
    assert forall i :: 0 <= i < |users| ==> MatchesSearch(users[i], []);
    FilterKeepsAll(users, u => MatchesSearch(u, []));
  }

  /** The search ignores the case of the term. */
  lemma SearchIgnoresCase(users: seq<User>, term: String)
    ensures FilteredUsers(users, Lower(term)) == FilteredUsers(users, term)
  {
    LowerIdempotent(term);
    FilterAgree(users, u => MatchesSearch(u, Lower(term)), u => MatchesSearch(u, term));
  }

  /** The search keeps the relative order of the list. */
  lemma SearchKeepsOrder(front: seq<User>, back: seq<User>, term: String)
    ensures FilteredUsers(front + back, term) == FilteredUsers(front, term) + FilteredUsers(back, term)
  {
    FilterConcat(front, back, u => MatchesSearch(u, term));
  }

  // ------------------------------------------------------------ pagination

  /** `Math.ceil(n / usersPerPage)`. */
  function TotalPages(n: nat): (pages: nat)
    ensures pages * UsersPerPage >= n
    ensures pages > 0 ==> (pages - 1) * UsersPerPage < n
  {
    (n + UsersPerPage - 1) / UsersPerPage
  }

  /** `filteredUsers.slice((page - 1) * 8, page * 8)`. */
  function PageSlice(filtered: seq<User>, page: nat): (r: seq<User>)
    requires page >= 1
    ensures |r| <= UsersPerPage
    ensures r == [] <==> (page - 1) * UsersPerPage >= |filtered|
    ensures r != [] ==>
      |r| == (if page * UsersPerPage < |filtered| then page * UsersPerPage else |filtered|) - (page - 1) * UsersPerPage
    ensures forall j :: 0 <= j < |r| ==>
      (page - 1) * UsersPerPage + j < |filtered| && r[j] == filtered[(page - 1) * UsersPerPage + j]
  {
    var first := (page - 1) * UsersPerPage;
    var last := page * UsersPerPage;
    if first >= |filtered| then [] else filtered[first..if last < |filtered| then last else |filtered|]
  }

  /** Every listed user lies on exactly one page between 1 and the page count, at its offset there. */
  lemma PageOfUser(filtered: seq<User>, i: nat)
    requires i < |filtered|
    ensures 1 <= i / UsersPerPage + 1 <= TotalPages(|filtered|)
    ensures |PageSlice(filtered, i / UsersPerPage + 1)| > i % UsersPerPage
    ensures PageSlice(filtered, i / UsersPerPage + 1)[i % UsersPerPage] == filtered[i]
    ensures forall page :: 1 <= page <= TotalPages(|filtered|) ==>
      ((page - 1) * UsersPerPage <= i < page * UsersPerPage <==> page == i / UsersPerPage + 1)
  {
    var p := i / UsersPerPage + 1;
    assert (p - 1) * UsersPerPage + i % UsersPerPage == i;
    var r := PageSlice(filtered, p);
    assert r != [];
    assert |r| == (if p * UsersPerPage < |filtered| then p * UsersPerPage else |filtered|) - (p - 1) * UsersPerPage;
  }

  /** The page links are shown only when the list does not fit on one page. */
  predicate ShowsPager(n: nat) {
    n > UsersPerPage
  }

  lemma ShowsPagerIff(n: nat)
    ensures ShowsPager(n) <==> TotalPages(n) >= 2
  {
  }

  /** "Показано a-b": the 1-based first index of the page and the last one shown. */
  function ShownRange(page: nat, n: nat): (r: (int, int))
    requires page >= 1
    ensures r.1 - r.0 + 1 <= UsersPerPage
    ensures (page - 1) * UsersPerPage < n ==> 1 <= r.0 <= r.1 <= n
  {
    var last := page * UsersPerPage;
    ((page - 1) * UsersPerPage + 1, if last < n then last else n)
  }

  /** On a non-empty page the range shown names exactly the users of that page. */
  lemma ShownRangeMatchesPage(filtered: seq<User>, page: nat)
    requires page >= 1
    requires PageSlice(filtered, page) != []
    ensures var (from, to) := ShownRange(page, |filtered|);
      1 <= from <= to <= |filtered| && to - from + 1 == |PageSlice(filtered, page)|
      && PageSlice(filtered, page)[0] == filtered[from - 1]
      && PageSlice(filtered, page)[to - from] == filtered[to - 1]
  {
    var r := PageSlice(filtered, page);
    var last := page * UsersPerPage;
    assert |r| == (if last < |filtered| then last else |filtered|) - (page - 1) * UsersPerPage;
  }

  /**
   * The search box keeps the current page: after narrowing the list to one
   * page while on page 2 or later, the table is empty and no page links are shown.
   */
  lemma StalePageAfterSearch(filtered: seq<User>, page: nat)
    requires page >= 2 && |filtered| <= UsersPerPage
    ensures PageSlice(filtered, page) == [] && !ShowsPager(|filtered|)
  {
  }

  // ---------------------------------------------------------- list updates

  /** `users.filter(user => user.uid !== uid)` after a delete. */
  function RemoveUser(users: seq<User>, uid: String): (r: seq<User>)
    ensures forall i :: 0 <= i < |r| ==> r[i].uid != uid
  {
    Filter(users, (u: User) => u.uid != uid)
  }

  /** Deleting keeps every other user with its multiplicity and in the same order. */
  lemma RemoveUserKeepsOthers(front: seq<User>, back: seq<User>, uid: String, u: User)
    requires u.uid != uid
    ensures multiset(RemoveUser(front + back, uid))[u] == multiset(front + back)[u]
    ensures RemoveUser(front + back, uid) == RemoveUser(front, uid) + RemoveUser(back, uid)
  {
    FilterCount(front + back, (v: User) => v.uid != uid, u);
    FilterConcat(front, back, (v: User) => v.uid != uid);
  }

  /** `users.map(user => user.uid === uid ? { ...user, ...patch } : user)` after an update. */
  function MergeUser(users: seq<User>, uid: String, patch: UserPatch): (r: seq<User>)
    ensures |r| == |users|
    ensures forall i :: 0 <= i < |users| && users[i].uid != uid ==> r[i] == users[i]
    ensures forall i :: 0 <= i < |users| && users[i].uid == uid ==> r[i] == Patch(users[i], patch)
  {
    if users == [] then []
    else [if users[0].uid == uid then Patch(users[0], patch) else users[0]] + MergeUser(users[1..], uid, patch)
  }

  /** Applying the same update response twice gives the list it gave once. */
  lemma MergeUserIdempotent(users: seq<User>, uid: String, patch: UserPatch)
    ensures MergeUser(MergeUser(users, uid, patch), uid, patch) == MergeUser(users, uid, patch)
  {
    var once := MergeUser(users, uid, patch);
    var twice := MergeUser(once, uid, patch);
    forall i | 0 <= i < |users| ensures twice[i] == once[i] {
      PatchIdempotent(users[i], patch);
    }
  }

  /** Updating a user without changing its uid and then deleting it is the same as deleting it. */
  lemma {:induction false} RemoveAfterMerge(users: seq<User>, uid: String, patch: UserPatch)
    requires patch.uid.None? || patch.uid == Some(uid)
    ensures RemoveUser(MergeUser(users, uid, patch), uid) == RemoveUser(users, uid)
  {
    if users != [] {
      RemoveAfterMerge(users[1..], uid, patch);
      assert MergeUser(users, uid, patch)[1..] == MergeUser(users[1..], uid, patch);
    }
  }

  // ------------------------------------------------------------- role label

  /** `translateRole`: the label of a known role, the role itself otherwise. */
  function RoleLabel(role: String): (shown: String)
    ensures role == "admin" ==> shown == "Администратор"
    ensures role == "user" ==> shown == "Пользователь"
    ensures role == "guest" ==> shown == "Гость"
    ensures role == "work" ==> shown == "Рабочий"
    ensures shown != role <==> role in ["admin", "user", "guest", "work"]
  {
    if role == "admin" then "Администратор"
    else if role == "user" then "Пользователь"
    else if role == "guest" then "Гость"
    else if role == "work" then "Рабочий"
    else role
  }

  // ------------------------------------------------------------------ forms

  /** The keys of the `formErrors` object. */
  datatype FormField = UsernameKey | FullNameKey | PasswordKey | GeneralKey

  /** The inputs of the create/edit form, by their `name` attribute. */
  datatype FormInput = UsernameInput | FullNameInput | PasswordInput | RoleInput

  /**
   * `userForm`. The full name is null after opening the edit form on a user
   * whose `full_name` is null, until the field is typed into.
   */
  datatype UserForm = UserForm(username: String, fullName: Option<String>, password: String, role: String)

  /** The form the create dialog opens with. */
  const EmptyForm := UserForm([], Some([]), [], "user")

  /** The form the edit dialog opens with for user `u`. */
  function EditForm(u: User): (f: UserForm)
    ensures f.username == u.username && f.fullName == u.fullName && f.role == u.role && f.password == []
    ensures !Rejects(f, false, PasswordKey)
    ensures Rejects(f, false, FullNameKey) <==> u.fullName.None? || IsBlank(u.fullName.value)
  {
    UserForm(u.username, u.fullName, [], u.role)
  }

  /** The field is rejected; a null full name is rejected like a blank one. */
  predicate Rejects(form: UserForm, creating: bool, field: FormField) {
    match field
    case UsernameKey => IsBlank(form.username)
    case FullNameKey => form.fullName.None? || IsBlank(form.fullName.value)
    case PasswordKey => creating && form.password == []
    case GeneralKey => false
  }

  function RequiredMessage(field: FormField): String {
    match field
    case UsernameKey => UsernameRequired
    case FullNameKey => FullNameRequired
    case PasswordKey => PasswordRequired
    case GeneralKey => []
  }

  /** The errors object the form validation should produce: one entry per rejected field, with that field's message. */
  function FormErrors(form: UserForm, creating: bool): (errors: map<FormField, String>)
    ensures forall field :: field in errors <==> Rejects(form, creating, field)
    ensures forall field :: field in errors ==> errors[field] == RequiredMessage(field)
  {
    (if Rejects(form, creating, UsernameKey) then map[UsernameKey := UsernameRequired] else map[])
    + (if Rejects(form, creating, FullNameKey) then map[FullNameKey := FullNameRequired] else map[])
    + (if Rejects(form, creating, PasswordKey) then map[PasswordKey := PasswordRequired] else map[])
  }

  /** The form is accepted exactly when the login and full name are not blank and, when creating, a password is set. */
  lemma FormErrorsEmptyIff(form: UserForm, creating: bool)
    ensures FormErrors(form, creating) == map[] <==>
      !IsBlank(form.username) && form.fullName.Some? && !IsBlank(form.fullName.value)
      && (creating ==> form.password != [])
  {
    var errors := FormErrors(form, creating);
    if IsBlank(form.username) {
      assert UsernameKey in errors;
    }
    if form.fullName.None? || IsBlank(form.fullName.value) {
      assert FullNameKey in errors;
    }
    if creating && form.password == [] {
      assert PasswordKey in errors;
    }
  }

  /**
   * `validateForm` as written: `full_name.trim()` throws a TypeError when the
   * full name is null (`None` here); otherwise the errors object.
   */
  function ValidateFormAsWritten(form: UserForm, creating: bool): (r: Option<map<FormField, String>>)
    ensures r.None? <==> form.fullName.None?
    ensures r.Some? ==> forall field :: field in r.value <==> Rejects(form, creating, field)
  {
    if form.fullName.None? then None
    else Some(FormErrors(form, creating))
  }

  /** Saving the edit form of a user whose full name is null throws instead of reporting the field. */
  lemma EditingNamelessUserThrows(u: User)
    requires u.fullName.None?
    ensures ValidateFormAsWritten(EditForm(u), false).None?
    ensures FullNameKey in FormErrors(EditForm(u), false)
  {
  }

  /**
   * `validateForm`, building the errors object key by key; a null full name is
   * reported as missing. Where the code as written does not throw, both agree.
   */
  method ValidateForm(form: UserForm, creating: bool) returns (errors: map<FormField, String>)
    ensures errors == FormErrors(form, creating)
    ensures form.fullName.Some? ==> ValidateFormAsWritten(form, creating) == Some(errors)
  {
    errors := map[];
    if IsBlank(form.username) {
      errors := errors[UsernameKey := UsernameRequired];
    }
    if form.fullName.None? || IsBlank(form.fullName.value) {
      errors := errors[FullNameKey := FullNameRequired];
    }
    if creating && form.password == [] {
      errors := errors[PasswordKey := PasswordRequired];
    }
  }

  /** The password-change checks: the length first, then the confirmation. */
  function PasswordProblem(newPassword: String, confirmPassword: String): (r: Option<String>)
    ensures r.None? <==> |newPassword| >= 8 && newPassword == confirmPassword
    ensures |newPassword| < 8 ==> r == Some(PasswordTooShort)
    ensures |newPassword| >= 8 && newPassword != confirmPassword ==> r == Some(PasswordsDiffer)
  {
    if |newPassword| < 8 then Some(PasswordTooShort)
    else if newPassword != confirmPassword then Some(PasswordsDiffer)
    else None
  }

  // ------------------------------------------------------------ the component

  /** The dashboard component's state and its event handlers. */
  class UserAdmin {
    var users: seq<User>
    var loading: bool
    var error: String
    var searchTerm: String
    var currentPage: nat

    var passwordModalOpen: bool
    var createModalOpen: bool
    var editModalOpen: bool

    var selectedUser: Option<User>
    var newPassword: String
    var confirmPassword: String
    var passwordError: String
    var passwordSuccess: String

    var form: UserForm
    var formErrors: map<FormField, String>
    var formSuccess: String

    ghost predicate Valid()
      reads this
    {
      currentPage >= 1
    }

    constructor ()
      ensures Valid()
      ensures users == [] && loading && error == [] && searchTerm == [] && currentPage == 1
      ensures !passwordModalOpen && !createModalOpen && !editModalOpen && selectedUser.None?
      ensures newPassword == [] && confirmPassword == [] && passwordError == [] && passwordSuccess == []
      ensures form == EmptyForm && formErrors == map[] && formSuccess == []
    {
      users, loading, error, searchTerm, currentPage := [], true, [], [], 1;
      passwordModalOpen, createModalOpen, editModalOpen := false, false, false;
      selectedUser, newPassword, confirmPassword, passwordError, passwordSuccess := None, [], [], [], [];
      form, formErrors, formSuccess := EmptyForm, map[], [];
    }

    /** The users listed on the current page. */
    function CurrentUsers(): seq<User>
      reads this
      requires Valid()
    {
      PageSlice(FilteredUsers(users, searchTerm), currentPage)
    }

    /** `fetchUsers` on mount: the list, or the server's message, then loading ends. */
    method FetchUsers(reply: ApiResult<seq<User>>)
      requires Valid()
      modifies this`users, this`error, this`loading
      ensures Valid()
      ensures users == (if reply.Ok? then reply.data else old(users))
      ensures error == (if reply.Ok? then old(error) else MessageOr(reply.response, LoadFailed))
      ensures !loading
    {
      match reply {
        case Ok(data) => users := data;
        case Err(response) => error := MessageOr(response, LoadFailed);
      }
      loading := false;
    }

    /** Typing in the search box; the current page is kept. */
    method SetSearchTerm(term: String)
      requires Valid()
      modifies this`searchTerm
      ensures Valid()
      ensures searchTerm == term
    {
      searchTerm := term;
    }

    /** A page link; the links run from 1 to the page count. */
    method Paginate(page: nat)
      requires 1 <= page <= TotalPages(|FilteredUsers(users, searchTerm)|)
      modifies this`currentPage
      ensures Valid() && currentPage == page
      ensures |CurrentUsers()| > 0
    {
      currentPage := page;
    }

    /** `handleDelete`: after confirmation and a successful call, the user is dropped from the list. */
    method HandleDelete(uid: String, confirmed: bool, reply: ApiResult<()>)
      requires Valid()
      modifies this`users
      ensures Valid()
      ensures users == if confirmed && reply.Ok? then RemoveUser(old(users), uid) else old(users)
    {
      if confirmed {
        if reply.Ok? {
          users := RemoveUser(users, uid);
        }
      }
    }

    /** `openPasswordModal`. */
    method OpenPasswordModal(u: User)
      requires Valid()
      modifies this`selectedUser, this`newPassword, this`confirmPassword, this`passwordError,
               this`passwordSuccess, this`passwordModalOpen
      ensures Valid()
      ensures selectedUser == Some(u) && passwordModalOpen
      ensures newPassword == [] && confirmPassword == [] && passwordError == [] && passwordSuccess == []
    {
      selectedUser := Some(u);
      newPassword, confirmPassword := [], [];
      passwordError, passwordSuccess := [], [];
      passwordModalOpen := true;
    }

    /**
     * The Modal's own X button (its `onClose`), the header close button or
     * the cancel button of the password dialog.
     */
    method ClosePasswordModal()
      requires Valid()
      modifies this`passwordModalOpen
      ensures Valid() && !passwordModalOpen
    {
      passwordModalOpen := false;
    }

    method SetNewPassword(value: String)
      requires Valid()
      modifies this`newPassword
      ensures Valid()
      ensures newPassword == value
    {
      newPassword := value;
    }

    method SetConfirmPassword(value: String)
      requires Valid()
      modifies this`confirmPassword
      ensures Valid()
      ensures confirmPassword == value
    {
      confirmPassword := value;
    }

    /**
     * `changeUserPassword`. A rejected password sends no request and only sets
     * the error. Without a selected user, reading its uid throws inside the
     * `try` and the default error is shown.
     */
    method ChangeUserPassword(reply: ApiResult<bool>) returns (requested: bool)
      requires Valid()
      modifies this`passwordError, this`passwordSuccess
      ensures Valid()
      ensures requested <==> PasswordProblem(newPassword, confirmPassword).None? && selectedUser.Some?
      ensures requested <==> |newPassword| >= 8 && newPassword == confirmPassword && selectedUser.Some?
      ensures |newPassword| < 8 ==> passwordError == PasswordTooShort && passwordSuccess == old(passwordSuccess)
      ensures PasswordProblem(newPassword, confirmPassword).Some? ==>
                passwordError == PasswordProblem(newPassword, confirmPassword).value
                && passwordSuccess == old(passwordSuccess)
      ensures PasswordProblem(newPassword, confirmPassword).None? && selectedUser.None? ==>
                passwordError == PasswordUpdateFailed && passwordSuccess == old(passwordSuccess)
      ensures requested && reply.Ok? ==>
                passwordError == old(passwordError)
                && passwordSuccess == (if reply.data then PasswordUpdated else old(passwordSuccess))
      ensures requested && reply.Err? ==>
                passwordError == DetailOr(reply.response, PasswordUpdateFailed)
                && passwordSuccess == old(passwordSuccess)
    {
      requested := false;
      if |newPassword| < 8 {
        passwordError := PasswordTooShort;
        return;
      }
      if newPassword != confirmPassword {
        passwordError := PasswordsDiffer;
        return;
      }
      if selectedUser.None? {
        passwordError := PasswordUpdateFailed;
        return;
      }
      requested := true;
      match reply
      case Ok(success) =>
        if success {
          passwordSuccess := PasswordUpdated;
        }
      case Err(response) =>
        passwordError := DetailOr(response, PasswordUpdateFailed);
    }

    /** `openCreateModal`. */
    method OpenCreateModal()
      requires Valid()
      modifies this`form, this`formErrors, this`formSuccess, this`createModalOpen
      ensures Valid()
      ensures form == EmptyForm && formErrors == map[] && formSuccess == [] && createModalOpen
    {
      form := EmptyForm;
      formErrors, formSuccess := map[], [];
      createModalOpen := true;
    }

    /**
     * The Modal's own X button (its `onClose`), the header close button or
     * the cancel button of the create dialog; from then on the form validation no longer asks for a password.
     */
    method CloseCreateModal()
      requires Valid()
      modifies this`createModalOpen
      ensures Valid() && !createModalOpen
      ensures !Rejects(form, createModalOpen, PasswordKey)
    {
      createModalOpen := false;
    }

    /** `openEditModal`: the form holds the user's fields and an empty password. */
    method OpenEditModal(u: User)
      requires Valid()
      modifies this`selectedUser, this`form, this`formErrors, this`formSuccess, this`editModalOpen
      ensures Valid()
      ensures selectedUser == Some(u) && form == EditForm(u)
      ensures formErrors == map[] && formSuccess == [] && editModalOpen
    {
      selectedUser := Some(u);
      form := EditForm(u);
      formErrors, formSuccess := map[], [];
      editModalOpen := true;
    }

    /**
     * The Modal's own X button (its `onClose`), the header close button or
     * the cancel button of the edit dialog.
     */
    method CloseEditModal()
      requires Valid()
      modifies this`editModalOpen
      ensures Valid() && !editModalOpen
    {
      editModalOpen := false;
    }

    /** `handleInputChange`: one field of the form takes the typed value. */
    method HandleInputChange(input: FormInput, value: String)
      requires Valid()
      modifies this`form
      ensures Valid()
      ensures form == match input
        case UsernameInput => old(form).(username := value)
        case FullNameInput => old(form).(fullName := Some(value))
        case PasswordInput => old(form).(password := value)
        case RoleInput => old(form).(role := value)
    {
      match input
      case UsernameInput => form := form.(username := value);
      case FullNameInput => form := form.(fullName := Some(value));
      case PasswordInput => form := form.(password := value);
      case RoleInput => form := form.(role := value);
    }

    /**
     * `createNewUser`: an invalid form only sets the field errors; otherwise
     * the created user is appended, or the server's detail is shown.
     */
    method CreateNewUser(reply: ApiResult<User>) returns (requested: bool)
      requires Valid()
      modifies this`users, this`formErrors, this`formSuccess
      ensures Valid()
      ensures requested <==> FormErrors(form, createModalOpen) == map[]
      ensures !requested ==> formErrors == FormErrors(form, createModalOpen)
                             && users == old(users) && formSuccess == old(formSuccess)
      ensures requested && reply.Ok? ==>
                users == old(users) + [reply.data] && formErrors == map[] && formSuccess == UserCreated
      ensures requested && reply.Err? ==>
                users == old(users) && formSuccess == old(formSuccess)
                && formErrors == map[GeneralKey := DetailOr(reply.response, CreateFailed)]
    {
      var errors := ValidateForm(form, createModalOpen);
      formErrors := errors;
      requested := errors == map[];
      if !requested {
        return;
      }
      match reply
      case Ok(created) =>
        users := users + [created];
        formSuccess := UserCreated;
      case Err(response) =>
        formErrors := map[GeneralKey := DetailOr(response, CreateFailed)];
    }

    /**
     * `updateUser`: an invalid form only sets the field errors; otherwise the
     * response is merged into every listed user with the selected uid.
     * Without a selected user, reading its uid throws inside the `try`.
     */
    method UpdateUser(reply: ApiResult<UserPatch>) returns (requested: bool)
      requires Valid()
      modifies this`users, this`formErrors, this`formSuccess
      ensures Valid()
      ensures requested <==> FormErrors(form, createModalOpen) == map[] && selectedUser.Some?
      ensures FormErrors(form, createModalOpen) != map[] ==>
                formErrors == FormErrors(form, createModalOpen)
                && users == old(users) && formSuccess == old(formSuccess)
      ensures FormErrors(form, createModalOpen) == map[] && selectedUser.None? ==>
                formErrors == map[GeneralKey := UpdateFailed]
                && users == old(users) && formSuccess == old(formSuccess)
      ensures requested && reply.Ok? ==>
                users == MergeUser(old(users), selectedUser.value.uid, reply.data)
                && formErrors == map[] && formSuccess == UserUpdated
      ensures requested && reply.Err? ==>
                users == old(users) && formSuccess == old(formSuccess)
                && formErrors == map[GeneralKey := DetailOr(reply.response, UpdateFailed)]
    {
      var errors := ValidateForm(form, createModalOpen);
      formErrors := errors;
      requested := false;
      if errors != map[] {
        return;
      }
      if selectedUser.None? {
        formErrors := map[GeneralKey := UpdateFailed];
        return;
      }
      requested := true;
      match reply
      case Ok(patch) =>
        users := MergeUser(users, selectedUser.value.uid, patch);
        formSuccess := UserUpdated;
      case Err(response) =>
        formErrors := map[GeneralKey := DetailOr(response, UpdateFailed)];
    }
  }
}
