# Meter-reading admin console: verified model of its client logic

The console is a React front end. Staff use it to browse meter readings and to
manage the user accounts of the readers. Most of it is HTTP calls and markup.
This project models the deterministic logic buried in four of its files and
proves what that logic promises:

- **User administration** (`Dashboard.jsx`), in module `Dashboard`:
  - the case-insensitive search over login, full name and role;
  - the fixed 8-per-page slice, the page count and the "showing a-b" range;
  - the list updates after delete, create and update;
  - the password-change checks and the create/edit form validation;
  - the role labels;
  - the component's state and handlers, as the class `Dashboard.UserAdmin`.
- **Meter table** (`Home.jsx`), in module `Home`:
  - the four-field search and the newest-first sort, done as an in-place insertion sort on an array;
  - the server-side paging arithmetic (`skip`, page count, shown range);
  - the bounded next/previous moves and the five-link page window;
  - the active-filters flag, the login to full-name lookup and the two statistics;
  - the component's state, as the class `Home.MeterBoard`.
- **Session** (`authContext.jsx`), in module `Auth`:
  - the role check;
  - the error messages thrown by `login`, `changePassword`, `createUser` and `deleteUser`;
  - the session state (user, loading flag, stored token, current route) and its start-up, login and logout transitions, as the class `Auth.AuthSession`.
- **Route guard** (`ProtectedRoutes.jsx`), in module `Routes`: the four-way decision.

Supporting modules:

- `Text`: `toLowerCase`, `includes`, `trim`, and the decimal rendering of a number in a template literal.
- `Lists`: `Array.prototype.filter` and its laws.
- `Api`: the shape of a request's outcome. A result is `Ok(data)` or `Err(response)`. The response may be absent (a network failure) or carry a status and the optional `message`/`detail` fields of its body.
- `Accounts`: the user record and the object spread that merges an update response into it.

Every network reply, the browser's `confirm` answer and `localStorage`'s token
are inputs or fields. No module performs I/O.

## Model

| member | source | states |
|---|---|---|
| Text.LowerChar | src/components/Dashboard.jsx:69 | `toLowerCase` moves each Latin capital and each Russian capital А-Я 32 code points up, to its small letter, maps Ё to ё, and leaves every other character unchanged |
| Text.Lower | src/components/Dashboard.jsx:69-71 | lowering keeps the length and lowers each character in place |
| Text.IncludesIff | src/components/Dashboard.jsx:69-71 | `hay.includes(needle)` holds exactly when the needle occurs at some position of the hay |
| Text.Includes | src/components/Dashboard.jsx:69-71 | `includes` finds a needle only when it is no longer than the hay; the empty string and the hay itself are always found |
| Text.TrimStart | src/components/Dashboard.jsx:172 | trimming the start removes only white space and stops at the first non-space character |
| Text.TrimEnd | src/components/Dashboard.jsx:172 | trimming the end removes only white space and stops at the last non-space character |
| Text.TrimStartIsSuffix | src/components/Dashboard.jsx:172 | what is left after trimming the start is a suffix of the input |
| Text.TrimEndIsPrefix | src/components/Dashboard.jsx:172 | what is left after trimming the end is a prefix of the input |
| Text.BlankIff | src/components/Dashboard.jsx:172-178 | `!s.trim()` holds exactly when every character of `s` is white space |
| Text.Trim | src/components/Dashboard.jsx:172 | `trim` returns the slice of the input left after removing white space at both ends: everything outside the slice is white space, and the slice neither starts nor ends with white space |
| Text.NatToDecimal | src/context/authContext.jsx:62 | a status renders as a non-empty string of decimal digits without a leading zero |
| Text.DecimalRoundTrip | src/context/authContext.jsx:62 | reading the rendered digits back gives the status |
| Text.DecimalInjective | src/context/authContext.jsx:62 | distinct statuses render differently |
| Lists.Filter | src/components/Dashboard.jsx:85 | a filtered list is no longer than the input, holds only elements of the input, and each of them passes the test |
| Api.MessageOr | src/components/Dashboard.jsx:57 | `error.response?.data?.message || fallback`: a non-empty server message is the result; without a response, or with an absent or empty message, the fallback |
| Api.DetailOr | src/components/Dashboard.jsx:126-128 | `error.response?.data?.detail || fallback`: a non-empty server detail is the result; without a response, or with an absent or empty detail, the fallback |
| Accounts.Patch | src/components/Dashboard.jsx:224 | `{ ...user, ...response.data }`: each key present in the response, a null full name included, takes the response's value and each absent key keeps the user's; so an empty response changes nothing, and a response without a uid, or with the same uid, keeps the user's uid |
| Dashboard.MatchesSearch | src/components/Dashboard.jsx:68-71 | an empty term matches every user; a match needs the term to be no longer than the login, the full name when present, or the role |
| Dashboard.FilteredUsers | src/components/Dashboard.jsx:67-72 | the filtered list is no longer than the user list and holds only users of the list that match the term |
| Dashboard.FilteredUsersMembership | src/components/Dashboard.jsx:67-72 | a user is listed iff the lowered term occurs in its lowered login, in its lowered full name when it has one, or in its lowered role |
| Dashboard.EmptySearchKeepsAll | src/components/Dashboard.jsx:67-72 | an empty search term lists every user, in order |
| Dashboard.SearchIgnoresCase | src/components/Dashboard.jsx:67-72 | searching for the lowered term lists the same users as searching for the term |
| Dashboard.SearchKeepsOrder | src/components/Dashboard.jsx:67-72 | the search distributes over concatenation, so it keeps the relative order of the users |
| Dashboard.TotalPages | src/components/Dashboard.jsx:77 | the page count is the least number of 8-user pages that hold the list |
| Dashboard.PageSlice | src/components/Dashboard.jsx:74-76 | page `p` holds at most 8 users; it is empty iff `(p-1)*8 >= n`; otherwise it holds exactly `min(p*8, n) - (p-1)*8` users; its j-th user is the filtered list's user at `(p-1)*8 + j` |
| Dashboard.PageOfUser | src/components/Dashboard.jsx:74-77 | every listed user lies on exactly one page between 1 and the page count, at its offset within that page |
| Dashboard.ShowsPagerIff | src/components/Dashboard.jsx:424 | the page links are shown iff there are at least two pages |
| Dashboard.ShownRange | src/components/Dashboard.jsx:427-428 | "a-b" spans at most 8 users, and lies within 1..n whenever the page starts inside the list |
| Dashboard.ShownRangeMatchesPage | src/components/Dashboard.jsx:427-429 | on a non-empty page, "a-b" lies within 1..n and names exactly the first and last users of the page |
| Dashboard.StalePageAfterSearch | src/components/Dashboard.jsx:74-76 | a search that narrows the list to one page while page 2 or later is current leaves the table empty and hides the page links |
| Dashboard.RemoveUser | src/components/Dashboard.jsx:85 | after a delete, no listed user has the deleted uid |
| Dashboard.RemoveUserKeepsOthers | src/components/Dashboard.jsx:85 | a delete keeps every other user, as many times as before and in the same order |
| Dashboard.MergeUser | src/components/Dashboard.jsx:223-225 | an update keeps the length; users with the selected uid become the merge of themselves and the response; the others are unchanged |
| Dashboard.MergeUserIdempotent | src/components/Dashboard.jsx:223-225 | merging the same response twice gives the list it gave once |
| Dashboard.RemoveAfterMerge | src/components/Dashboard.jsx:223-225 | for a response that leaves out the uid or echoes it, updating a user and then deleting it is the same as deleting it |
| Dashboard.RoleLabel | src/components/Dashboard.jsx:241-249 | admin is shown as "Администратор", user as "Пользователь", guest as "Гость" and work as "Рабочий"; the label differs from the role exactly for these four, so any other role is shown as it is |
| Dashboard.EditForm | src/components/Dashboard.jsx:148-153 | the edit form copies the user's login, full name and role with an empty password; it never requires a password, and rejects the full name exactly when the user's own is null or blank |
| Dashboard.FormErrors | src/components/Dashboard.jsx:169-187 | each field has an error entry exactly when it is rejected (blank login, null or blank full name, empty password when creating), and the entry is that field's message |
| Dashboard.FormErrorsEmptyIff | src/components/Dashboard.jsx:169-187 | the form is accepted iff the trimmed login and full name are non-empty and, when creating, a password is set |
| Dashboard.ValidateFormAsWritten | src/components/Dashboard.jsx:169-187 | as written, validation throws exactly when the full name is null; otherwise its errors have one entry per rejected field |
| Dashboard.EditingNamelessUserThrows | src/components/Dashboard.jsx:146-176 | the edit form of a user whose full name is null makes the validation as written throw, although the field should be reported |
| Dashboard.ValidateForm | src/components/Dashboard.jsx:169-187 | builds the errors object key by key, equal to the per-field specification; it agrees with the code as written wherever that code does not throw |
| Dashboard.PasswordProblem | src/components/Dashboard.jsx:105-113 | the new password is accepted iff it has at least 8 characters and equals its confirmation; a short password is reported as short even when the two differ |
| Dashboard.UserAdmin.constructor | src/components/Dashboard.jsx:20-49 | the initial state: no users, loading, page 1, all dialogs closed, the create form empty |
| Dashboard.UserAdmin.FetchUsers | src/components/Dashboard.jsx:51-64 | the list is the reply's list, or the error is the server's message or the default one; loading ends either way |
| Dashboard.UserAdmin.SetSearchTerm | src/components/Dashboard.jsx:302 | typing sets the term and keeps the current page |
| Dashboard.UserAdmin.Paginate | src/components/Dashboard.jsx:433-437 | a page link selects a page between 1 and the page count, and that page is non-empty |
| Dashboard.UserAdmin.HandleDelete | src/components/Dashboard.jsx:81-90 | the user is removed only when the deletion is confirmed and the request succeeds; otherwise the list is unchanged |
| Dashboard.UserAdmin.OpenPasswordModal | src/components/Dashboard.jsx:93-100 | selects the user, clears both fields and both messages, and opens the dialog |
| Dashboard.UserAdmin.ClosePasswordModal | src/components/Dashboard.jsx:457-612 | the dialog's own X button (the Modal's `onClose`), the header close button or the cancel button closes the password dialog |
| Dashboard.UserAdmin.SetNewPassword | src/components/Dashboard.jsx:498 | sets the new password field |
| Dashboard.UserAdmin.SetConfirmPassword | src/components/Dashboard.jsx:560 | sets the confirmation field |
| Dashboard.UserAdmin.ChangeUserPassword | src/components/Dashboard.jsx:103-130 | a request is sent iff the password has at least 8 characters, matches its confirmation and a user is selected; the length is checked first; a rejection only sets the error; the reply sets the success message or the server's detail |
| Dashboard.UserAdmin.OpenCreateModal | src/components/Dashboard.jsx:133-143 | the create form starts empty with role "user", with no errors and no success message |
| Dashboard.UserAdmin.CloseCreateModal | src/components/Dashboard.jsx:630-756 | the dialog's own X button (the Modal's `onClose`), the header close button or the cancel button clears the create dialog's flag, so the form validation no longer asks for a password |
| Dashboard.UserAdmin.OpenEditModal | src/components/Dashboard.jsx:146-157 | the edit form holds the user's login, full name and role and an empty password |
| Dashboard.UserAdmin.CloseEditModal | src/components/Dashboard.jsx:777-879 | the dialog's own X button (the Modal's `onClose`), the header close button or the cancel button closes the edit dialog |
| Dashboard.UserAdmin.HandleInputChange | src/components/Dashboard.jsx:160-166 | exactly the named field takes the typed value |
| Dashboard.UserAdmin.CreateNewUser | src/components/Dashboard.jsx:190-209 | an invalid form sets only the field errors and leaves the list; otherwise success appends the created user at the end, and failure shows the server's detail or the default |
| Dashboard.UserAdmin.UpdateUser | src/components/Dashboard.jsx:212-239 | validates with the corrected validation (see Findings); an invalid form sets only the field errors; otherwise success merges the response into the users with the selected uid, and failure shows the server's detail or the default |
| Home.MeterMatches | src/components/Home.jsx:100-111 | a meter without a code, an address, a client name or reading notes never matches |
| Home.SearchMeters | src/components/Home.jsx:96-113 | an empty term keeps the list as it is; otherwise the result is no longer than the list and holds only meters of the list that match |
| Home.SearchMetersMembership | src/components/Home.jsx:96-113 | an empty term keeps every meter; otherwise a meter is kept iff the lowered term occurs in its present code, address, client name or reading notes |
| Home.SearchMetersKeepsOrder | src/components/Home.jsx:99-113 | the search keeps the relative order of the meters |
| Home.ReadingDate | src/components/Home.jsx:137-143 | the sort key is the reading's date when there is one, and the epoch (0) for a meter without a reading or without a date |
| Home.SwapDown | src/components/Home.jsx:136-144 | exchanging two neighbours changes nothing else and keeps the same meters |
| Home.InsertNewestFirst | src/components/Home.jsx:136-144 | one insertion step extends the sorted prefix by one meter, keeps the same meters and leaves the rest of the array alone |
| Home.SortByDate | src/components/Home.jsx:136-144 | the array ends sorted newest reading first, a missing date counting as the epoch, and holds the same meters |
| Home.SortedCopy | src/components/Home.jsx:51-59 | the fetched page, sorted newest first, is a permutation of the page |
| Home.FilterAndSort | src/components/Home.jsx:96-146 | the shown meters are sorted newest first and are a permutation of the meters the search keeps |
| Home.TotalPages | src/components/Home.jsx:149 | the page count is the least number of pages of the chosen size holding the server's total, and is 0 only when the total is 0 |
| Home.Skip | src/components/Home.jsx:48 | the offset is non-negative on a real page, and the requested page ends at `page * size` |
| Home.NextPageOf | src/components/Home.jsx:153-157 | next advances by one exactly when there is a next page, and otherwise stays; it keeps the page within 1..max(1, page count) |
| Home.PrevPageOf | src/components/Home.jsx:159-163 | previous goes back by one exactly when not on page 1, and otherwise stays; it never leaves page 1 or above |
| Home.WindowStart | src/components/Home.jsx:572-580 | the window starts at 1 or later, at 1 when there are at most 5 pages, and its five links end within the page count otherwise |
| Home.PageWindow | src/components/Home.jsx:570-580 | the window holds min(page count, 5) links, each a page between 1 and the page count |
| Home.PageWindowShape | src/components/Home.jsx:570-580 | the window's numbers are consecutive and increasing, and the window holds the current page whenever that is a real page |
| Home.ShowsPagerIff | src/components/Home.jsx:533 | the pager is shown iff the server's total needs at least two pages |
| Home.ShownRange | src/components/Home.jsx:539-546 | both ends of "a - b" are capped by the total, the end by `page * size`; with meters present the range starts at 1 or later |
| Home.ShownRangeOnRealPage | src/components/Home.jsx:539-546 | on a real page, the range starts right after the skipped meters and counts exactly the meters the page can hold |
| Home.FindUser | src/components/Home.jsx:92 | finds the first user with the login, or reports that none has it |
| Home.GetFullName | src/components/Home.jsx:91-94 | the full name of the first user with the login, possibly null, or the login itself when no user has it |
| Home.HasActiveFilters | src/components/Home.jsx:176-177 | with no active filter, the search keeps every meter |
| Home.NamedUsers | src/components/Home.jsx:79 | a fetched user is kept exactly when its login is non-empty; the kept users come from the fetched list |
| Home.MetersWithReadings | src/components/Home.jsx:180 | the "with readings" meters (`HasReadingValue`: a present, non-zero value) come from the list and all have a value |
| Home.MetersWithPhotos | src/components/Home.jsx:181-183 | the "with photos" meters (`HasPhotos`: a present, non-empty photo list) come from the list and all have a photo |
| Home.MetersWithPhotosCount | src/components/Home.jsx:181-183 | the "with photos" count is additive over the list and counts exactly the meters with a non-empty photo list |
| Home.MetersWithReadingsCount | src/components/Home.jsx:180 | the "with readings" count is additive over the list and counts exactly the meters with a non-zero reading value |
| Home.MeterBoard.constructor | src/components/Home.jsx:32-41 | the initial state: page 1, 5 per page, no filters, loading |
| Home.MeterBoard.FetchMeters | src/components/Home.jsx:44-69 | requests `skip = (page-1)*size` and `limit = size`; success stores the page sorted newest first and the server's total (0 when absent); failure keeps the table |
| Home.MeterBoard.FetchUsers | src/components/Home.jsx:72-83 | keeps the users with a non-empty login; a failure leaves the list |
| Home.MeterBoard.ApplyFilters | src/components/Home.jsx:96-147 | the shown meters become the searched meters, sorted newest first |
| Home.MeterBoard.SetSearchTerm | src/components/Home.jsx:359 | sets the search term |
| Home.MeterBoard.ClearFilters | src/components/Home.jsx:170-177 | after clearing, no filter is active |
| Home.MeterBoard.SetMetersPerPage | src/components/Home.jsx:330-333 | a new page size from the offered choices restarts from page 1 |
| Home.MeterBoard.NextPage | src/components/Home.jsx:153-157 | moves to the next page only while there is one |
| Home.MeterBoard.PrevPage | src/components/Home.jsx:159-163 | moves to the previous page only while not on page 1 |
| Home.MeterBoard.Paginate | src/components/Home.jsx:584-585 | a window link selects a real page |
| Home.MeterBoard.HandleDeleteSuccess | src/components/Home.jsx:165-168 | a deletion returns to page 1 |
| Auth.HasPermission | src/context/authContext.jsx:134-137 | permission needs a signed-in user and a non-empty role list |
| Auth.PermissionMonotone | src/context/authContext.jsx:134-137 | allowing more roles never takes a permission away |
| Auth.LoginFailureMessage | src/context/authContext.jsx:55-64 | no response gives "Identifiants incorrects", 401 the bad-credentials message, 403 the account-disabled message, and any other status "Erreur serveur: " followed by the digits that read back as the status; the message is never empty |
| Auth.ServerErrorNamesStatus | src/context/authContext.jsx:62 | two server-error messages are equal only for equal statuses |
| Auth.LoginFailureMessageInjective | src/context/authContext.jsx:55-66 | the login message tells apart no answer, 401, 403 and every other status |
| Auth.ChangePasswordFailureMessage | src/context/authContext.jsx:82-90 | 401 gives the wrong-current-password message, 400 the requirements message, and the default message is chosen iff there is no answer or its status is neither 401 nor 400 |
| Auth.AuthSession.constructor | src/context/authContext.jsx:8-9 | the provider starts with nobody signed in and loading |
| Auth.AuthSession.Logout | src/context/authContext.jsx:128-132 | afterwards the token is gone, nobody is signed in, and the route is /login |
| Auth.AuthSession.CheckAuth | src/context/authContext.jsx:12-24 | `/auth/me` is asked iff a non-empty token is stored; its user is signed in, or a failure logs out; loading ends in every case |
| Auth.AuthSession.Login | src/context/authContext.jsx:45-68 | success stores the token, signs the user in and goes to /; failure throws the status's message and leaves the session as it was |
| Auth.AuthSession.ChangePassword | src/context/authContext.jsx:71-94 | returns the body, or throws the message for 401, for 400, or the default |
| Auth.AuthSession.CreateUser | src/context/authContext.jsx:30-43 | returns the body, or throws the server's message when it sent one, else the default |
| Auth.AuthSession.DeleteUser | src/context/authContext.jsx:96-104 | returns true, or throws one fixed message whatever the failure |
| Routes.Guard | src/components/ProtectedRoutes.jsx:4-20 | each of the four outcomes happens exactly under its condition: loading; not loading and signed out; signed in with a role outside a non-empty list; signed in with an empty list or a listed role |
| Routes.OutletOnlyWhenPermitted | src/components/ProtectedRoutes.jsx:15-19 | the outlet is rendered only for a signed-in user whom the role check admits, or on a route open to every user |

## Left out

- HTTP, `localStorage` and navigation are not performed. Each request's reply is a parameter, the stored token is a field, and navigation sets a `location` field.
- `window.confirm` is a boolean parameter. `alert`, `console.error` and the `setTimeout` that closes a dialog 1.5 s after a success are not modelled. Each of the three dialogs closes through the Modal's own X button (its `onClose`), its header close button and its cancel button; these are modelled as the `Close…Modal` methods. The Modal's backdrop has no click handler.
- The order in which React re-runs effects, and racing refreshes, are not modelled. For example, `handleDeleteSuccess` re-fetches with the page read before the reset. Handlers are methods called one at a time.
- The date-range step of the filter effect (`Home.jsx:115-134`) is not modelled. It uses dayjs day arithmetic, and no handler ever sets `dateFrom` or `dateTo` to anything but the empty string. `Home.MeterBoard.Valid` keeps that fact as an invariant.
- Dates are integer timestamps. dayjs parsing and the date formatting in the tables are not modelled.
- `Text.LowerChar`: lowers only the Latin and Russian capitals. The full Unicode `toLowerCase` (other scripts, special casing) is not modelled.
- `Dashboard.PasswordProblem`: counts characters. JavaScript's `length` counts UTF-16 code units, which differs for characters outside the Basic Multilingual Plane.
- `Dashboard.RoleLabel`: a role named like a key inherited from `Object.prototype` (for example "constructor") comes back unchanged here. The source would return the inherited value.
- `Home.HasReadingValue`: assumes `reading_value` is a number, so only a missing value or 0 is falsy.
- `Dashboard.UserAdmin.UpdateUser`: validates with the corrected `Dashboard.ValidateForm`. As written, the edit form of a user whose full name is null makes `validateForm` throw at `Dashboard.jsx:176`, before the `try`: no error is shown, nothing changes and the handler's promise rejects (see Findings). `Dashboard.UserAdmin.CreateNewUser` also validates with `Dashboard.ValidateForm`, but there the as-written throw cannot happen: the create dialog opens only through `openCreateModal`, which sets `full_name` to `''` (`Dashboard.jsx:134-139`), and the Modal's full-screen overlay (`Modal.jsx:7`) covers the table's edit buttons while it is open.
- `Home.SortByDate`: proves sortedness and permutation only. It does not prove that meters with equal dates keep their order, although the insertion sort does keep it.
- `Home.MeterBoard.FetchUsers`: users are records, so the `u &&` test for null entries has nothing to drop. A reply that is not an array is an `Err` reply.
- `Dashboard.UserAdmin.ChangeUserPassword`: the reply's `data.success` flag is the boolean reply.
- `Dashboard.UserAdmin.CreateNewUser`: the reply's `data.user` is the created user.
- Pages are selected only by the handlers. `Dashboard.UserAdmin.Paginate` and `Home.MeterBoard.Paginate` take a page from the links actually shown.
- The provider renders its children only once loading has ended; that rendering is not modelled.
- `downloadReport`, file upload, Excel and APK download, bulk clear, the create/edit pages, the login page, the configuration constants and the purely presentational components are not part of this model. They are I/O or markup only.

## Findings

| source | as written | input that shows it | evidently intended | confidence | as-written member | corrected member |
|---|---|---|---|---|---|---|
| src/components/Dashboard.jsx:146-176 | `openEditModal` copies `user.full_name` into the form as is; `validateForm` then calls `userForm.full_name.trim()` | open the edit dialog on a user whose `full_name` is null and press save without typing a full name: `null.trim()` throws a TypeError before the `try`, so no error is shown and nothing is saved | report the missing full name like a blank one ("Полное имя обязательно") | high; not executed | Dashboard.EditingNamelessUserThrows | Dashboard.ValidateForm |
