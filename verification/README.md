# Tạp chí Phương Đông — a verified model of the magazine site's logic

This project models the logic of the Phương Đông magazine site, a Next.js
application, and proves properties about it. The model covers the reader's
pagination strip and page-flip controller, the home page's hero carousel, the
tag multi-select, the public and admin magazine listings, the role-management
and new-magazine pages, and the admin API routes:

- login and session check;
- users;
- magazines;
- categories and majors.

The database is four tables held as sequences in a `Database` object. Its
`online` flag stands for a database that throws on every query. Prisma reads
are functions of these tables; inserts and deletes are methods that reassign
them. Outside code is passed in as parameters:

- JWT verification and signing;
- bcrypt hashing and comparison;
- `new Date`, `toLowerCase` and `localeCompare`;
- the results of `fetch` and `confirm`;
- generated ids and clocks.

The front-end handlers record what they do, in order, in sequences of
requests, toasts and navigations. The page-flip engine is abstract: the reader
controller only records the commands it sends to it.

Modules:

- **Shared modules:**
  - `Common`: `Option`.
  - `Text`: JavaScript truthiness, `trim` and `includes`.
  - `Sequences`: `filter`, `map` and counting.
  - `Sorting`: a stable insertion sort. It stands for `Array.prototype.sort` and Prisma's `orderBy`.
  - `Store`: tables and API results.
  - `Auth`: the route guards.
- **One module per source file:**
  - `MagazineReader`, `HeroCarousel`, `MultiSelect`.
  - `MagazineList`, `AdminHome`, `RoleManagement`, `AddNew`.
  - `Login`, `Me`, `UsersRoute`, `MagazinesRoute`, `OptionsRoute`.

The options route is not a dynamic route. The framework therefore gives its
`DELETE` handler no `type` or `id`. The model takes these parameters as
inputs, so it describes what the handler does with any parameters it
receives.

## Model

| member | source | states |
|---|---|---|
| MagazineReader.GetVisiblePages | components/magazine-reader.tsx:215-231 | The loop that pushes the strip builds exactly `VisiblePages(current, total, delta)`: page 1, an optional "...", the window, an optional "...", and the last page. |
| MagazineReader.StripLayout | components/magazine-reader.tsx:217-228 | Gives the strip position by position: page 1 at index 0, a marker when the window starts after page 2, window pages `left..right`, a marker when it ends before `total - 1`, and `total` last when `total > 1`. |
| MagazineReader.StripStartsWithFirstPage | components/magazine-reader.tsx:220 | The strip is never empty and begins with page 1. |
| MagazineReader.StripEndsWithLastPage | components/magazine-reader.tsx:217-228 | With more than one page the last entry is `total`. With `delta >= 0`, a one-page magazine on page 1 shows exactly `[1]`. |
| MagazineReader.StripPagesIncrease | components/magazine-reader.tsx:217-224 | For `total >= 1` every page number lies in `[1, total]`, and page numbers strictly increase along the strip, so none repeats. |
| MagazineReader.StripMembership | components/magazine-reader.tsx:217-228 | Page `p` is on the strip if and only if it is 1, `total`, or an inner page within `delta` of `current`. |
| MagazineReader.StripShowsCurrentPage | components/magazine-reader.tsx:217-224 | With `delta >= 0` and `1 <= current <= total`, the current page is on the strip. |
| MagazineReader.StripHasAtMostTwoEllipses | components/magazine-reader.tsx:221-227 | The strip holds at most two "..." markers. |
| MagazineReader.StripEllipsesNotAdjacent | components/magazine-reader.tsx:221-227 | With `delta >= 0`, no two "..." markers are adjacent. |
| MagazineReader.StripMarksSkippedPages | components/magazine-reader.tsx:221-228 | Two adjacent page buttons are consecutive pages. A "..." always sits between two page buttons and stands for at least one skipped page. |
| MagazineReader.StripButtonsAreInRange | components/magazine-reader.tsx:238-247 | Every page button of the strip jumps to an index that `goToPage` accepts. |
| MagazineReader.StripHighlightsOneButton | components/magazine-reader.tsx:244 | For a valid current page exactly one strip button has the "default" (highlighted) variant. |
| MagazineReader.DisabledButtonsMatchStrip | components/magazine-reader.tsx:295-315 | "Previous" and "back to the start" are disabled exactly when the first strip button is highlighted (page 0). "Next" is disabled exactly when the last one is (page `totalPages - 1`). |
| MagazineReader.FlipTarget | components/magazine-reader.tsx:155-164 | A `flip` event's page is its data when numeric, else 0. |
| MagazineReader.KeyCommands | components/magazine-reader.tsx:200-203 | ArrowRight sends flip-next, ArrowLeft flip-prev, any other key nothing. Nothing is sent without an engine. |
| MagazineReader.ReaderController.constructor | components/magazine-reader.tsx:75-77 | Starts on page 0 of 0 pages, with no engine and no commands sent. |
| MagazineReader.ReaderController.BindPages | components/magazine-reader.tsx:82-114 | A non-empty page list sets `totalPages` to its length. An empty one changes nothing. `currentPage` is never reset. |
| MagazineReader.ReaderController.InitEngine | components/magazine-reader.tsx:116-181 | The engine exists once there are pages and a mounted surface, and it stays. |
| MagazineReader.ReaderController.NextPage | components/magazine-reader.tsx:185-187 | Sends flip-next exactly when the engine exists. |
| MagazineReader.ReaderController.PrevPage | components/magazine-reader.tsx:189-191 | Sends flip-prev exactly when the engine exists. |
| MagazineReader.ReaderController.GoToPage | components/magazine-reader.tsx:193-197 | Sends `flip(i)` exactly when the engine exists and `0 <= i < totalPages`; otherwise nothing happens. |
| MagazineReader.ReaderController.RestartClicked | components/magazine-reader.tsx:304 | "Back to the start" sends `flip(0)` when the engine exists and there are pages. |
| MagazineReader.ReaderController.PageButtonClicked | components/magazine-reader.tsx:247 | A strip button for page `p` sends `flip(p - 1)` under the `goToPage` guard. |
| MagazineReader.ReaderController.OnFlip | components/magazine-reader.tsx:155-164 | `currentPage` becomes the event's data when numeric, else 0. |
| MagazineReader.ReaderController.OnKeyDown | components/magazine-reader.tsx:199-206 | The key listener appends exactly `KeyCommands(key)` to the commands sent. |
| MagazineReader.ReaderController.PaginationStrip | components/magazine-reader.tsx:238 | The rendered strip is the strip for the 1-based current page with radius 2. |
| HeroCarousel.NextIndex | components/HeroSkeleton.tsx:29-31 | Maps 2 to 0 and otherwise adds 1: `(i + 1) mod 3`, staying within the three slides. |
| HeroCarousel.PrevIndex | components/HeroSkeleton.tsx:25-27 | Maps 0 to 2 and otherwise subtracts 1: `(i + 2) mod 3`, staying within the three slides. |
| HeroCarousel.Release | components/HeroSkeleton.tsx:59-68 | A drag (in real-valued pixels) of more than 50 px moves to the previous slide, one of less than -50 px to the next, and anything in between keeps the slide. |
| HeroCarousel.PrevNextInverse | components/HeroSkeleton.tsx:25-31 | Previous after next, and next after previous, return to the starting slide. |
| HeroCarousel.ThreeStepsAreIdentity | components/HeroSkeleton.tsx:25-31 | Three nexts, or three previouses, are the identity. |
| HeroCarousel.DragThereAndBack | components/HeroSkeleton.tsx:59-68 | Releasing a drag and then the mirrored drag returns to the starting slide. |
| HeroCarousel.Carousel.constructor | components/HeroSkeleton.tsx:7-14 | Starts on slide 0 with no drag in progress. |
| HeroCarousel.Carousel.HandlePrev | components/HeroSkeleton.tsx:25-27 | The slide becomes `PrevIndex` of the old one and stays in range. |
| HeroCarousel.Carousel.HandleNext | components/HeroSkeleton.tsx:29-31 | The slide becomes `NextIndex` of the old one and stays in range. |
| HeroCarousel.Carousel.MouseDown | components/HeroSkeleton.tsx:34-40 | A drag starts at the pointer's x, a real number of pixels; the slide does not change. |
| HeroCarousel.Carousel.MouseMove | components/HeroSkeleton.tsx:42-48 | Changes no field. While dragging, it reports the offset `x - startX`; without a drag it reports nothing. |
| HeroCarousel.Carousel.MouseUp | components/HeroSkeleton.tsx:50-70 | Without a drag, nothing changes. Otherwise the drag ends, `startX` is cleared and the slide is `Release(old slide, x - startX)`. |
| HeroCarousel.DragGesture | components/HeroSkeleton.tsx:85-88 | Press, move and release: the move reports `moveX - downX`, the release decides the slide, and the gesture ends with no drag state. |
| MultiSelect.Select | components/MultiSelect.tsx:34-38 | An id already selected emits nothing. Otherwise the emitted list is the old list with the id appended at the end. |
| MultiSelect.Remove | components/MultiSelect.tsx:40-42 | The id no longer occurs. Every other id keeps its count and the relative order is kept. |
| MultiSelect.SelectKeepsNoDuplicates | components/MultiSelect.tsx:35-37 | Selecting preserves "no duplicate ids". |
| MultiSelect.RemoveKeepsNoDuplicates | components/MultiSelect.tsx:41 | Removing preserves "no duplicate ids". |
| MultiSelect.SelectThenRemove | components/MultiSelect.tsx:34-42 | Selecting a fresh id and then removing it restores the original list. |
| MultiSelect.RemoveAbsent | components/MultiSelect.tsx:41 | Removing an id that is not selected emits the same list. |
| MultiSelect.Find | components/MultiSelect.tsx:67 | A found option belongs to the options and has the requested id. |
| MultiSelect.FindIsFirst | components/MultiSelect.tsx:67 | `find` succeeds exactly when some option has the id, and it returns the first such option. |
| MultiSelect.Tags | components/MultiSelect.tsx:66-68 | Each tag is an option whose id is selected; there are no more tags than selected ids. |
| MultiSelect.TagIdsAreNamedSelection | components/MultiSelect.tsx:66-68 | The tag ids are exactly the selected ids that name an option, in selection order. |
| MagazineList.FilterMagazines | app/magazine/page.tsx:61-80 | Every result is published and its lower-cased title contains the lower-cased search term. The result is a permutation of the matching magazines. |
| MagazineList.ResultIsPermutationOfMatches | app/magazine/page.tsx:62-68 | A magazine is in the result, as many times as in the input, exactly when it is published and matches the search. |
| MagazineList.EmptySearchKeepsPublished | app/magazine/page.tsx:64 | An empty search term keeps every published magazine. |
| MagazineList.NewestFirst | app/magazine/page.tsx:72-73 | With `sortBy == "createdAt"`, results are in non-increasing `createdAt` order. |
| MagazineList.TitleOrder | app/magazine/page.tsx:70-71 | With `sortBy == "tieuDe"`, results are ordered by the title comparison, when that comparison is consistent. |
| MagazineList.OtherSortKeepsOrder | app/magazine/page.tsx:74-75 | With any other `sortBy` the comparator answers 0 and the stable sort keeps the filter's order. |
| AdminHome.FilteredMagazines | app/admin/home/page.tsx:113-117 | An order-preserving subsequence of the magazines. It holds a magazine exactly when its title contains the search term case-insensitively and it is in the selected department, if one is selected. |
| AdminHome.KhoaFilter | app/admin/home/page.tsx:115 | A selected department restricts every row to that department. With none selected, only the search applies. |
| AdminHome.EmptyFiltersShowAll | app/admin/home/page.tsx:113-117 | An empty search with no department shows every magazine, in order. |
| AdminHome.StatusCount | app/admin/home/page.tsx:195-207 | A status counter (PUBLISHED for "Đã xuất bản", DRAFT for "Bản nháp") is at most the total. It is 0 exactly when no magazine has the status, and equals the total exactly when every one has it. |
| AdminHome.CountersWithinTotal | app/admin/home/page.tsx:184-207 | The counters of two different statuses, such as published and drafts, add up to at most the number of magazines. |
| AdminHome.PageCountShown | app/admin/home/page.tsx:279 | Shows the stored page count when it is truthy (present and non-zero), else the number of pages. |
| AdminHome.CoverSource | app/admin/home/page.tsx:263-265 | Shows the cover URL when it is non-blank after trimming, else the placeholder path. |
| AdminHome.AuthorShown | app/admin/home/page.tsx:281 | Shows the author's name when it is truthy, else the author's email. |
| AdminHome.StatusBadge | app/admin/home/page.tsx:274-275 | PUBLISHED gets the "default" badge "Đã xuất bản"; every other status gets the "secondary" badge "Bản nháp". |
| AdminHome.EmptyTableMessage | app/admin/home/page.tsx:312-316 | A message appears exactly when the table is empty: "no match" while searching, "none yet" otherwise. |
| RoleManagement.FailureToast | app/admin/role-management/page.tsx:122-129 | A refused request shows the server's `error` when it is truthy, else the fallback. An exception shows the fallback. |
| RoleManagement.MissingCredentials | app/admin/role-management/page.tsx:103 | The form counts as incomplete exactly when the email or the password is blank after trimming. |
| RoleManagement.RoleBadgeVariant | app/admin/role-management/page.tsx:197-206 | SUPER_ADMIN gives "default", ADMIN gives "secondary", anything else gives "outline", in both directions. |
| RoleManagement.RoleIcon | app/admin/role-management/page.tsx:186-195 | Super admins get the shield icon; every other role gets the person icon. |
| RoleManagement.RoleLabel | app/admin/role-management/page.tsx:389 | The badge reads "Super Admin" exactly for SUPER_ADMIN, otherwise "Admin". |
| RoleManagement.RoleCount | app/admin/role-management/page.tsx:265-278 | A role counter (SUPER_ADMIN for "Super Admin", ADMIN for "Admin") is at most the number of users. It is 0 exactly when nobody has the role, and equals the total exactly when everybody has it. |
| RoleManagement.RoleCountersWithinTotal | app/admin/role-management/page.tsx:253-278 | The counters of two different roles, such as SUPER_ADMIN and ADMIN, add up to at most the number of users. |
| RoleManagement.OnlyOwnRowDisabled | app/admin/role-management/page.tsx:399-419 | With distinct ids, a row's role select and delete button are disabled exactly on the signed-in user's own row: some row is disabled iff the user is in the table, and never two rows. |
| RoleManagement.RoleManagementPage.constructor | app/admin/role-management/page.tsx:43-58 | No current user, no users, the empty form with role ADMIN, a closed dialog and nothing sent. |
| RoleManagement.RoleManagementPage.CheckAuth | app/admin/role-management/page.tsx:66-83 | A signed-in super admin stays. Any other signed-in account gets an error toast and goes to /admin/home. A refused or failed check goes to /admin/login. |
| RoleManagement.RoleManagementPage.UsersLoaded | app/admin/role-management/page.tsx:85-98 | An OK reply replaces the table. A failed request keeps it and shows the load-error toast. A refused one keeps it silently. |
| RoleManagement.RoleManagementPage.HandleCreateUser | app/admin/role-management/page.tsx:100-130 | A blank email or password is refused with a toast and no request. A success closes the dialog, resets the form to empty with role ADMIN and reloads the list. A refusal shows the server's error. |
| RoleManagement.RoleManagementPage.HandleUpdateRole | app/admin/role-management/page.tsx:132-158 | Changing one's own role (the row whose controls are disabled) is refused without a request. Any other change is sent, and a success reloads the list. |
| RoleManagement.RoleManagementPage.HandleDeleteUser | app/admin/role-management/page.tsx:160-184 | Deleting one's own account (the row whose controls are disabled) is refused without a request. Any other deletion is sent only after confirmation, and a success reloads the list. |
| AddNew.InitialForm | app/admin/addnew/page.tsx:27-36 | The form opens empty, with author "Admin", today's date and status DRAFT. |
| AddNew.Validate | app/admin/addnew/page.tsx:93-106 | The ladder's order: a blank title is refused first, then a blank cover URL, then a missing file. A form passing all three is accepted. Each case holds in both directions. |
| AddNew.ValuesOfMapped | app/admin/addnew/page.tsx:118-119 | A `forEach` append gives back the ids in order under its key and nothing under any other key. |
| AddNew.CategoryIdsSentInOrder | app/admin/addnew/page.tsx:118 | Under "categoryIds" the body holds exactly the chosen category ids, each once, in list order. |
| AddNew.MajorIdsSentInOrder | app/admin/addnew/page.tsx:119 | Under "majorIds" the body holds exactly the chosen major ids, each once, in list order. |
| AddNew.AuthorAndTitleSent | app/admin/addnew/page.tsx:112-120 | The author is sent once, as `tenTacGia` or "Admin" when that is empty. The title is sent once, and the file is the last field. |
| AddNew.AssembleFormData | app/admin/addnew/page.tsx:111-120 | The `append` calls and both `forEach` loops build exactly the body `FormDataOf(form, file)`. |
| AddNew.ErrorMessage | app/admin/addnew/page.tsx:132-140 | The toast is the reply's `error` field when present and truthy, else the default message, including for a body that is not JSON. |
| AddNew.AddNewPage.constructor | app/admin/addnew/page.tsx:24-38 | The initial form, no file, not loading, nothing sent. |
| AddNew.AddNewPage.ChooseFile | app/admin/addnew/page.tsx:337 | The uploader's file (or its absence) becomes the chosen file. |
| AddNew.AddNewPage.ChooseCategory | app/admin/addnew/page.tsx:269-274 | The category list becomes what the multi-select emits. When it emits nothing the form is unchanged. A list without duplicates stays without duplicates. |
| AddNew.AddNewPage.RemoveCategory | app/admin/addnew/page.tsx:269-274 | The category list becomes the multi-select's list without that id. A list without duplicates stays without duplicates. |
| AddNew.AddNewPage.ChooseMajor | app/admin/addnew/page.tsx:275-280 | The major list becomes what the multi-select emits. When it emits nothing the form is unchanged. A list without duplicates stays without duplicates. |
| AddNew.AddNewPage.RemoveMajor | app/admin/addnew/page.tsx:275-280 | The major list becomes the multi-select's list without that id. A list without duplicates stays without duplicates. |
| AddNew.AddNewPage.Submit | app/admin/addnew/page.tsx:90-126 | A refused form shows the ladder's message, sends nothing and leaves `loading` alone. An accepted form sets `loading` and posts exactly the assembled body. |
| AddNew.AddNewPage.Complete | app/admin/addnew/page.tsx:128-148 | `loading` is false afterwards on every path. Success toasts and goes to /admin/home. A refusal toasts `ErrorMessage`, and an exception the default message. |
| Text.TrimEmptyIffBlank | app/admin/role-management/page.tsx:103 | `s.trim()` is empty exactly when `s` consists of whitespace only. |
| Sorting.Sort | app/magazine/page.tsx:68-77 | The sort returns a permutation of its input of the same length. |
| Sorting.SortIsSorted | app/magazine/page.tsx:68-77 | With a total, transitive comparison every pair of results is in order. |
| Sorting.SortOfTiesIsIdentity | app/magazine/page.tsx:74-75 | A comparison that ranks every pair as tied leaves the order unchanged, as the stable sort does. |
| Store.FindFirst | app/api/admin/users/route.ts:15-18 | A found row is stored and has the key. When nothing is found, no stored row has the key. |
| Store.FindFirstUnique | app/api/admin/users/route.ts:84-86 | On a unique column, looking up a stored row's key finds exactly that row. |
| Auth.Guard | app/api/admin/users/route.ts:6-25 | Grants access exactly for a truthy token that verifies, naming a stored account whose role the route allows. The caller is that account's id and role. The guard crashes exactly when the lookup throws. |
| Auth.CheckAdminAuth | app/api/admin/magazines/route.ts:6-23 | Only ADMIN or SUPER_ADMIN accounts pass, and never without a token. |
| Auth.CheckSuperAdminAuth | app/api/admin/users/route.ts:6-25 | Only SUPER_ADMIN accounts pass, and never without a token. |
| Auth.SuperAdminIsAdmin | app/api/admin/options/route.ts:7-20 | Whoever passes the super-admin guard passes the admin guard as the same caller. |
| Auth.TokenRoleIgnored | app/api/admin/magazines/route.ts:13-20 | The guards decide on the stored account's role, never on the role written in the token. |
| Login.SessionCookie | app/api/admin/auth/login/route.ts:63-68 | The `admin_token` cookie is HTTP-only, `lax`, secure exactly in production, and lives 604800 s (7 days). |
| Login.AuthenticateUser | lib/auth.ts:31-47 | Throws exactly when the database does. A returned user is the public part of a stored account with that email whose hash accepts the password. With no such account the answer is "no user". When the account found by email accepts the password, its public part is returned. |
| Login.CorrectCredentialsAuthenticate | lib/auth.ts:31-47 | With unique emails, authentication succeeds exactly when the account with that email accepts the password, and then answers that account. |
| Login.LoginResult | app/api/admin/auth/login/route.ts:7-93 | An unparsable body gives 500. A missing email or password gives 400 whatever the database holds. Then, in order: an authentication exception gives 500, no match 401, a non-admin role 403, a failed token signing 500 with the token message, and an unwritable cookie store 500 with the cookie message; each status and message holds exactly when its case occurs. Success, exactly when all checks pass, returns 200 with exactly id, email, name and role. |
| Login.SuccessIsAuthenticatedAdmin | app/api/admin/auth/login/route.ts:34-85 | A 200 answer is the public part of a stored admin account whose email was given and whose hash accepts the password. |
| Login.Post | app/api/admin/auth/login/route.ts:7-93 | Answers `LoginResult`. It sets the `admin_token` cookie to the signed token on success only, and leaves the cookies untouched on every failure. |
| Me.Me | app/api/admin/auth/me/route.ts:6-50 | No token gives 401. A token that fails verification gives 401. A database failure gives 500. A missing user or a non-admin role gives 403. Otherwise 200 with the account's id, email, name and role. |
| Me.MeAgreesWithAdminGuard | app/api/admin/auth/me/route.ts:17-40 | The route answers 200 exactly for the callers the admin guard of the other routes accepts, as the same account. It answers 500 exactly when that guard crashes. |
| Me.LoginThenMe | app/api/admin/auth/me/route.ts:25-42 | After a successful login, the cookie it set makes this route return the same account, when ids are unique and verification accepts what the signer issued. |
| UsersRoute.ListedAccounts | app/api/admin/users/route.ts:37-45 | Exactly the ADMIN and SUPER_ADMIN accounts, each as often as stored, newest `createdAt` first. |
| UsersRoute.GetAsWritten | app/api/admin/users/route.ts:27-63 | As written: 401 and 500 as for `Get`. On success each row carries the stored password hash of its account. |
| UsersRoute.ListingAsWrittenSendsHash | app/api/admin/users/route.ts:46-55 | A super admin listing the users receives its own bcrypt hash in the response. |
| UsersRoute.Get | app/api/admin/users/route.ts:27-63 | Corrected listing. Non-super-admins get 401 and a failed lookup 500. Success sends exactly the rows of `ListedAccounts`: a reordering of the stored ADMIN and SUPER_ADMIN accounts, every row one of theirs and each of them present, newest first, each with its magazine ids and without its hash. |
| UsersRoute.ListedRowsArePermutation | app/api/admin/users/route.ts:37-55 | The listed rows are the rows of the stored admin accounts, each as often as stored. |
| UsersRoute.ListingIgnoresPasswords | app/api/admin/users/route.ts:37-55 | The corrected listing is the same for two tables that differ only in their password hashes. |
| UsersRoute.NewAccount | app/api/admin/users/route.ts:96-104 | The stored account holds `hash(password)`, not the password. The name is null and the role ADMIN when they are not given. |
| UsersRoute.PostResult | app/api/admin/users/route.ts:65-122 | In order: 401 for non-super-admins, 500 for a failed lookup or unparsable body, 400 for a missing email or password, 400 when the email is already stored. Every other granted request with a body succeeds with 200, id, email, name, role and creation time, and no password. |
| UsersRoute.PostKeepsKeysUnique | app/api/admin/users/route.ts:85-112 | A successful create keeps emails and ids unique in the table, given a fresh generated id. |
| UsersRoute.Post | app/api/admin/users/route.ts:65-122 | Answers `PostResult`. It appends the new account on success only, and leaves the table unchanged on every refusal. |
| MagazinesRoute.AuthorOf | app/api/admin/magazines/route.ts:40-45 | An included author is the name and email of the stored account with the magazine's `authorId`. |
| MagazinesRoute.SortedMagazines | app/api/admin/magazines/route.ts:35-38 | Every magazine, as often as stored, in descending `createdAt` order. |
| MagazinesRoute.Get | app/api/admin/magazines/route.ts:25-62 | Non-admins get 401 and a failed lookup 500. Success lists every magazine, each as often as stored (a multiset permutation of the listings), newest first, with its author and page ids. |
| MagazinesRoute.ListingIsPermutation | app/api/admin/magazines/route.ts:35-53 | The listing of the sorted magazines is a reordering of the listing of all magazines. |
| MagazinesRoute.CreatedPages | app/api/admin/magazines/route.ts:91-96 | One page per input page, in order, keeping `pageNumber` and `imageUrl`. Falsy content becomes null. |
| MagazinesRoute.NewMagazine | app/api/admin/magazines/route.ts:83-97 | The stored magazine keeps title, description, cover, status and the parsed date. Its author is the caller and its pages are `CreatedPages`. |
| MagazinesRoute.PostResult | app/api/admin/magazines/route.ts:64-118 | 401 for non-admins. 500 for a failed lookup or unparsable body. 400 for a missing title, cover, or missing or empty page list. 500 for an invalid publish date. Every granted request with a complete body and a valid date succeeds with 200, the created magazine and its author. |
| MagazinesRoute.AuthorIsCaller | app/api/admin/magazines/route.ts:90 | The created magazine's `authorId` is the id of the admin account named by the caller's token. |
| MagazinesRoute.CreatedMagazineIsListed | app/api/admin/magazines/route.ts:35-110 | A created magazine appears in the listing that follows, which has grown by one. |
| MagazinesRoute.Post | app/api/admin/magazines/route.ts:64-118 | Answers `PostResult`. It appends the magazine on success only, and leaves the table unchanged on every refusal. |
| OptionsRoute.Get | app/api/admin/options/route.ts:22-42 | Non-admins get 401 and a failed lookup 500. Otherwise 200 with both lists as stored. |
| OptionsRoute.PostResult | app/api/admin/options/route.ts:44-74 | 401 for non-admins. 500 for a failed lookup or unparsable body. 400 for a missing name or type. 400 for a type other than "category" or "major". Every granted request with a name and one of those two types succeeds with 201 and the created row. |
| OptionsRoute.Post | app/api/admin/options/route.ts:44-74 | A "category" goes into categories only and a "major" into majors only. Every refusal leaves both tables unchanged. |
| OptionsRoute.Without | app/api/admin/options/route.ts:86-89 | The table after the delete keeps exactly the rows with another id. |
| OptionsRoute.RemovesExactlyThatRow | app/api/admin/options/route.ts:86-89 | On a unique id column the delete removes exactly one row, the one found, and nothing else. |
| OptionsRoute.DeleteResult | app/api/admin/options/route.ts:77-105 | 401 for non-admins. 500 for a failed lookup or absent params. 400 for a missing id or type. 400 for an unknown type. 500 with the delete-error message when the table the type names has no row with the id. Otherwise 200. |
| OptionsRoute.Delete | app/api/admin/options/route.ts:77-105 | The row leaves the table its type names and the other table is untouched. Every refusal leaves both unchanged. |

## Left out

- The page-flip engine is abstract. Its geometry, animation, how `flipNext`/`flipPrev` clamp, and `loadFromHTML`/`updateFromHtml` belong to a foreign library.
- Reader plumbing is not modelled: the 100 ms initialisation timer, listener attach/detach, the CSS class toggles and the `onFlip` callback forwarded to the parent.
- HeroCarousel.Carousel.MouseUp: pointer positions are exact real numbers; the rounding of the double-precision subtraction `clientX - startX` is not modelled.
- MagazineReader.StripEndsWithLastPage: the one-page clause requires `delta >= 0`; the reader always passes 2.
- MagazineReader.StripShowsCurrentPage: requires `delta >= 0`; the reader always passes 2.
- MagazineReader.StripEllipsesNotAdjacent: requires `delta >= 0`; the reader always passes 2.
- MagazineReader.StripMarksSkippedPages: requires `delta >= 0`; the reader always passes 2.
- MagazineReader.StripHighlightsOneButton: requires `delta >= 0`; the reader always passes 2.
- MagazineReader.DisabledButtonsMatchStrip: requires `delta >= 0`; the reader always passes 2.
- The carousel's auto-slide timer, its hover pause, and the CSS transforms are not modelled. They are timers and styling.
- MagazineList.FilterMagazines: the in-place `sort` of the filtered copy is modelled on values. Aliasing of the array is not captured.
- MagazineList.TitleOrder: `toLowerCase` and `localeCompare` are parameters. The title order is proved only when `localeCompare` is a consistent comparison.
- MagazineList.EmptySearchKeepsPublished: assumes that lower-casing "" gives "".
- AdminHome.EmptyFiltersShowAll: assumes that lower-casing "" gives "".
- On the admin dashboard, the fetch of magazines and departments, `handleDelete`, the session check and navigation are network plumbing and are not modelled.
- The dashboard reads Vietnamese field names, while the magazines API answers with English ones. Each side is modelled against its own code.
- On the role-management page, the `loading` flag of `fetchUsers` is not modelled.
- The `/api/admin/users/{id}` routes that its role changes and deletions call are not part of this model.
- On the new-magazine page, `checkAuth` and `fetchCategoriesAndMajors` are network plumbing and are not modelled.
- The page posts `FormData` with Vietnamese field names, while the magazines route reads JSON with English ones. No end-to-end round trip is claimed.
- The JWT library, bcrypt and `new Date` are parameters. Token expiry ('7d') is part of the verification parameter, and the bcrypt salt is part of the hash parameter.
- Every route's database is one `online` flag. A database that fails between two queries of the same request is not modelled; the create after a passed guard is one example.
- Console logging is not modelled. This includes the login route logging the request body with its plaintext password.
- The development-only `details` field of the options route's 500 answers is not modelled.
- MagazinesRoute.NewMagazine: page entries of the body are typed. Malformed entries, which Prisma would refuse with a 500, are not modelled. An absent `status` is stored as `None` and stands for the column's default; the database schema is not part of this model.
- MagazinesRoute.SortedMagazines and UsersRoute.ListedAccounts order rows with equal `createdAt` as a stable sort would. The database leaves that order open.
- The logout route, the public magazines route, database seeding, and the UI-only components and pages are not part of this model.

## Findings

| source | as written | input that shows it | evidently intended | confidence | as-written member | corrected member |
|---|---|---|---|---|---|---|
| app/api/admin/users/route.ts:46-55 | `findMany` uses `include` without `select`, so every scalar column of each account is returned, including `password` (the bcrypt hash). | A super admin's `GET /api/admin/users` with one stored account returns `password: "$2a$12$hash"` in the JSON. | The listing omits the hash, as the create (`select` without `password`), login and session routes do. | high (not executed) | UsersRoute.GetAsWritten | UsersRoute.Get |
