# Master BJJ access and role logic, in Dafny

This project models the decision logic of a martial-arts academy web
application. The application is built with Next.js and a hosted auth/database
service. Rendering is not modelled, and neither are the hosted services
themselves. Every call to the auth service, the `users` table, the key-value
store or the browser's local storage whose outcome the code looks at becomes an
input: the outcome the call produced (`Services.Call`: it threw, it returned
an error, or it returned data). A call whose result the code ignores, such as
the middleware's sign-out after an error, is recorded as an output instead.

What is modelled:

- **Gates.** The request middleware and the two sign-in callbacks: the
  magic-link callback and the Google OAuth callback. Each is its own function
  to one decision or redirect (`Middleware`, `AuthCallback`, `GoogleCallback`).
  - The middleware takes the request path and the outcomes of the session
    read and the profile read.
  - The magic-link callback takes the `code` parameter and the outcomes of the
    code exchange, of storing the session and of the profile read. It also
    takes whether it runs in production, which sets the cookie's `secure` flag.
  - The Google callback takes the `code` parameter, the outcomes of the code
    exchange, the profile read and the profile insert, and the timestamp
    written to a new row.
  - All three rely on one "profile complete" predicate: first name, last name
    and phone are all truthy.
  - They still disagree. A missing profile row goes to sign-in, to
    `error=profile`, or to profile creation, depending on the gate. A complete
    profile lands on `/home` from one callback and on `/dashboard` from the
    other. `GateComparison` states these disagreements side by side.
- **Roles.** The role helpers of `lib/auth.ts`: the fixed demonstration
  accounts, the role checks, the role-based landing page, and the
  local-storage user (`AuthLib`). Also the sidebar's role filter (`Sidebar`),
  the role-based navigation panel (`RoleBasedNav`) and the students page's
  role guard (`StudentsPage`).
- **Data transforms.**
  - Splitting a display name at its first space (`Common.SplitAtFirstSpace`,
    `Database.NewProfile`).
  - The case-insensitive searches (`Common`, `UserManagement`, `StudentsPage`).
  - The role update by id (`UserManagement.SetRole`).
  - The two error-code lookups, one total and one not (`ErrorPage`,
    `CallbackErrorPage`).
- **Client state machines.** Each is a class whose methods update its fields:
  - the auth context (`AuthProvider.Provider`), proved against the
    specification function `AuthProvider.Refresh`;
  - the password sign-in form (`LoginForm.Form`);
  - the sign-up form (`SignUpForm.Form`);
  - the profile-completion page (`CompleteProfile.Page`);
  - the home page's loading gate (`HomePage.Page`);
  - the admin user table (`UserManagement.Table`).
- **Rate limiter.** A counter per identifier in a shared store, with five
  attempts allowed (`RateLimiter`).

Router navigation is recorded as a sequence of pushed paths. Inserts and
updates sent to the `users` table are recorded the same way, so each method's
contract can say what it sent and where it went.

## Model

| member | source | states |
|---|---|---|
| Common.StartsWithPrefix | middleware.ts:35 | a path that starts with a prefix also starts with every prefix of that prefix |
| Common.PrefixesDisagree | middleware.ts:6-10 | two prefixes that differ at some position cannot both start the same path |
| Common.Includes | components/admin/user-management.tsx:98-101 | `includes` holds exactly when the term occurs at some index, and always for the empty term |
| Common.ToLower | components/admin/user-management.tsx:96 | lower-casing keeps the length and lower-cases each character on its own |
| Common.ToLowerIdempotent | app/dashboard/students/page.tsx:51 | lower-casing twice is the same as lower-casing once |
| Common.IncludesIgnoringCase | app/dashboard/students/page.tsx:51 | the empty search term is found in every string |
| Common.ExactMatchIsFound | components/admin/user-management.tsx:98 | every exact occurrence is also found by the case-insensitive search |
| Common.SearchIgnoresCaseOfTerm | app/dashboard/students/page.tsx:51 | a term and its lower-case form find the same strings |
| Common.Filter | components/dashboard/sidebar.tsx:106-108 | `filter` never makes a list longer |
| Common.FilterKeeps | components/dashboard/sidebar.tsx:106-108 | `filter` keeps exactly the elements that pass, each as many times as it occurs in the input, and the result is an order-preserving sublist |
| Common.FilterAllPass | components/admin/user-management.tsx:95-103 | when every element passes, `filter` returns the list unchanged |
| Common.FilterAgreeing | app/dashboard/students/page.tsx:50-52 | two tests that agree on every element filter to the same list |
| Common.FirstSpace | app/api/auth/callback/google/route.ts:56 | the index of the first space: no space before it, and a space at it unless it is the end |
| Common.SplitAtFirstSpace | app/api/auth/callback/google/route.ts:56-57 | the first part has no space; with a space the name is first + " " + rest, and without one the rest is "" |
| Database.ParseRole | lib/types/database.ts:1 | exactly the three role names parse, each to the role it names |
| Database.RoleNameRoundTrip | lib/types/database.ts:1 | naming a role and parsing the name gives the role back |
| Database.ApplyUpdate | lib/types/database.ts:31-40 | an update never changes `id` or `created_at`; every field it carries takes the given value (a role is stored by its name), an omitted role is kept, as are the three profile fields when all three are omitted, and an empty update changes nothing |
| Database.RowComplete | app/auth/callback/route.ts:50 | a row is complete exactly when first name, last name and phone are each non-null and non-empty |
| Database.ProfileWrite | components/auth/login-form.tsx:101-109 | the profile forms' update sets only first name, last name and phone |
| Database.ProfileWriteCompletes | app/auth/complete-profile/page.tsx:73-81 | the three-field write completes a row exactly when all three values are non-empty, and keeps every other column |
| Database.NewProfile | app/api/auth/callback/google/route.ts:49-63 | a first profile is a student, not anonymous, from Google, with no phone; its names come from the first-space split, "" for both when there is no name |
| Services.MessageOr | components/auth/login-form.tsx:83 | `error?.message` or the fallback, never empty when the fallback is not |
| Middleware.IsPublicRoute | middleware.ts:45 | a path that starts with a public route lies under `/auth/` and is never the root or a callback path |
| Middleware.FieldsComplete | middleware.ts:72-73 | the every-field test over `PROFILE_FIELDS` holds exactly when the row is complete |
| Middleware.Decide | middleware.ts:34-86 | a sign-out follows only a thrown call and goes to sign-in; redirects go only to sign-in, `/dashboard` or completion; without a session only `/`, callbacks and public routes pass; signed in, outside `/auth/`, only a complete profile passes |
| Middleware.Respond | middleware.ts:17-22 | a pass becomes the next response with the three security headers; a redirect goes to the decided path on the request's origin and port; only a sign-out decision signs out |
| Middleware.Handle | middleware.ts:24-87 | a sign-out happens only after a thrown call and lands on sign-in; every redirect goes to sign-in, `/dashboard` or completion; no protected page is served without a session, nor outside `/auth/` without a complete profile |
| Middleware.RedirectResponse | middleware.ts:17-22 | a redirect keeps the request's origin and port |
| Middleware.OutsideAuthIsProtected | middleware.ts:59 | a path outside `/auth/` is not public, not a callback, and not the profile-completion page |
| Middleware.RootAndCallbacksPass | middleware.ts:35-37 | `/` and every `/auth/callback...` path pass whatever the session and profile are |
| Middleware.PublicRouteDecision | middleware.ts:45-51 | a public route sends a signed-in visitor to `/dashboard` and lets anyone else through |
| Middleware.PublicMatchIsByPrefix | middleware.ts:45 | any extension of a public route is public |
| Middleware.ProtectedWithoutSession | middleware.ts:54-56 | with no session (or a session error), any other path goes to `/auth/sign-in` |
| Middleware.ProfileGate | middleware.ts:59-77 | signed in, outside `/auth/`: a profile error (a missing row included) goes to sign-in, an incomplete profile to completion, a complete one passes |
| Middleware.AuthPagesSkipProfileCheck | middleware.ts:59-80 | signed in, on a non-public `/auth/` page: the request passes without a profile check |
| Middleware.CompleteProfileExclusionIsRedundant | middleware.ts:75 | the `/auth/complete-profile` exclusion never changes a decision |
| Middleware.ExceptionsSignOut | middleware.ts:81-86 | a thrown session or profile call signs out and goes to `/auth/sign-in` |
| Middleware.ResponseShape | middleware.ts:24-87 | exactly the passing responses carry the three security headers; redirects keep origin and port; only exceptions sign out |
| AuthCallback.Callback | app/auth/callback/route.ts:7-72 | every error is `code`, `session`, `profile` or `callback`; a page is reached only with a code, a signed-in exchange, a session stored without a throw and a profile row, and it is `/home` exactly when the row is complete, completion otherwise |
| AuthCallback.MissingCode | app/auth/callback/route.ts:11-16 | without a code the result is `error=code`, whatever the services would say |
| AuthCallback.SessionFailures | app/auth/callback/route.ts:24-32 | an exchange error and a session without a user both give `error=session` |
| AuthCallback.ProfileFailures | app/auth/callback/route.ts:44-47 | once the session is stored without a throw, every profile-read error, a missing row included, gives `error=profile` |
| AuthCallback.ProfileRowOutcome | app/auth/callback/route.ts:49-67 | once the session is stored without a throw, a complete row goes to `/home` with the cookie `welcome_back=true` (path `/`, 30 s, httpOnly, secure in production); an incomplete one goes to completion without a cookie |
| AuthCallback.ExceptionsGiveCallback | app/auth/callback/route.ts:18-71 | a thrown exchange, a thrown `setSession` after a signed-in exchange, or a thrown profile read gives `error=callback` |
| AuthCallback.CookieOnlyForHome | app/auth/callback/route.ts:57-67 | a cookie is set exactly on the way to `/home` |
| AuthCallback.EveryErrorHasAMessage | app/auth/callback/error.tsx:8-12 | every error code the callback emits has a message on the callback error page |
| GoogleCallback.Callback | app/api/auth/callback/google/route.ts:8-85 | every error is one of its six codes; a page is `/dashboard` or completion, and `/dashboard` only for a signed-in user with a complete row; a profile is inserted only after a PGRST116 read, and it is the initial profile of the session's user |
| GoogleCallback.MissingCode | app/api/auth/callback/google/route.ts:12-17 | without a code the result is `missing_code`, and nothing is inserted |
| GoogleCallback.SessionFailures | app/api/auth/callback/google/route.ts:26-34 | an exchange error gives `invalid_session`, a session without a user gives `missing_user` |
| GoogleCallback.ReadErrors | app/api/auth/callback/google/route.ts:43-46 | a read error other than PGRST116 gives `user_error` and inserts nothing |
| GoogleCallback.AbsentProfileIsCreated | app/api/auth/callback/google/route.ts:49-70 | PGRST116 inserts the initial profile; a successful insert goes to completion, a failed one to `profile_creation_failed` |
| GoogleCallback.InitialProfileShape | app/api/auth/callback/google/route.ts:53-63 | the insert is a Google student, not anonymous, with no phone, named by splitting `full_name` at its first space |
| GoogleCallback.ExistingProfileOutcome | app/api/auth/callback/google/route.ts:74-79 | an existing row goes to completion when incomplete and to `/dashboard` when complete |
| GoogleCallback.InsertOnlyWhenAbsent | app/api/auth/callback/google/route.ts:43-49 | a profile is inserted exactly when there is a code, a signed-in user and a PGRST116 read |
| GoogleCallback.ExceptionsGiveUnexpectedError | app/api/auth/callback/google/route.ts:81-84 | any thrown call gives `unexpected_error` |
| GoogleCallback.ErrorCodesOnErrorPage | app/auth/error/page.tsx:14-51 | every code the Google callback emits except `user_error` is a key of the error page; `user_error` shows the unexpected-error text |
| AuthLib.FindAccount | lib/auth.ts:39-41 | `find` returns the first account matching both email and password, and none exactly when no account matches |
| AuthLib.Authenticate | lib/auth.ts:35-47 | a user exactly when some account matches both email and password, and then that account without its password |
| AuthLib.DemoAccountsSignIn | lib/auth.ts:11-33 | the demo admin signs in with "password" and gets its record; a wrong password gets null |
| AuthLib.GetUserProfile | lib/auth.ts:49-84 | the profile only for a signed-in session with a successful read; null for every error, and it never throws |
| AuthLib.CheckUserRole | lib/auth.ts:124-128 | false without a profile; otherwise whether the profile's role is allowed |
| AuthLib.IsAdmin | lib/auth.ts:130-132 | true exactly for a signed-in user whose profile reads with role `admin` |
| AuthLib.IsInstructor | lib/auth.ts:134-136 | true exactly for a signed-in user whose profile reads with role `admin` or `instructor` |
| AuthLib.AdminIsInstructor | lib/auth.ts:130-136 | every admin also passes the instructor check |
| AuthLib.RoleBasedRedirect | lib/auth.ts:138-147 | admin goes to `/admin/dashboard`, instructor to `/instructor/dashboard`, every other string to `/dashboard` |
| AuthLib.UserStorage.GetUser | lib/auth.ts:168-172 | the stored user, and null exactly when the key "user" is absent |
| AuthLib.UserStorage.SetUser | lib/auth.ts:174-176 | afterwards `getUser` returns the user; other keys are untouched |
| AuthLib.UserStorage.RemoveUser | lib/auth.ts:178-180 | afterwards `getUser` returns null; other keys are untouched |
| AuthLib.UserStorage.SignOut | lib/auth.ts:149-166 | a successful sign-out clears the stored user; an error is passed on and the store is unchanged |
| RateLimiter.Remaining | lib/rate-limiter.ts:32-35 | `max(0, 5 - count)`: always in [0, 5], and 0 from five attempts on |
| RateLimiter.KeyFor | lib/rate-limiter.ts:15 | the key is `rate_limit:` followed by the identifier |
| RateLimiter.KeysAreDistinct | lib/rate-limiter.ts:13-16 | different identifiers get different counters |
| RateLimiter.Limiter.constructor | lib/rate-limiter.ts:13-16 | the limiter's key for the identifier, over the shared store |
| RateLimiter.Limiter.Increment | lib/rate-limiter.ts:18-30 | adds one to this counter only, and allows exactly when the new count is at most 5 |
| RateLimiter.Limiter.GetRemainingAttempts | lib/rate-limiter.ts:32-35 | the remaining attempts for the counter, 5 when there is none |
| RateLimiter.Limiter.Reset | lib/rate-limiter.ts:37-39 | deletes this counter only, so all five attempts are back |
| RateLimiter.CheckRateLimit | lib/rate-limiter.ts:42-56 | counts one attempt; `resetIn` is 900 seconds exactly when the attempt is refused |
| RateLimiter.Limiter.IncrementTimes | lib/rate-limiter.ts:18-30 | k increments in a row answer `Run(start, k)` and raise this counter, and no other, by k |
| RateLimiter.Run | lib/rate-limiter.ts:18-30 | k increments in a row report k answers |
| RateLimiter.RunAllowed | lib/rate-limiter.ts:29 | the i-th increment from counter value `start` is allowed exactly when `start + i + 1 <= 5` |
| RateLimiter.FiveAllowedThenDenied | lib/rate-limiter.ts:4 | from an empty store the first five attempts are allowed and the sixth is refused |
| RateLimiter.SixAttemptsOnFreshStore | lib/rate-limiter.ts:4-30 | six increments on a fresh store answer allowed five times, then refused, and leave the counter at 6 |
| Sidebar.ProfileRole | components/dashboard/sidebar.tsx:107 | the profile's role when it is one of the three names; none without a profile or with a null or unknown role |
| Sidebar.FilteredItems | components/dashboard/sidebar.tsx:106-108 | the filtered list is no longer than the item list |
| Sidebar.FilteredItemsAreVisible | components/dashboard/sidebar.tsx:106-108 | the shown items are exactly the visible ones, in the list's order |
| Sidebar.ShownIffVisible | components/dashboard/sidebar.tsx:106-108 | an item is shown exactly when it has no role list or the profile's role is in it |
| Sidebar.NoRoleShowsUnrestricted | components/dashboard/sidebar.tsx:41-108 | without a role only the role-less items are shown: Dashboard, Classes, Techniques Library and Profile Settings |
| Sidebar.StudentItems | components/dashboard/sidebar.tsx:57-68 | My Progress and Achievements are shown exactly to students |
| Sidebar.StaffItems | components/dashboard/sidebar.tsx:69-74 | Student Management is shown exactly to admins and instructors |
| Sidebar.InstructorItems | components/dashboard/sidebar.tsx:75-92 | the three instructor items are shown exactly to instructors, so not to admins |
| Sidebar.AdminItems | components/dashboard/sidebar.tsx:93-98 | the Admin Panel is shown exactly to admins |
| Sidebar.HrefsDistinct | components/dashboard/sidebar.tsx:41-104 | different pages have different links |
| Sidebar.AtMostOneActive | components/dashboard/sidebar.tsx:126-129 | a path highlights at most one item |
| RoleBasedNav.LinksFor | components/layout/role-based-nav.tsx:68 | any role outside the three names gets the student links |
| RoleBasedNav.IconFor | components/layout/role-based-nav.tsx:67 | shield exactly for admin, cap exactly for instructor, the user icon for everything else |
| RoleBasedNav.ColourFor | components/layout/role-based-nav.tsx:73 | a colour exactly for the three role names |
| RoleBasedNav.Nav.constructor | components/layout/role-based-nav.tsx:55 | no profile before the effect runs |
| RoleBasedNav.Nav.LoadProfile | components/layout/role-based-nav.tsx:57-63 | the profile becomes what `getUserProfile` yields: a row only for a signed-in session with a successful read |
| RoleBasedNav.Nav.Render | components/layout/role-based-nav.tsx:65-76 | nothing without a profile; otherwise the links of the profile's role |
| RoleBasedNav.LinkCounts | components/layout/role-based-nav.tsx:21-39 | admin and instructor get four links; students and every other role get the three student links |
| RoleBasedNav.FirstLinkIsDashboard | components/layout/role-based-nav.tsx:21-39 | every role's first link is `/dashboard` |
| RoleBasedNav.AtMostOneActive | components/layout/role-based-nav.tsx:86 | a path highlights at most one link |
| StudentsPage.FilteredStudents | app/dashboard/students/page.tsx:50-52 | the filtered list is no longer than the student list |
| StudentsPage.Page | app/dashboard/students/page.tsx:45-52 | the page redirects to `/dashboard` exactly when there is no stored admin or instructor; otherwise it shows the filtered list |
| StudentsPage.GuardedRoles | app/dashboard/students/page.tsx:45-48 | admins and instructors see the list; the practitioner account and a missing user are redirected |
| StudentsPage.FilteredStudentsMatch | app/dashboard/students/page.tsx:50-52 | the shown students are exactly those whose name contains the term ignoring case, in list order |
| StudentsPage.EmptySearchShowsAll | app/dashboard/students/page.tsx:50-52 | an empty search shows every student |
| StudentsPage.SearchIgnoresCase | app/dashboard/students/page.tsx:51 | a term and its lower-case form show the same students |
| UserManagement.WithDefaultRole | components/admin/user-management.tsx:54 | a null role becomes `student`; nothing else changes, and a row with a role is kept |
| UserManagement.DefaultRoles | components/admin/user-management.tsx:52-55 | each loaded row gets its default role; length and order are kept |
| UserManagement.SetRole | components/admin/user-management.tsx:78-80 | the rows with the id get the new role, all others are kept; length, order and ids are kept |
| UserManagement.SetRoleChangesOnlyRole | components/admin/user-management.tsx:78-80 | only the role column changes, and the updated rows carry the new role as a declared role |
| UserManagement.SetRoleIdempotent | components/admin/user-management.tsx:78-80 | setting a role twice is setting it once; an id no row has changes nothing |
| UserManagement.SearchUsers | components/admin/user-management.tsx:95-103 | the search never makes the list longer |
| UserManagement.SearchKeepsMatches | components/admin/user-management.tsx:95-103 | the search keeps exactly the users whose email, names or role contain the term ignoring case, every copy of each, in order |
| UserManagement.EmptySearchKeepsAll | components/admin/user-management.tsx:96-101 | an empty term keeps every user |
| UserManagement.EmailMatchIsFound | components/admin/user-management.tsx:98 | a user whose email contains the term exactly is always found |
| UserManagement.Table.constructor | components/admin/user-management.tsx:33-35 | no users, loading, an empty search |
| UserManagement.Table.LoadUsers | components/admin/user-management.tsx:42-67 | a successful load replaces the rows with the defaulted rows in order; an error keeps them; loading ends either way |
| UserManagement.Table.UpdateUserRole | components/admin/user-management.tsx:69-93 | a successful update sets the role of the matching rows; an error leaves the table unchanged |
| UserManagement.Table.SetSearchTerm | components/admin/user-management.tsx:35 | only the search term changes |
| AuthProvider.Refresh | providers/auth-provider.tsx:34-125 | loading always ends; a profile is kept only for a signed-in session, with that session's user; the only push is profile completion and it comes with a profile; a first profile is inserted exactly when signed in and the read returned an error |
| AuthProvider.RefreshSettles | providers/auth-provider.tsx:34-125 | every refresh ends with loading finished, pushes only profile completion, and keeps a user exactly when signed in (or after a throw, the previous one) |
| AuthProvider.RefreshWithoutSession | providers/auth-provider.tsx:39-49 | a session error or no session clears user and profile, ends loading, and does not navigate |
| AuthProvider.RefreshExistingProfile | providers/auth-provider.tsx:68-82 | an existing row is stored and pushes profile completion exactly when incomplete; nothing is inserted |
| AuthProvider.RefreshCreatesProfile | providers/auth-provider.tsx:84-120 | any read error inserts a first profile; a successful insert is stored and pushes completion; a failed one leaves no profile and no push |
| AuthProvider.FirstProfileIsIncomplete | providers/auth-provider.tsx:92-102 | the inserted profile is a student without a phone |
| AuthProvider.UseAuth | providers/auth-provider.tsx:195-201 | outside a provider it throws its message; inside it returns the context |
| AuthProvider.Provider.constructor | providers/auth-provider.tsx:25-29 | user null, profile null, loading |
| AuthProvider.Provider.RefreshProfile | providers/auth-provider.tsx:34-125 | the new state, the pushes and the inserts are those of `Refresh` from the old state |
| AuthProvider.Provider.UpdateProfile | providers/auth-provider.tsx:127-147 | with no user id nothing is sent; otherwise the update is sent for that id; success refreshes and then goes to `/dashboard`; an error changes no state |
| AuthProvider.Provider.SignOut | providers/auth-provider.tsx:149-159 | unless the call throws, the state is signed out and the page goes to `/auth/sign-in`; a throw only ends loading |
| AuthProvider.Provider.OnAuthStateChange | providers/auth-provider.tsx:166-173 | with a session while mounted it refreshes; otherwise it signs the state out |
| AuthProvider.Provider.Unmount | providers/auth-provider.tsx:179-182 | clears the mounted flag and nothing else |
| LoginForm.Form.constructor | components/auth/login-form.tsx:28-40 | empty sign-in and profile fields, no error, not loading, no profile form |
| LoginForm.Form.HandleInputChange | components/auth/login-form.tsx:131-138 | the three profile names go to the profile data, every other name to the sign-in data, and only that key changes |
| LoginForm.Form.HandleSubmit | components/auth/login-form.tsx:42-92 | loading ends; a failed sign-in shows its message or the fallback; PGRST116 or an incomplete row shows the profile form; a complete row goes to `/home`; any other read error is shown |
| LoginForm.Form.HandleProfileSubmit | components/auth/login-form.tsx:94-129 | the three fields are sent for the stored user id; success goes to `/home`; failure shows the message or "Failed to update profile" |
| LoginForm.SignInFailureHasMessage | components/auth/login-form.tsx:82-83 | a failed sign-in always leaves a non-empty message, the fallback when the service gave none |
| LoginForm.ProfileOutcomesPartition | components/auth/login-form.tsx:66-80 | after sign-in exactly one of profile form, `/home` or read error applies |
| CompleteProfile.OrEmpty | app/auth/complete-profile/page.tsx:53-55 | a truthy value is kept, anything else becomes "" |
| CompleteProfile.Page.constructor | app/auth/complete-profile/page.tsx:28-33 | empty fields, not loading |
| CompleteProfile.Page.CheckSession | app/auth/complete-profile/page.tsx:36-61 | no session goes to `/auth/sign-in` without prefilling; a stored row prefills each field with null as ""; otherwise nothing changes |
| CompleteProfile.Page.HandleSubmit | app/auth/complete-profile/page.tsx:63-100 | loading ends; without a session nothing is sent and the error is reported; with one the three fields are sent for the session user; success goes to `/home` |
| CompleteProfile.PrefillRoundTrip | app/auth/complete-profile/page.tsx:51-57 | submitting the prefilled fields unchanged completes the row exactly when it was complete |
| HomePage.ServiceLoad | app/home/page.tsx:31 | `getUserProfile` never throws, and gives a profile only for a signed-in session with a successful read |
| HomePage.Page.constructor | app/home/page.tsx:22-23 | no profile, loading, mounted |
| HomePage.Page.LoadProfile | app/home/page.tsx:29-50 | after unmount nothing changes; a throw goes to `/auth/sign-in`; no or an incomplete profile goes to completion; a complete one is stored; loading ends |
| HomePage.Page.Unmount | app/home/page.tsx:54-56 | clears the mounted flag and nothing else |
| HomePage.Page.Render | app/home/page.tsx:59-70 | a spinner exactly while loading, then nothing exactly when there is no profile |
| SignUpForm.Form.constructor | components/auth/sign-up-form.tsx:20-23 | empty email, no error, not loading, not sent |
| SignUpForm.Form.SetEmail | components/auth/sign-up-form.tsx:68 | only the email changes |
| SignUpForm.Form.OnSubmit | components/auth/sign-up-form.tsx:25-49 | loading ends; success marks the link sent; a returned error shows its message; a throw shows the fixed text; errors leave `isSent` alone |
| SignUpForm.Form.UseDifferentEmail | components/auth/sign-up-form.tsx:95-98 | email back to "" and not sent |
| ErrorPage.SafeCode | app/auth/error/page.tsx:47-50 | the parameter when it is a key, `unexpected_error` when it is missing, empty or unknown |
| ErrorPage.Lookup | app/auth/error/page.tsx:46-51 | the lookup is total: a known code gets its own entry, anything else the unexpected-error entry |
| CallbackErrorPage.Message | app/auth/callback/error.tsx:19 | a missing or empty parameter shows `default`; a key shows its message; any other parameter shows nothing |
| CallbackErrorPage.KnownCodesHaveOwnMessage | app/auth/callback/error.tsx:8-14 | `code`, `session`, `profile` and `callback` each show a message different from `default` |
| CallbackErrorPage.UnknownCodeShowsNothing | app/auth/callback/error.tsx:19 | an unknown code does not fall back to `default` |
| GateComparison.MissingRowDisagreement | middleware.ts:67-70 | for a missing row the middleware goes to sign-in and the magic-link callback to `error=profile`, while the Google callback and the provider insert a profile and, when the insert succeeds, go to completion |
| GateComparison.CompleteProfileLanding | app/auth/callback/route.ts:57 | a complete profile lands on `/home` from the magic-link callback and on `/dashboard` from the Google one, and the middleware passes it |
| GateComparison.IncompleteProfileAgreement | middleware.ts:72-77 | an incomplete profile goes to completion at every gate and in the provider, and the sign-in form asks for it |
| GateComparison.OneCompletenessPredicate | middleware.ts:72-73 | the middleware's field test and the callbacks' test are the same predicate |

## Left out

- Rendering, styling, icons' pictures, toasts and console logging are not modelled. An error path that shows a toast returns or records the message it reports, where that message is observable.
- The hosted auth and database service, the key-value store, cookies' storage and the router are collaborators. Their outcomes are inputs, and the model does not capture query semantics beyond error, row and no-row.
- `new Date().toISOString()` is a parameter `now`.
- The middleware's `signOut` call in its error handler is not an input: a throw from it, which would escape the handler, is not modelled.
- Redis key expiry (`expire` after each increment, lib/rate-limiter.ts:25) is not modelled. Counters never expire in the model.
- The multi/exec transaction is treated as one atomic step.
- Common.ToLower: models ASCII letters only. JavaScript's `toLowerCase` also folds non-ASCII letters.
- JSON serialisation of the local-storage user is not modelled (lib/auth.ts:171, 175). The store keeps `User` values, so a malformed stored string that makes `JSON.parse` throw cannot arise.
- `updateUserProfile` (lib/auth.ts:86-122) is not part of this model: no modelled page calls it.
- The `updated_at` key that the login and profile-completion forms send is not a column of the Update shape, so the model's update leaves it out.
- A null role is represented by the empty string.
- JavaScript property lookups that reach the object prototype are not modelled. Examples are a role or error code such as `constructor` or `toString` indexing `roleBasedLinks` or `errorMessages`. Lookups go through the three role names and the tables' own keys.
- Concurrency and asynchronous interleavings are not modelled:
  - each handler runs to completion with the outcomes it is given;
  - stale closures are not modelled (`updateUserRole` reads the `users` it captured, `updateProfile` the `state` it captured);
  - races between the provider's initial refresh and its subscription are not modelled.
- CompleteProfile.Page.CheckSession: a thrown call rejects the effect's promise unhandled. The model only leaves the page unchanged.
- AuthProvider.Provider.Unmount: unsubscribing from auth changes is not modelled. After unmount the model's handler still signs the state out when called without a session.
- Sidebar.NoRoleShowsUnrestricted: the shown list is stated by membership together with order (FilteredItemsAreVisible), not as an equality with a literal four-item list.
- Sidebar.IsActive and RoleBasedNav.IsActive are definitions; only "at most one active" is proved about them.
- The sign-in form's profile read selects three columns. It is modelled as a read of the whole row, of which only those three are used.
- Pages whose only logic is the local-storage role guard use the same guard as `StudentsPage.MayView`, with their own role list. Those pages are not modelled one by one; neither are the landing page, the dashboards, the class scheduler, the session timers (lib/session.ts), or the OAuth and one-time-password kick-off.
