# Internship-matching front end, modelled in Dafny

This project models the logic of a mocked internship-matching web front
end. Students search and apply for internships, and companies publish
internships and follow the applications.

The model covers these parts of the app:

- **Session container** (`AuthProvider`, module `Auth`). This is a class over the state record `{user, isAuthenticated, isLoading, error}`. It also holds the persisted `'user'` storage slot. Its methods are the start-up check, `login`, `register`, `logout` and `updateUser`.
- **Route table** (module `Routes`). A path resolves to the page it renders and to the role its guard demands.
- **Internship creation form** (module `CreateInternship`). This is a class with the three editable string lists and the `isSubmitting` flag. The copy-then-modify list helpers are pure functions.
- **Search pages** (modules `InternshipSearch` and `StudentSearch`). Each is one filter over a list.
- **Student pages** (modules `Applications` and `StudentDashboard`). These cover the status filter, the status label and colour maps, the expand toggle, the dashboard filter with its option lists, the lookups with fallbacks and the recent-items slices.
- **Company pages** (modules `CompanyDashboard` and `ManageInternships`). These cover the metric counts, the next deadline, the per-internship cards and the draft banner wording.
- **Internship details page** (module `InternshipDetails`). This is a class with the loading and apply flags, plus pure functions that decide which apply controls a viewer sees.

Shared modules:

- `Types` holds the records and string unions. Each union value has a `Name()` that returns the string the code compares against.
- `Queries` holds the lookups several pages repeat.
- `Seqs` holds the array operations the pages use: `filter`, `find`, `slice`, `flatMap` and `Set` deduplication.
- `Text` holds the string operations: ASCII case mapping, `includes`, `split('@')[0]`, capitalisation and decimal `toString`.
- `Wrappers` holds `Option`.

Modelling conventions:

- **Time.** Dates are integer timestamps. The current time is a parameter (`now`).
- **Storage.** The persisted slot is `Empty`, `Holds(user)` or `Corrupt`. `Corrupt` stands for text that `JSON.parse` rejects.
- **Storage failures.** A `writeFails` parameter stands for the storage write throwing. That is the one failure the `try` blocks can catch.
- **Navigation.** `navigate(...)` becomes a returned path.
- **Async handlers.** A handler that awaits is split at the `await` into a Begin and a Finish method.

Where the code departs from what its messages and the session invariant imply, the model follows the code:

- **Failed login or registration.** The catch writes back the state captured when the call began, with loading off and the error set. It does not force an anonymous state.
- **`updateUser`.** It neither clears `error` nor checks that a user is present. The missing check is recorded under Findings.

## Model

| member | source | states |
|---|---|---|
| Types.NamesDistinct | src/types/index.ts:1-63 | the string tags of user roles, internship statuses and application statuses are pairwise different, so comparing tags compares values |
| Auth.RoleFromEmail | src/contexts/AuthContext.tsx:74 | the mock role is company exactly when the email contains "company", otherwise student |
| Auth.LoginUser | src/contexts/AuthContext.tsx:70-77 | the logged-in user has the given email and id "123"; its name is the part of the email before the first '@' (the whole email if there is none); its role is company iff the email contains "company" and is never admin; both timestamps are the login time |
| Auth.MergeFields | src/contexts/AuthContext.tsx:162 | the update merge takes each supplied field from the patch and every other field from the current user, and always sets updatedAt to the update time |
| Auth.MergeTwice | src/contexts/AuthContext.tsx:162 | two successive updates equal one update whose patch overlays the second on the first |
| Auth.AuthProvider.constructor | src/contexts/AuthContext.tsx:23-28 | the container starts anonymous, loading and without error, over whatever storage holds; the session invariant holds |
| Auth.AuthProvider.CheckAuth | src/contexts/AuthContext.tsx:33-58 | a stored user is restored as an authenticated session with no error; an empty slot only turns loading off; unreadable storage gives an anonymous session with the authentication error; storage is unchanged and the invariant `isAuthenticated <==> user present` is preserved |
| Auth.AuthProvider.Login | src/contexts/AuthContext.tsx:64-103 | on success it stores and installs `LoginUser(email, now)`, authenticated, no error, and returns the dashboard of the user's role; if the storage write throws, the earlier user, authentication and storage stay, loading is off, the login error is set and nothing is navigated to; the invariant is preserved |
| Auth.AuthProvider.Register | src/contexts/AuthContext.tsx:105-144 | the same two outcomes for the registered user (id "123", the given email, name and role) and the profile page of its role |
| Auth.AuthProvider.Logout | src/contexts/AuthContext.tsx:146-155 | from any state, storage is cleared, the session is anonymous, not loading, without error, and the target is "/" |
| Auth.AuthProvider.UpdateUser | src/contexts/AuthContext.tsx:157-179 | as written: on success the stored and current user become the merge of the current user (a blank record when there is none) with the patch; authentication and error are untouched; on a failed write the user and storage stay and the update error is set; the invariant survives only when a user was present |
| Auth.AuthProvider.UpdateUserChecked | src/contexts/AuthContext.tsx:157-179 | corrected update: without a user it fails with the update error and installs nothing; otherwise as written; the invariant is always preserved |
| Auth.LoginThenReload | src/contexts/AuthContext.tsx:33-103 | a login persists the user so that a fresh container over the same storage restores the identical authenticated session; the target is the company dashboard iff the email contains "company" |
| Auth.RegisterThenReload | src/contexts/AuthContext.tsx:105-144 | a registration persists the new user so that a reload restores it, authenticated |
| Auth.LogoutThenReload | src/contexts/AuthContext.tsx:146-155 | after a logout a reload starts anonymous and without error |
| Auth.StartWithCorruptStorage | src/contexts/AuthContext.tsx:49-57 | unreadable storage ends start-up anonymous, not loading, with "認証に失敗しました" |
| Auth.UpdateWhileAnonymous | src/contexts/AuthContext.tsx:157-170 | as written, updating while anonymous installs a user while the session stays unauthenticated and no error is reported |
| Auth.UpdateWhileAnonymousChecked | src/contexts/AuthContext.tsx:157-179 | with the guard, the same call leaves the session anonymous and reports "ユーザー情報の更新に失敗しました" |
| Routes.PublicPages | src/App.tsx:28-30 | "/", "/ログイン", "/新規登録" and "/404" render their pages without a guard |
| Routes.StudentRoutesGuarded | src/App.tsx:34-65 | every path under "/学生/" that renders a page is guarded for the student role |
| Routes.CompanyRoutesGuarded | src/App.tsx:68-107 | every path under "/企業/" that renders a page is guarded for the company role |
| Routes.DetailsForAnyId | src/App.tsx:110-113 | "/インターンシップ/" followed by any non-empty segment without '/' renders the details page, unguarded |
| Routes.MessagesNeedsAnyUser | src/App.tsx:114-121 | "/メッセージ" is guarded without a role |
| Routes.CatchAll | src/App.tsx:124-125 | a path redirects exactly when no entry of the table matches it, and then to "/404" |
| Routes.EnglishLinksAreNotFound | src/App.tsx:125 | the English paths the pages link to ("/company/create-internship", "/company/manage-internships", "/student/search", "/student/applications", "/internship/101") all end in the "/404" redirect |
| Routes.RedirectsLandOnOwnRole | src/App.tsx:34-83 | the page `login` or `register` sends a user of role r to is guarded for role r; only the admin role gets no redirect |
| Routes.LoginLandsOnOwnDashboard | src/contexts/AuthContext.tsx:70-94 | a user who logs in is sent to the dashboard guarded for the role the email gives them |
| CreateInternship.AddListItem | src/pages/company/CreateInternship.tsx:27-29 | the list grows by one empty item at the end and keeps its prefix |
| CreateInternship.RemoveListItem | src/pages/company/CreateInternship.tsx:31-34 | an in-range index removes exactly that position and keeps the order of the rest; an out-of-range index leaves the list unchanged |
| CreateInternship.UpdateListItem | src/pages/company/CreateInternship.tsx:36-45 | the length is kept, position i becomes the value, every other position is unchanged |
| CreateInternship.AddThenRemove | src/pages/company/CreateInternship.tsx:27-34 | removing the item just added gives back the original list |
| CreateInternship.UpdateSameValue | src/pages/company/CreateInternship.tsx:36-45 | writing back the value a position holds changes nothing |
| CreateInternship.RemoveKeepsOne | src/pages/company/CreateInternship.tsx:269 | removal, offered only on lists longer than one, never empties a list |
| CreateInternship.InternshipForm.constructor | src/pages/company/CreateInternship.tsx:7-10 | each list starts as one empty item and the form is not submitting |
| CreateInternship.InternshipForm.AddItem | src/pages/company/CreateInternship.tsx:27-29 | the chosen list gets an empty item; the other two lists and the flag are unchanged; no list is empty |
| CreateInternship.InternshipForm.RemoveItem | src/pages/company/CreateInternship.tsx:31-34 | the chosen list loses the item at the index; the others are unchanged; no list becomes empty |
| CreateInternship.InternshipForm.UpdateItem | src/pages/company/CreateInternship.tsx:36-45 | the chosen list gets the value at the index; the others are unchanged |
| CreateInternship.InternshipForm.SubmitLabel | src/pages/company/CreateInternship.tsx:373 | the submit button reads "Creating..." exactly while submitting, and "Create Internship" otherwise |
| CreateInternship.InternshipForm.BeginSubmit | src/pages/company/CreateInternship.tsx:12-14 | submitting raises the flag, so the button reads "Creating..." |
| CreateInternship.InternshipForm.FinishSubmit | src/pages/company/CreateInternship.tsx:16-24 | the awaited call always resolves: the target is "/company/manage-internships", the flag is lowered and the button reads "Create Internship" again |
| CreateInternship.AddThenRemoveFirst | src/pages/company/CreateInternship.tsx:27-34 | adding then removing the first row leaves the edited list as one empty item and the other lists untouched |
| InternshipSearch.FilteredInternships | src/pages/student/InternshipSearch.tsx:62-72 | the result is an order-preserving subsequence; a listing is in it iff the term matches (ignoring case) its title, company or description and the location, industry and remote conditions hold; a set location or industry is matched exactly, remote-only keeps only remote listings |
| InternshipSearch.EmptyTermMatchesAll | src/pages/student/InternshipSearch.tsx:63-65 | the empty term matches every listing |
| InternshipSearch.NoFiltersKeepsAll | src/pages/student/InternshipSearch.tsx:62-72 | with no term and no filter every listing is shown, in order |
| InternshipSearch.RemoteOffIsWeaker | src/pages/student/InternshipSearch.tsx:69 | turning the remote-only box off never hides a listing |
| StudentSearch.FilteredStudents | src/pages/company/StudentSearch.tsx:44-53 | the result is an order-preserving subsequence; a student is in it iff all four conditions hold; a set university or major is matched exactly |
| StudentSearch.GradYearSelectsYear | src/pages/company/StudentSearch.tsx:50 | selecting the decimal string of year y keeps exactly the otherwise-matching students who graduate in y |
| StudentSearch.NonNumericYearKeepsNone | src/pages/company/StudentSearch.tsx:50 | a selection that is no integer's decimal string (a word, "02025", "+2025") keeps nobody |
| StudentSearch.UnparsableYearKeepsNone | src/pages/company/StudentSearch.tsx:50 | in particular, a selection that does not parse as a decimal integer keeps nobody |
| StudentSearch.SearchIgnoresOtherFields | src/pages/company/StudentSearch.tsx:45-46 | the term is looked up only in the name and the skills: bio, university, major and location do not affect the match |
| StudentSearch.NoFiltersKeepsAll | src/pages/company/StudentSearch.tsx:44-53 | with no term and no selection every student is listed, in order |
| Applications.StatusText | src/pages/student/Applications.tsx:122-137 | a status tag gets a label different from the tag; any other string is returned unchanged |
| Applications.StatusTextLabels | src/pages/student/Applications.tsx:122-137 | the five labels are 審査待ち, 審査中, 面接段階, 合格, 不合格 |
| Applications.StatusColor | src/pages/student/Applications.tsx:139-154 | anything that is not a status tag gets the gray class |
| Applications.StatusMapsDistinct | src/pages/student/Applications.tsx:122-154 | the five statuses get five different labels and five different colours, none of them gray |
| Applications.FilteredApplications | src/pages/student/Applications.tsx:164-167 | "all" keeps every application; any other value keeps exactly those whose status tag equals it, as an order-preserving subsequence |
| Applications.DisplayedCount | src/pages/student/Applications.tsx:228 | the count shown equals the number of applications with the selected status |
| Applications.EmptyStateIff | src/pages/student/Applications.tsx:233 | the empty-state panel shows iff no application passes the filter (for "all": iff there are none) |
| Applications.Toggle | src/pages/student/Applications.tsx:277 | the toggle expands `id` exactly when it was not the expanded one, and collapses everything otherwise |
| Applications.ToggleTwice | src/pages/student/Applications.tsx:277 | toggling the same row twice restores the previous state iff nothing or that row was expanded; if another row was, everything ends collapsed |
| Applications.AtMostOneExpanded | src/pages/student/Applications.tsx:285 | with distinct application ids at most one row is expanded |
| Applications.ApplicationsView.constructor | src/pages/student/Applications.tsx:10-11 | the view starts on "all" with nothing expanded |
| Applications.ApplicationsView.Select | src/pages/student/Applications.tsx:185-223 | a filter button sets the filter to its value, which is always one of all, pending, reviewing, interview |
| Applications.ApplicationsView.Visible | src/pages/student/Applications.tsx:164-223 | with the filter on one of the four button values, "all" shows every application and any other button shows no accepted or rejected one |
| Applications.ApplicationsView.ToggleExpanded | src/pages/student/Applications.tsx:277 | the expand button applies `Toggle` to the expanded row and keeps the filter on a button value |
| Applications.FiltersNeverShowDecided | src/pages/student/Applications.tsx:164-223 | no filter button other than "all" ever shows an accepted or rejected application; "all" shows them all |
| Queries.InternshipById | src/pages/student/Dashboard.tsx:202-204 | finds an internship iff one has that id, and then the first one in list order |
| Queries.ApplicationsByStatus | src/pages/company/Dashboard.tsx:159-161 | exactly the applications whose status tag is the given one, in order |
| Queries.ByStatusCount | src/pages/company/Dashboard.tsx:183-184 | the length of that selection is the number of applications in the status |
| Queries.ApplicationsFor | src/pages/company/ManageInternships.tsx:73-75 | exactly the applications to the given internship, in order |
| Queries.ApplicationsForDisjoint | src/pages/company/Dashboard.tsx:470 | the applications to two different internships together number at most all applications |
| StudentDashboard.CompanyById | src/pages/student/Dashboard.tsx:206-208 | a known company id gives its entry, any other the "Unknown Company" placeholder |
| StudentDashboard.RowCompanyName | src/pages/student/Dashboard.tsx:302-304 | a recent application shows "Unknown Company" when its internship or that internship's company is unknown, and otherwise the directory name of the company of the first internship with that id |
| StudentDashboard.FilteredInternships | src/pages/student/Dashboard.tsx:220-224 | an internship passes iff the industry filter is empty or equal and the skill filter is empty or one of its skills; the result is order-preserving |
| StudentDashboard.NoFiltersKeepsAll | src/pages/student/Dashboard.tsx:220-224 | with both filters empty every recommended internship passes, in order |
| StudentDashboard.FiltersCompose | src/pages/student/Dashboard.tsx:220-224 | filtering by both equals filtering by industry and then by skill |
| StudentDashboard.IndustryOptions | src/pages/student/Dashboard.tsx:427 | the industry options are distinct, and every one is some internship's industry |
| StudentDashboard.SkillOptions | src/pages/student/Dashboard.tsx:437 | the skill options are distinct and are exactly the skills of all internships together |
| StudentDashboard.OptionsNeverEmpty | src/pages/student/Dashboard.tsx:220-224 | choosing any offered industry or skill leaves at least one internship shown |
| StudentDashboard.RecentApplications | src/pages/student/Dashboard.tsx:302 | the recent list is the first min(3, n) applications, in order |
| StudentDashboard.RecentRow | src/pages/student/Dashboard.tsx:185-326 | a recent-application row shows the title of `Queries.RowTitle` (the same `internship?.title || 'Untitled Internship'` at line 312), the company name of `RowCompanyName`, the dashboard `getStatusText` label of the status (審査待ち, 審査中, 面接段階, 合格, 不合格, never the raw tag) and a link to "/internship/" followed by the internship id |
| StudentDashboard.InterviewCount | src/pages/student/Dashboard.tsx:256-257 | the interview counter is the number of interview-stage applications, at most all of them, and zero iff none is at that stage |
| StudentDashboard.ScoutRow | src/pages/student/Dashboard.tsx:362-364 | a scout row shows the sender's company (with fallback); with an absent or empty (falsy) internship id it shows no internship, and otherwise exactly the first internship with that id, none when there is none |
| CompanyDashboard.ComputeMetrics | src/pages/company/Dashboard.tsx:180-184 | active and draft are the counts of published and draft internships and together at most all internships; total is the number of applications; pending and interview are the sizes of the status selections and together at most the total |
| CompanyDashboard.EarliestDeadlineIndex | src/pages/company/Dashboard.tsx:187-195 | none iff nothing is published; otherwise a published internship with the least deadline among the published ones, the first in list order among ties (what a stable ascending sort puts first) |
| CompanyDashboard.NextDeadline | src/pages/company/Dashboard.tsx:187-204 | null iff no internship is published; otherwise a published internship whose deadline is not later than any published one's |
| CompanyDashboard.DaysRemaining | src/pages/company/Dashboard.tsx:196-198 | the days left is the least integer d with d whole days covering the time to the deadline |
| CompanyDashboard.StudentById | src/pages/company/Dashboard.tsx:167-169 | a known student id gives its entry, any other "Unknown Student" at "Unknown University" |
| CompanyDashboard.RecentApplications | src/pages/company/Dashboard.tsx:342 | the recent list is the first min(5, n) applications, in order |
| Queries.RowTitle | src/pages/company/Dashboard.tsx:370 | the row shows "Untitled Internship" iff the internship is unknown or its title is empty (or is that very text); a known internship with a non-empty title shows the title of the first internship with that id |
| CompanyDashboard.RowBadgesDistinct | src/pages/company/Dashboard.tsx:379-409 | the five status badges of a recent application read differently |
| CompanyDashboard.CardFor | src/pages/company/Dashboard.tsx:470-514 | an internship card counts the applications to it, and "Needs Review" counts the pending ones among them, never more than the former |
| CompanyDashboard.CardBadge | src/pages/company/Dashboard.tsx:479-487 | the card says "Published" iff the internship is published, "Draft" for anything else |
| CompanyDashboard.DraftBanner | src/pages/company/Dashboard.tsx:293-305 | the banner shows iff there are drafts; its number reads back as the draft count; "internship", "is" and "it" are used iff there is exactly one draft, and "internships", "are" and "them" otherwise |
| CompanyDashboard.BannerIffDraftExists | src/pages/company/Dashboard.tsx:293 | the banner shows iff some internship is a draft |
| ManageInternships.StatusLabel | src/pages/company/ManageInternships.tsx:194 | the badge is the status tag with its first letter upper-cased and the rest unchanged |
| ManageInternships.StatusLabels | src/pages/company/ManageInternships.tsx:194 | the badges read "Draft", "Published" and "Closed" and differ from each other |
| ManageInternships.StatusColor | src/pages/company/ManageInternships.tsx:187-193 | green iff published, gray iff draft, red otherwise |
| ManageInternships.CardFor | src/pages/company/ManageInternships.tsx:139-229 | a card counts the applications to its internship, lists the first min(3, n) of them in order, and shows "No applications yet" iff there are none |
| ManageInternships.Render | src/pages/company/ManageInternships.tsx:137-254 | every internship gets its card, in order, and the empty-state panel shows iff the list is empty |
| ManageInternships.SelectedFilterIgnored | src/pages/company/ManageInternships.tsx:123-138 | the status drop-down's value does not change what is rendered |
| ManageInternships.ToggleFilters | src/pages/company/ManageInternships.tsx:109 | the Filters button flips the panel's visibility |
| ManageInternships.ToggleFiltersTwice | src/pages/company/ManageInternships.tsx:109 | two presses restore it |
| InternshipDetails.MockInternship | src/pages/shared/InternshipDetails.tsx:20-56 | the loaded internship is "101" of company "c1", published |
| InternshipDetails.ScreenOf | src/pages/shared/InternshipDetails.tsx:86-105 | a spinner while loading, "not found" when loading ended without an internship, otherwise the details of the loaded one |
| InternshipDetails.Header | src/pages/shared/InternshipDetails.tsx:149-168 | only a student viewer gets a header control; it is the "Applied" mark iff applied, otherwise a button disabled exactly while submitting that reads "Applying..." then and "Apply Now" otherwise |
| InternshipDetails.BottomBar | src/pages/shared/InternshipDetails.tsx:256-270 | the bottom bar shows iff the viewer is a student who has not applied; its button is disabled exactly while submitting and reads "Applying..." then and "Apply for this Internship" otherwise |
| InternshipDetails.StudentSeesOneControl | src/pages/shared/InternshipDetails.tsx:149-270 | for a student the header shows "Applied" iff the bottom bar is gone, and both buttons are disabled together |
| InternshipDetails.NonStudentsSeeNoControls | src/pages/shared/InternshipDetails.tsx:149 | companies, admins and visitors see neither control |
| InternshipDetails.DetailsPage.constructor | src/pages/shared/InternshipDetails.tsx:9-14 | the page starts loading, with nothing loaded, not applied and not submitting |
| InternshipDetails.DetailsPage.FinishLoad | src/pages/shared/InternshipDetails.tsx:58-62 | the simulated fetch installs the mock internship and ends loading, whatever the route id |
| InternshipDetails.DetailsPage.BeginApply | src/pages/shared/InternshipDetails.tsx:73-74 | applying raises the submitting flag and touches nothing else |
| InternshipDetails.DetailsPage.FinishApply | src/pages/shared/InternshipDetails.tsx:75-83 | the awaited call always resolves: applied becomes true and stays so, and `finally` lowers the submitting flag |
| InternshipDetails.OpenAnyRoute | src/pages/shared/InternshipDetails.tsx:17-71 | for any route id the page ends up showing internship "101" |
| InternshipDetails.ApplyAsStudent | src/pages/shared/InternshipDetails.tsx:73-84 | while the call is pending both buttons are disabled and read "Applying..."; afterwards the bar is gone and the header shows "Applied" in place of the button |
| Seqs.Filter | src/pages/student/InternshipSearch.tsx:62 | `filter` keeps exactly the elements satisfying the predicate, in order, and no more than there were |
| Seqs.FilterLength | src/pages/company/Dashboard.tsx:180-184 | `filter(...).length` is the number of elements satisfying the predicate |
| Seqs.FilterFilter | src/pages/company/Dashboard.tsx:514 | filtering twice equals filtering once by the conjunction |
| Seqs.CountIfDisjoint | src/pages/company/Dashboard.tsx:180-184 | the counts for two exclusive predicates add up to at most the length |
| Seqs.Find | src/pages/student/Dashboard.tsx:203 | `find` returns something iff some element satisfies the predicate, and then the first such element |
| Seqs.Take | src/pages/student/Dashboard.tsx:302 | `slice(0, n)` is the first min(n, length) elements |
| Seqs.Flatten | src/pages/student/Dashboard.tsx:437 | `flatMap` contains exactly the elements of all the lists |
| Seqs.Dedup | src/pages/student/Dashboard.tsx:427 | `Array.from(new Set(...))` has no repeats, the same elements, and keeps their order |
| Text.Lower | src/pages/student/InternshipSearch.tsx:63 | `toLowerCase` keeps the length and maps each character |
| Text.LowerIdempotent | src/pages/student/InternshipSearch.tsx:63-65 | lower-casing twice is lower-casing once |
| Text.ContainsBasics | src/pages/student/InternshipSearch.tsx:63-65 | every string contains the empty string and itself, and only strings no longer than it |
| Text.ContainsInContext | src/contexts/AuthContext.tsx:74 | a string occurs in any string that extends it on either side |
| Text.EmptyTermMatches | src/pages/company/StudentSearch.tsx:45 | the empty search term matches every string |
| Text.PrefixBefore | src/contexts/AuthContext.tsx:73 | `split(sep)[0]` is the longest prefix without `sep`; it is followed by `sep` when shorter than the string, and is the whole string when `sep` does not occur |
| Text.Capitalize | src/pages/company/ManageInternships.tsx:194 | the first character is upper-cased, the rest kept, the length kept |
| Text.DecimalString | src/pages/company/StudentSearch.tsx:50 | `toString` of an integer is non-empty and starts with '-' iff the integer is negative |
| Text.DecimalRoundTrip | src/pages/company/StudentSearch.tsx:50 | parsing the decimal string of an integer gives the integer back |
| Text.DecimalInjective | src/pages/company/StudentSearch.tsx:50 | two integers have the same decimal string iff they are equal |

## Left out

- Rendering, styling, icons and the date formatting with `toLocaleDateString` are not modelled. Only the decisions the markup makes (labels, colours, visibility, counts) are.
- src/pages/Landing.tsx, src/pages/company/Profile.tsx and src/pages/student/profile.tsx are static pages with no logic to model.
- `ProtectedRoute`, `Login`, `Register`, `Messages`, `Layout`, `NotFound` and the notification context are not part of this model. The route table records which guard a route has, not what the guard decides at run time.
- JSON is treated as the identity. Stored text that parses to a non-object (such as `"null"`) is not distinguished from a stored user.
- `setTimeout`, `await`, effect scheduling and React's stale `{...state}` captures are not modelled. Each step is atomic over the current state, and an awaited handler is a Begin/Finish pair.
- Auth.AuthProvider.UpdateUser: when no user is present the merge starts from a blank record, where the code spreads `null` and gets a user with only the patch's fields and `updatedAt`.
- CompanyDashboard.DaysRemaining: computes the exact integer ceiling. The floating-point division of the code is not modelled.
- The "deadline passed" / "Deadline:" choice on company cards compares with the clock and is not modelled.
- `toLowerCase` and `toUpperCase` handle ASCII letters only; Unicode case mapping is not modelled.
- Route matching is case-sensitive and does not accept a trailing slash (`"/ログイン/"` falls through to the `/404` redirect). React Router's case-insensitive matching and trailing-slash tolerance are not modelled.
- CreateInternship.UpdateListItem: requires an index inside the list, since the form only calls it for rendered rows. The code would extend the array for a larger index.
- Lookups in the mock records (`mockCompanies[id]`, `mockStudents[id]`) are modelled as maps. Inherited object keys such as `"constructor"` are not modelled.
- The `showFilters` toggles of the two search pages only show or hide the filter panel and are not modelled.
- The application rows of src/pages/student/Applications.tsx read from fixed mock records and are not modelled.
- Seqs.Dedup: the contract states a distinct subsequence with the same elements, which is weaker than "each element at its first occurrence".
- CompanyDashboard.NextDeadline: the tie-breaking to the first in list order is stated on CompanyDashboard.EarliestDeadlineIndex, not on NextDeadline.
- `graduationYear` is a JavaScript `number` (src/types/index.ts:15), compared through `toString()` at src/pages/company/StudentSearch.tsx:50. The model takes it as an integer and `Text.DecimalString` prints integers only, so fractional years such as `2025.5` and exponent forms such as `1e21` are not modelled.
- The student type, company type, message and notification records of src/types/index.ts are not used by the modelled logic and are left out.

## Findings

| source | as written | input that shows it | evidently intended | confidence | as-written member | corrected member |
|---|---|---|---|---|---|---|
| src/contexts/AuthContext.tsx:157-170 | `updateUser` merges into `state.user` and stores the result without checking that a user is present, and leaves `isAuthenticated` as it was | call `updateUser({name: "x"})` while anonymous and with nothing stored | without a user the update fails with the update error and the session stays anonymous, so `isAuthenticated` keeps matching the presence of a user | not executed | Auth.UpdateWhileAnonymous | Auth.UpdateWhileAnonymousChecked |
