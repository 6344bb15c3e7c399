# edu-course-web catalogue core in Dafny

The model covers the behavioural core of a small course catalogue. The rest of the web application is React UI.

- **The catalogue service.** It sits over a hosted store with six tables: users, courses, categories, course_categories, enrollments and payments. It covers:
  - listing courses, optionally by category;
  - looking up one course;
  - listing a course's categories and all categories;
  - creating, updating and deleting courses;
  - enrolling a user in a course;
  - checking an enrollment.
- **The in-memory mock database.** It answers SQL text by looking for fixed phrases in it.
- **The logic in the user-interface files.**
  - Course-creation validation, its write sequence, and the category toggle of the admin dashboard.
  - The query construction of the course grid.
  - The tab-value to category-id mapping of the category filter.
  - The sign-in state machine: restore, login, signup, logout and `isAdmin`.

The model follows the program's structure, with one module per source file:

| file | module | models |
|---|---|---|
| `basics.dfy` | `Basics` | Option, the JavaScript values the code passes around (`undefined`, numbers, text; truthiness), whitespace and `trim`, an order-keeping `Filter`, and substring search (`includes`) |
| `records.dfy` | `Records` | the row types of `src/lib/supabase.ts` |
| `ordering.dfy` | `Ordering` | a sort used as the meaning of `order(...)`, and lexicographic string order |
| `store.dfy` | `TableStore` | the store as a class with one sequence field per table; each client call is a primitive (reads as functions, writes as methods) with its own failure flag |
| `course_service.dfy` | `CourseService` | `src/services/courseService.ts` |
| `mock_db.dfy` | `MockDb` | `src/utils/mockDb.ts`, with the seed rows of `src/utils/mockData.ts` as constants |
| `course_grid.dfy` | `CourseGrid` | the fetch in `src/components/CourseGrid.tsx` |
| `category_filter.dfy` | `CategoryFilter` | `src/components/CategoryFilter.tsx`, with `String(n)` and `parseInt` |
| `admin_dashboard.dfy` | `AdminDashboard` | `handleCreateCourse` and `toggleCategorySelection` of `src/pages/AdminDashboard.tsx` |
| `auth_context.dfy` | `AuthContext` | `src/contexts/AuthContext.tsx` |

**How failures are modelled.** Every store call takes a `fail` flag that stands for a returned `error`. Where the source checks the error, the flag ends the operation. Where the source ignores it, the flag only makes that call change nothing. Thrown exceptions are not modelled separately (see "## Left out").

**How the store is modelled.** The store enforces the foreign keys of the schema:
- a row may only reference existing users, courses and categories;
- a course that is still referenced cannot be deleted.

Generated ids come from one serial counter shared by all tables (see "## Left out"). `single()` succeeds only when exactly one row matches.

**The mock database.**
- Its course, category and mapping tables never change, so they are class constants.
- Its enrollment and payment arrays are fields that inserts append to.

**The pages' database and side effects.**
- The pages' `executeQuery` is a function parameter, or an index saying which statement throws.
- Local storage is a map from keys to stored values.

## Model

| member | source | states |
|---|---|---|
| TableStore.CreatorName | src/services/courseService.ts:8-11 | the embedded `users:created_by (name)` is null iff no user has the creator id, otherwise the name of a user with that id |
| TableStore.CategoryById | src/services/courseService.ts:77 | the embedded `categories:category_id(*)` is null iff no category has the id, otherwise a category of the table with that id |
| TableStore.PatchKeepsKeys | src/services/courseService.ts:158-161 | `update(courseData).eq('id', id)` keeps every row's id and creator, so the key set and key uniqueness survive |
| TableStore.DistinctIdMatchesOnce | src/services/courseService.ts:55-56 | with unique course ids, an id that occurs matches exactly one row, so `eq('id', id).single()` can succeed |
| TableStore.Store.SelectMappedCourseIds | src/services/courseService.ts:15-18 | fails iff the flag is set; otherwise an id is returned iff some mapping row of the category carries it |
| TableStore.Store.MappedCourseIds | src/services/courseService.ts:15-18 | an id is returned iff some mapping row of the category carries it |
| TableStore.Store.CoursesAmong | src/services/courseService.ts:22 | `.in('id', ids)` keeps exactly the courses whose id is among `ids`; without it, every course is kept |
| TableStore.Store.SelectCourses | src/services/courseService.ts:6-29 | fails iff the flag is set; otherwise it returns a permutation of the selected courses, newest first, each with its creator's embedded name |
| TableStore.Store.SelectCourseById | src/services/courseService.ts:49-56 | succeeds iff there is no failure and exactly one row has the id; the row returned has that id |
| TableStore.Store.SelectCategoriesOfCourse | src/services/courseService.ts:74-78 | one entry per mapping row of the course, each the embedded category of its `category_id` |
| TableStore.Store.SelectCategoriesByName | src/services/courseService.ts:95-98 | every category exactly once (multiset equality), ordered by name |
| TableStore.Store.SelectEnrollmentId | src/services/courseService.ts:280-285 | succeeds iff there is no failure and exactly one enrollment row of the pair exists; the id is that row's |
| TableStore.Store.InsertCourse | src/services/courseService.ts:115-119 | succeeds iff there is no failure and the creator exists; appends one row with a fresh id and returns that id; other tables unchanged |
| TableStore.Store.InsertMappings | src/services/courseService.ts:135-137 | all rows or none: accepted iff there is no failure and every course and category exists; appends one numbered row per object |
| TableStore.Store.UpdateCoursesWhereId | src/services/courseService.ts:158-161 | patches exactly the rows with the id and changes no key; matching nothing is not an error |
| TableStore.Store.DeleteMappingsOfCourse | src/services/courseService.ts:204-207 | unless it fails, removes exactly the course's mapping rows |
| TableStore.Store.DeleteEnrollmentsOfCourse | src/services/courseService.ts:210-213 | unless it fails, removes exactly the course's enrollments |
| TableStore.Store.DeletePaymentsOfCourse | src/services/courseService.ts:216-219 | unless it fails, removes exactly the course's payments |
| TableStore.Store.DeleteCoursesWhereId | src/services/courseService.ts:222-225 | succeeds iff there is no failure and no child row references the course; then removes exactly the rows with the id |
| TableStore.Store.InsertEnrollment | src/services/courseService.ts:242-248 | succeeds iff there is no failure and user and course exist; appends one enrollment with a fresh id |
| TableStore.Store.InsertPayment | src/services/courseService.ts:256-264 | succeeds iff there is no failure and user and course exist; appends one payment with the given amount and status |
| CourseService.AuthorName | src/services/courseService.ts:39 | the `'Unknown'` fallback of `author_name`: never empty; the creator's name when it is present and non-empty, otherwise `'Unknown'` |
| CourseService.QueryCourses | src/services/courseService.ts:29-40 | `[]` on error; otherwise a permutation of the selected courses, newest first, each `author_name` the creator's name or `'Unknown'` |
| CourseService.FetchCourses | src/services/courseService.ts:4-45 | `[]` when a truthy category's lookup fails or finds no ids, or when the course query fails; with a category, only mapped courses; newest first; author name never empty |
| CourseService.FetchCourseById | src/services/courseService.ts:47-70 | null unless there is no failure and exactly one course has the id; the result has that id and its author name or `'Unknown'` |
| CourseService.FetchCourseByIdFindsExisting | src/services/courseService.ts:55-56 | under unique ids, an existing course is always found when the store answers |
| CourseService.FetchCourseCategories | src/services/courseService.ts:73-90 | `[]` on error; otherwise one entry per mapping row of the course, in row order, the k-th entry the embedded category of the k-th row's `category_id`; every present entry is a category mapped to the course |
| CourseService.CourseCategoriesAllPresent | src/services/courseService.ts:77-86 | the foreign key on `category_id` means no entry is null |
| CourseService.FetchCategories | src/services/courseService.ts:93-109 | `[]` on error; otherwise every category exactly once, ordered by name |
| CourseService.CheckEnrollment | src/services/courseService.ts:278-296 | as written: true iff there is no error and exactly one enrollment row of the pair exists; false on any error |
| CourseService.IsEnrolled | src/services/courseService.ts:278-296 | as intended: true iff there is no error and at least one enrollment row of the pair exists |
| CourseService.DuplicateEnrollmentHidden | src/services/courseService.ts:280-291 | a pair with two enrollment rows is reported as not enrolled although it is enrolled |
| CourseService.CheckAgreesWithoutDuplicates | src/services/courseService.ts:280-291 | with at most one row per pair, the check as written and as intended agree |
| CourseService.NewMappingsOfCourse | src/services/courseService.ts:129-137 | after the bulk insert, the course's mapping rows name exactly `categoryIds`, in order |
| CourseService.OtherMappingsUnchanged | src/services/courseService.ts:129-137 | inserting one course's mappings leaves every other course's mappings unchanged |
| CourseService.AddMappings | src/services/courseService.ts:129-142 | for a course without mappings, its mappings become exactly `categoryIds` when the non-empty insert is accepted, and stay empty otherwise; other courses' mappings are unchanged |
| CourseService.CreateCourse | src/services/courseService.ts:112-149 | null iff the course insert fails; otherwise the fresh id even if the mapping insert fails; the course's mappings are exactly `categoryIds` when accepted, none otherwise; other courses' mappings unchanged |
| CourseService.OtherMappingsSurviveDelete | src/services/courseService.ts:171-174 | deleting one course's mappings leaves none of its own and every other course's unchanged |
| CourseService.Remap | src/services/courseService.ts:169-192 | the delete's error is ignored; `[]` clears the mappings; a non-empty list becomes exactly the course's mappings when the insert is accepted; only a failed insert reports false |
| CourseService.UpdateCourse | src/services/courseService.ts:151-198 | false with mappings untouched when the update fails; `categoryIds` undefined leaves mappings unchanged, `[]` deletes them, a non-empty list replaces them |
| CourseService.DeleteCourse | src/services/courseService.ts:201-236 | child deletes first with errors ignored; the result is decided by the course delete alone; on success no row references the id and other courses remain |
| CourseService.EnrollInCourse | src/services/courseService.ts:239-275 | a failed enrollment insert writes no payment; a failed payment insert keeps the enrollment; on success a `'completed'` payment of `price`; the pair is enrolled afterwards, and the check as written still says so only for a first enrollment |
| MockDb.Route | src/utils/mockDb.ts:13-92 | the first matching phrase wins: `FROM Categories` before all others; the courses branch iff `Courses c` without `FROM Categories` |
| MockDb.MockDatabase.Seeded | src/utils/mockDb.ts:2 | the tables start as the seed rows, with enrollment and payment ids `1..n` |
| MockDb.MockDatabase.CourseIdsOfCategory | src/utils/mockDb.ts:23-25 | an id is returned iff a mapping row with that category (strict equality) carries it |
| MockDb.MockDatabase.CategoryIdsOfCourse | src/utils/mockDb.ts:54-56 | an id is returned iff a mapping row with that course carries it |
| MockDb.MockDatabase.CategoryStep | src/utils/mockDb.ts:21-28 | with `cc.category_id = ?` and a parameter, exactly the courses mapped to `params[0]` in seed order; otherwise all courses |
| MockDb.MockDatabase.IdStep | src/utils/mockDb.ts:31-34 | with `c.id = ?` and a parameter, exactly the rows whose id equals `params[0]`; otherwise the rows unchanged |
| MockDb.MockDatabase.CoursesAnswer | src/utils/mockDb.ts:17-37 | an order-keeping selection of the seed courses satisfying both filters; all courses without parameters |
| MockDb.MockDatabase.EnrollmentsAnswer | src/utils/mockDb.ts:39-50 | filters on both user and course only with the phrase and exactly two parameters; otherwise every enrollment |
| MockDb.MockDatabase.CourseCategoriesAnswer | src/utils/mockDb.ts:52-60 | exactly the categories mapped to `params[0]` |
| MockDb.MockDatabase.Answer | src/utils/mockDb.ts:12-92 | the categories branch shadows everything; course rows come only from that branch and are a selection of the seed courses; insert ids are `length + 1`; no phrase gives no rows |
| MockDb.MockDatabase.ExecuteQuery | src/utils/mockDb.ts:5-92 | answers `Answer`; an enrollment or payment insert appends exactly one record with `id = old length + 1`, built from the parameters; nothing else changes; ids stay `1..n` |
| MockDb.CategoryListQuery | src/utils/mockDb.ts:13-15 | `SELECT * FROM Categories` answers every category |
| MockDb.JoinBranchShadowed | src/utils/mockDb.ts:13-15 | a category-join query naming `FROM Categories` gets every category, not the course's; for seed course 1 that branch would give category 1 only |
| CourseGrid.GridQuery | src/components/CourseGrid.tsx:14-30 | the filtered query (with the category join and `WHERE cc.category_id = ?`) for a truthy id, the unfiltered one otherwise |
| CourseGrid.GridParams | src/components/CourseGrid.tsx:20-28 | `[categoryId]` for a truthy id, `[]` otherwise (so 0 counts as absent) |
| CourseGrid.GridQueryFrame | src/components/CourseGrid.tsx:14-30 | every query starts with the base `SELECT … LEFT JOIN Users` text and ends with ` ORDER BY c.created_at DESC` |
| CourseGrid.GridQueriesLackCategories | src/components/CourseGrid.tsx:14-30 | neither query contains `FROM Categories` |
| CourseGrid.FilteredQueryLacksIdFilter | src/components/CourseGrid.tsx:22-26 | the filtered query has no `c.id = ?` |
| CourseGrid.GridQueriesHavePhrases | src/components/CourseGrid.tsx:14-26 | both queries name `Courses c`; the filtered one has `cc.category_id = ?` |
| CourseGrid.GridState.constructor | src/components/CourseGrid.tsx:8-9 | no courses, loading |
| CourseGrid.GridState.BuildQuery | src/components/CourseGrid.tsx:14-30 | the query and parameters built by `+=` and `push` are the ones `GridQuery` and `GridParams` describe |
| CourseGrid.GridState.FetchCourses | src/components/CourseGrid.tsx:12-39 | returned rows replace the courses, a throw leaves them, loading ends false either way |
| CourseGrid.FilteredGridQueryOnMock | src/components/CourseGrid.tsx:22-32 | on the mock database the filtered query reaches the courses branch and returns exactly the courses mapped to the id, in seed order |
| CourseGrid.UnfilteredGridQueryOnMock | src/components/CourseGrid.tsx:14-32 | without a category, the mock returns every course |
| CategoryFilter.Digits | src/components/CategoryFilter.tsx:49 | the decimal digits of a natural number, without leading zeros |
| CategoryFilter.IntToString | src/components/CategoryFilter.tsx:49 | `String(n)`: a leading `-` iff negative, digits after it |
| CategoryFilter.DigitRun | src/components/CategoryFilter.tsx:35 | the length of the longest digit prefix |
| CategoryFilter.Magnitude | src/components/CategoryFilter.tsx:35 | without a hex prefix, no magnitude iff the text does not start with a digit |
| CategoryFilter.ParseInt | src/components/CategoryFilter.tsx:35 | `parseInt` never gives `undefined`, and gives `NaN` for blank text |
| CategoryFilter.CategoryOfTab | src/components/CategoryFilter.tsx:35 | `undefined` iff the value is `'all'`, else `parseInt(value)` |
| CategoryFilter.RunValueOfDigits | src/components/CategoryFilter.tsx:35 | the digits of `n` read back give `n` |
| CategoryFilter.ParseIntOfString | src/components/CategoryFilter.tsx:35 | `parseInt(String(n)) === n` for every integer |
| CategoryFilter.TabRoundTrip | src/components/CategoryFilter.tsx:33-49 | the tab value `String(id)` reports `id` back |
| CategoryFilter.TabValues | src/components/CategoryFilter.tsx:46-54 | one tab value per category, each reporting that category's id |
| CategoryFilter.CategoryFilterState.constructor | src/components/CategoryFilter.tsx:17-18 | the initial selection is `'all'` |
| CategoryFilter.CategoryFilterState.LoadCategories | src/components/CategoryFilter.tsx:20-31 | returned rows replace the categories; a throw leaves them |
| CategoryFilter.CategoryFilterState.HandleCategoryChange | src/components/CategoryFilter.tsx:33-36 | the selection becomes exactly the value; the callback receives `CategoryOfTab(value)` |
| AdminDashboard.Validate | src/pages/AdminDashboard.tsx:110-135 | title first, then description, then price: a blank title, a blank description, or a negative price is reported in that order; a price of 0 passes |
| AdminDashboard.ImageFor | src/pages/AdminDashboard.tsx:148 | the default image iff the URL is empty, otherwise the URL itself |
| AdminDashboard.InsertedImageUrl | src/pages/AdminDashboard.tsx:148 | the inserted URL is never empty: the form's URL, or the default URL |
| AdminDashboard.ActionText | src/pages/AdminDashboard.tsx:169 | the logged action is `Created course: ` followed by the title: the 16-character prefix, then exactly the title |
| AdminDashboard.MappingInserts | src/pages/AdminDashboard.tsx:156-163 | one mapping insert per selected category |
| AdminDashboard.MappingInsertAt | src/pages/AdminDashboard.tsx:156-163 | the `k`-th mapping insert is for the `k`-th selected category |
| AdminDashboard.CreationPlan | src/pages/AdminDashboard.tsx:141-191 | a successful creation issues three statements more than there are selected categories (their order is the contract of `PlanLayout`) |
| AdminDashboard.PlanLayout | src/pages/AdminDashboard.tsx:141-191 | the course insert first, then exactly the mapping inserts in selection order, then the admin action and the refresh |
| AdminDashboard.Toggle | src/pages/AdminDashboard.tsx:205-211 | the id is selected afterwards iff it was not before; other ids keep their membership; an absent id is appended; removing an id keeps the rest in their order (a subsequence of the old selection) and removes every copy of the id and nothing else (multiset) |
| AdminDashboard.ToggleTwiceRestores | src/pages/AdminDashboard.tsx:205-211 | toggling an absent id twice restores the list |
| AdminDashboard.ToggleKeepsNoDuplicates | src/pages/AdminDashboard.tsx:205-211 | a duplicate-free selection stays duplicate-free |
| AdminDashboard.Attempted | src/pages/AdminDashboard.tsx:139-199 | the statements handed over are a prefix of the plan, ending with the one that threw, or the whole plan |
| AdminDashboard.AttemptedAppend | src/pages/AdminDashboard.tsx:139-199 | running two statement lists in a row stops inside the first on an early throw |
| AdminDashboard.DashboardState.constructor | src/pages/AdminDashboard.tsx:41-48 | an empty form, no selection, not creating |
| AdminDashboard.DashboardState.ToggleCategorySelection | src/pages/AdminDashboard.tsx:205-211 | the selection becomes `Toggle` of the old one; nothing else changes |
| AdminDashboard.DashboardState.HandleCreateCourse | src/pages/AdminDashboard.tsx:106-203 | no user or an invalid form issues nothing; otherwise the statements run in plan order up to the first throw; the form is reset iff the admin-action entry succeeded; the list refreshed iff all ran; never left creating |
| AdminDashboard.DashboardState.Submit | src/pages/AdminDashboard.tsx:139-192 | the `try` block: issued statements are the plan's prefix up to the throw |
| AdminDashboard.DashboardState.AfterCourseInsert | src/pages/AdminDashboard.tsx:155-192 | the mapping inserts, then the admin action, reset and refresh, up to the throw |
| AdminDashboard.DashboardState.IssueMappings | src/pages/AdminDashboard.tsx:156-163 | the loop issues the mapping inserts in order, stopping at the throw; it completes iff none throws |
| AdminDashboard.DashboardState.Finish | src/pages/AdminDashboard.tsx:165-192 | the admin-action entry, then the reset, then the refresh |
| AuthContext.UserOf | src/contexts/AuthContext.tsx:44-45 | the user object carries the row's id, name and email, and is an admin iff the row's role is `'admin'`; no password is read |
| AuthContext.IsAdmin | src/contexts/AuthContext.tsx:152 | false when signed out or for the `'user'` role, true for a signed-in `'admin'` |
| AuthContext.LoginRows | src/contexts/AuthContext.tsx:44-47 | exactly the rows with the email and password |
| AuthContext.EmailRows | src/contexts/AuthContext.tsx:82-85 | exactly the rows with the email |
| AuthContext.LoginRowIsUnique | src/contexts/AuthContext.tsx:44-58 | with unique emails at most one row matches, so `users[0]` is the only candidate |
| AuthContext.AppendFreshEmail | src/contexts/AuthContext.tsx:82-100 | inserting a row whose email is not taken keeps emails unique |
| AuthContext.AuthProvider.constructor | src/contexts/AuthContext.tsx:25-26 | no user, loading |
| AuthContext.AuthProvider.Restore | src/contexts/AuthContext.tsx:29-39 | a stored user is restored; unparsable text is removed; an empty or missing entry changes nothing; loading ends false either way |
| AuthContext.AuthProvider.Login | src/contexts/AuthContext.tsx:41-77 | true iff there is no error and a row matches; then the first row becomes the user and is stored; otherwise user and storage unchanged |
| AuthContext.AuthProvider.Signup | src/contexts/AuthContext.tsx:79-134 | a taken email or an error inserts nothing and returns false; emails stay unique; a missing insert id returns false without a user; success sets and stores a non-admin user with the new id |
| AuthContext.AuthProvider.Logout | src/contexts/AuthContext.tsx:136-143 | no user, the stored entry removed, not admin |

## Left out

- Timestamps are not modelled. `NOW()`, `new Date().toISOString()` and `created_at` values are parameters, and `created_at` is a natural number.
- Prices are not modelled as floats. They are integer cents (`parseFloat` at src/pages/AdminDashboard.tsx:340), and only the sign test matters.
- Asynchrony is not modelled: promises, the mock's 300 ms delay, and races between overlapping fetches. Each operation runs to completion in sequence.
- Toasts, console logging, rendering and routing have no effect on the modelled state.
- src/utils/db.ts is not part of this model. It is a MySQL pool, and the pages that call it receive its answers as parameters or as a throw position.
- `order(...)` is modelled by a sort, so ties fall in one chosen order. The SQL engine may order ties differently.
- JSON text in local storage is not modelled. A stored entry is a user, or text that does not parse; text that parses to something other than a user object is not distinguished.
- The admin dashboard's initial data fetch and its redirect (src/pages/AdminDashboard.tsx:51-104) are left out, because they are display flow.
- FeaturedCourses, CourseDetail, Index, Courses, Navbar, HeroSection and CourseCard are UI flow. The enrollment behaviour they rely on is modelled in the service.
- The client construction in src/lib/supabase.ts is left out; only its row types are kept.
- AdminDashboard.DashboardState.HandleCreateCourse: each statement's own result is not modelled. One index says which statement throws; the course insert's id and the refreshed list are parameters.
- CategoryFilter.ParseInt: its contract states only that the result is never `undefined` and that blank text gives `NaN`. Its exact value is proved only for the texts `String(n)` produces. There is no 2^53 precision limit and no exponent or `Infinity` handling.
- AdminDashboard.MappingInserts: its contract gives only the length. The element-wise statement is the lemma `MappingInsertAt`.
- Ordering.LexLe: string order is code-point order. The database orders `.order('name')` by the column's collation, which may differ, for example by placing "apple" before "Zoo".
- CourseService.AddMappings, CourseService.Remap and CourseService.DeleteCourse: a throw from the mapping insert, the mapping delete or a child delete is not modelled; each can fail only by a returned `error`, which the source ignores. In the source such a throw reaches the `catch`. `createCourse` would then return null although the course row exists, `updateCourse` would return false, and `deleteCourse` would return false without deleting the course.
- TableStore.Store.InsertCourse, TableStore.Store.InsertMappings, TableStore.Store.InsertEnrollment and TableStore.Store.InsertPayment: the database numbers each table with its own sequence. The model draws every new id from one shared counter, so its ids are not the ones the database would return. No contract depends on the exact id values, only on their being fresh.
- TableStore.CourseDraft: `Partial<Course>` may carry an `id` and may omit `created_by` or `created_at`. A draft has no id and always has a creator and a creation time. So `TableStore.Store.InsertCourse` and `CourseService.CreateCourse` give a fresh serial id only because a draft cannot name one.
- TableStore.Store.SelectCategoriesOfCourse: the query has no `order(...)`, so the store promises no order. The model returns the entries in mapping-table order, and `CourseService.FetchCourseCategories` inherits that choice.
- AuthContext.LoginRows: email and password are compared exactly, code point by code point. The database compares them under the column's collation, which may ignore case.
- AuthContext.EmailRows: the email is compared exactly, code point by code point. Under a case-insensitive collation the database would also match an email that differs only in case.
- TableStore.CoursePatch: `Partial<Course>` may also carry `id`, `created_by` and `created_at`. The patch models only title, description, price and image URL, so `TableStore.PatchKeepsKeys` and `TableStore.Store.UpdateCoursesWhereId` keep keys and creators only because a patch cannot name them.
- MockDb.MockDatabase.ExecuteQuery: an insert answers with the new id itself. The mock returns a one-element array holding `{ insertId }`, so reading `insertId` straight off its result gives `undefined`. No modelled caller reads these results.

## Findings

| source | as written | input that shows it | evidently intended | confidence | as-written member | corrected member |
|---|---|---|---|---|---|---|
| src/services/courseService.ts:280-291 | `checkEnrollment` uses `single()`, which fails unless exactly one row matches, so it returns false when a user has more than one enrollment for a course | a user enrolled twice in one course (nothing stops a second `enrollInCourse`): two rows of the pair, so the check returns false | true whenever at least one enrollment row of the pair exists | not executed | CourseService.DuplicateEnrollmentHidden | CourseService.IsEnrolled |
