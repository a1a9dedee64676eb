# Choukette stores in Dafny

Choukette is a Vue/Pinia web application that connects French bakeries with bakers, pastry
cooks and sales staff looking for shifts. Its state lives in six Pinia stores under
`src/stores/`. This project models those stores and proves properties about them:

- **missions** (`missions.dfy`): the catalogue of job postings and the applications made to
  them. It covers the open, urgent and by-type views, the multi-criteria search and applying
  to a mission.
- **bakeries** (`bakeries.dfy`): the bakery accounts and the logged-in bakery with its missions,
  applications and six-month statistics. It covers login, and the save, load and clear cycle
  under the `choukette_bakery_data` key of local storage.
- **professionalsStats** (`professionals_stats.dfy`): the completed missions of a professional,
  with total earnings, total hours, the average rating, this month's missions and a six-month
  window.
- **blog** (`blog.dfy`): the blog posts, seeded once and persisted under `choukette_blog_posts`.
  It covers the newest-first order, the featured, per-category and latest views, lookup and
  the view counter.
- **auth** (`auth.dfy`): the signed-in user, the simulated login and logout, and restoring the
  user from `choukette_user`.
- **professionals** (`professionals.dfy`): the directory of workers, its premium view and lookup
  by id.

The other files hold shared parts:

- `wrappers.dfy` has `Option` and `Result`.
- `seqs.dfy` has JavaScript's `filter`, `find`, `findIndex` and summing `reduce`, with their laws.
- `text.dfy` has number-to-decimal conversion, `padStart`, ASCII lower-casing and `includes`.
- `calendar.dfy` has months and the six-month window both statistics stores build.
- `random.dfy` has `Math.floor(Math.random() * n)`.
- `entities.dfy` has the record types.
- `storage.dfy` has `localStorage`, as a class over a map from keys to stored values.

## How the model is built

Each store is a Dafny `class` whose fields are the store's `ref`s. Its actions are methods
with `modifies` clauses. Each computed view is a function over the list it reads. Each action
that changes several things (`loadBakeryData`, `login`, `initializeAuth`, ...) is also written
as a pure step function over the state and the storage map. The method's postcondition says
that it performs exactly that step, and lemmas prove what the step promises:

- round trips through storage;
- idempotence;
- the error cases;
- what stays unchanged.

A stored value is either the encoding of a value the stores write (`Encoded`) or text that
`JSON.parse` rejects (`Malformed`). Only the empty string is falsy, which matches the
`if (saved)` tests of the source.

In the auth store, `login` builds a fixed user from the email and the type and reads no other
store, and `logout` removes only `choukette_user` and resets no other store
(src/stores/auth.ts:43-87).

The tests that `filter` and `find` apply are written as functions that return a predicate
(`TypeIs`, `HasId`, `HasBakeryId`, `BakeryIs`, `HasCredentials`, `CompletedIn`,
`ProfessionalIdIs`, `PostIdIs`, `InCategory`, ...). A function and the lemmas about it then
mention the same lambda term, so the verifier sees them as one predicate. Tests that take no
argument (`IsRated`, `IsPremium`, ...) are plain named predicates.

## Model

| member | source | states |
|---|---|---|
| Missions.OpenMissions | src/stores/missions.ts:55-57 | every mission listed is an open mission of the catalogue, and every open mission is listed |
| Missions.UrgentMissionsSpec | src/stores/missions.ts:59-61 | `urgentMissions` keeps exactly the open missions tagged immediate or same-day, in order |
| Missions.GroupByTypeKeys | src/stores/missions.ts:63-69 | the `reduce` creates a group for a type exactly when some mission has that type |
| Missions.GroupByTypeGroups | src/stores/missions.ts:63-69 | each group is exactly the missions of its type, in their original order |
| Missions.GroupByTypeSpec | src/stores/missions.ts:63-69 | the grouping is a partition into non-empty groups |
| Missions.MissionsByTypeSpec | src/stores/missions.ts:63-69 | `missionsByType` partitions the open missions by type, in order, with no empty group |
| Missions.UrgentMissions | src/stores/missions.ts:59-61 | the `urgentMissions` view; its contract is `UrgentMissionsSpec` |
| Missions.GroupByType | src/stores/missions.ts:64-67 | the grouping `reduce`; its contract is `GroupByTypeKeys`, `GroupByTypeGroups` and `GroupByTypeSpec` |
| Missions.MissionsByType | src/stores/missions.ts:63-69 | the `missionsByType` view; its contract is `MissionsByTypeSpec` |
| Missions.SearchMissions | src/stores/missions.ts:684-714 | `searchMissions`; its contract is `SearchSpec`, `SearchMembership` and `SearchWithoutFilters` |
| Missions.SearchSpec | src/stores/missions.ts:684-714 | the chained filters select, in order, exactly the open missions that satisfy every filter that is set |
| Missions.SearchMembership | src/stores/missions.ts:684-714 | a mission is found iff it is in the catalogue and matches every set filter (exact position and type, case-insensitive city substring, inclusive rate bounds, some urgency tag) |
| Missions.SearchWithoutFilters | src/stores/missions.ts:684-714 | with no filter set the search returns `openMissions` |
| Missions.UrgentOnlyVersusUrgentMissions | src/stores/missions.ts:59-61 | the `urgentOnly` filter keeps every mission of `urgentMissions` and also keeps open within-week missions, which `urgentMissions` drops |
| Missions.GetMissionById | src/stores/missions.ts:676-678 | the first mission with the id; none exactly when no mission has it |
| Missions.GetApplicationsForMission | src/stores/missions.ts:680-682 | every application listed names the mission, and every application naming it is listed |
| Missions.BumpApplicants | src/stores/missions.ts:667-671 | the catalogue after the applicant increment keeps its length; the rest of its contract is `BumpApplicantsSpec` and `BumpApplicantsTotal` |
| Missions.BumpApplicantsSpec | src/stores/missions.ts:667-671 | only the first mission with the id changes, by one more applicant; an unknown id changes nothing |
| Missions.BumpApplicantsTotal | src/stores/missions.ts:667-671 | the catalogue's total applicant count grows by one for a known id and is unchanged otherwise |
| Missions.ApplicationsAfterApply | src/stores/missions.ts:653-665 | after the push, the target mission's applications gain the new one at the end; other missions' lists are unchanged |
| Missions.SeedMissionsSpec | src/stores/missions.ts:72-650 | the seed has 22 open missions with ids "1" to "22" in order, all distinct |
| Missions.MissionsStore.constructor | src/stores/missions.ts:50-52 | empty lists, not loading, then the catalogue is the seed |
| Missions.MissionsStore.GenerateMockMissions | src/stores/missions.ts:72-650 | the catalogue is overwritten with the seed; the applications are kept |
| Missions.MissionsStore.ApplyToMission | src/stores/missions.ts:653-674 | returns one pending application, appends it, and bumps the first mission with that id |
| Bakeries.OpenMissionCount | src/stores/bakeries.ts:42 | the number of open missions, at most the total |
| Bakeries.FilledMissionCount | src/stores/bakeries.ts:43 | the number of filled missions, at most the total |
| Bakeries.PendingApplicationCount | src/stores/bakeries.ts:45 | the number of pending applications, at most the total |
| Bakeries.OpenAndFilledWithinTotal | src/stores/bakeries.ts:41-43 | open plus filled never exceeds `totalMissions` |
| Bakeries.BakeryRowsCoherent | src/stores/bakeries.ts:58-87 | each demo month fills two fewer missions than it posts, receives more applications than postings, and rates between 4 and 5 |
| Bakeries.Snapshot | src/stores/bakeries.ts:668-673 | the four-field object that is saved; `SaveThenLoad` proves a load gives it back |
| Bakeries.SaveStep | src/stores/bakeries.ts:666-676 | with a current bakery the key holds the snapshot; without one storage is unchanged |
| Bakeries.SaveIdempotent | src/stores/bakeries.ts:666-676 | saving twice stores the same thing as saving once |
| Bakeries.DecodeBakeryData | src/stores/bakeries.ts:678-683 | nothing is found exactly when the key is absent or empty; the value is corrupt exactly when the text does not parse |
| Bakeries.Restore | src/stores/bakeries.ts:684-689 | the current bakery as stored; missing lists become empty; the statistics are replaced only by a non-empty stored series |
| Bakeries.RestoreIdempotent | src/stores/bakeries.ts:684-689 | restoring the same snapshot twice changes nothing more |
| Bakeries.LoadFromStorageStep | src/stores/bakeries.ts:678-696 | returns true and restores on an object; on unparsable text returns false and removes it; with nothing stored returns false and changes nothing |
| Bakeries.SaveThenLoad | src/stores/bakeries.ts:666-696 | a load after a save with a current bakery returns true and gives back the same state |
| Bakeries.ClearThenLoad | src/stores/bakeries.ts:698-700 | after clearing, a load returns false and changes nothing |
| Bakeries.LoadForeignShape | src/stores/bakeries.ts:684-690 | an object of another shape loads as "no bakery, no missions, no applications" |
| Bakeries.FillerName | src/stores/bakeries.ts:717-784 | the fillers show the current bakery's name, or "Boulangerie" when there is none or it is empty |
| Bakeries.FillerMissions | src/stores/bakeries.ts:717-784 | three missions of the bakery: two filled, then one open |
| Bakeries.RebuildMissions | src/stores/bakeries.ts:713-786 | the missions `loadBakeryData` keeps; its contract is `RebuildMissionsSpec` |
| Bakeries.SelectStep | src/stores/bakeries.ts:710-813 | the selection half of `loadBakeryData`; its contract is the non-early-return part of `LoadDataSpec`: the bakery found by id becomes current, the missions are rebuilt, the fixed applications installed, every other field (the monthly statistics included) kept, and the storage is exactly the loaded one with the bakery key saved |
| Bakeries.LoadDataStep | src/stores/bakeries.ts:702-814 | `loadBakeryData` as a step; its contract is `LoadDataSpec`, which states the whole next state and storage on both paths |
| Bakeries.RebuildMissionsSpec | src/stores/bakeries.ts:713-786 | every kept mission belongs to the bakery; its own missions come first in order; exactly three fillers follow when it had fewer than five |
| Bakeries.LoadDataSpec | src/stores/bakeries.ts:702-814 | the bakery list is untouched; any current bakery is the requested one, and a known id always yields one; when storage already holds this bakery the restored state is kept and nothing is written; otherwise the bakery found by id becomes current, the missions are rebuilt and the fixed applications installed, every other field (the monthly statistics included) stays as loaded and the storage is the loaded one with only the bakery key saved, and an unknown id leaves no current bakery and saves nothing; for a known id a reload reproduces the state |
| Bakeries.LoginStep | src/stores/bakeries.ts:643-655 | `login` as a step; its contract is `LoginSpec` |
| Bakeries.LoginSpec | src/stores/bakeries.ts:643-655 | login fails with "Identifiants incorrects" exactly when no account has the email and password, and then changes nothing; on success it returns the first such account, makes its id current, and storage matches memory |
| Bakeries.LoginLoadsBakery | src/stores/bakeries.ts:645-651 | loading an account of the list keeps it current, and the saved state is what a reload finds |
| Bakeries.InitDataStep | src/stores/bakeries.ts:657-664 | `initializeBakeryData` as a step; its contract is `InitDataSpec` |
| Bakeries.InitDataSpec | src/stores/bakeries.ts:657-664 | after startup there are statistics; when the load leaves a non-empty series its state and storage are kept as they are; otherwise the window ending now is installed and saved |
| Bakeries.FirstWithCredentials | src/stores/bakeries.ts:644 | the account `login` finds is the first with that email and password |
| Bakeries.RandomBakeryAvatar | src/stores/bakeries.ts:97-100 | for a roll in [0, 1), one of `boulangerie1.jpeg` to `boulangerie22.jpeg` |
| Bakeries.SeedBakeriesSpec | src/stores/bakeries.ts:102-641 | 23 accounts, all with password `demo123`, each with its own avatar draw |
| Bakeries.DemoLogin | src/stores/bakeries.ts:102-655 | `boulangerie@moulin.fr` / `demo123` logs in as `bakery1` |
| Bakeries.BakeriesStore.constructor | src/stores/bakeries.ts:816-820 | the accounts are the seed, then `initializeBakeryData` runs |
| Bakeries.BakeriesStore.GenerateMockBakeries | src/stores/bakeries.ts:102-641 | the account list becomes the seed; nothing else changes |
| Bakeries.BakeriesStore.InitializeMonthlyStats | src/stores/bakeries.ts:58-87 | an existing series is kept; otherwise the window ending now with the fixed rows |
| Bakeries.BakeriesStore.MonthlyStats | src/stores/bakeries.ts:89-94 | returns a non-empty series, building it on first use |
| Bakeries.BakeriesStore.SaveBakeryDataToStorage | src/stores/bakeries.ts:666-676 | performs `SaveStep` |
| Bakeries.BakeriesStore.LoadBakeryDataFromStorage | src/stores/bakeries.ts:678-696 | performs `LoadFromStorageStep`, returning its answer |
| Bakeries.BakeriesStore.ClearBakeryDataFromStorage | src/stores/bakeries.ts:698-700 | removes only the bakery key |
| Bakeries.BakeriesStore.LoadBakeryData | src/stores/bakeries.ts:702-814 | performs `LoadDataStep` |
| Bakeries.BakeriesStore.SelectBakery | src/stores/bakeries.ts:711-813 | performs the selection half of `loadBakeryData` |
| Bakeries.BakeriesStore.Login | src/stores/bakeries.ts:643-655 | performs `LoginStep` |
| Bakeries.BakeriesStore.InitializeBakeryData | src/stores/bakeries.ts:657-664 | performs `InitDataStep`; the account list is untouched |
| ProfessionalsStats.TotalEarnings | src/stores/professionalsStats.ts:22-24 | `totalEarnings`; its contract is `TotalsAdditive` and `SeedCompletedTotals` |
| ProfessionalsStats.TotalHours | src/stores/professionalsStats.ts:25-27 | `totalHours`; its contract is `TotalsAdditive` and `SeedCompletedTotals` |
| ProfessionalsStats.AverageRating | src/stores/professionalsStats.ts:28-32 | `averageRating`; its contract is `AverageOnlyRated`, `AverageIgnoresUnrated`, `AverageRatingBounds` and `AverageWhenAllRated` |
| ProfessionalsStats.MissionsThisMonth | src/stores/professionalsStats.ts:33-39 | `missionsThisMonth`; its contract is `MissionsThisMonthSpec` |
| ProfessionalsStats.TotalsAdditive | src/stores/professionalsStats.ts:22-27 | both totals are 0 on no missions and add up over concatenation |
| ProfessionalsStats.AverageOnlyRated | src/stores/professionalsStats.ts:28-32 | the average equals the average of the rated missions alone, so unrated missions at any position change nothing |
| ProfessionalsStats.AverageIgnoresUnrated | src/stores/professionalsStats.ts:28-32 | with no truthy rating the average is 0; appending an unrated mission leaves it unchanged |
| ProfessionalsStats.AverageRatingBounds | src/stores/professionalsStats.ts:28-32 | when some mission is rated and all ratings lie in [lo, hi], so does the average |
| ProfessionalsStats.AverageWhenAllRated | src/stores/professionalsStats.ts:28-32 | when every mission is rated, the average is the plain mean |
| ProfessionalsStats.MissionsThisMonthSpec | src/stores/professionalsStats.ts:33-39 | a mission is listed iff it was completed in the current year and month; listing again changes nothing |
| ProfessionalsStats.DemoRowsCoherent | src/stores/professionalsStats.ts:58-65 | 12 hours per mission, earnings equal hours times rate, and every column strictly increasing |
| ProfessionalsStats.SeedCompletedTotals | src/stores/professionalsStats.ts:95-165 | each seed record earns hours times rate; together they earn 2968 over 104 hours |
| ProfessionalsStats.SeedCompletedAverage | src/stores/professionalsStats.ts:95-165 | all six seed records are rated, and their average is 28/6 |
| ProfessionalsStats.ProfessionalsStatsStore.constructor | src/stores/professionalsStats.ts:18-19 | no missions, no professional, no window |
| ProfessionalsStats.ProfessionalsStatsStore.InitializeMonthlyStats | src/stores/professionalsStats.ts:52-81 | an existing window is kept; otherwise the window ending now; nothing else changes |
| ProfessionalsStats.ProfessionalsStatsStore.MonthlyStats | src/stores/professionalsStats.ts:83-88 | returns a non-empty window, building it on first use |
| ProfessionalsStats.ProfessionalsStatsStore.LoadProfessionalData | src/stores/professionalsStats.ts:90-166 | records the professional, ensures the window, installs the seed records; totals read 2968 and 104 |
| Calendar.AddMonths | src/stores/bakeries.ts:74 | a month d months away, with a valid 0-based month and the right month count |
| Calendar.MonthKey | src/stores/professionalsStats.ts:69 | the `YYYY-MM` key; its contract is `MonthKeyFormat` and `WindowKeysDistinct` |
| Calendar.Window | src/stores/professionalsStats.ts:67-80 | the six-month window in closed form; its contract is `WindowIsConsecutive` and `WindowKeysDistinct`, and `BuildWindow` is proved to compute it |
| Calendar.BuildWindow | src/stores/professionalsStats.ts:67-80 | the loop builds the six-month window, oldest first, pairing month k with row k |
| Calendar.WindowIsConsecutive | src/stores/bakeries.ts:73-74 | the window is six consecutive months ending at the current one |
| Calendar.WindowRollover | src/stores/professionalsStats.ts:68 | months before January fall in the previous year |
| Calendar.MonthKeyFormat | src/stores/professionalsStats.ts:69 | a key spells the year, a dash, and two digits reading as the 1-based month |
| Calendar.WindowKeysDistinct | src/stores/bakeries.ts:73-75 | the six month keys of a window are distinct |
| Randomness.RandomIndex | src/stores/professionals.ts:31 | `floor(roll * n)` is the unique i with i <= roll * n < i + 1, a valid index |
| Blog.GetBakeryImage | src/stores/blog.ts:9-11 | nothing iff there are no pictures; otherwise one of them, namely the entry at `index` modulo the count when that entry is not empty |
| Blog.SeedPostIdsDistinct | src/stores/blog.ts:43-683 | seed post ids are "1" to "20", distinct |
| Blog.SeedPostsNewestFirst | src/stores/blog.ts:43-683 | each seed post is strictly newer than the next |
| Blog.InsertDescending | src/stores/blog.ts:696-700 | inserting into a newest-first list keeps it newest first |
| Blog.SortedPosts | src/stores/blog.ts:696-700 | `sortedPosts`; its contract is `SortedPostsSpec`, `SortedWhenDescending` and `SortTwice` |
| Blog.SortedPostsSpec | src/stores/blog.ts:696-700 | the sorted view is a permutation of the posts, same length, newest first |
| Blog.SortedWhenDescending | src/stores/blog.ts:696-700 | posts already newest first are left as they are |
| Blog.SortTwice | src/stores/blog.ts:696-700 | sorting twice is sorting once |
| Blog.SeedPostsSorted | src/stores/blog.ts:43-708 | the seed is newest first, so sorting leaves it unchanged and the latest post is "1" |
| Blog.FeaturedPosts | src/stores/blog.ts:702-704 | `featuredPosts`; its contract is `FeaturedPostsSpec` |
| Blog.FeaturedPostsSpec | src/stores/blog.ts:702-704 | a post is featured-listed iff it is a post and featured; the list is newest first |
| Blog.PostsByCategory | src/stores/blog.ts:710-714 | `postsByCategory`; its contract is `PostsByCategorySpec` |
| Blog.PostsByCategorySpec | src/stores/blog.ts:710-714 | a post is listed iff it is a post of that category; newest first; an unknown category lists nothing |
| Blog.LatestPost | src/stores/blog.ts:706-708 | `latestPost`; its contract is `LatestPostSpec` |
| Blog.LatestPostSpec | src/stores/blog.ts:706-708 | there is a latest post iff there are posts; it is one of them and none is newer |
| Blog.GetPostById | src/stores/blog.ts:717-719 | the first post with the id; none exactly when no post has it |
| Blog.BumpViews | src/stores/blog.ts:721-727 | the posts after `incrementViews`; its contract is `BumpViewsSpec`, `BumpViewsUnknown` and `TwoIncrements` |
| Blog.BumpViewsSpec | src/stores/blog.ts:721-727 | the first post with the id gains one view (a missing count is 0); everything else is unchanged |
| Blog.BumpViewsUnknown | src/stores/blog.ts:721-727 | an unknown id leaves the posts unchanged |
| Blog.TwoIncrements | src/stores/blog.ts:721-727 | two increments of a post with no views leave it at two |
| Blog.StoredPosts | src/stores/blog.ts:686-687 | nothing is found exactly when the key is absent or empty |
| Blog.StoredPostsRoundTrip | src/stores/blog.ts:688-691 | the list written is the list read back |
| Blog.BlogStore.constructor | src/stores/blog.ts:730 | `generateMockPosts` at creation; unparsable stored text leaves the list empty |
| Blog.BlogStore.GenerateMockPosts | src/stores/blog.ts:685-692 | no stored list: install and store the seed; a stored list: adopt it and write nothing; unparsable text: report it |
| Blog.BlogStore.IncrementViews | src/stores/blog.ts:721-727 | the list becomes `BumpViews`; storage is rewritten only when the id is found |
| Auth.MockUser | src/stores/auth.ts:43-77 | the user `login` builds; its contract is `MockUserSpec` |
| Auth.MockUserSpec | src/stores/auth.ts:43-77 | the user carries the given id, email, type and creation time; its name and profile shape follow the type |
| Auth.StoredUser | src/stores/auth.ts:90-91 | nothing is found exactly when the key is absent or empty |
| Auth.InitAuthStep | src/stores/auth.ts:89-99 | `initializeAuth` as a step; its contract is `InitAuthSpec`, `LoginThenReload` and `LogoutThenReload` |
| Auth.InitAuthSpec | src/stores/auth.ts:89-99 | nothing stored: no change; a stored user: adopted; unparsable text: removed, the user kept; running twice is running once |
| Auth.LoginThenReload | src/stores/auth.ts:79-99 | a user stored by login is the user a fresh store restores |
| Auth.LogoutThenReload | src/stores/auth.ts:84-99 | after logout a fresh store stays signed out |
| Auth.AuthStore.constructor | src/stores/auth.ts:38 | signed out |
| Auth.AuthStore.IsAuthenticated | src/stores/auth.ts:39 | whether a user is signed in; `CurrentUserType`, `Login` and `Logout` state it |
| Auth.AuthStore.CurrentUserType | src/stores/auth.ts:39-40 | a type exactly when authenticated, and then the user's type |
| Auth.AuthStore.Login | src/stores/auth.ts:43-82 | returns the simulated user, is authenticated with that type, and stores the user under `choukette_user` |
| Auth.AuthStore.Logout | src/stores/auth.ts:84-87 | signed out, and only `choukette_user` is removed |
| Auth.AuthStore.InitializeAuth | src/stores/auth.ts:89-99 | performs `InitAuthStep` |
| Professionals.RandomProfessionalAvatar | src/stores/professionals.ts:29-32 | for a roll in [0, 1), one of `boulanger1.jpeg` to `boulanger20.jpeg` |
| Professionals.SeedIdsDistinct | src/stores/professionals.ts:39-453 | seed ids are `pro1` to `pro20`, distinct |
| Professionals.PremiumProfessionals | src/stores/professionals.ts:37 | `premiumProfessionals`; its contract is `PremiumProfessionalsSpec` and `SeedPremiumCount` |
| Professionals.PremiumProfessionalsSpec | src/stores/professionals.ts:37 | a profile is listed iff it is a profile and premium; one entry per premium position |
| Professionals.SeedPremiumCount | src/stores/professionals.ts:39-453 | exactly ten seed profiles are premium |
| Professionals.GetProfessionalById | src/stores/professionals.ts:457-459 | the first profile with the id; none exactly when no profile has it |
| Professionals.SeedLookup | src/stores/professionals.ts:39-459 | in the seed, `pro<n>` finds profile n |
| Professionals.ProfessionalsStore.constructor | src/stores/professionals.ts:455 | the empty list is filled with the seed |
| Professionals.ProfessionalsStore.GenerateMockProfessionals | src/stores/professionals.ts:39-453 | the list becomes the 20 seed profiles |

## Left out

- Rendering, routing, styling and Vue reactivity are not modelled. Computed properties are functions, evaluated on demand.
- JSON text is not modelled. A stored value is the value it encodes, or text that does not parse.
- A well-formed value of a foreign shape under `choukette_user` or `choukette_blog_posts` is treated like text that does not parse. The source would adopt whatever object it finds there. Under `choukette_bakery_data` the foreign shape is modelled (see `Bakeries.LoadForeignShape`).
- When the stored blog text does not parse, `JSON.parse` throws out of `generateMockPosts` and store creation fails. The model keeps an empty post list instead.
- `Math.random`, `new Date()` and `toISOString()` are not modelled. Their values are parameters: rolls in [0, 1), the current month, generated ids and creation instants.
- The bakery pictures that `import.meta.glob` collects are a parameter (`paths`).
- Locale month labels, time zones and day-of-month arithmetic are not modelled. The window keys and the year/month comparison of `missionsThisMonth` are modelled; `completedOn` stands for the month of `completedDate`.
- Lower-casing in the city filter is ASCII only. `toLowerCase` also folds non-ASCII letters.
- Display text of the seed data is not kept. This covers mission titles, descriptions, schedules, requirements and street addresses; bakery addresses, descriptions and administrative fields; the title, day and review of completed missions; blog titles, excerpts, bodies, authors and tags; profile details of the simulated users; and professionals' specialties, biographies, certifications, domains, portfolios, past positions and creation dates.
- The filler missions of `loadBakeryData` keep their status, type, position, rate and applicant count, with city Paris 75001. Their display text and dates are not kept.
- Bakeries.SeedBakeriesSpec: it does not prove that the 23 seed bakery ids are distinct.
- Blog.SortedPostsSpec: it proves that the result is a permutation and newest first. It does not prove that the sort is stable for equal instants, though `SortedPosts` does keep that order.
- The promises returned by both logins, `console.error` logging and the `isLoading` flag's use in the UI are not modelled.
- Blog publication dates are integers that order like the seed's ISO timestamps. The source sorts by `new Date(publishedAt).getTime()`, so a stored date that does not parse compares as NaN there; the model has no such value.
- Ratings of completed missions are integers. The source's values are whole numbers.
