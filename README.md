# EcoPlay environmental-education platform: a verified model of its client logic

EcoPlay is a React single-page application. Students take eco challenges and quizzes, schools manage activities, and NGOs run campaigns. Apart from markup, the client contains a handful of small rules. This project models those rules in Dafny and proves what they promise:

- **App shell** (`app.dfy`, module `App`):
  - a loading guard, then a login guard for a missing user;
  - the nested role/page router `renderPage`, total over all strings;
  - the `currentPage` cell that navigation replaces.
- **Navigation bar** (`navigation.dfy`, module `Navigation`):
  - the fixed, ordered item list each role is offered;
  - the active-item test;
  - the link between the bar and the router: every offered id reaches a page of its own, and nothing else does.
- **Mock authentication** (`auth.dfy`, module `Auth`):
  - the provider's `user` and `loading` cells and the `eco-platform-user` storage entry;
  - the mount effect that restores a session, `login` over the three mock users, and `logout`.
  - The pure step functions `MountStep`, `LoginStep` and `LogoutStep` specify each handler. The class `AuthProvider` performs them field by field and is proved equal to them.
- **Quizzes** (`quizzes.dfy`, module `Quizzes`):
  - the list / taking / results flow over the page's five state cells (class `QuizzesPage`);
  - the score loop of `finishQuiz`, proved against the rule round(k · totalPoints / n);
  - the results view's count of correct answers.
- **Activity management** (`activities.dfy`, module `Activities`):
  - the school's activity list with create, delete and status change (class `ManageActivitiesPage` over pure list functions);
  - the draft → active → completed lifecycle its buttons offer.
- **Challenges** (`challenges.dfy`, module `Challenges`):
  - the three-part challenge filter (status, case-insensitive search, category);
  - the one action each challenge card shows.

The other modules are shared:

- `types.dfy` (`Types`) holds the record shapes of `src/types/index.ts`.
- `wrappers.dfy` (`Wrappers`) holds `Option`.
- `seqs.dfy` (`Seqs`) holds an order-preserving subsequence predicate.

Modelling choices:

- **Storage.** A storage entry holds `StoredText`. It is either `UserJson(u)`, the text `JSON.stringify` wrote for user `u`, which `JSON.parse` reads back as `u`, or `OtherText(raw)`.
  - The empty text is falsy, so the mount effect ignores it.
  - Any other text is treated as text `JSON.parse` rejects. The parse throws, which is reported as `UnparsableSession` with `loading` left set.
- **Async login.** `login` is treated as one sequential step. An error it throws is returned as an `AuthError`.
- **Role text.** Roles stay text where the code compares text: a user's role comes back from storage as a string. `Types.RoleOf` reads the three known role names.
- **Quiz score.** The score is computed in exact rationals (`real`).

Two behaviours of the code are easy to assume otherwise, and the model follows the code:

- `AuthContext.jsx` never calls the API service. There is no token, health check or profile refresh.
- `currentPage` is not reset when a different user signs in. `AppContent` stays mounted, so the page key survives a logout and the next login.

## Model

| member | source | states |
|---|---|---|
| Types.RoleOf | src/types/index.ts:5 | Only the three role names read as roles; each reads back as the role whose name it is. |
| App.RenderPage | src/App.jsx:38-102 | Every (role, page) pair of strings gets a view, and that view is always a page of the served role (an unknown role is served as a student), never a guard view. |
| App.DashboardFor | src/App.jsx:38-102 | The fallback every `default` branch returns is the view the served role's dashboard key reaches, one of that role's pages. |
| App.AppView | src/App.jsx:19-36 | Loading wins over everything and shows the loading view; next, no user shows the login form; otherwise the view is a page of the signed-in user's served role. |
| App.LoadingGuard | src/App.jsx:23-32 | While loading, the loading view is shown whatever the user and the page are. |
| App.UserGuard | src/App.jsx:34-36 | Not loading and no user gives the login form; with a user, the router's view, which is neither guard view. |
| App.StudentRoutes | src/App.jsx:40-52 | The student's four keys reach their own views; every other key reaches the student dashboard. |
| App.SchoolRoutes | src/App.jsx:54-71 | The school's three keys reach their own views; every other key reaches the school dashboard. |
| App.NgoRoutes | src/App.jsx:73-97 | The NGO's three keys reach their own views; every other key reaches the NGO dashboard. |
| App.UnknownRoleRoutes | src/App.jsx:99-100 | An unrecognised role text gets the student dashboard for every page. |
| App.RouterFallback | src/App.jsx:38-102 | A key without a case of its own under the role falls back to that role's dashboard. |
| App.RoutedPagesDistinctViews | src/App.jsx:38-102 | The routed keys of a role reach pairwise different views, and the first is the dashboard. |
| App.FailedLoginKeepsLoadingView | src/App.jsx:23-32 | After a failed login, `loading` is still set, so the shell stays on the loading view. |
| App.LoginRoutesByRole | src/App.jsx:34-39 | After a successful login, the shell shows the router's view for the signed-in role and the kept page key. |
| App.StudentLoginScenario | src/App.jsx:40-43 | The student mock account signed in on the dashboard key lands on the student dashboard. |
| App.Shell.constructor | src/App.jsx:21 | `currentPage` starts as the dashboard key. |
| App.Shell.Navigate | src/App.jsx:106 | Navigation replaces the page key wholesale with the one given. |
| Navigation.NavigationItems | src/components/Layout/Navigation.jsx:20-44 | Every role's list is empty or starts with the dashboard, and never repeats an id. |
| Navigation.ItemsPerRole | src/components/Layout/Navigation.jsx:22-40 | The exact ordered ids offered to the student, the school and the NGO. |
| Navigation.NoItemsWithoutRole | src/components/Layout/Navigation.jsx:41-42 | An absent user or an unknown role gets an empty bar. |
| Navigation.IsActive | src/components/Layout/Navigation.jsx:67 | An item is highlighted exactly when the current page key is its id (the same test at line 123 for the mobile bar); `AtMostOneActive` proves what follows from it. |
| Navigation.AtMostOneActive | src/components/Layout/Navigation.jsx:67 | Whatever the current page key, no two items of a role's bar are active at once. |
| Navigation.OfferedIdsAreRoutedPages | src/components/Layout/Navigation.jsx:20-44 | For every role text, the bar offers exactly the keys the router has a case of its own for, in the same order. |
| Navigation.OfferedIdsReachOwnPages | src/components/Layout/Navigation.jsx:20-44 | Every offered id other than the dashboard reaches a view other than the dashboard; a key the bar does not offer reaches the dashboard. |
| Auth.FindUser | src/contexts/AuthContext.jsx:51 | A found user is the first user in the list with that email and role; nothing is found exactly when no user matches. |
| Auth.MountStep | src/contexts/AuthContext.jsx:38-45 | The mount effect never writes storage. It clears `loading` unless it throws. A throw is the unparsable-session error and changes nothing. The user changes only to the user stored under the key. |
| Auth.LoginStep | src/contexts/AuthContext.jsx:47-61 | On success, the user is a matching mock user, `loading` is cleared, and storage gains exactly that user under the key; on failure, invalid credentials is thrown with `loading` left set and user and storage kept. |
| Auth.LogoutStep | src/contexts/AuthContext.jsx:63-66 | The user is cleared and the key removed; `loading` and every other entry are kept, and no entry is added. |
| Auth.InitialState | src/contexts/AuthContext.jsx:35-36 | Before the mount effect there is no user and `loading` is set. |
| Auth.LoginSucceedsIff | src/contexts/AuthContext.jsx:47-57 | A login succeeds exactly when some mock user has that email and that role. |
| Auth.LoginIgnoresPassword | src/contexts/AuthContext.jsx:47-53 | Two logins that differ only in the password have the same outcome. |
| Auth.LoginSuccess | src/contexts/AuthContext.jsx:53-60 | On success, the user is the matching mock user, storage holds that user under the key, `loading` is cleared, and every other storage entry is untouched. |
| Auth.LoginFailure | src/contexts/AuthContext.jsx:48-58 | On a miss, the login throws invalid credentials and leaves user and storage unchanged, with `loading` left set. |
| Auth.LogoutClears | src/contexts/AuthContext.jsx:63-66 | Logout clears the user and removes the key, and touches neither `loading` nor any other entry. |
| Auth.LogoutIdempotent | src/contexts/AuthContext.jsx:63-66 | Logging out twice is the same as logging out once. |
| Auth.MountRestores | src/contexts/AuthContext.jsx:38-45 | A stored user is restored on mount and loading ends. |
| Auth.MountWithoutSession | src/contexts/AuthContext.jsx:38-45 | With no entry, or an empty one, the user stays absent and loading ends. |
| Auth.LoginThenMountRestores | src/contexts/AuthContext.jsx:40-55 | After a successful login, a fresh mount over the same storage restores that same user. |
| Auth.MockEmailsDistinct | src/contexts/AuthContext.jsx:6-32 | The mock users have pairwise distinct emails. |
| Auth.AtMostOneMatch | src/contexts/AuthContext.jsx:51 | The (email, role) lookup matches at most one mock user. |
| Auth.DemoEmailsMatchNoUser | src/components/Auth/LoginForm.jsx:29-33 | The student and school demonstration emails match no mock user, whatever the role; the NGO one signs in. |
| Auth.AuthProvider.constructor | src/contexts/AuthContext.jsx:35-36 | The provider starts in the initial state over the given storage. |
| Auth.AuthProvider.Mount | src/contexts/AuthContext.jsx:38-45 | The mount effect changes the cells and reports errors exactly as `MountStep` says. |
| Auth.AuthProvider.Login | src/contexts/AuthContext.jsx:47-61 | `login` changes the cells and storage and reports errors exactly as `LoginStep` says. |
| Auth.AuthProvider.Logout | src/contexts/AuthContext.jsx:63-66 | `logout` leaves the state `LogoutStep` describes. |
| Quizzes.SetAnswer | src/components/Student/QuizzesPage.jsx:90-94 | The slot at the index now holds the answer, and every other slot reads as before; an index past the end lengthens the array. |
| Quizzes.CorrectBelow | src/components/Student/QuizzesPage.jsx:107-112 | The count of correct answers among the first m questions is at most m, and equals m exactly when all of them are correct. |
| Quizzes.CorrectCount | src/components/Student/QuizzesPage.jsx:107-112 | The number k of correct answers is at most the number of questions. |
| Quizzes.Round | src/components/Student/QuizzesPage.jsx:114 | `Math.round` gives the integer r with r ≤ x + 1/2 < r + 1. |
| Quizzes.ScoreBounds | src/components/Student/QuizzesPage.jsx:107-114 | With non-negative points, the score lies between 0 and the quiz's total points. |
| Quizzes.ScoreMonotone | src/components/Student/QuizzesPage.jsx:107-114 | More correct answers never lower the score. |
| Quizzes.ScoreAllCorrect | src/components/Student/QuizzesPage.jsx:107-114 | All n answers correct earns exactly the total points. |
| Quizzes.ScoreInIntegers | src/components/Student/QuizzesPage.jsx:107-114 | round(k · T / n) equals the integer quotient (2kT + n) div 2n. |
| Quizzes.AccumulateScore | src/components/Student/QuizzesPage.jsx:107-112 | The `forEach` loop sums k · (T / n), and its rounding is the quiz's final score. |
| Quizzes.QuizScore | src/components/Student/QuizzesPage.jsx:107-114 | The score rule round(k · T / n) on k correct answers; its bounds, monotonicity and integer form are the lemmas below. |
| Quizzes.FinalScore | src/components/Student/QuizzesPage.jsx:104-116 | The score a quiz earns with the given answers lies between 0 and the quiz's points when those are non-negative. |
| Quizzes.SharesOfQuiz | src/components/Student/QuizzesPage.jsx:107-114 | One share added per correct question over the whole quiz is k shares, and its rounding is the final score round(k · T / n). |
| Quizzes.ResultsCorrectCount | src/components/Student/QuizzesPage.jsx:216-218 | The results `filter` count exists exactly when the answer array is no longer than the quiz (otherwise it throws), and it then equals the scoring k, at most n. |
| Quizzes.ResultsCountIsScoringCount | src/components/Student/QuizzesPage.jsx:216-218 | When the answer array fits the quiz, the results view counts the same k that scoring uses, and that k is at most n. |
| Quizzes.WaterQuizThreeOfFour | src/components/Student/QuizzesPage.jsx:11-47 | Three of the four water questions right earns 75 of the quiz's 100 points. |
| Quizzes.QuizzesPage.CurrentScreen | src/components/Student/QuizzesPage.jsx:127-215 | The taking view when a quiz is selected and results are not shown, the results view when both hold, the list otherwise. |
| Quizzes.QuizzesPage.NextEnabled | src/components/Student/QuizzesPage.jsx:199-201 | The Next/Finish button is enabled exactly when the current question's slot holds an answer. |
| Quizzes.QuizzesPage.constructor | src/components/Student/QuizzesPage.jsx:5-9 | The page starts on the quiz list, with every cell at its start value. |
| Quizzes.QuizzesPage.StartQuiz | src/components/Student/QuizzesPage.jsx:82-88 | The quiz is selected, the index, answers, results flag and score are reset to 0, [], false and 0, and the taking screen is shown. |
| Quizzes.QuizzesPage.HandleAnswerSelect | src/components/Student/QuizzesPage.jsx:90-94 | Only the current slot changes, to the chosen answer, which enables the Next/Finish button. |
| Quizzes.QuizzesPage.NextQuestion | src/components/Student/QuizzesPage.jsx:96-102 | The index moves up by one while a question is left, and otherwise the quiz finishes. The index stays on a question and never decreases. Advancing from an answered question keeps every earlier question answered. |
| Quizzes.QuizzesPage.FinishQuiz | src/components/Student/QuizzesPage.jsx:104-116 | Without a quiz nothing changes; otherwise the score becomes round(k · T / n), stays within the points, and the results are shown. |
| Quizzes.QuizzesPage.ResetQuiz | src/components/Student/QuizzesPage.jsx:118-124 | Every cell is back at its start value and the quiz list is shown. |
| Activities.FromForm | src/components/School/ManageActivitiesPage.jsx:76-80 | The new activity carries every form field, the given id and zero enrolled students. |
| Activities.Created | src/components/School/ManageActivitiesPage.jsx:82 | Create grows the list by one: the new activity comes first and the old list follows, unchanged and in order. |
| Activities.WithoutId | src/components/School/ManageActivitiesPage.jsx:97-99 | Delete keeps exactly the activities whose id differs, every copy of each, in their original order. |
| Activities.WithStatus | src/components/School/ManageActivitiesPage.jsx:101-105 | A status change keeps the length and the order, and it changes only the status of the activities with that id. |
| Activities.DeleteAbsent | src/components/School/ManageActivitiesPage.jsx:97-99 | Deleting an id no activity has leaves the list unchanged. |
| Activities.DeleteIdempotent | src/components/School/ManageActivitiesPage.jsx:97-99 | Deleting twice is the same as deleting once. |
| Activities.DeletePresentShrinks | src/components/School/ManageActivitiesPage.jsx:97-99 | Deleting a present id shortens the list. |
| Activities.CreatePreservesUniqueIds | src/components/School/ManageActivitiesPage.jsx:76-82 | A create with a fresh id keeps the ids unique. |
| Activities.DeletePreservesUniqueIds | src/components/School/ManageActivitiesPage.jsx:97-99 | A delete keeps the ids unique. |
| Activities.StatusChangeKeepsIds | src/components/School/ManageActivitiesPage.jsx:101-105 | A status change keeps every id in place, and so keeps the ids unique. |
| Activities.NextStatus | src/components/School/ManageActivitiesPage.jsx:331-347 | The status each card's button sets: Launch makes a draft active, Complete makes an active activity completed, and a completed one has no button. |
| Activities.LifecycleMovesForward | src/components/School/ManageActivitiesPage.jsx:331-347 | Each offered status button moves one step forward (draft to active, active to completed), and only completed has none. |
| Activities.StatusButtonNeverMovesBack | src/components/School/ManageActivitiesPage.jsx:331-347 | Pressing an activity's button advances that activity one step and leaves every other activity as it was, so no status moves backwards. |
| Activities.ManageActivitiesPage.constructor | src/components/School/ManageActivitiesPage.jsx:5-57 | The page starts with the three sample activities (unique ids), the default form and the modal closed. |
| Activities.ManageActivitiesPage.OpenCreateForm | src/components/School/ManageActivitiesPage.jsx:118 | The modal opens, and the list and the form are unchanged. |
| Activities.ManageActivitiesPage.CloseCreateForm | src/components/School/ManageActivitiesPage.jsx:133-135 | The modal closes, and the list and the typed form are unchanged. |
| Activities.ManageActivitiesPage.CreateActivity | src/components/School/ManageActivitiesPage.jsx:73-95 | The form's activity is prepended, the form is reset to its defaults (Water, easy, 100 points, 200 places, draft), and the modal closes. The empty state goes away, and the ids stay unique when the id is fresh. |
| Activities.ManageActivitiesPage.EmptyStateShown | src/components/School/ManageActivitiesPage.jsx:385 | The "No activities yet" panel is shown exactly when the list is empty; `CreateActivity` and `DeleteActivity` state when that happens. |
| Activities.ManageActivitiesPage.DeleteActivity | src/components/School/ManageActivitiesPage.jsx:97-99 | The list becomes the activities with a different id, and the ids stay unique. The empty state shows exactly when every activity had that id. |
| Activities.ManageActivitiesPage.ChangeStatus | src/components/School/ManageActivitiesPage.jsx:101-105 | Only the status of the activities with that id changes, and the ids stay unique. |
| Challenges.Lower | src/components/Student/ChallengesPage.jsx:87-88 | Lower-casing keeps the length, maps each character, and leaves no upper-case ASCII letter. |
| Challenges.LowerIdempotent | src/components/Student/ChallengesPage.jsx:87-88 | Lower-casing twice is the same as lower-casing once. |
| Challenges.IncludesIff | src/components/Student/ChallengesPage.jsx:87-88 | `includes` holds exactly when the term occurs in the text at some position. |
| Challenges.IncludesEmpty | src/components/Student/ChallengesPage.jsx:86-88 | The empty search term occurs in every text. |
| Challenges.Includes | src/components/Student/ChallengesPage.jsx:87-88 | `includes` as a left-to-right scan; a term longer than the text never occurs in it, and `IncludesIff` characterises it by positions. |
| Challenges.Matches | src/components/Student/ChallengesPage.jsx:85-91 | The conjunction of the three tests: status filter 'all' or equal to the status name, lower-cased term in the lower-cased title or description, category 'all' or equal. |
| Challenges.FilterChallenges | src/components/Student/ChallengesPage.jsx:84-92 | A challenge is kept exactly when it passes all three tests: status filter, search over title or description, and category filter. Every copy of a passing challenge is kept and none of a failing one. What is kept is an order-preserving subsequence of the list. |
| Challenges.DefaultFiltersKeepAll | src/components/Student/ChallengesPage.jsx:85-89 | With status filter 'all', an empty search and category 'all', every challenge is kept. |
| Challenges.FilterIdempotent | src/components/Student/ChallengesPage.jsx:84-92 | Filtering the filtered list again with the same criteria changes nothing. |
| Challenges.NarrowingStatusOnlyRemoves | src/components/Student/ChallengesPage.jsx:85 | Replacing the status filter 'all' by a specific status only removes challenges. |
| Challenges.NarrowingCategoryOnlyRemoves | src/components/Student/ChallengesPage.jsx:89 | Replacing the category 'all' by a specific category only removes challenges. |
| Challenges.EmptySearchTestsStatusOnly | src/components/Student/ChallengesPage.jsx:84-92 | With an empty search and every category, only the status test decides. |
| Challenges.StatusTabListsStatus | src/components/Student/ChallengesPage.jsx:84-92 | A status tab, with an empty search and every category, lists exactly the challenges of that status, in order. |
| Challenges.SampleListOpensComplete | src/components/Student/ChallengesPage.jsx:9-68 | On the default filters the page lists all six of its challenges, in order. |
| Challenges.ActionsShown | src/components/Student/ChallengesPage.jsx:218-243 | The three independent status tests of a card, each contributing its element; `ExactlyOneAction` proves exactly one holds. |
| Challenges.ExactlyOneAction | src/components/Student/ChallengesPage.jsx:218-243 | Every status shows exactly one action: Start for available, Continue for in-progress, the Completed label for completed. |

## Left out

- `src/services/api.js` is not part of this model. It does network I/O, `localStorage` token handling and page reloads, and the authentication context never calls it.
- `src/components/Auth/LoginForm.jsx` is form wiring and an async submit with a fixed error text. Only its demonstration emails appear, in `Auth.DemoEmailsMatchNoUser`.
- The student, school and NGO dashboards and the profile page are not part of this model. They hold static tables and presentation. `App.View` stands for each of them, and for the three "coming soon" panels, by name only.
- React rendering, hooks plumbing, CSS classes, icons and the items' captions beyond their text are left out, and so are the per-field `onChange` handlers of the activity form and the search and filter inputs. The model receives the resulting form and filter values as parameters.
- `Quizzes.AccumulateScore`: floating-point accumulation of `totalPoints / n` is modelled with exact rationals, so results where repeated float addition would round differently at a .5 boundary are not captured.
- Progress-bar widths and other display percentages are floating-point and are not modelled.
- `Activities.ManageActivitiesPage.CreateActivity`: the id from `Date.now().toString()` is a parameter, because the clock is outside the model. Unique ids are promised only when that id is fresh, because the page never checks it.
- `Challenges.Lower`: `toLowerCase` is modelled on ASCII letters only; other Unicode case mappings are not captured.
- `Auth.StoredText`: the JSON text of a stored session is abstracted. Text that parses as valid JSON but is not a user record is not modelled as such; it is counted as `OtherText`.
- The handlers `handleStartChallenge` and `handleContinueChallenge` only write to the console and change no state. The challenge module holds no state for them to change, so they have no member.
- `Campaign` and `LeaderboardEntry` from `src/types/index.ts` are used only by the dashboards, which this model leaves out.
- The async `login` is modelled as one sequential step; interleavings with other renders are not modelled.
