# Class-Connect core in Dafny

Class-Connect is a demo student dashboard built on Next.js. This project models
the parts of it that carry behaviour and proves properties about them:

- **The in-memory API stores.** The tasks, groups and focus-session routes and
  the registration route each keep a module-level list, record or `Map` and
  change it in place. Each becomes a class over a `seq` or `map` (`TaskStore`,
  `GroupStore`, `FocusStore`, `UserRegistry`). Its handlers are methods that
  return a response datatype carrying the HTTP status. The contracts cover every
  validation branch (400, 404, 409), state that a rejection leaves the store
  unchanged, and give the exact new store on success.
- **The stateless request decisions.** These are the login credential check,
  the AI-chat route (message check, default model, fallback generator, quoted
  prompt) and the middleware redirect rule. Each is a function of its inputs.
- **The Pomodoro timer of the focus page.** It is a class with the page's five
  state variables. Its methods are the mode change, toggle, reset, the
  one-second tick and the completion step, and they keep the invariant
  `0 <= timeLeft <= duration(mode)`. The `mm:ss` formatter and the break count
  are functions.
- **The list logic of the dashboard pages** (tasks, groups, jobs, courses,
  tools, chat, resume):
  - filters that AND their tests and treat 'all' as a wildcard
  - status and category partitions
  - prepend, map-update and filter-delete transitions
  - set and list toggles
  - shallow record merges
  - message append
  - bounded previews

  Each page's `useState` variables that its handlers change become a class.
  Each handler is a method whose `ensures` ties the new state to a function of
  the old one. The properties are proved about those functions.

Shared pieces are in `common.dfy`. Module `Common` holds JavaScript truthiness
of optional strings, ASCII lower-casing, substring search, `trim`, and `filter`,
`map`, `findIndex`, `splice` and `slice` on sequences. Module `Sorting` holds an
in-place insertion sort by descending key; it stands in for `Array.prototype.sort`
with a numeric comparator.

Ids, timestamps and "today" come from the clock in the original. Here they are
parameters of the operations that use them. The signed-in user is a parameter too.

Some facts about the code are worth stating plainly, since a reader might
expect otherwise:

- Ids are not unique. They come from `Date.now()`, and PUT and DELETE act on
  the first match.
- The API routes append new tasks and groups at the end of their lists; only
  the pages prepend them.
- The PUT route sets `updatedAt` to whatever the clock says, so it need not
  advance.
- The focus page counts a finished focus period twice (see "## Findings").

The tasks page uses status 'pending' where the API route uses 'todo'.

## Model

| member | source | states |
|---|---|---|
| TasksApi.Query | src/app/api/tasks/route.ts:47-57 | the GET list holds exactly the tasks passing the status, priority and category tests, each skipped when its parameter is absent, empty or 'all'; it is an order-preserving sub-list of the store; each passing task occurs in it as often as in the store, and no failing one occurs at all |
| TasksApi.QueryWithoutParameters | src/app/api/tasks/route.ts:47-57 | with no usable parameter GET lists the whole store |
| TasksApi.IndexOf | src/app/api/tasks/route.ts:116 | `findIndex`: -1 exactly when no task has the id, otherwise the first index holding it |
| TasksApi.Merge | src/app/api/tasks/route.ts:104-128 | the merge keeps the id, sets `updatedAt` to the server time even if the patch carries one, and each of title, description, status, priority, category, dueDate and createdAt is the patch's value when the patch has one and the stored value otherwise |
| TasksApi.MergeEmptyPatch | src/app/api/tasks/route.ts:124-128 | an empty patch only refreshes `updatedAt` |
| TasksApi.MergeTwice | src/app/api/tasks/route.ts:124-128 | applying the same patch twice equals applying it once at the later time |
| TasksApi.TaskStore.constructor | src/app/api/tasks/route.ts:16-39 | the store starts with the two seeded tasks |
| TasksApi.TaskStore.Get | src/app/api/tasks/route.ts:41-64 | GET answers 200 with `Query` of the store and `total` equal to its length, filtering a copy filter by filter without changing the store |
| TasksApi.TaskStore.Post | src/app/api/tasks/route.ts:66-102 | no title: 400 and the store is unchanged; otherwise one task is appended at the end with status 'todo' and defaults '' / 'medium' / 'general' / today, and earlier tasks are unchanged |
| TasksApi.TaskStore.Put | src/app/api/tasks/route.ts:104-140 | no id: 400, unknown id: 404, both with the store unchanged; otherwise only the first task with the id is replaced by the merge, with length and all other entries unchanged |
| TasksApi.TaskStore.Delete | src/app/api/tasks/route.ts:142-174 | no id: 400, unknown id: 404, both with the store unchanged; otherwise exactly the first match is spliced out, the length drops by 1 and the rest keep their order |
| GroupsApi.Query | src/app/api/groups/route.ts:41-45 | the GET list is the order-preserving sub-list of groups of the requested category, or all groups when the category is absent, empty or 'all'; each passing group occurs in it as often as in the store, and no failing one occurs at all |
| GroupsApi.IndexOf | src/app/api/groups/route.ts:103 | `findIndex`: -1 exactly when no group has the id, otherwise the first index holding it |
| GroupsApi.GroupStore.constructor | src/app/api/groups/route.ts:14-35 | the store starts with the two seeded groups |
| GroupsApi.GroupStore.Get | src/app/api/groups/route.ts:37-52 | GET answers 200 with `Query` of the store and its length, store unchanged |
| GroupsApi.GroupStore.Post | src/app/api/groups/route.ts:54-89 | no name: 400 and the store is unchanged; otherwise one group is appended with memberCount 1 and defaults '' / 'general' / public / owner '1'; every stored group, and so every memberCount, was there before or is the new one |
| GroupsApi.GroupStore.Delete | src/app/api/groups/route.ts:91-112 | no id: 400, unknown id: 404, both with the store unchanged; otherwise exactly the first match is spliced out and the rest keep their order |
| FocusApi.AddFocus | src/app/api/focus/route.ts:70-73 | a focus session adds `floor(duration / 60)` minutes, raises the score by 1 capped at 100 and keeps the streak |
| FocusApi.AfterPost | src/app/api/focus/route.ts:65-73 | a POST in mode 'focus' applies `AddFocus`; any other mode leaves the stats unchanged; the streak never changes |
| FocusApi.SessionsOf | src/app/api/focus/route.ts:38 | exactly the sessions of the user, in insertion order; each session of the user occurs as often as in the store, no other session at all |
| FocusApi.ScoreCapped | src/app/api/focus/route.ts:70-73 | after one or more focus sessions the score is at most 100, whatever it was before, and the streak is unchanged |
| FocusApi.FocusStore.constructor | src/app/api/focus/route.ts:11-14 | no sessions; user '1' has 165 minutes, streak 7, score 85 |
| FocusApi.FocusStore.Get | src/app/api/focus/route.ts:16-40 | the user defaults to '1'; the answer holds their stats, or all-zero stats without inserting them, and exactly their sessions |
| FocusApi.FocusStore.Post | src/app/api/focus/route.ts:42-86 | a missing or zero duration or a missing mode gives 400 with sessions and stats unchanged; otherwise one session is appended, user defaulting to '1', and only that user's stats change, created as zero first, by `AfterPost` |
| RegisterApi.UserRegistry.constructor | src/app/api/auth/register/route.ts:4 | the registry starts empty |
| RegisterApi.UserRegistry.Register | src/app/api/auth/register/route.ts:11-48 | checks in order: a missing or empty field gives 400, a password shorter than 6 gives 400 (6 is accepted), a known email gives 409, each leaving the map unchanged; success adds exactly one entry keyed by email and answers 201 with id, email and name only |
| LoginApi.Login | src/app/api/auth/login/route.ts:18-43 | a missing email or password gives 400; an unknown email and a wrong password give the same 401; success carries id, email and name from the stored record and the token |
| LoginApi.OnlyDemoAccountLogsIn | src/app/api/auth/login/route.ts:4-31 | a login succeeds exactly for `demo@classconnect.edu` with `demo123`, and then returns that record's public fields |
| AiChatApi.Lookup | src/app/api/ai/chat/route.ts:4-20 | the generator table: a model id finds the generator registered under it, or none when no generator has that id |
| AiChatApi.Choose | src/app/api/ai/chat/route.ts:40 | an unknown model id falls back to the GPT-4 generator |
| AiChatApi.Generate | src/app/api/ai/chat/route.ts:5-19 | every generator's text starts with its bracketed tag and quotes at most the first 50 characters of the prompt, followed by `...` |
| AiChatApi.Layout | src/app/api/ai/chat/route.ts:5-19 | where the tag, the quote and the `...` sit inside a generated text |
| AiChatApi.Chat | src/app/api/ai/chat/route.ts:25-47 | a missing or empty message gives 400 and nothing else does; otherwise the answer echoes the requested model, which defaults to 'gpt-4', and is written by `Choose` of it from the message |
| AiChatApi.DefaultIsGpt4 | src/app/api/ai/chat/route.ts:25 | without a model the GPT-4 generator answers and the model is 'gpt-4' |
| AiChatApi.UnknownModelFallsBack | src/app/api/ai/chat/route.ts:40-46 | an unknown model is answered by the GPT-4 generator but echoed as requested |
| AiChatApi.KnownModelSelectsOwnGenerator | src/app/api/ai/chat/route.ts:4-40 | each of the five ids selects its own generator |
| Middleware.StartsWithAny | src/middleware.ts:16 | the path starts with one of the routes |
| Middleware.Decide | src/middleware.ts:8-28 | a redirect to '/dashboard' happens exactly when the `auth-token` cookie is non-empty and the path starts with '/auth/login' or '/auth/register'; unauthenticated requests always pass |
| Middleware.BelowLoginRedirects | src/middleware.ts:6-18 | the match is by prefix: '/auth/login/x' redirects an authenticated user |
| Middleware.DashboardOpenWithoutToken | src/middleware.ts:12-27 | dashboard paths pass with no or an empty token |
| FocusTimer.Duration | src/app/dashboard/focus/page.tsx:57-61 | every mode has a positive duration (1500, 300, 900 seconds) |
| FocusTimer.Timer.constructor | src/app/dashboard/focus/page.tsx:64-68 | focus mode, 1500 s left, not running, 0 sessions, 165 focus minutes |
| FocusTimer.Timer.ChangeMode | src/app/dashboard/focus/page.tsx:79-83 | sets the mode, sets the time left to its duration and stops; counters unchanged |
| FocusTimer.Timer.Toggle | src/app/dashboard/focus/page.tsx:85-87 | only flips the running flag |
| FocusTimer.Timer.Reset | src/app/dashboard/focus/page.tsx:89-92 | restores the current mode's full duration and stops; mode unchanged |
| FocusTimer.Timer.Tick | src/app/dashboard/focus/page.tsx:97-100 | decrements the time left by exactly 1, only while running with time left; keeps `0 <= timeLeft <= duration(mode)` |
| FocusTimer.Timer.Complete | src/app/dashboard/focus/page.tsx:101-106 | at 0 s left it stops; in focus mode it adds one session and 25 minutes, in break modes the counters stay |
| FocusTimer.Timer.RunFocusSession | src/app/dashboard/focus/page.tsx:94-112 | ticking a fresh focus period down to zero runs the effect's completion branch, and stopping the timer re-runs the effect (its dependencies include `isRunning`) with no time left, so the period adds two sessions and 50 minutes |
| FocusTimer.Timer.Countdown | src/app/dashboard/focus/page.tsx:94-100 | a fresh focus period, started and ticked 1500 times, ends running at zero time left with the counters unchanged |
| FocusTimer.Timer.CompleteRunning | src/app/dashboard/focus/page.tsx:101-106 | the completion branch guarded by `isRunning`: it stops a running timer at zero and counts one session in focus mode, and does nothing on a stopped timer |
| FocusTimer.Timer.RunFocusSessionOnce | src/app/dashboard/focus/page.tsx:94-112 | with the guarded branch the same countdown and effect re-run add exactly one session and 25 minutes |
| FocusTimer.NatToString | src/app/dashboard/focus/page.tsx:76 | the decimal text of a number below 10 has one digit, below 100 two |
| FocusTimer.TwoDigits | src/app/dashboard/focus/page.tsx:76 | `padStart(2, '0')` of a number below 100 is its tens digit then its units digit |
| FocusTimer.FormatTimeShape | src/app/dashboard/focus/page.tsx:73-77 | for `s < 6000` the text has 5 characters with ':' at index 2, and the two fields read back as `mm` and `ss` with `60*mm + ss = s` and `ss < 60` |
| FocusTimer.BreakCount | src/app/dashboard/focus/page.tsx:335 | the break count is half the sessions rounded down |
| TasksPage.FilteredTasks | src/app/dashboard/tasks/page.tsx:135-141 | exactly the tasks whose title or description contains the search ignoring case, whose priority matches unless 'all' and whose category matches unless 'All', in order; each passing task occurs in it as often as in the list, and no failing one occurs at all |
| TasksPage.NoFilterShowsAll | src/app/dashboard/tasks/page.tsx:135-141 | an empty search with 'all' and 'All' shows every task |
| TasksPage.Bucket | src/app/dashboard/tasks/page.tsx:143-147 | a status list holds exactly the tasks of that status, in list order; each task of the status occurs as often as in the list, no other task at all |
| TasksPage.BucketsPartition | src/app/dashboard/tasks/page.tsx:143-147 | each task lands in the list of its status and in no other, and the three sizes sum to the count |
| TasksPage.Stats | src/app/dashboard/tasks/page.tsx:149-152 | total is the list length; completed and in-progress are the sizes of those lists and together at most the total |
| TasksPage.NewTask | src/app/dashboard/tasks/page.tsx:159-168 | the added task is pending with progress 0, with the draft's fields and defaults today / 'Computer Science' |
| TasksPage.SetStatus | src/app/dashboard/tasks/page.tsx:184 | a status change sets progress to 100 for completed and keeps it otherwise; no other field changes |
| TasksPage.WithStatus | src/app/dashboard/tasks/page.tsx:181-187 | only tasks with the id change, by `SetStatus`; length unchanged |
| TasksPage.WithoutId | src/app/dashboard/tasks/page.tsx:189-191 | every task with the id is removed; the others stay in order; each other task occurs as often as before |
| TasksPage.CheckboxTarget | src/app/dashboard/tasks/page.tsx:486-489 | the checkbox sends completed to pending and anything else to completed |
| TasksPage.CheckboxTwice | src/app/dashboard/tasks/page.tsx:486-489 | ticking and unticking leaves a task pending with progress 100 |
| TasksPage.TasksPageState.AddTask | src/app/dashboard/tasks/page.tsx:156-179 | an empty title changes nothing; otherwise the new task is prepended, the rest keep their order, the draft resets and the dialog closes |
| TasksPage.TasksPageState.UpdateTaskStatus | src/app/dashboard/tasks/page.tsx:181-187 | the list becomes `WithStatus` of the old one |
| TasksPage.TasksPageState.DeleteTask | src/app/dashboard/tasks/page.tsx:189-191 | the list becomes `WithoutId` of the old one |
| GroupsPage.FilteredGroups | src/app/dashboard/groups/page.tsx:179-185 | exactly the groups whose name or description contains the search ignoring case and whose category matches unless 'all', in order; each passing group occurs in it as often as in the list, and no failing one occurs at all |
| GroupsPage.NoFilterShowsAll | src/app/dashboard/groups/page.tsx:179-185 | an empty search with 'all' shows every group |
| GroupsPage.CreatorOf | src/app/dashboard/groups/page.tsx:197-202 | the creator is an online admin; its id is the user's id when that is non-empty and '1' otherwise (also without a signed-in user), and its name likewise the user's name or 'You' |
| GroupsPage.NewGroup | src/app/dashboard/groups/page.tsx:188-206 | the new group has the draft's fields, memberCount 1, the creator as its single member, and 0 unread |
| GroupsPage.CreateDisablesButton | src/app/dashboard/groups/page.tsx:209 | the reset draft is empty, 'study', public, and it disables the Create button |
| GroupsPage.GroupsPageState.HandleCreateGroup | src/app/dashboard/groups/page.tsx:187-210 | with no guard of its own, it puts exactly one new group in front with the older ones unchanged and in order, closes the dialog and resets the draft |
| JobsPage.Score | src/app/dashboard/jobs/page.tsx:377 | a missing match score counts as 0 |
| JobsPage.FilteredJobs | src/app/dashboard/jobs/page.tsx:251-260 | exactly the jobs matching the search in title, company or a skill, an empty or contained location, and 'All Types' or the exact type, in order; each passing job occurs in it as often as in the list, and no failing one occurs at all |
| JobsPage.NoFilterShowsAll | src/app/dashboard/jobs/page.tsx:251-260 | the initial inputs show every job |
| JobsPage.MatchColor | src/app/dashboard/jobs/page.tsx:274-278 | scores of 80 and up are green, 60 to 79 yellow, below 60 red |
| JobsPage.MatchColorMonotone | src/app/dashboard/jobs/page.tsx:274-278 | a higher score never gets a worse colour |
| JobsPage.InitialSaved | src/app/dashboard/jobs/page.tsx:247-249 | the initial saved set is exactly the ids of bookmarked jobs |
| JobsPage.JobsPageState.constructor | src/app/dashboard/jobs/page.tsx:247-249 | the page starts with `InitialSaved` |
| JobsPage.JobsPageState.ToggleSaveJob | src/app/dashboard/jobs/page.tsx:262-272 | the id is added exactly when absent and removed exactly when present; other ids untouched |
| JobsPage.Recommended | src/app/dashboard/jobs/page.tsx:655-657 | the Recommended list is a rearrangement of the jobs scoring at least 75, in non-increasing score order |
| JobsPage.TopMatch | src/app/dashboard/jobs/page.tsx:376-378 | the module list is sorted in place by descending score as a permutation, and the single job shown has a score at least that of every job |
| CoursesPage.FilteredCourses | src/app/dashboard/courses/page.tsx:220-232 | exactly the courses passing the search in title, description or tags, the category unless 'all', the lower-cased level unless 'all', and the price filter, in order; each passing course occurs in it as often as in the list, and no failing one occurs at all |
| CoursesPage.PriceFiltersPartition | src/app/dashboard/courses/page.tsx:227-230 | with the other filters fixed, the 'free' and 'paid' lists split the 'all' list: each course is in exactly one, according to its price, and the sizes add up |
| CoursesPage.PriceSplitCount | src/app/dashboard/courses/page.tsx:227-230 | the sizes of the 'free' and 'paid' lists add up to the size of the 'all' list |
| CoursesPage.PriceMember | src/app/dashboard/courses/page.tsx:227-230 | a course of the 'all' list is in the 'free' list exactly when it is free and in the 'paid' list exactly when it is not |
| CoursesPage.UnknownPriceShowsNothing | src/app/dashboard/courses/page.tsx:227-230 | a price filter other than 'all', 'free' or 'paid' shows nothing |
| CoursesPage.InProgressCourses | src/app/dashboard/courses/page.tsx:234 | exactly the courses with a progress present and above 0, in order; each started course occurs as often as in the list, no other course at all |
| CoursesPage.InitialBookmarks | src/app/dashboard/courses/page.tsx:216-218 | the initial bookmark set is exactly the ids of bookmarked courses |
| CoursesPage.CoursesPageState.constructor | src/app/dashboard/courses/page.tsx:216-218 | the page starts with `InitialBookmarks` |
| CoursesPage.CoursesPageState.ToggleBookmark | src/app/dashboard/courses/page.tsx:236-246 | the id is added exactly when absent and removed exactly when present |
| CoursesPage.Trending | src/app/dashboard/courses/page.tsx:564-566 | the module list is sorted in place by descending enrolment as a permutation; at most 4 courses are shown, in non-increasing order, none with fewer students than a course not shown |
| ToolsPage.FilteredTools | src/app/dashboard/tools/page.tsx:98-101 | exactly the tools whose name or description contains the search ignoring case, in order; each passing tool occurs in it as often as in the catalogue, and no failing one occurs at all |
| ToolsPage.EmptySearchShowsAll | src/app/dashboard/tools/page.tsx:98-101 | an empty search shows every tool |
| ToolsPage.Popular | src/app/dashboard/tools/page.tsx:234 | exactly the shown tools flagged popular, in shown order; each popular shown tool occurs as often as in the shown list, no other tool at all |
| ToolsPage.Section | src/app/dashboard/tools/page.tsx:251 | a category section holds exactly the shown tools of that category, in shown order; each shown tool of the category occurs as often as in the shown list, no other tool at all |
| ToolsPage.SectionsPartition | src/app/dashboard/tools/page.tsx:249-251 | each shown tool is in the section of its category and in no other, and the four sizes add up |
| ToolsPage.SectionSizes | src/app/dashboard/tools/page.tsx:249-251 | the four category sections' sizes add up to the number of shown tools |
| ToolsPage.ToggledFavorites | src/app/dashboard/tools/page.tsx:103-109 | a listed id loses all its occurrences and an unlisted one is appended at the end; other ids stay; removing a listed id keeps every other id exactly as often as before |
| ToolsPage.ToggleKeepsDistinct | src/app/dashboard/tools/page.tsx:105-108 | toggling never introduces a duplicate |
| ToolsPage.ToggleAbsentTwice | src/app/dashboard/tools/page.tsx:103-109 | toggling an unlisted id twice restores the list |
| ToolsPage.TogglePresentTwice | src/app/dashboard/tools/page.tsx:103-109 | toggling a listed id twice removes its occurrences and puts it once at the end |
| ToolsPage.ToolsPageState.constructor | src/app/dashboard/tools/page.tsx:95 | the favourites list starts empty |
| ToolsPage.ToolsPageState.ToggleFavorite | src/app/dashboard/tools/page.tsx:103-109 | the list becomes `ToggledFavorites` of the old one |
| ChatPage.FilteredChats | src/app/dashboard/chat/page.tsx:147-149 | exactly the conversations whose name contains the search ignoring case, in order; each passing conversation occurs in it as often as in the list, and no failing one occurs at all |
| ChatPage.OneAvatarPerRun | src/app/dashboard/chat/page.tsx:385-387 | in a run of messages from one sender only the first shows the avatar |
| ChatPage.SenderId | src/app/dashboard/chat/page.tsx:164 | the sender is the user's id, or '1' without one |
| ChatPage.Append | src/app/dashboard/chat/page.tsx:170-177 | the message goes at the end, the preview becomes its text and the time 'Just now'; id, name, unread count, status and group flag are kept |
| ChatPage.WithMessage | src/app/dashboard/chat/page.tsx:170-180 | only conversations with the open one's id get the message; the others are unchanged |
| ChatPage.MarkRead | src/app/dashboard/chat/page.tsx:214 | only conversations with the id get unread 0 |
| ChatPage.SendKeepsInSync | src/app/dashboard/chat/page.tsx:182-186 | the open view and the list entry get the same message, so they stay in step |
| ChatPage.SelectSyncs | src/app/dashboard/chat/page.tsx:210-215 | opening a conversation of a list without repeated ids puts the view and the list in step |
| ChatPage.ChatPageState.HandleSendMessage | src/app/dashboard/chat/page.tsx:159-188 | a blank input after trimming or no open conversation changes nothing; otherwise one 'sent' message with the untrimmed input is appended in the list and the open view, and the input is cleared |
| ChatPage.ChatPageState.HandleSelectChat | src/app/dashboard/chat/page.tsx:210-215 | opens the conversation, hides the list and marks it read |
| ResumePage.ToggledSections | src/app/dashboard/resume/page.tsx:203-207 | only sections with the id flip `isExpanded`; order and other fields are unchanged |
| ResumePage.ToggleTwice | src/app/dashboard/resume/page.tsx:203-207 | toggling twice is the identity |
| ResumePage.Spread | src/app/dashboard/resume/page.tsx:210 | the merged data has the keys of both, the patch's values win and the other keys keep theirs |
| ResumePage.SpreadIdempotent | src/app/dashboard/resume/page.tsx:210 | merging the same patch again changes nothing |
| ResumePage.UpdatedSections | src/app/dashboard/resume/page.tsx:209-211 | only sections with the id get the patch merged into their data; the others are unchanged |
| ResumePage.ResumePageState.ToggleSection | src/app/dashboard/resume/page.tsx:203-207 | the sections become `ToggledSections` of the old ones |
| ResumePage.ResumePageState.UpdateSectionData | src/app/dashboard/resume/page.tsx:209-211 | the sections become `UpdatedSections` of the old ones |
| ResumePage.FindSection | src/app/dashboard/resume/page.tsx:685 | `find`: none exactly when no section has the type, otherwise the first one that does |
| ResumePage.TextField | src/app/dashboard/resume/page.tsx:685-686 | a non-empty string field of the found section, otherwise the fallback |
| ResumePage.PreviewName | src/app/dashboard/resume/page.tsx:685-686 | the preview name is the first personal section's `fullName` when that is a non-empty string, and 'Your Name' otherwise (including when there is no personal section) |
| ResumePage.ListField | src/app/dashboard/resume/page.tsx:705-709 | a list field of the found section, otherwise the empty list |
| ResumePage.PreviewExperience | src/app/dashboard/resume/page.tsx:705-711 | the first 2 items of the first experience section: a prefix, exactly 2 when there are that many, all of them when there are at most 2 |
| ResumePage.PreviewEducation | src/app/dashboard/resume/page.tsx:728-734 | the first item of the first education section: a prefix of at most one item, one when the list is non-empty, the whole list when it has at most one |
| ResumePage.FlatSkills | src/app/dashboard/resume/page.tsx:747-753 | the flattened list starts with the first category's skills |
| ResumePage.FlatSkillsAppend | src/app/dashboard/resume/page.tsx:753 | flattening a concatenation flattens each part in turn |
| ResumePage.FlatSkillsPlacesEach | src/app/dashboard/resume/page.tsx:753 | each category's skills come whole, right after those of the categories before it |
| ResumePage.PreviewSkills | src/app/dashboard/resume/page.tsx:747-754 | the first 10 of the flattened skills: a prefix, exactly 10 when there are that many, all of them when there are at most 10 |
| Common.Lower | src/app/dashboard/tasks/page.tsx:136 | lower-casing keeps the length and maps each character |
| Common.ContainsAt | src/app/dashboard/tasks/page.tsx:136 | `includes` holds exactly when the text occurs at some index |
| Common.ContainsEmpty | src/app/dashboard/tasks/page.tsx:136 | the empty search is found in every string |
| Common.Trim | src/app/dashboard/chat/page.tsx:160 | the trimmed text is no longer and neither starts nor ends with white space |
| Common.TrimIsSlice | src/app/dashboard/chat/page.tsx:160 | the trimmed text is a contiguous slice of the input, and everything cut off on either side is white space |
| Common.TrimEmptyIffBlank | src/app/dashboard/chat/page.tsx:160 | the trimmed text is empty exactly when every character is white space |
| Common.Take | src/app/dashboard/resume/page.tsx:706 | `slice(0, n)` is a prefix of length at most n, exactly n when there are that many |
| Common.Filter | src/app/dashboard/tasks/page.tsx:135 | `filter` keeps exactly the elements satisfying the test |
| Common.FilterCounts | src/app/dashboard/tasks/page.tsx:135 | `filter` keeps each passing element exactly as often as it occurs in the input and drops every failing one, so the result is the input's multiset cut down by the test |
| Common.FilterIsSubsequence | src/app/dashboard/tasks/page.tsx:135 | `filter` keeps the relative order |
| Common.FilterKeepsAll | src/app/api/tasks/route.ts:47-57 | a filter that every element passes returns the list |
| Common.FilterPassAll | src/app/api/tasks/route.ts:47-57 | a skipped filter is a filter passing everything |
| Common.FilterFuse | src/app/api/tasks/route.ts:47-57 | successive filters are one filter on the conjunction |
| Common.FilterSplitCount | src/app/dashboard/tools/page.tsx:106 | a test and its negation split a list's length |
| Common.FilterAppend | src/app/dashboard/tools/page.tsx:106-107 | filtering a concatenation filters each part |
| Common.FilterDistinct | src/app/dashboard/tools/page.tsx:106 | a filter of a list without repetitions has none |
| Common.MapWhere | src/app/dashboard/tasks/page.tsx:182-186 | the conditional `map` keeps the length and replaces exactly the matching elements |
| Common.Toggle | src/app/dashboard/jobs/page.tsx:264-270 | the element is in the result exactly when it was not before; others unchanged |
| Common.ToggleTwice | src/app/dashboard/jobs/page.tsx:262-272 | toggling twice restores the set |
| Common.IdsWhere | src/app/dashboard/jobs/page.tsx:248 | exactly the ids of the elements passing the test |
| Common.FirstIndex | src/app/api/tasks/route.ts:116 | -1 exactly when nothing matches, otherwise the first matching index |
| Common.RemoveAt | src/app/api/tasks/route.ts:162 | `splice(i, 1)` removes one element, keeps the prefix and shifts the suffix |
| Common.RemoveAtIsSubsequence | src/app/api/tasks/route.ts:162 | what `splice` leaves keeps its order |
| Common.SubsequenceOfSelf | src/app/api/groups/route.ts:41 | a list is an order-preserving sub-list of itself |
| Sorting.Swap | src/app/dashboard/jobs/page.tsx:377 | an exchange touches only the two cells and keeps the elements |
| Sorting.InsertLeft | src/app/dashboard/jobs/page.tsx:377 | one insertion pass extends the ordered prefix by one and keeps the elements |
| Sorting.SortDescending | src/app/dashboard/jobs/page.tsx:377 | the in-place sort orders by descending key and permutes the elements |
| Sorting.HeadIsMaximal | src/app/dashboard/jobs/page.tsx:376-378 | the head of a list sorted by descending key has a key at least that of every element |

## Left out

- Ids, ISO timestamps, today's date and the sign-in token come from `Date.now()`, `new Date()` and `Buffer` in the original. They are parameters here, and the token is opaque.
- No model claims that ids are unique. The code does not ensure it, so the stores act on the first match and the pages on every match.
- The `await` with `Math.random` latency in the AI-chat route is left out.
- JSON body parsing and the generic 500 `catch` branches of every route are left out.
- A request body field is either absent or of its declared type (`Option<string>`, `Option<int>`, `Option<bool>`). Values of other JSON types, and their truthiness, are not modelled.
- Plain-object lookups in the original also see inherited keys such as 'constructor'. The model's maps hold only the stored keys, for the login users and the focus `userStats` alike. The same goes for the AI-chat generator table.
- `toLowerCase` and `trim` are ASCII-only here. Unicode case folding and Unicode white space are not modelled.
- String lengths count characters, not UTF-16 code units.
- Focus durations, course prices and progress values are integers or reals. JavaScript floating point is not modelled, nor are the focus page's progress ring, daily-goal percentage and weekly average.
- The GET handler's constant `weeklyData` and its `period` parameter (src/app/api/focus/route.ts:19-32) are left out.
- The timer's `setInterval` scheduling and the notification sound are left out: a tick is one call, and an effect run that finds no time left is one call of the completion step. Only the re-run that follows a completed countdown is modelled, in `FocusTimer.Timer.RunFocusSession`.
- The chat page's delayed 'delivered' update (a `setTimeout` that rebuilds from a stale snapshot) is left out.
- The overdue counter of the tasks page compares due dates with the clock and is left out.
- `Array.prototype.sort` is modelled by an insertion sort. Only the score or student ordering and the permutation are claimed, not the tie order or stability.
- JobsPage.TopMatch and CoursesPage.Trending: sorting the module-level array during render also reorders the lists that the other sections filter afterwards. That cross-render effect is not modelled beyond the in-place permutation.
- Drag reordering of resume sections, the middleware `matcher` regex and the unused `protectedRoutes` list are left out.
- ResumePage.TextField: a non-string truthy value under the key would be rendered by the original; here it reads as missing.
- ResumePage.ListField and ResumePage.SkillsOf: a present `items` or `categories` value that is not an array reads as empty here, where the original's `slice(...).map` or `flatMap` would throw. The page's own editors only ever store arrays there.
- TasksApi.TaskStore.Post: the original reads the clock twice, once for `createdAt` and once for `updatedAt`; one clock value `now` stands for both, so the model's new tasks always have the two equal.
- The rendering-only fields of jobs, courses, tools and chats are not part of their datatypes. Examples are logos, salaries, ratings and avatars.
- The seed lists of the jobs, courses, tools, chat and resume pages are not part of this model. Their operations are proved for every list.
- The initial state of the tasks and groups pages (their seed tasks and groups, the empty draft and the closed dialog) is not modelled: `TasksPage.TasksPageState` and `GroupsPage.GroupsPageState` have no constructor, and their handlers are proved from any state.

## Findings

| source | as written | input that shows it | evidently intended | confidence | as-written member | corrected member |
|---|---|---|---|---|---|---|
| src/app/dashboard/focus/page.tsx:101-106 | the completion branch tests only `timeLeft === 0`; its own `setIsRunning(false)` changes a dependency of the effect, which re-runs with no time left and counts again | a focus countdown ticked to zero while running: two sessions and 50 minutes are added | one finished focus period counts one session and 25 minutes (branch guarded by `isRunning`) | not executed | FocusTimer.Timer.RunFocusSession | FocusTimer.Timer.RunFocusSessionOnce |
