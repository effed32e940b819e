# Florida State RP site: rule engines and state updates

This project models the small rule engines of a FiveM role-play community site and proves properties about them in Dafny. The rest of the site is glue: OAuth, Firestore, an LLM call and DOM rendering.

- **CrashBot** (`crashbot.dfy`)
  - The local crash-log classifier: an ordered rule table where the first match wins, then a three-step chain that extracts a resource name.
  - The issue ledger (`crashReports` with its cached `knownIssues` list): report, mark fixed, and the priority list with its pending count.
- **DevPortal** (`devportal.dfy`): the kanban page.
  - the access, approve and assign flags;
  - the order value a dropped card gets, and the review→completed approval guard;
  - the board filters and the sort by order, and the order of a new task;
  - comment-count bookkeeping and the relative-time buckets;
  - the team list that `updateTeamFromTasks` rebuilds through a `Map` keyed by id.
- **Admin** (`admin.dfy`): the admin panel.
  - who may open it;
  - validated insertion and protected removal in the admin-user list;
  - page insertion and permission saving in the page dictionary;
  - role order and role colour swatches.
- **Analyze** (`analyze.dfy`): the `/api/analyze` handler (the serverless function and its Express twin). It covers the status-code decisions, extraction of the greedy `{…}` span, and the fixed "Analysis Error" fallback.
- **GuildRoles** (`guildroles.dfy`): `/api/discord/guild-roles` and its Express twin. It drops `@everyone`, sorts by position and encodes colours as `#rrggbb`.
- **DevTeam** (`devteam.dfy`): `/api/discord-dev-team`. It parses role ids, filters members by role intersection and projects them.
- **Shared modules:**
  - `Permissions`: the stored page-permission document, the bypass id and role intersection;
  - `Text`: JavaScript string helpers (`||` on strings, `trim`, `toLowerCase`, digits, `toString(16)`, `padStart`, `split`/`join`);
  - `Seqs`: `filter`, a stable `sort` and `map`;
  - `Http`: request methods and upstream outcomes;
  - `Wrappers`: `Option`.

Outside services become parameters:
- a Firestore read is a `Fetched` value;
- the Discord API answer is an `Upstream` value;
- the model's reply is a `ModelCall`;
- `JSON.parse` is a partial function `string -> Option<J>`;
- the crash rules' regular-expression engine is a `Matcher`;
- server timestamps and ids the store assigns are arguments.

The three resource-name extraction patterns are concrete scanners: `\[(\w+[-_]?\w*)\]`, `resources?[\/\\](\w+[-_]?\w*)` and `(\w+[-_]?\w*)\.lua`, all case-insensitive.

State that the source mutates in place is modelled with classes:
- `IssueLedger` holds the `crashReports` collection, the `knownIssues` cache and an id counter;
- `Portal` holds the dev portal's globals;
- `AdminPanel` holds `adminUsers` and `pagePermissions`.

The loops that `analyzeCrashLog`, `loadKnownIssues` and `updateTeamFromTasks` run are methods with loop invariants. Each is proved against a specification function.

## Model

| member | source | states |
|---|---|---|
| CrashBot.KnowledgeWellFormed | pages/crashbot/crashbot.js:33-189 | the table has twelve rules; every rule has client or resource type and a non-empty solution list; only a resource rule asks for extraction |
| CrashBot.CaptureAt | pages/crashbot/crashbot.js:470-472 | whatever one of the three extraction patterns captures at a position is a `\w+[-_]?\w*` token |
| CrashBot.BracketedAt | pages/crashbot/crashbot.js:470 | what `\[(\w+[-_]?\w*)\]` captures at a position is a token |
| CrashBot.ResourcePathAt | pages/crashbot/crashbot.js:471 | what `resources?[\/\\](\w+[-_]?\w*)` captures at a position is a token |
| CrashBot.LuaFileAt | pages/crashbot/crashbot.js:472 | what `(\w+[-_]?\w*)\.lua` captures at a position is a token |
| CrashBot.FirstHit | pages/crashbot/crashbot.js:470-472 | the position found is one where the pattern matches and no earlier position matches; no position only when the pattern matches nowhere from the start point on |
| CrashBot.Leftmost | pages/crashbot/crashbot.js:470-472 | `match` captures nothing iff the pattern matches at no position, and what it captures is a token |
| CrashBot.ExtractResourceName | pages/crashbot/crashbot.js:470-475 | the chain's result, when there is one, is a token |
| CrashBot.ExtractNoneIff | pages/crashbot/crashbot.js:470-475 | the chain yields no name iff none of the three patterns matches anywhere in the log |
| CrashBot.BracketedNameWins | pages/crashbot/crashbot.js:471-475 | a leading `[name]` is the extracted name, whatever follows it (so it beats a later resources/ path or .lua file) |
| CrashBot.ResourcePathNameFound | pages/crashbot/crashbot.js:471 | a log that starts with `resources/<name>`, where the name does not run on and no '[' follows, yields exactly that name |
| CrashBot.LuaNameFound | pages/crashbot/crashbot.js:472 | a log that starts with `<name>.lua`, with no '[' and no slash after it, yields exactly that name |
| CrashBot.FirstMatch | pages/crashbot/crashbot.js:457-459 | the index found matches and no earlier rule matches; no index iff no rule matches |
| CrashBot.FromRule | pages/crashbot/crashbot.js:460-477 | the result copies the rule's type, cause, description and solutions and keeps the matched text; it has a resource name only when the rule is a resource rule or asks for extraction, and then that name is the chain's result |
| CrashBot.Classify | pages/crashbot/crashbot.js:453-488 | no matched text iff no rule matches, and then the result is the unknown entry; otherwise the result takes the type, cause and solutions of the first matching rule and that rule's matched text |
| CrashBot.AnalyzeCrashLog | pages/crashbot/crashbot.js:453-488 | the loop that returns on the first match computes the first-match classification |
| CrashBot.FirstMatchWins | pages/crashbot/crashbot.js:457-479 | a rule that matches when no earlier rule matches decides the result |
| CrashBot.LaterRulesIgnored | pages/crashbot/crashbot.js:457-480 | once a rule matches, appending rules after the table changes nothing |
| CrashBot.NoMatchIsUnknown | pages/crashbot/crashbot.js:484-487 | no match gives the fixed unknown entry, with five solutions and no resource name |
| CrashBot.ClassifyShape | pages/crashbot/crashbot.js:453-488 | for a well-formed table, every result has solutions; a client result has no resource name; a resource result has the chain's name; an unknown result is the unknown entry |
| CrashBot.KnowledgeResourceNames | pages/crashbot/crashbot.js:35-188 | the same four facts hold for the site's own table |
| CrashBot.ScriptErrorScenario | pages/crashbot/crashbot.js:61-64 | a log with a bracketed name, where "Resource Script Error" is the first rule to match, is a resource crash that names that resource |
| CrashBot.LocalNamesAreLoggable | pages/crashbot/crashbot.js:424-426 | a local resource result with a name always passes the click handler's logging test |
| CrashBot.LoggedIffResourceNamed | pages/crashbot/crashbot.js:424-426 | for a well-formed table, the click handler logs the local analysis iff it is a resource crash and the chain finds a name in the log |
| CrashBot.Lookup | pages/crashbot/crashbot.js:540-545 | the position found is the first record with that resource name; no position iff no record has it |
| CrashBot.Reported | pages/crashbot/crashbot.js:543-563 | an existing name bumps `crashCount` by one and refreshes `lastReported`, and every other field and record stays as it was; a new name appends a pending record with count 1 and no fix data |
| CrashBot.ReportTwice | pages/crashbot/crashbot.js:552-563 | two reports of a new name give one record with count 2 and the first report's cause and description |
| CrashBot.ReportedKeepsNamesUnique | pages/crashbot/crashbot.js:540-563 | reporting keeps at most one record per name, and afterwards the name has a record |
| CrashBot.ReportedValid | pages/crashbot/crashbot.js:540-563 | reporting keeps names unique, ids distinct and below the counter, and every count at least 1 |
| CrashBot.MarkedFixed | pages/crashbot/crashbot.js:632-636 | the record with that id becomes fixed, with its time and fixer; all other records are unchanged |
| CrashBot.MarkFixedIdempotent | pages/crashbot/crashbot.js:632-636 | marking the same issue fixed again changes nothing more |
| CrashBot.MarkedFixedValid | pages/crashbot/crashbot.js:630-642 | marking fixed keeps the ledger invariant |
| CrashBot.ByCountDesc | pages/crashbot/crashbot.js:578 | the listing is a permutation of the collection, ordered by non-increasing count |
| CrashBot.Prioritized | pages/crashbot/crashbot.js:644-649 | the result holds exactly the issues that are not fixed, as a permutation of them, ordered by non-increasing count |
| CrashBot.PendingCount | pages/crashbot/crashbot.js:610-611 | the pending count is at most the number of issues |
| CrashBot.PendingCountIsPrioritizedLength | pages/crashbot/crashbot.js:610-611 | the displayed count equals the length of the priority list |
| CrashBot.IssueLedger.constructor | pages/crashbot/crashbot.js:28 | the ledger starts empty and valid |
| CrashBot.IssueLedger.LoadKnownIssues | pages/crashbot/crashbot.js:575-584 | the pushed cache equals the sorted listing of the collection |
| CrashBot.IssueLedger.LogResourceIssue | pages/crashbot/crashbot.js:535-573 | the collection becomes the reported one, the cache is reloaded, and the ledger invariant is kept |
| CrashBot.IssueLedger.MarkIssueFixed | pages/crashbot/crashbot.js:630-642 | the collection becomes the marked one and the cache is reloaded; an unknown id changes neither |
| CrashBot.IssueLedger.HandleAnalysis | pages/crashbot/crashbot.js:396-399 | only a resource analysis with a non-empty name is logged; anything else leaves the ledger untouched |
| CrashBot.IssueLedger.GetIssuesPrioritized | pages/crashbot/crashbot.js:644-649 | the cached issues that are not fixed, as a permutation of them, most reported first |
| Permissions.AnyIn | pages/devportal/devportal.js:146 | true iff some role of the user is in the list |
| Permissions.RoleList | pages/devportal/devportal.js:191-198 | a missing page or permissions object gives the empty list; otherwise the stored list of that kind, or the empty list when that kind is not stored |
| DevPortal.LoadRoleLists | pages/devportal/devportal.js:185-208 | a missing document keeps the lists; a failed read empties all four |
| DevPortal.LoadedListsComeFromDocument | pages/devportal/devportal.js:189-198 | a found document sets each of the dev, approve, assign and admin lists to the list stored for it, and to the empty list when that list, its page or its permissions object is absent |
| DevPortal.AccessFlags | pages/devportal/devportal.js:144-160 | admin iff a bypass id or an admin role; access, approve and assign iff admin or a role in the matching list; admin implies all three |
| DevPortal.FailedLoadOnlyBypass | pages/devportal/devportal.js:200-207 | after a failed load only bypass users get access, and then they get every right |
| DevPortal.FindTask | pages/devportal/devportal.js:731 | the position found is the first task with that id; no position iff no task has it |
| DevPortal.ApprovalGuard | pages/devportal/devportal.js:731-735 | a drop is refused only when the found task is in review, the target is completed and the user cannot approve; an approver or any other target is never refused |
| DevPortal.CardOrders | pages/devportal/devportal.js:746-762 | one looked-up order per card of the column, in card order |
| DevPortal.DropOrder | pages/devportal/devportal.js:741-765 | empty column gives 1000; the end gives last order (default 1000) + 1000, above the last card; the start gives half the first order, strictly between 0 and it when it is positive; otherwise the midpoint, strictly between neighbours when before < after |
| DevPortal.Moved | pages/devportal/devportal.js:767-772 | the found task takes the new column and order, every other task is unchanged, and an unknown id changes nothing |
| DevPortal.FilterTasks | pages/devportal/devportal.js:477-498 | the filters give the shown tasks in order: a task is kept iff it is in the list and passes every selected filter; "unassigned" keeps only tasks with no assignee; no filter keeps the list |
| DevPortal.FilterStages | pages/devportal/devportal.js:477-498 | applying the selected filters one after the other equals one filter by the conjunction |
| DevPortal.ThreeFilters | pages/devportal/devportal.js:479-498 | the three filters in sequence equal one filter by all three tests |
| DevPortal.VisibleIsFilter | pages/devportal/devportal.js:477-498 | the one-pass reference definition of the shown tasks equals the filter |
| DevPortal.FilteredIsVisible | pages/devportal/devportal.js:477-498 | the filtered list equals the one-pass reference definition, holds exactly the listed tasks that pass the filters, and under "unassigned" holds only tasks with no assignee |
| DevPortal.VisibleMembers | pages/devportal/devportal.js:477-498 | a task is shown iff it is in the list and passes the filters |
| DevPortal.OrderLeIsPreorder | pages/devportal/devportal.js:501-505 | the order comparator, with a missing order as infinity, is a total preorder |
| DevPortal.SortTasks | pages/devportal/devportal.js:500-505 | the board is a permutation of the shown tasks; ordered tasks come before unordered ones and in non-decreasing order |
| DevPortal.Board | pages/devportal/devportal.js:477-505 | the board is a permutation of the shown tasks, holds a task iff it is listed and passes the filters, and puts ordered tasks first, in non-decreasing order |
| DevPortal.ColumnCount | pages/devportal/devportal.js:508-513 | a column count never exceeds the number of cards, and it is 0 iff no card is in that column |
| DevPortal.ColumnCountsAddUp | pages/devportal/devportal.js:508-520 | each card is counted in exactly one of the four columns |
| DevPortal.MaxTodoOrder | pages/devportal/devportal.js:1182-1183 | the fold is at least 0 and at least every todo order, and it is 0 or the order of some todo task |
| DevPortal.FindMember | pages/devportal/devportal.js:375 | the position found is the first member with that id; no position iff no member has it |
| DevPortal.AssigneesFromIds | pages/devportal/devportal.js:373-385 | the assignees are the ids that name a team member, in id order, each mapped to the projection of the first member with that id; unknown ids are dropped |
| DevPortal.AssigneesFromIdsFacts | pages/devportal/devportal.js:373-385 | no more assignees than ids, each the projection of a team member; when every id is known, one assignee per id, carrying that id, in order |
| DevPortal.NewTask | pages/devportal/devportal.js:1179-1207 | a todo task with the store's id and the title; description and work type default to the empty string and priority to medium; its order is the todo maximum plus 1000, so at least 1000 and above every todo order; the creator is the current user; the assignees are those of the given ids (none for no ids); comment count 0 and no attachments |
| DevPortal.CountAfterAdd | pages/devportal/devportal.js:1013-1015 | the count written for an add is one more than the count it is given (missing counts as 0) |
| DevPortal.CountAfterDelete | pages/devportal/devportal.js:1034 | the count written for a delete is one less than the count it is given, never below 0 (missing counts as 0) |
| DevPortal.AddCommentWrite | pages/devportal/devportal.js:992-1015 | no write without a selected task or with a blank comment; otherwise the selected task's id and one more than the count captured in it |
| DevPortal.DeleteCommentWrite | pages/devportal/devportal.js:1027-1036 | no write without a selected task or a comment id; otherwise the selected task's id and one less than the captured count, never below 0 |
| DevPortal.Written | pages/devportal/devportal.js:1013-1015 | the write sets the count of the task with that id and leaves every other task as it was |
| DevPortal.StaleCountSession | pages/devportal/devportal.js:1012-1036 | as written, while the panel stays open on one captured task, a second add writes the same count as the first, and a delete writes two less than an add |
| DevPortal.StaleCountExample | pages/devportal/devportal.js:1012-1036 | as written, for a task opened with 3 comments, an add writes 4 and a delete after it writes 2 |
| DevPortal.CurrentCount | pages/devportal/devportal.js:1013 | the stored count of the first task with that id, none for an unknown id |
| DevPortal.FreshAddWrite | pages/devportal/devportal.js:1013-1015 | the intended add writes one more than the task's current stored count |
| DevPortal.FreshDeleteWrite | pages/devportal/devportal.js:1034-1036 | the intended delete writes one less than the task's current stored count, never below 0 |
| DevPortal.WrittenReadsBack | pages/devportal/devportal.js:1013-1015 | after a write to a known task, the task's current count is the written one |
| DevPortal.AddTwiceCountsTwo | pages/devportal/devportal.js:1012-1015 | with fresh reads, two adds raise the stored count by two |
| DevPortal.DeleteUndoesAdd | pages/devportal/devportal.js:1012-1036 | with the count read from the stored task before each write, a delete right after an add writes back the count the task had |
| DevPortal.TimeAgo | pages/devportal/devportal.js:1754-1763 | "just now" iff under a minute; otherwise the minute, hour or day bucket with the elapsed time between n and n+1 units; a date iff a week or more |
| DevPortal.MapSet | pages/devportal/devportal.js:417 | setting an existing key overwrites it in place, and a new key goes at the end |
| DevPortal.SeedMap | pages/devportal/devportal.js:416-418 | the loop over the loaded team builds the seeded map |
| DevPortal.AddMissing | pages/devportal/devportal.js:439-446 | the loop over one task's assignees adds each one that is missing, as the reference fold does |
| DevPortal.MapSetUnique | pages/devportal/devportal.js:416-418 | setting keeps keys unique |
| DevPortal.SeededUnique | pages/devportal/devportal.js:413-418 | the map seeded from the team has unique ids |
| DevPortal.SeededIds | pages/devportal/devportal.js:416-418 | every seeded id belongs to someone in the loaded team |
| DevPortal.SeededIsTeam | pages/devportal/devportal.js:416-418 | a team with unique ids seeds a map equal to itself |
| DevPortal.AddIfAbsentExtends | pages/devportal/devportal.js:432-446 | adding a person keeps the list as a prefix, and anyone added cannot approve |
| DevPortal.AddPeopleExtends | pages/devportal/devportal.js:440-446 | the same holds for all of a task's assignees |
| DevPortal.AddTaskExtends | pages/devportal/devportal.js:431-447 | the same holds for one task's creator and assignees |
| DevPortal.AddTasksExtends | pages/devportal/devportal.js:431-448 | the same holds for all tasks |
| DevPortal.AddIfAbsentUnique | pages/devportal/devportal.js:441-446 | adding a person keeps ids unique |
| DevPortal.AddPeopleUnique | pages/devportal/devportal.js:440-447 | adding assignees keeps ids unique |
| DevPortal.AddTasksUnique | pages/devportal/devportal.js:431-448 | adding every task's people keeps ids unique |
| DevPortal.MergedTeamUnique | pages/devportal/devportal.js:411-450 | after the merge no id appears twice |
| DevPortal.MergedTeamHasUser | pages/devportal/devportal.js:420-428 | after the merge the current user is a member |
| DevPortal.MergedTeamKeepsTeam | pages/devportal/devportal.js:415-418 | a loaded team with unique ids stays at the front, unchanged and in order |
| DevPortal.MergedNewcomersCannotApprove | pages/devportal/devportal.js:430-448 | anyone who is neither from the loaded team nor the current user joins without approval rights |
| DevPortal.Portal.constructor | pages/devportal/devportal.js:37-43 | the page starts with no flags, no tasks, no team, no filter and no selected task |
| DevPortal.Portal.CheckAccess | pages/devportal/devportal.js:144-169 | stores the computed flags and grants entry iff access is set |
| DevPortal.Portal.RenderKanbanBoard | pages/devportal/devportal.js:477-505 | the board is the filter-then-sort of the tasks; with no filter the task list itself is sorted, otherwise it is untouched |
| DevPortal.Portal.HandleDrop | pages/devportal/devportal.js:719-772 | no dragged card or the approval guard leaves the tasks unchanged; otherwise the drop order is computed and a found task moved to the new column and order; the re-render then sorts the task list when no filter is active, and an unknown id leaves the list unchanged |
| DevPortal.Portal.UpdateTeamFromTasks | pages/devportal/devportal.js:411-452 | the nested loops compute the merged team |
| DevPortal.Portal.ReceiveSnapshot | pages/devportal/devportal.js:394-407 | the task list becomes the snapshot's documents, sorted by the render when no filter is active; the team becomes the merge of the old team, the current user and the snapshot's people |
| DevPortal.Portal.OpenTaskDetail | pages/devportal/devportal.js:790-793 | a found task is captured as the selected task; an unknown id leaves the selection as it was |
| DevPortal.Portal.CloseTaskDetail | pages/devportal/devportal.js:917-920 | the selection is cleared |
| DevPortal.Portal.AddComment | pages/devportal/devportal.js:992-1024 | the handler issues the count write computed from the captured task and changes no state |
| DevPortal.Portal.DeleteComment | pages/devportal/devportal.js:1027-1045 | the handler issues the count write computed from the captured task and changes no state |
| Admin.CheckAdminAccess | pages/admin/admin.js:111-177 | granted iff a token and user exist and the user is a bypass id, is in the admin list, or has a role on the admin page's access list |
| Admin.LoadedAdmins | pages/admin/admin.js:387-403 | a missing document gives exactly the bypass ids; a failed read keeps the list; a found one gives its users |
| Admin.AddAdmin | pages/admin/admin.js:612-631 | four outcomes, each exactly characterised: an empty trimmed id, non-digits or an existing id reject without change; otherwise the id is appended |
| Admin.AddAdminKeepsListClean | pages/admin/admin.js:614-631 | added ids are digit strings, and a duplicate-free list stays duplicate-free |
| Admin.RemoveAdmin | pages/admin/admin.js:643-653 | a bypass id is protected and an unconfirmed removal changes nothing; otherwise every occurrence goes and nothing else |
| Admin.BypassIdsSurviveRemoval | pages/admin/admin.js:644-647 | no removal takes out a bypass id |
| Admin.RemoveKeepsOthersInOrder | pages/admin/admin.js:653 | removal keeps the other ids in order and with their multiplicities |
| Admin.LoadedPages | pages/admin/admin.js:292-308 | a missing document gives the default pages; a failed read keeps the dictionary; a found one gives its pages |
| Admin.AddPage | pages/admin/admin.js:566-596 | rejected iff the normalised id is taken (or an inherited object key); otherwise exactly that key is added, the other pages are unchanged, and the new page has the trimmed name and path, empty access and approve/assign only when asked |
| Admin.PageKey | pages/admin/admin.js:569 | the stored id is no longer than the input, has no upper-case ASCII letter and no JavaScript whitespace at either end |
| Admin.PageKeyIdempotent | pages/admin/admin.js:569 | normalising a stored id again leaves it unchanged |
| Admin.NewPage | pages/admin/admin.js:580-594 | the new page keeps the given name and path, has an empty access list, and has an empty approve or assign list exactly when that box was ticked |
| Admin.SavePermissions | pages/admin/admin.js:519-535 | the other pages and the page's name and path are unchanged; access is replaced, and approve/assign are replaced only where they exist; a page without permissions changes nothing |
| Admin.SaveIdempotent | pages/admin/admin.js:527-535 | saving the same selection twice equals saving once |
| Admin.RolesForDisplay | pages/admin/admin.js:272 | the shown roles are a permutation ordered by non-increasing position, and roles at one position keep their input order |
| Admin.DisplayKeepsEndpointOrder | pages/admin/admin.js:500 | re-sorting the endpoint's already sorted roles keeps their order |
| Admin.SwatchAsWritten | pages/admin/admin.js:275 | as written, an empty colour gives the grey, and any other colour string is prefixed with '#' after padding it to at least six characters |
| Admin.SwatchAsWrittenDoublesHash | pages/admin/admin.js:275 | as written, every swatch for an endpoint role begins with two '#' characters |
| Admin.Swatch | pages/admin/admin.js:503 | the intended swatch is the endpoint's colour string itself |
| Admin.SwatchIsColour | pages/admin/admin.js:275 | the intended swatch is '#' and the colour's hex digits (seven characters up to 0xFFFFFF), or the default grey for no colour |
| Admin.AdminPanel.constructor | pages/admin/admin.js:55-56 | the panel starts with no admins and no pages |
| Admin.AdminPanel.LoadAdminUsers | pages/admin/admin.js:387-403 | the list becomes the loaded one |
| Admin.AdminPanel.LoadPermissions | pages/admin/admin.js:292-308 | the dictionary becomes the loaded one |
| Admin.AdminPanel.HandleAddAdmin | pages/admin/admin.js:612-641 | the early-return checks give the outcome and new list of the specification |
| Admin.AdminPanel.RemoveAdminUser | pages/admin/admin.js:643-662 | the outcome and new list of the specification |
| Admin.AdminPanel.HandleAddPage | pages/admin/admin.js:566-606 | reports whether the page was added; the dictionary changes only when it was |
| Admin.AdminPanel.Save | pages/admin/admin.js:519-545 | the dictionary becomes the saved one |
| Analyze.FirstOpen | api/analyze.js:102 | the position of the first '{' |
| Analyze.LastClose | api/analyze.js:102 | the position of the last '}' |
| Analyze.JsonSpan | api/analyze.js:102-104 | a span exists iff some '}' follows a '{'; it runs from the first '{' to the last '}' |
| Analyze.SpanOfObject | api/analyze.js:102-104 | a reply that is exactly one `{…}` object is its own span, whatever braces its body holds |
| Analyze.SpanInProse | api/analyze.js:102-104 | an object surrounded by prose with no '{' before it and no '}' after it is extracted exactly |
| Analyze.FallbackFor | api/analyze.js:108-123 | the fallback has unknown type, low severity, no resource name, the 'Analysis Error' cause, three solutions, is not auto-reported, and keeps the raw reply |
| Analyze.AnalysisOf | api/analyze.js:100-124 | fallback iff no span or the parse fails; the fallback has three solutions and keeps the raw reply; otherwise the parsed span |
| Analyze.AnalyzeBody | api/analyze.js:56-138 | an absent or empty crash log gives 400; a failed model call gives 500 with the error message; a reply gives 200 with success and the analysis (the Express route at server.js:61-142 has the same body) |
| Analyze.ApiAnalyze | api/analyze.js:41-138 | OPTIONS gives 200; other non-POST methods give 405; POST runs the body |
| Analyze.RepliesSucceed | api/analyze.js:126-129 | a valid request whose model call replied always succeeds with 200, parsed or not |
| Analyze.NoSpanFallsBack | api/analyze.js:105-124 | a reply without a '}' after a '{' always gives the fallback |
| GuildRoles.IntToHex | api/discord/guild-roles.js:47-50 | no colour or 0 gives the grey; otherwise '#' and hex digits that parse back to the colour, seven characters up to 0xFFFFFF |
| GuildRoles.HexRoundTrip | api/discord/guild-roles.js:49 | the padded digits read back as the number, are at least six long, and exactly six up to 0xFFFFFF |
| GuildRoles.ByPosition | api/discord/guild-roles.js:55 | a permutation ordered by non-increasing position in which roles at one position keep their upstream order |
| GuildRoles.NormaliseRoles | api/discord/guild-roles.js:53-62 | no output is `@everyone`; the output length is the input minus the `@everyone` entries; non-increasing position; each output projects an input role and each kept role appears; at each position the outputs are the projections of the kept roles there, in upstream order and with their multiplicity |
| GuildRoles.NormaliseFacts | api/discord/guild-roles.js:53-62 | the length, provenance and completeness facts of the chain |
| GuildRoles.NormaliseStable | api/discord/guild-roles.js:53-62 | at each position, the projected sorted roles are the projections of the kept roles at that position, in input order |
| GuildRoles.TwinRoutesAgree | server.js:418-426 | the server route returns the same roles as the serverless handler, minus `permissions` |
| GuildRoles.ApiGuildRoles | api/discord/guild-roles.js:4-72 | OPTIONS 200; other non-GET 405; no bot token 503 with no roles; upstream failure 500 with no roles; else 200 with the normalised roles |
| GuildRoles.ServerGuildRoles | server.js:391-434 | no bot token 503 with no roles; a non-ok answer passes its status through; an exception gives 500; else 200 with the normalised roles |
| DevTeam.RoleIds | api/discord-dev-team.js:30 | empty iff the query is absent or empty; the ids contain no comma and join back to the query |
| DevTeam.AvatarUrl | api/discord-dev-team.js:63-65 | a URL iff the user has a non-empty avatar hash |
| DevTeam.KeptRoles | api/discord-dev-team.js:66 | exactly the member's roles that were requested |
| DevTeam.DevMembers | api/discord-dev-team.js:57-67 | the keep-and-project pass in input order; every requested member appears, every output comes from one, and its roles are non-empty and requested |
| DevTeam.SelectedIsFilterMap | api/discord-dev-team.js:57-67 | the filter/map chain equals the one-pass reference definition |
| DevTeam.SelectedMembers | api/discord-dev-team.js:57-66 | an output is there iff it projects a member holding a requested role |
| DevTeam.ApiDevTeam | api/discord-dev-team.js:4-78 | OPTIONS 200; other non-GET 405; no bot token 503; 400 iff no role ids; upstream failure 500; else 200 with the selected members |
| DevTeam.DisplayNameFallback | api/discord-dev-team.js:62 | the display name is the first non-empty of nick, global name and username |
| Text.OrElse | pages/devportal/devportal.js:424 | `a \|\| b` on strings: a non-empty value, else the fallback |
| Text.Trim | pages/admin/admin.js:614 | a slice of the input without surrounding JavaScript whitespace, empty iff the input is all whitespace |
| Text.TrimIdempotent | pages/admin/admin.js:569 | trimming a trimmed string changes nothing |
| Text.Lower | pages/admin/admin.js:569 | the same length, each ASCII capital lowered |
| Text.LowerOfLower | pages/admin/admin.js:569 | a string with no ASCII capital is its own lower case |
| Text.ParseToHex | api/discord/guild-roles.js:49 | the base-16 digits of a number read back as the number |
| Text.ToHexLength | api/discord/guild-roles.js:49 | the digits fit in k places iff the number is below 16^k |
| Text.PadStart | api/discord/guild-roles.js:49 | a long enough string is kept; a short one gets leading fill up to the width |
| Text.JoinSplit | api/discord-dev-team.js:30 | joining the split parts with the separator gives back the string |
| Text.SplitJoin | api/discord-dev-team.js:30 | splitting a join of separator-free parts gives back the parts |
| Seqs.Sort | pages/crashbot/crashbot.js:648 | `Array.prototype.sort` with a total-preorder comparator: ordered, the same multiset |
| Seqs.SortSorted | pages/admin/admin.js:272 | the stable sort of an already ordered sequence is that sequence |
| Seqs.SortStable | api/discord/guild-roles.js:55 | the sort keeps the input order among elements the comparator ranks level |

## Left out

- Firestore, `fetch`, `localStorage`, OAuth, the model call and the DOM are not modelled. Each read or answer is a parameter. Writes become the model's state, and rendering becomes the value that would be rendered.
- The ledger's read-then-write is not atomic in the source. The model takes each operation as one sequential step and claims nothing about concurrent reports.
- CrashBot.ByCountDesc: Firestore's order among records with equal counts is unspecified. The model uses a stable sort of the collection's order. Ids are counter values, not Firestore's random document ids.
- CrashBot.IssueLedger.MarkIssueFixed: a failed `updateDoc` on an unknown id is modelled as "nothing changes". Other store failures, which are caught and only logged, are not modelled.
- The crash rules' patterns are an abstract case-insensitive matcher, so JavaScript regular-expression semantics are not modelled. The three extraction patterns are concrete, with ASCII case folding for "resource" and ".lua".
- The reading of the uploaded file and the API-first path of the click handler are not modelled. Only the local analysis and the logging decision are.
- DevPortal.DropOrder: orders are `real`, so IEEE-754 rounding and precision loss under repeated halving are not modelled. The drag geometry of `getDropPosition` becomes a given index among the column's cards.
- DevPortal.OrderLe: for two tasks without an order the source comparator returns NaN, and the model treats such pairs as equal.
- A task's column is one of the four known statuses. Unknown or missing status strings, and `null` entries inside assignee arrays, are not modelled.
- DevPortal.TimeAgo: only the buckets are modelled. The clock is a parameter (the elapsed milliseconds), and the locale date string is left out.
- `loadTeamMembers`, the detail panel's rendering, attachments, submission for review, comments' own documents and the team list's rendering are not modelled. They are glue around the store.
- DevPortal.Portal.AddComment: only the `commentCount` write is modelled. The comment document, the reload of the comment list and the alert shown when a store call fails are left out.
- DevPortal.Portal.DeleteComment: the same holds; a failed `deleteDoc` that stops the count write is not modelled.
- DevPortal.Portal.OpenTaskDetail: the selected task is a copy of the task value. The source keeps a reference to the same object, so `handleDrop`'s in-place edits of that object's status and order also show through `selectedTask`. The model does not capture this aliasing; the comment count, which nothing edits in place, is unaffected.
- DevPortal.Portal.ReceiveSnapshot: `updateStats` and the listener's error callback are not modelled. The snapshot's documents are a parameter, in the store's order.
- `escapeHtml`, modals, dropdowns, the sticky toolbar, clipboard and `script.js` are not modelled. They are DOM wiring.
- Text.Lower: `toLowerCase` is modelled on ASCII letters only, with no Unicode case mapping.
- Analyze.AnalyzeBody: a missing request body, which throws inside the try block and so answers 500, is not distinguished from other failures. A `crashLog` that is not a string is not modelled.
- GuildRoles.ServerGuildRoles: a non-ok answer whose body is not JSON throws and answers 500. The model passes the upstream status through in every non-ok case.
- `JSON.parse` is an abstract partial function. The shape of the parsed analysis is not modelled.

## Findings

| source | as written | input that shows it | evidently intended | confidence | as-written member | corrected member |
|---|---|---|---|---|---|---|
| pages/devportal/devportal.js:1012-1036 | the comment handlers compute the new `commentCount` from `selectedTask`, the object captured when the panel opened (line 793), which the task listener (lines 394-398) never replaces | a task with 3 comments is opened; an add writes 4, and deleting a comment afterwards writes 2 although 3 comments remain; two adds both write 4 | compute each new count from the task's current stored count | not executed | DevPortal.StaleCountExample | DevPortal.DeleteUndoesAdd |
| pages/admin/admin.js:275 | the swatch is `'#' + role.color.toString(16).padStart(6, '0')`, but the roles come from `/api/discord/guild-roles`, whose `color` is already the string `'#rrggbb'`; `String.prototype.toString` ignores the radix | a role with Discord colour 0x3498db arrives with `color` `"#3498db"` and gets the swatch `"##3498db"`, which is not a CSS colour (the same holds at line 503) | use the endpoint's colour string as the swatch | not executed | Admin.SwatchAsWrittenDoublesHash | Admin.SwatchIsColour |
