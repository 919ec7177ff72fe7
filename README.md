# event-reminder, modelled in Dafny

event-reminder reminds a traQ community of the preparation tasks for its events. An **event**
is something that recurs, for example a monthly LT night. It carries **default tasks**, each due
a number of days before a date. A **holding** is one dated occurrence of an event. Creating a
holding copies the event's default tasks into **holding tasks**, and the reminder bot posts
them to a traQ channel with a mention.

This project models the parts of the system that hold decisions:

- The Go HTTP handlers for holdings and for both kinds of task. They cover request validation,
  the PATCH merge, and which status and body each path writes.
- The traQ channel-tree flattening that builds `parent/child` channel paths.
- The React front end:
  - the zustand store and its state transitions;
  - the in-memory mock API the front end runs against, with its cascading deletes and the task
    copy on create;
  - the list, detail, form and editor pages;
  - the searchable drop-down, with its ranking and keyboard handling;
  - the channel-name hook.

Each source file becomes one module:

| module | file |
|---|---|
| `HoldingHandler` | `backend/handler/holding.go` |
| `TaskHandler`, `DefaultTaskHandler`, `HoldingTaskHandler` | `backend/handler/default_task.go`, `backend/handler/holding_task.go` |
| `ChannelTree` | `backend/services/traq.go` |
| `AppStore` | `frontend/src/store/index.ts` |
| `MockRepository` | `frontend/src/api/mock.ts` |
| `OptionRanker`, `Dropdown` | `frontend/src/components/SearchableSelect.tsx` |
| `HoldingList`, `EventList`, `DateTabs` | the two list pages |
| `HoldingDetail` | `frontend/src/pages/HoldingDetail.tsx` |
| `EntryForm`, `HoldingForm`, `EventForm` | the two create/edit forms |
| `HoldingEdit`, `TemplateEdit`, `TaskModal`, `TaskOrder` | the two editor pages |
| `ChannelName` | `frontend/src/hooks/useChannelName.ts` |

Supporting modules hold the primitives of the two runtimes:

- `Strings`: JavaScript `trim`, ASCII `toLowerCase`, `includes`, and code-unit string `<`.
- `Decimal`: Go `strconv.Atoi` and `Itoa`, and JavaScript `Number(..) || 0` and `parseInt(..) || 0`.
- `Dates`: the Go layout `2006-01-02` and day numbers.
- `Seqs`: `find`, `filter` and a stable sort.
- `HttpWriter`: an `http.ResponseWriter` as a value. The first status written wins, and a body
  written before any status implies 200.

The model's shape follows the source:

- Stateful objects are classes whose methods are proved against specification functions:
  - the store;
  - the mock's module-level arrays;
  - the drop-down's React state;
  - the form and dialog state of each page.
- Loops are methods with invariants, for example the handlers' response-building loops and the
  channel indexing.
- Everything else is functions and lemmas.

Effects outside the program become parameters:

- `Date.now()` readings become `now: nat` and `clock: nat -> nat`.
- "Today" becomes a day number or a `YYYY-MM-DD` string.
- The answers of API calls and database queries become `Outcome` values or functions.

## Model

| member | source | states |
|---|---|---|
| `HoldingHandler.ValidateChecksInOrder` | backend/handler/holding.go:23-43 | A create request passes exactly when name, date, channel, mention and event id are all present and the date parses with `2006-01-02`. Otherwise the first failing check's message is returned, in source order. |
| `HoldingHandler.NonNumericEventIdStoredAsZero` | backend/handler/holding.go:149-150 | A validated request whose event id has no digit is stored with event id 0, because the `Atoi` error is discarded. |
| `HoldingHandler.CreateResponseEchoesRequest` | backend/handler/holding.go:146-176 | The answer to a valid create gives back the request's name, date string, channel and mention exactly. Its event id reads back as the stored event id. |
| `HoldingHandler.CreateHolding` | backend/handler/holding.go:137-181 | An undecodable body gives 400 "invalid request body", and an invalid one gives 400 with the check's message; nothing is saved in either case. A valid request hands the service the parsed row. A service failure gives 500, and success gives 201 with the saved row. |
| `HoldingHandler.BuildResponses` | backend/handler/holding.go:87-98 | The response list has one entry per row, the i-th being the conversion of the i-th row. |
| `HoldingHandler.GetHoldings` | backend/handler/holding.go:63-102 | No `source_event_id` means the all-holdings query. A non-numeric one gives 400 and no query. A numeric one means the by-event query. A failed query gives 500, otherwise 200 with one converted entry per row in query order. |
| `HoldingHandler.GetHolding` | backend/handler/holding.go:106-133 | A bad id gives 400, an unknown id 404, and a found id 200 with that row converted. |
| `HoldingHandler.MergedOverwritesOnlySupplied` | backend/handler/holding.go:207-231 | The intended PATCH merge refuses exactly a present date that does not parse. Otherwise id and event come from the stored row, each supplied field overwrites, and each absent field is kept. |
| `HoldingHandler.MergesAgreeOnGoodDates` | backend/handler/holding.go:214-231 | When the date is absent or parses, the as-written merge and the intended merge save the same row. |
| `HoldingHandler.MergeAsWrittenZeroesDate` | backend/handler/holding.go:219-225 | As written, a rejected date still saves a row, and its date is 0001-01-01. |
| `HoldingHandler.BadPatchDateExample` | backend/handler/holding.go:219-233 | A holding on 2026-04-18 patched with "2026/04/18" is saved with date 0001-01-01. The client receives status 400 followed by the JSON of the changed row. |
| `HoldingHandler.UpdateHolding` | backend/handler/holding.go:185-251 | The PATCH handler as written. A bad id gives 400, a bad body 400, and an unknown id 404, with nothing saved. A found row is merged and saved even when the date was rejected. The status is 200, 500 or the date error's 400, depending on which was written first. |
| `HoldingHandler.UpdateHoldingFixed` | backend/handler/holding.go:185-251 | The PATCH handler with a `return` after the date error. A rejected date gives 400 and saves nothing. Every other path is as written. |
| `HoldingHandler.DeleteHolding` | backend/handler/holding.go:255-270 | A bad id gives 400. Otherwise the parsed id is sent to the service; failure gives 500, and success gives 204 with an empty body. |
| `TaskHandler.ValidateChecksInOrder` | backend/handler/default_task.go:20-28 | A create request passes exactly when the name is non-empty and the day count is at least 0. An empty name is reported before a negative count. |
| `TaskHandler.ResponseEchoesRow` | backend/handler/holding_task.go:62-70 | A response copies every field of the row, and its decimal ids read back as the row's ids. |
| `TaskHandler.MergedOverwritesOnlySupplied` | backend/handler/default_task.go:152-172 | The PATCH merge is refused exactly for a negative day count. Otherwise it keeps id and owner, overwrites supplied fields and keeps absent ones. |
| `TaskHandler.MergedIdempotent` | backend/handler/default_task.go:152-172 | Applying the same PATCH twice saves the same row as applying it once. An empty PATCH saves the row unchanged. |
| `TaskHandler.BuildResponses` | backend/handler/default_task.go:62-71 | One response entry per row, in row order, each the conversion of its row. |
| `TaskHandler.GetTasks` | backend/handler/holding_task.go:46-76 | A bad owner id gives 400, a failed list 500, and otherwise 200 with the converted rows in service order. |
| `TaskHandler.CreateTask` | backend/handler/holding_task.go:80-126 | A bad owner id, an undecodable body or a failing check gives 400 and saves nothing. A valid body saves a row owned by the path's id. A service failure gives 500, and success 201 with the saved row. |
| `TaskHandler.UpdateTask` | backend/handler/holding_task.go:130-192 | A bad id or body gives 400, an unknown id 404, and a negative day count 400, all before saving. Otherwise the merged row is saved, with 200 and the row or 500 on failure. |
| `TaskHandler.DeleteTask` | backend/handler/holding_task.go:196-211 | A bad id gives 400. Otherwise the parsed id goes to the service, giving 204 with no body or 500. |
| `DefaultTaskHandler.ValidateDefaultTask` | backend/handler/default_task.go:20-28 | The event task's messages: an empty name gives "task_name is required", then a negative count its own message. A count of 0 passes. |
| `DefaultTaskHandler.GetDefaultTasks` | backend/handler/default_task.go:46-76 | A bad event id gives 400 "invalid event_id". A failed service call gives 500 "failed to get default tasks". Otherwise there is one response entry per stored task, in service order. |
| `DefaultTaskHandler.CreateDefaultTask` | backend/handler/default_task.go:80-126 | A task is saved exactly for a numeric event id and a decodable, valid body. It belongs to the path's event, with a day count of at least 0. |
| `DefaultTaskHandler.UpdateDefaultTask` | backend/handler/default_task.go:130-192 | An unknown id is 404 and a negative count 400, before anything is saved. What is saved keeps the stored id and owner, and each supplied field overwrites the stored one. A failed save is 500 "failed to update default task", and a successful one is 200 with the saved task. |
| `DefaultTaskHandler.DeleteDefaultTask` | backend/handler/default_task.go:196-211 | The service is asked to delete exactly when the id parses. Success is 204 with no body, and failure is 500. |
| `HoldingTaskHandler.ValidateHoldingTask` | backend/handler/holding_task.go:20-28 | The holding task's messages: an empty name gives "task name is required", then a negative count its own message. A count of 0 passes. |
| `HoldingTaskHandler.GetHoldingTasks` | backend/handler/holding_task.go:46-76 | A bad holding id gives 400 "invalid holding_id". Otherwise each stored task's fields are copied into the answer, in service order. |
| `HoldingTaskHandler.CreateHoldingTask` | backend/handler/holding_task.go:80-126 | A task is saved exactly for a numeric holding id and a valid body, under the path's holding. An empty name is refused with its message. |
| `HoldingTaskHandler.UpdateHoldingTask` | backend/handler/holding_task.go:130-192 | Id and holding are kept. Supplied name, count and description overwrite, and absent ones are kept. A negative count or an unknown id saves nothing. |
| `HoldingTaskHandler.DeleteHoldingTask` | backend/handler/holding_task.go:196-211 | A bad id gives 400 with nothing sent. Otherwise the parsed id is sent, and success is 204 with no body. |
| `Decimal.AtoiOk` | backend/handler/holding.go:108-112 | `Atoi` succeeds exactly on a signed numeral that fits in int64, with its value. An out-of-range numeral gives the clamped bound with an error. |
| `Decimal.AtoiSyntaxError` | backend/handler/holding.go:149-150 | A string that is not a numeral parses to 0 with an error, unless its digits overflow first. |
| `Decimal.AtoiItoa` | backend/handler/holding.go:122-127 | `Atoi(Itoa(i)) == i` for every int64, so the decimal ids in answers read back as the stored ids. |
| `Dates.ParseFormatDate` | backend/handler/holding.go:149-172 | Every valid date of years 0-9999 survives `Format(time.DateOnly)` followed by `time.Parse`. |
| `Dates.FormatParseDate` | backend/handler/holding.go:30-32 | A string that parses is exactly the formatting of the date it names, so an accepted date string is echoed unchanged. |
| `Dates.ParseDateShape` | backend/handler/holding.go:30-32 | A string the layout accepts has ten characters, with dashes at positions 4 and 7 and digits elsewhere. The date is read from those fields. |
| `Dates.ParseRejectsMissingDay` | backend/handler/holding.go:30-32 | February 29th is rejected in a common year and accepted in a leap year. A one-digit month is rejected. |
| `Dates.FixedDigitsLess` | frontend/src/pages/HoldingList.tsx:29-30 | Two zero-padded numerals of the same width compare as strings exactly as the numbers compare. |
| `Dates.FormattedLessIsBefore` | frontend/src/pages/HoldingList.tsx:29-30 | Comparing two `YYYY-MM-DD` strings with `<` orders them as the calendar does. |
| `Dates.DayNumberOrder` | frontend/src/pages/HoldingDetail.tsx:41-45 | On valid dates, day numbers are ordered exactly as the dates are, and equal exactly when the dates are equal. |
| `Dates.NinetyDaysBeforeExample` | frontend/src/pages/HoldingDetail.tsx:138-139 | Ninety days before 2026-04-18 is 2026-01-18. |
| `ChannelTree.Unarchived` | backend/services/traq.go:40 | Keeps exactly the unarchived channels, as a subsequence of the input in its order. |
| `ChannelTree.ById` | backend/services/traq.go:42-45 | Every channel is filed under its own id, and every filed channel is one of the input. |
| `ChannelTree.Roots` | backend/services/traq.go:47-52 | Exactly the channels without a parent, as a subsequence of the input in its order. |
| `ChannelTree.BuildChannelList` | backend/services/traq.go:66-79 | The recursive walk appends exactly the `Entries` listing of the parent's subtree to the result. |
| `ChannelTree.IndexChannels` | backend/services/traq.go:42-45 | The indexing loop builds `ById` of the channels. |
| `ChannelTree.CollectRoots` | backend/services/traq.go:47-52 | The root-collecting loop yields `Roots` of the channels. |
| `ChannelTree.GetChannelList` | backend/services/traq.go:35-64 | The whole function computes `ChannelList` of the fetched channels. |
| `ChannelTree.ListRoots` | backend/services/traq.go:54-61 | The loop over the roots yields the listing: each root under its bare name, followed by its subtree. |
| `ChannelTree.BelowAppend` | backend/services/traq.go:54-61 | Appending two results whose entries all name known channels under a prefix keeps that property. |
| `ChannelTree.EntriesExtendPath` | backend/services/traq.go:72-76 | Every entry below a parent names a known channel, and its name starts with `parent/`. |
| `ChannelTree.EntryExtendsPath` | backend/services/traq.go:67-76 | One child contributes only entries whose names start with `parent/`. |
| `ChannelTree.ReachedSingle` | backend/services/traq.go:72-76 | A known child is reached from its parent in one step, named `path/child`. |
| `ChannelTree.ReachedThrough` | backend/services/traq.go:72-77 | A descent from a child's own children, prefixed with that child, is a descent from its parent, and the path it names is unchanged. |
| `ChannelTree.EntriesReached` | backend/services/traq.go:66-79 | Every entry below a parent is the last channel of a chain `c1 ... ck` of known channels. `c1` is a child of the parent, each next one is a child of the one before, and the entry is named `path/c1.name/.../ck.name`. |
| `ChannelTree.EntryReached` | backend/services/traq.go:67-77 | The same chain property for the entries one child contributes. |
| `ChannelTree.ListingFromRoots` | backend/services/traq.go:54-61 | Every entry of the listing is a root under its bare name, or a chain below one root named `root/c1/.../ck`. |
| `ChannelTree.ChannelListFromRoots` | backend/services/traq.go:35-79 | Every listed channel hangs under a root that is an unarchived, parentless fetched channel. It is that root under its bare name, or the end of a chain of child links from it, named `root/c1/.../ck` after the names along the way. |
| `ChannelTree.DescentUnarchived` | backend/services/traq.go:40-45 | Every channel on such a chain is an unarchived fetched channel. |
| `ChannelTree.ListingIds` | backend/services/traq.go:54-61 | Every entry of the listing names a channel of the map. |
| `ChannelTree.NoArchivedChannelListed` | backend/services/traq.go:40-61 | No archived channel is listed: every entry carries the id of an unarchived public channel. |
| `ChannelTree.AllArchivedListsNothing` | backend/services/traq.go:40-61 | When every fetched channel is archived, the list is empty. |
| `ChannelTree.UnknownChildSkipped` | backend/services/traq.go:67-71 | A child id missing from the map adds nothing, subtree included. |
| `ChannelTree.UnarchivedAllLive` | backend/services/traq.go:40 | A list with no archived channel is kept whole, in its order. |
| `ChannelTree.ExampleUnarchived` | backend/services/traq.go:40 | An archived channel is dropped and the others keep their order. |
| `ChannelTree.ExampleById` | backend/services/traq.go:42-52 | Concrete index and roots of a three-channel tree. |
| `ChannelTree.ExampleEntries` | backend/services/traq.go:66-79 | The children "random" and "dev" of "general" are listed as `general/random` and `general/dev`, and an unknown child id is skipped. |
| `ChannelTree.ExampleListing` | backend/services/traq.go:54-61 | A root is listed under its bare name, followed by its children's paths. |
| `ChannelTree.RootAndChildrenExample` | backend/services/traq.go:35-79 | End to end: an archived root is dropped, and the live root comes first, followed by its children. |
| `ChannelName.ChannelNameLookup` | frontend/src/hooks/useChannelName.ts:11-12 | The first channel with the id supplies the name, unless that name is empty. Otherwise, or when no channel has the id, the id itself is returned. |
| `ChannelName.ChannelNameIsIdOrName` | frontend/src/hooks/useChannelName.ts:11-12 | The result is the id, or the non-empty name of a channel carrying that id. |
| `AppStore.ClearIfSameEvent` | frontend/src/store/index.ts:176 | The current event is cleared exactly when it is the deleted one, and kept otherwise. |
| `AppStore.ClearIfSameHolding` | frontend/src/store/index.ts:311 | The current holding is cleared exactly when it is the deleted one, and kept otherwise. |
| `AppStore.Store.constructor` | frontend/src/store/index.ts:91-98 | Empty lists, no current records, not loading. |
| `AppStore.Store.FetchEvents` | frontend/src/store/index.ts:101-121 | An answer replaces the event list. A failure keeps it. Either way loading ends, and nothing else changes. |
| `AppStore.Store.FetchEventById` | frontend/src/store/index.ts:123-132 | The answer, `null` included, becomes the current event. A failure keeps it. |
| `AppStore.Store.CreateEvent` | frontend/src/store/index.ts:134-148 | The created event is appended and returned. A failure is passed on with the list unchanged. |
| `AppStore.Store.UpdateEvent` | frontend/src/store/index.ts:150-168 | A returned event replaces every listed event with its id and renames the current event if it is that one. A `null` answer changes nothing and leaves loading on. |
| `AppStore.Store.DeleteEvent` | frontend/src/store/index.ts:170-183 | On success the event leaves the list, and the current event is cleared if it is that one. A failure changes nothing. |
| `AppStore.Store.CreateDefaultTask` | frontend/src/store/index.ts:186-203 | The created task is appended to the current event's tasks, if there is a current event. |
| `AppStore.Store.UpdateDefaultTask` | frontend/src/store/index.ts:205-224 | The returned task replaces the tasks with its id. A `null` answer changes nothing and leaves loading on. |
| `AppStore.Store.DeleteDefaultTask` | frontend/src/store/index.ts:226-243 | On success the tasks with the id leave the current event. |
| `AppStore.Store.FetchHoldings` | frontend/src/store/index.ts:246-266 | An answer replaces the holding list. A failure keeps it. |
| `AppStore.Store.FetchHoldingById` | frontend/src/store/index.ts:268-277 | The answer, `null` included, becomes the current holding. |
| `AppStore.Store.CreateHolding` | frontend/src/store/index.ts:279-290 | After a successful create, the refetched holdings of its event replace the list. A failure of either call leaves the list unchanged. |
| `AppStore.Store.UpdateHolding` | frontend/src/store/index.ts:292-303 | The update's answer is ignored, and a fresh list of all holdings replaces the list. |
| `AppStore.Store.DeleteHolding` | frontend/src/store/index.ts:305-318 | On success the holding leaves the list, and the current holding is cleared if it is that one. |
| `AppStore.Store.CreateHoldingTask` | frontend/src/store/index.ts:321-338 | The created task is appended to the current holding's tasks, if there is a current holding. |
| `AppStore.Store.UpdateHoldingTask` | frontend/src/store/index.ts:340-359 | The returned task replaces the tasks with its id. A `null` answer changes nothing and leaves loading on. |
| `AppStore.Store.DeleteHoldingTask` | frontend/src/store/index.ts:361-378 | On success the tasks with the id leave the current holding. |
| `AppStore.Store.FetchTraQChannels` | frontend/src/store/index.ts:381-390 | An answer replaces the channel list. |
| `AppStore.ReplaceTaskTouchesOnlyThatId` | frontend/src/store/index.ts:348-352 | Replacing by id keeps the length, and every position not carrying the id is unchanged. |
| `AppStore.DeleteTaskDropsOnlyThatId` | frontend/src/store/index.ts:365-372 | Deleting by id keeps every other task in order and leaves none with the id. |
| `MockRepository.ApplyDefaultTaskPatch` | frontend/src/api/mock.ts:274-287 | `{...task, ...updates}`: each supplied field overwrites, the id and event id included, and each absent field is kept. |
| `MockRepository.ApplyHoldingPatch` | frontend/src/api/mock.ts:368-381 | `{...holding, ...updates}`: each supplied field overwrites (id, event id, name, date, channel id, mention) and each absent field is kept. |
| `MockRepository.ApplyHoldingTaskPatch` | frontend/src/api/mock.ts:416-429 | `{...task, ...updates}`: each supplied field overwrites, the id and holding id included, and each absent field is kept. |
| `MockRepository.PatchesAreIdempotent` | frontend/src/api/mock.ts:274-287 | An empty patch changes nothing, and applying a patch twice equals applying it once, for all three resources. |
| `MockRepository.CloneTasks` | frontend/src/api/mock.ts:352-362 | One copy per default task, in order. Each copy has the new holding's id, the task's name, count and description, and the id `${Date.now()}_${index}`. |
| `MockRepository.SplitAtUnderscore` | frontend/src/api/mock.ts:355 | Two `numeral_numeral` ids are equal only if both numerals are equal. |
| `MockRepository.CloneIdsDistinct` | frontend/src/api/mock.ts:352-362 | The copies made by one create have pairwise distinct ids, whatever the clock reads. |
| `MockRepository.CloneIdIsNotNumeral` | frontend/src/api/mock.ts:346-355 | A copy's id never equals an id made by `String(Date.now())`. |
| `MockRepository.CloneOrderDiffersFromServer` | frontend/src/api/mock.ts:352-362 | The mock copies in stored order. The SQL service reads default tasks by `days_before DESC` (backend/services/task.go:139), so whenever an earlier task has a smaller count, the two orders differ. |
| `MockRepository.EventNameOr` | frontend/src/api/mock.ts:309 | The event's name, or '不明' exactly when the event is missing or its name is empty. |
| `MockRepository.OriginEvent` | frontend/src/api/mock.ts:306 | A holding without an event has none. Otherwise it is the first event with that id. |
| `MockRepository.WithEventName` | frontend/src/api/mock.ts:305-311 | One entry per holding, in order, each with its event's name or '不明'. |
| `MockRepository.HoldingsOfEvent` | frontend/src/api/mock.ts:318-319 | Exactly the holdings of that event, as a subsequence of the input in its order. A holding without an event never matches. |
| `MockRepository.HoldingsOfEventCounts` | frontend/src/api/mock.ts:318-319 | The filter keeps each holding of the event as many times as it is stored, and no other holding. |
| `MockRepository.SearchEvents` | frontend/src/api/mock.ts:201-205 | Exactly the events whose lower-cased name contains the lower-cased query. |
| `MockRepository.Repository.constructor` | frontend/src/api/mock.ts:13-188 | The module-level arrays of events, default tasks, holdings, holding tasks and channels start as given. |
| `MockRepository.Repository.GetEventById` | frontend/src/api/mock.ts:208-215 | `null` exactly when no event has the id. Otherwise the event at the first index with that id, with exactly its default tasks in stored order. |
| `MockRepository.Repository.CreateEvent` | frontend/src/api/mock.ts:218-226 | Appends the event whose id is the clock reading, and changes nothing else. |
| `MockRepository.Repository.UpdateEvent` | frontend/src/api/mock.ts:229-239 | Renames the first event with the id in place and returns it. With no such event it returns `null` and changes nothing. |
| `MockRepository.Repository.DeleteEvent` | frontend/src/api/mock.ts:242-251 | Removes the first event with the id and all its default tasks, and returns whether it found one. |
| `MockRepository.Repository.DefaultTasksOfEvent` | frontend/src/api/mock.ts:257-260 | Exactly the default tasks of that event, in stored order, each as many times as it is stored. |
| `MockRepository.Repository.CreateDefaultTask` | frontend/src/api/mock.ts:263-271 | Appends the task with the clock reading as its id. |
| `MockRepository.Repository.UpdateDefaultTask` | frontend/src/api/mock.ts:274-287 | Merges the patch into the first task with the id, in place, or returns `null` with nothing changed. |
| `MockRepository.Repository.DeleteDefaultTask` | frontend/src/api/mock.ts:290-297 | Removes the first task with the id, and returns whether there was one. |
| `MockRepository.Repository.AllHoldings` | frontend/src/api/mock.ts:303-312 | Every holding in stored order. Its event name is the name of the event it points at, or '不明' when that event is missing. |
| `MockRepository.Repository.HoldingsByEventId` | frontend/src/api/mock.ts:315-324 | Exactly that event's holdings: entry by entry the `HoldingsOfEvent` list, so in stored order and each as many times as it is stored. Each is named after that event. |
| `MockRepository.Repository.GetHoldingById` | frontend/src/api/mock.ts:327-340 | `null` exactly when no holding has the id. Otherwise the holding at the first index with that id, with exactly its tasks. Its event name is the name of the first event with its event id, and absent when there is none. |
| `MockRepository.Repository.CreateHolding` | frontend/src/api/mock.ts:343-365 | Appends the holding with the clock reading as its id. When it names an event, the copies of that event's default tasks are appended to the holding tasks. |
| `MockRepository.Repository.UpdateHolding` | frontend/src/api/mock.ts:368-381 | Merges the patch into the first holding with the id, in place, or returns `null`. |
| `MockRepository.Repository.DeleteHolding` | frontend/src/api/mock.ts:384-393 | Removes the first holding with the id and every task of that holding. |
| `MockRepository.Repository.TasksOfHolding` | frontend/src/api/mock.ts:399-402 | Exactly the tasks of that holding, in stored order. |
| `MockRepository.Repository.CreateHoldingTask` | frontend/src/api/mock.ts:405-413 | Appends the task with the clock reading as its id. |
| `MockRepository.Repository.UpdateHoldingTask` | frontend/src/api/mock.ts:416-429 | Merges the patch into the first task with the id, in place, or returns `null`. |
| `MockRepository.Repository.DeleteHoldingTask` | frontend/src/api/mock.ts:432-439 | Removes the first task with the id. |
| `MockRepository.DeleteHoldingCascade` | frontend/src/api/mock.ts:391 | After the cascade, no task of the holding is left and every other task is kept, in order. |
| `MockRepository.DeleteEventCascade` | frontend/src/api/mock.ts:249 | After the cascade, no default task of the event is left and every other one is kept, in order. |
| `MockRepository.CascadeOfUnknownIdIsEmpty` | frontend/src/api/mock.ts:391 | A cascade for an id that no task carries leaves the list as it was. |
| `OptionRanker.Candidates` | frontend/src/components/SearchableSelect.tsx:35-61 | At most one candidate per option, each with tier 0, 1 or 2. |
| `OptionRanker.OptionsOf` | frontend/src/components/SearchableSelect.tsx:70 | Maps the candidates back to their options, one to one. |
| `OptionRanker.SelectedLabel` | frontend/src/components/SearchableSelect.tsx:29 | The text of the first option with the value, or `''` when there is none. |
| `OptionRanker.TierMembers` | frontend/src/components/SearchableSelect.tsx:44-55 | An option is in tier `k` exactly when it is one of the options, matches, and has tier `k`: 0 for an exact match, 1 for a prefix match, 2 otherwise. |
| `OptionRanker.FilteredOptionsAreTiers` | frontend/src/components/SearchableSelect.tsx:32-73 | With a query, the list is the exact matches, then the prefix matches, then the rest, each tier in the given order. |
| `OptionRanker.EmptyQueryIsIdentity` | frontend/src/components/SearchableSelect.tsx:33 | An empty query shows every option in the given order. |
| `OptionRanker.TierBound` | frontend/src/components/SearchableSelect.tsx:44-55 | An option is in one of the three tiers exactly when it matches. |
| `OptionRanker.FilteredOptionsMembership` | frontend/src/components/SearchableSelect.tsx:35-61 | With a query, an option is shown exactly when its label contains the query, ignoring case. |
| `OptionRanker.TierAppend` | frontend/src/components/SearchableSelect.tsx:44-55 | Tiers are computed option by option, keeping order: the tier of two lists side by side is their tiers side by side. |
| `OptionRanker.TierSingle` | frontend/src/components/SearchableSelect.tsx:44-55 | A single option forms its own tier exactly when it matches with that tier. |
| `OptionRanker.TierOfThree` | frontend/src/components/SearchableSelect.tsx:44-55 | The tier of three options is each option's tier in turn. |
| `OptionRanker.ExactMatchExample` | frontend/src/components/SearchableSelect.tsx:44-55 | For the query "abc", the label "abc" matches with tier 0. |
| `OptionRanker.PrefixMatchExample` | frontend/src/components/SearchableSelect.tsx:44-55 | For the query "abc", the label "abcd" matches with tier 1. |
| `OptionRanker.InnerMatchExample` | frontend/src/components/SearchableSelect.tsx:44-55 | For the query "abc", the label "xabcx" matches with tier 2. |
| `OptionRanker.ExampleSingles` | frontend/src/components/SearchableSelect.tsx:44-55 | Each of the three example options alone forms exactly its own tier. |
| `OptionRanker.ExampleTiers` | frontend/src/components/SearchableSelect.tsx:44-55 | Each tier of the three-option example holds exactly its option. |
| `OptionRanker.ExactMatchFirstExample` | frontend/src/components/SearchableSelect.tsx:62-68 | "abcd", "abc", "xabcx" are shown as "abc", "abcd", "xabcx". |
| `OptionRanker.FilteredByTiers` | frontend/src/components/SearchableSelect.tsx:62-70 | The filtered list is the concatenation of the three tiers. |
| `OptionRanker.CaseInsensitiveExample` | frontend/src/components/SearchableSelect.tsx:58-61 | The query "ABC" finds the label "abc". |
| `OptionRanker.ExclusionExample` | frontend/src/components/SearchableSelect.tsx:58-61 | A query that occurs in no label leaves nothing to choose. |
| `Dropdown.ArrowDownIndex` | frontend/src/components/SearchableSelect.tsx:106-109 | One row further exactly when the highlight is before the last row. It stays inside a non-empty list. |
| `Dropdown.ArrowUpIndex` | frontend/src/components/SearchableSelect.tsx:110-113 | One row back, never above the first row. |
| `Dropdown.EnterTarget` | frontend/src/components/SearchableSelect.tsx:114-119 | Enter picks a value exactly when a row exists at the highlight, and picks that row's value. |
| `Dropdown.SearchableSelect.constructor` | frontend/src/components/SearchableSelect.tsx:14-23 | Closed, with an empty query, highlight 0 and no change reported yet. |
| `Dropdown.SearchableSelect.HandleSelect` | frontend/src/components/SearchableSelect.tsx:146-150 | Reports the value, closes the list and clears the query. |
| `Dropdown.SearchableSelect.HandleKeyDown` | frontend/src/components/SearchableSelect.tsx:96-126 | One run of the handler. When closed, Enter, Space and ArrowDown open the list. When open, the arrows move the highlight, Enter selects the highlighted row if it exists, and Escape closes and clears the query. |
| `Dropdown.SearchableSelect.InputKeyDown` | frontend/src/components/SearchableSelect.tsx:163-172 | A key pressed in the search input runs the handler on the input and again on the enclosing box. |
| `Dropdown.SearchableSelect.Toggle` | frontend/src/components/SearchableSelect.tsx:162 | A click flips the list open or closed, and nothing else changes. |
| `Dropdown.SearchableSelect.TypeQuery` | frontend/src/components/SearchableSelect.tsx:171 | Typing replaces the query. The highlight is not reset. |
| `Dropdown.SearchableSelect.Hover` | frontend/src/components/SearchableSelect.tsx:211 | Hovering a row highlights it. |
| `Dropdown.SearchableSelect.ClickOutside` | frontend/src/components/SearchableSelect.tsx:76-86 | A press outside closes the list and clears the query. |
| `Dropdown.ArrowKeysStayInList` | frontend/src/components/SearchableSelect.tsx:106-113 | From a highlight inside the list, any number of ArrowDown presses, and an ArrowUp, stay inside it. |
| `Dropdown.StaleHighlightSelectsNothing` | frontend/src/components/SearchableSelect.tsx:114-119 | A highlight left past the end of a shrunk list makes Enter select nothing, and ArrowDown does not move it. |
| `Dropdown.InputArrowDownSkipsRow` | frontend/src/components/SearchableSelect.tsx:163-172 | In a three-row list, one ArrowDown in the input moves the highlight from row 0 to row 2. |
| `DateTabs.TabsPartition` | frontend/src/pages/HoldingList.tsx:28-30 | An entry is upcoming exactly when its date is not before today, and past exactly when it is. The groups are disjoint, their counts sum to the total, and each keeps the list's order. |
| `DateTabs.DisplayedIsSelectedGroup` | frontend/src/pages/HoldingList.tsx:31 | The shown list is the selected tab's group. |
| `DateTabs.PastMeansBeforeToday` | frontend/src/pages/HoldingList.tsx:28-30 | For well-formed dates, "past" by string comparison means before today on the calendar. |
| `HoldingList.HoldingTabs` | frontend/src/pages/HoldingList.tsx:28-31 | With an event id, the holdings split into upcoming (`date >= today`) and past (`date < today`) groups. The groups are disjoint and complete, keep the list's order, and give the tab counts at lines 93 and 104. |
| `HoldingList.NoEventIdNoList` | frontend/src/pages/HoldingList.tsx:24-26 | Without an event id the page shows only its notice. |
| `EventList.EventTabs` | frontend/src/pages/EventList.tsx:28-31 | The same split of a template's events by `event_date`, with counts at lines 93 and 104. |
| `HoldingDetail.NoHoldingNoDetail` | frontend/src/pages/HoldingDetail.tsx:26-39 | Without a loaded holding the page shows a spinner while loading and the not-found notice otherwise. |
| `HoldingDetail.PastIffBeforeToday` | frontend/src/pages/HoldingDetail.tsx:41-45 | The holding is past exactly when its date is before today. Otherwise the badge shows the days until it. |
| `HoldingDetail.TimelineIsSortedCopy` | frontend/src/pages/HoldingDetail.tsx:48-50 | The timeline holds the same tasks, largest day count first, and the stored list is left unchanged. |
| `HoldingDetail.LineStatus` | frontend/src/pages/HoldingDetail.tsx:138-141 | A task is done exactly when its due day is before today and "today" when equal. Only an upcoming task shows days left (lines 211-219). |
| `HoldingDetail.DueDaysNonDecreasing` | frontend/src/pages/HoldingDetail.tsx:137-158 | Along the timeline due days never decrease, so finished tasks come before the rest. |
| `HoldingDetail.InvalidDateShowsNaN` | frontend/src/pages/HoldingDetail.tsx:41-45 | An unreadable date is never past, and its day counts are NaN. |
| `TaskOrder.SortedByDaysDescSpec` | frontend/src/pages/HoldingEdit.tsx:170-172 | The sorted copy is a permutation with non-increasing day counts, and equal counts keep their stored order. |
| `EntryForm.FormErrorsSpec` | frontend/src/pages/HoldingForm.tsx:88-109 | Each error key is present exactly when its check fails (blank name or mention, empty owner or channel), with its message. The form is valid exactly when there is no error. |
| `EntryForm.LatestOfIsLatest` | frontend/src/pages/HoldingForm.tsx:53-58 | The chosen record is one of the list, and no record of the list is dated later. |
| `EntryForm.PrefillSourceSpec` | frontend/src/pages/HoldingForm.tsx:50-66 | A source exists exactly when a new record is entered for an owner with loaded records. It is one of that owner's records, and none is later. |
| `EntryForm.Form.constructor` | frontend/src/pages/HoldingForm.tsx:29-37 | Empty fields, the route's owner, today's date and no errors. |
| `EntryForm.Form.SetContact` | frontend/src/pages/HoldingForm.tsx:59-63 | Replaces channel and mention only. |
| `EntryForm.Form.SetOwner` | frontend/src/pages/HoldingForm.tsx:45 | Replaces the owner only. |
| `EntryForm.Form.SetAll` | frontend/src/pages/HoldingForm.tsx:79-85 | Replaces every field. |
| `EntryForm.Form.Validate` | frontend/src/pages/HoldingForm.tsx:88-109 | The errors become `FormErrors` of the fields. The result is true exactly when there is none. |
| `EntryForm.Form.Submit` | frontend/src/pages/HoldingForm.tsx:111-131 | An invalid form or an unwritable date submits nothing. Otherwise it updates the edited record or creates one, then goes to the owner's page. |
| `HoldingForm.ContactFromLatestOfEvent` | frontend/src/pages/HoldingForm.tsx:50-66 | A new holding copies channel and mention from the latest-dated holding of the same event. There is one exactly when the event has a loaded holding. |
| `HoldingForm.EditFieldsOnlyFromRouteHolding` | frontend/src/pages/HoldingForm.tsx:76-86 | The form is filled only from the holding the route names, keeping its own event or falling back to the route's. |
| `HoldingForm.UnchangedEditSendsStoredFields` | frontend/src/pages/HoldingForm.tsx:76-86 | Saving an unchanged edit sends the stored fields, date string included. An unreadable stored date sends nothing. |
| `HoldingForm.FollowRoute` | frontend/src/pages/HoldingForm.tsx:39-48 | The route's event becomes the form's event. |
| `HoldingForm.Prefill` | frontend/src/pages/HoldingForm.tsx:50-66 | Copies the contact of `ContactSource` when there is one, and nothing otherwise. |
| `HoldingForm.FillFromCurrent` | frontend/src/pages/HoldingForm.tsx:76-86 | Fills the form with `EditFields` when they exist. |
| `HoldingForm.Submit` | frontend/src/pages/HoldingForm.tsx:111-131 | A holding is saved exactly when it has a name, an event, a channel, a mention and a readable date. It updates the routed holding or creates one, then `/events/<event>` opens. |
| `EventForm.ContactFromLatestOfTemplate` | frontend/src/pages/EventForm.tsx:44-61 | A new event copies its contact from the latest event of the template. There is one exactly when the template has a loaded event and no event is being edited. |
| `EventForm.Prefill` | frontend/src/pages/EventForm.tsx:44-61 | Copies the contact of `ContactSource` when there is one. |
| `EventForm.Submit` | frontend/src/pages/EventForm.tsx:88-108 | An event is saved exactly when it has a name, a template, a channel, a mention and a readable date, then `/templates/<template>` opens. |
| `HoldingEdit.InfoChecksInOrder` | frontend/src/pages/HoldingEdit.tsx:79-93 | Blank name, empty channel and blank mention are checked in that order, and the first failure's alert is reported. |
| `HoldingEdit.UnchangedInfoSendsStoredFields` | frontend/src/pages/HoldingEdit.tsx:67-105 | Saving the dialog unchanged sends back the stored fields under the holding's own event, or `''` when it has none. |
| `HoldingEdit.InfoDialog.constructor` | frontend/src/pages/HoldingEdit.tsx:30-36 | Empty fields, today's date, closed. |
| `HoldingEdit.InfoDialog.Load` | frontend/src/pages/HoldingEdit.tsx:52-61 | A loaded holding fills the dialog. |
| `HoldingEdit.InfoDialog.Open` | frontend/src/pages/HoldingEdit.tsx:67-77 | Only with a loaded holding: refills the dialog from it and opens it. |
| `HoldingEdit.InfoDialog.Save` | frontend/src/pages/HoldingEdit.tsx:79-105 | A failing check or an unwritable date sends nothing and leaves the dialog as it is. Otherwise the update for this holding is sent and the dialog closes. With no loaded holding, nothing is sent but the dialog closes. |
| `HoldingEdit.OpenTaskModal` | frontend/src/pages/HoldingEdit.tsx:114-131 | Opens the dialog on a task's fields, or blank for a new task. |
| `HoldingEdit.EnterDaysBefore` | frontend/src/pages/HoldingEdit.tsx:355-356 | The day count becomes `Number(text) \|\| 0`. |
| `HoldingEdit.SaveTask` | frontend/src/pages/HoldingEdit.tsx:143-158 | Sends a call exactly for a non-blank name and a count of at least 1: an update of the edited task, or a create under the holding. Then the dialog closes blank. |
| `HoldingEdit.SortedTasksSpec` | frontend/src/pages/HoldingEdit.tsx:170-172 | The shown tasks are the holding's tasks, largest count first, with ties in stored order. |
| `HoldingEdit.ZeroDaysRefusedHereAcceptedByServer` | frontend/src/pages/HoldingEdit.tsx:144 | The dialog refuses a count of 0, which the server's create validation accepts (backend/handler/holding_task.go:24). |
| `TaskModal.SavableSpec` | frontend/src/pages/HoldingEdit.tsx:144 | Saving is allowed exactly for a non-blank name and a count of at least 1. |
| `TaskModal.TaskDialog.constructor` | frontend/src/pages/HoldingEdit.tsx:37-44 | Closed, editing nothing, blank fields. |
| `TaskModal.TaskDialog.OpenFor` | frontend/src/pages/HoldingEdit.tsx:115-121 | Opens on the task's id and fields. |
| `TaskModal.TaskDialog.OpenBlank` | frontend/src/pages/HoldingEdit.tsx:122-130 | Opens blank, editing nothing. |
| `TaskModal.TaskDialog.Close` | frontend/src/pages/HoldingEdit.tsx:133-141 | Closes, forgets the task and blanks the fields. |
| `TaskModal.TaskDialog.SetDaysBefore` | frontend/src/pages/HoldingEdit.tsx:355-356 | Replaces the day count only. |
| `TaskModal.TaskDialog.Save` | frontend/src/pages/HoldingEdit.tsx:143-158 | Sends a call exactly when the fields are savable: an update when editing, a create otherwise. Then the dialog closes blank. Otherwise nothing changes. |
| `TemplateEdit.NameDialog.constructor` | frontend/src/pages/TemplateEdit.tsx:25-26 | An empty name and a closed dialog. |
| `TemplateEdit.NameDialog.Load` | frontend/src/pages/TemplateEdit.tsx:41-45 | A loaded template's name fills the dialog. |
| `TemplateEdit.NameDialog.Save` | frontend/src/pages/TemplateEdit.tsx:51-55 | A rename is sent, untrimmed, exactly when the name is not blank, and the dialog closes. |
| `TemplateEdit.OpenTaskModal` | frontend/src/pages/TemplateEdit.tsx:64-81 | Opens the task dialog on a template task, or blank. |
| `TemplateEdit.EnterDaysBefore` | frontend/src/pages/TemplateEdit.tsx:275-278 | The day count becomes `parseInt(text, 10) \|\| 0`. |
| `TemplateEdit.SaveTask` | frontend/src/pages/TemplateEdit.tsx:93-108 | Sends a call exactly for a non-blank name and a count of at least 1, then the dialog closes blank. |
| `TemplateEdit.SortedTasksSpec` | frontend/src/pages/TemplateEdit.tsx:120-122 | The shown tasks are the template's tasks, largest count first, with ties in stored order. |
| `TemplateEdit.DayInputReadersDiffer` | frontend/src/pages/TemplateEdit.tsx:275-278 | "3 days" is read as 3 on this page but as 0 on the holding editor (frontend/src/pages/HoldingEdit.tsx:356). |
| `Decimal.NonNumericInputIsZero` | frontend/src/pages/HoldingEdit.tsx:356 | Any text without a digit, such as "abc", becomes 0 with both readers. |
| `Decimal.ReadersInvertString` | frontend/src/pages/HoldingEdit.tsx:354-356 | A count written as a numeral reads back as itself with both readers. |
| `Strings.TrimEmptyIffBlank` | frontend/src/pages/HoldingEdit.tsx:144 | `s.trim() === ''` holds exactly when `s` is all white space. |

## Left out

- The remainder of `backend/services/task.go` and `remind.go`: SQL, transactions and the
  reminder scheduler are not part of this model. The handlers take the service's answers as
  parameters.
- HTTP transport and JSON. Decoding becomes `Option`, and an undecodable body is `None`. The
  newline `http.Error` appends and the response headers are not modelled.
- The traQ API call in `getChannelList` and its error. The model starts from the fetched public
  channels.
- `ChannelTree.ChannelList`: the recursion is bounded by the number of channels (a fuel
  argument). A parent graph with a cycle, where the Go code does not terminate, is therefore
  not modelled. That every channel reachable in a forest is listed exactly once is not proved.
- Time zones and `toISOString`. Today's date is a parameter: a day number on the detail page,
  and a `YYYY-MM-DD` string on the list pages. A JavaScript invalid date is `None`. This hides
  what a non-zero UTC offset does:
  - frontend/src/pages/HoldingDetail.tsx:40-44 and :138-144 read `new Date("YYYY-MM-DD")` as
    UTC midnight, subtract today's local midnight and round up with `Math.ceil`. At UTC+9 the
    "あと N 日" count is one more than `Days(day - today)`, and reads "あと1日" on the day
    itself. West of UTC, the holding counts as past on its own day.
  - frontend/src/pages/HoldingForm.tsx:118, HoldingEdit.tsx:99 and EventForm.tsx:95 send the
    date picker's local midnight through `toISOString`. East of UTC this sends the previous day.
  - frontend/src/pages/HoldingList.tsx:28 and EventList.tsx:28 take today as the UTC date.
- `HoldingDetail.PastIffBeforeToday`, `HoldingForm.Submit`, `EventForm.Submit`,
  `HoldingEdit.InfoDialog.Save`, `HoldingList.HoldingTabs`, `EventList.EventTabs`: their day
  counts, sent dates and today's date hold as stated only at UTC offset 0.
- `EntryForm.DateKey`: an unreadable date sorts as -1. JavaScript's comparator returns NaN,
  and the resulting order is engine-dependent.
- `Number` accepts only optional white space, a sign and decimal digits in this model. Fractions,
  exponents, hexadecimal and `Infinity` are not modelled.
- `Strings.ToLower` folds ASCII letters only. String `<` compares characters, which equals UTF-16
  code-unit order for the ASCII dates compared.
- Asynchrony: promises, loading spinners, `alert`, `confirm` and the timing of React effects.
  Each store action takes the answer it received. The pages' effect order is the order in which
  the methods are called.
- The page-level delete handlers (`handleDeleteHolding`, `handleDeleteTask`,
  `handleDeleteTemplate`). They are a `confirm` followed by the store's delete action and a
  navigation; the store actions are modelled.
- Text and date inputs that only copy a value into a field: name, description, template name,
  channel picker and date picker. The two day-count inputs are modelled because they convert.
- `TaskModal.TaskDialog.Save`, `HoldingEdit.InfoDialog.Save`, `HoldingForm.Submit`,
  `EventForm.Submit`: the dialog is closed, or the page navigates, as if the awaited store call
  succeeded. The paths where the await throws and the handler stops are not modelled.
- `MockRepository.Repository`: `eventApi.getAll` (frontend/src/api/mock.ts:195-198) and
  `traQApi.getChannels` (frontend/src/api/mock.ts:445-448) return copies of the stored arrays, which are the `events` and
  `channels` fields. The 300 ms delays are left out.
- The searchable drop-down resets its highlight to 0 only when it mounts
  (frontend/src/components/SearchableSelect.tsx:142-144). It does not clamp the highlight when
  the filtered list shrinks, so a stale highlight can point past the end.
  `Dropdown.StaleHighlightSelectsNothing` states what the code does in that case.
- Rendering, styling and routing beyond the path a submit navigates to.

## Findings

| source | as written | input that shows it | evidently intended | confidence | as-written member | corrected member |
|---|---|---|---|---|---|---|
| backend/handler/holding.go:219-233 | A PATCH date that does not parse writes 400 but does not return. `time.Parse` has returned the zero time, so the holding is saved with date 0001-01-01, and the 200 answer's JSON follows the error text. | Holding 7 on 2026-04-18, PATCH `{"date": "2026/04/18"}` | A rejected date refuses the update and leaves the stored holding unchanged | high; not executed | `HoldingHandler.UpdateHolding` (`HoldingHandler.BadPatchDateExample`, `HoldingHandler.MergeAsWrittenZeroesDate`) | `HoldingHandler.UpdateHoldingFixed` |
| frontend/src/components/SearchableSelect.tsx:163-172 | `handleKeyDown` is attached to the search input and to the enclosing box, and the key event bubbles. One key press in the open list's input therefore runs the handler twice. | A three-row open list with the highlight on row 0: one ArrowDown moves it to row 2 | One key press moves the highlight by one row | medium; not executed | `Dropdown.SearchableSelect.InputKeyDown` (`Dropdown.InputArrowDownSkipsRow`) | `Dropdown.SearchableSelect.HandleKeyDown` |
