# Weekly milestone sync and "This Week" label setup, in Dafny

Two scripts keep a task-board service in step with a "Weekly Milestone" board:

- `weekly_milestone_sync.py` (class `TrelloWeeklySync`) runs three steps:
  - it mirrors every card carrying the trigger label onto the weekly board;
  - it carries status changes between each card and its mirror;
  - it tears mirrors down when the label goes away or a card disappears.

  A persisted mapping table records which original card each mirror stands for.
- `setup_this_week_label.py` (class `LabelSetup`) makes sure every board carries a label named "This Week", and counts what it found and created.

The model has the following modules:

- `Service` models the service as seen through `api_request`.
  - `State` is an abstract value holding boards, lists, labels, cards, comments and an id allocator.
  - `Apply` is one reading of each endpoint the scripts use.
  - `Api` adds a schedule of transport faults, the log of requests sent and the error counter.
  - `Call` is one `api_request`. It fails, counting one error and answering nothing, when a fault is scheduled or the service rejects the request.
  - The server is a field of `Api`. `Faithful` says it answers as `Apply` does. Properties that depend on what the service does (fresh ids, labels being kept) assume `Faithful`. Everything else holds for any server.
- `WeeklyRules` holds the decisions that call no endpoint:
  - the mapping table and its lookup and removal;
  - the label filter;
  - the mirror's creation request;
  - list-role derivation;
  - the status rule;
  - the four teardown cases.
- `WeeklySpec` gives each step of a run as a function of the state before it. A state is the `Api`, the mapping table and the counters. The module also proves what the steps preserve. The main invariant is `TableInvariant`: every original card and every mirror appears in at most one entry, and every mirror id was handed out by the service.
- `WeeklySync` holds the class `TrelloWeeklySync`. Its fields are the service handle, the table, the counters and the configuration. Each method is proved to leave exactly the state the matching `WeeklySpec` function describes.
- `ThisWeekLabel` holds the spec functions, lemmas and class `LabelSetup` for the label script. Its lemmas cover the counters and idempotence: against the service itself and with no failures, a second run changes nothing remote and creates nothing.

Behaviours of the code that the model keeps as written:
- The two status rules of `sync_card_status` cannot both fire. The first needs the original to be open, and the second needs it closed. So at most one action is taken per entry.
- When an exception escapes the steps of `run`, the `except` branch exits without saving the mapping file. A missing `completed` list role raises `KeyError` in the status step, after the pull step has already created mirrors, so those mirrors are not recorded and the next run creates them again. The model keeps the `completed` role as a precondition of the status step instead.
- `get_card` answers `None` both for a deleted card and for a request that failed. So in `cleanup_removed_labels` a failed fetch of the original takes the "original card was deleted" branch. The entry is dropped, and the mirror is deleted when its own fetch succeeds (`WeeklySpec.CleanupFetchFailure`).
- `board_has_label` answers `False` when the label fetch fails. So `setup_all_boards` then sends a creation request even for a board that already carries the label (`ThisWeekLabel.SetupBoardFetchFailure`).
- `copy_card_to_weekly` always attaches a label named "This Week" to a new mirror, but `cleanup_removed_labels` tests for the configured trigger label. When the trigger has another name, the same run's cleanup deletes every mirror it just created and comments on the original (`WeeklyRules.MirrorRequests` against `WeeklyRules.TeardownOf`).

## Model

| member | source | states |
|---|---|---|
| Service.Call | weekly_milestone_sync.py:114-141 | One request uses one fault slot and is logged. It answers nothing, counts exactly one error and leaves the service unchanged when a fault is scheduled or the service rejects it. Otherwise the service answers and the error count stays. |
| Service.AnyNamed | weekly_milestone_sync.py:151-153 | Defines the label test of both scripts: some label of the sequence carries exactly the given name. The same test is the `any(...)` at setup_this_week_label.py line 68. |
| WeeklyRules.LoadMapping | weekly_milestone_sync.py:96-105 | A missing or unparsable mapping file gives an empty table with no timestamp. A parsed file is taken as it is. |
| WeeklyRules.CardsWithLabel | weekly_milestone_sync.py:149-156 | Defines the filter: the fetched cards, in order, keeping a card when some label of it is named as given. Its properties are the next three rows. |
| WeeklyRules.CardsWithLabelExact | weekly_milestone_sync.py:143-156 | The result holds exactly the fetched cards that carry a label with the given name. Each such card appears as often as it was fetched, so the `break` never adds a card twice. |
| WeeklyRules.CardsWithLabelOrder | weekly_milestone_sync.py:149-156 | Filtering a concatenation is filtering each part, so fetch order is kept. |
| WeeklyRules.CardsWithLabelSnoc | weekly_milestone_sync.py:150-154 | One more fetched card is appended exactly when it carries the label. |
| WeeklySpec.FetchCardsWithLabel | weekly_milestone_sync.py:143-147 | The fetch is one request, and a failed fetch gives no cards. |
| WeeklyRules.Matches | weekly_milestone_sync.py:164-167 | Defines when an entry matches: its original id equals the given original id, or its mirror id equals the given mirror id. An id that is not given matches nothing. |
| WeeklyRules.FirstMatch | weekly_milestone_sync.py:162-169 | Defines `find_mapping` as the first matching entry of the table, or `None`. Its properties are `FirstMatchSpec` and `FirstMatchAt`. |
| WeeklyRules.FirstMatchSpec | weekly_milestone_sync.py:162-169 | The entry returned is the first one matching the given original id or the given mirror id. `None` comes back exactly when no entry matches. |
| WeeklyRules.FirstMatchAt | weekly_milestone_sync.py:164-168 | A matching entry with no match before it is the one returned. |
| WeeklyRules.Without | weekly_milestone_sync.py:181-187 | After removal the table holds exactly the surviving entries that do not match. |
| WeeklyRules.WithoutTwice | weekly_milestone_sync.py:181-187 | Removing twice is removing once. |
| WeeklyRules.WithoutConcat | weekly_milestone_sync.py:183-187 | Removal distributes over concatenation, so the survivors keep their order. |
| WeeklyRules.WithoutAbsent | weekly_milestone_sync.py:181-187 | Removing by ids that match no entry leaves the table unchanged. |
| WeeklyRules.WithoutAbsentAll | weekly_milestone_sync.py:181-187 | Removing by a mirror id no entry has leaves the table unchanged. |
| WeeklyRules.WithoutOnlyThat | weekly_milestone_sync.py:181-187 | With distinct mirror ids, removing by one entry's mirror id removes that entry and no other. |
| WeeklyRules.SourceUrl | weekly_milestone_sync.py:197 | Defines the backlink: the short URL when the card has one, else the URL, else the empty string. |
| WeeklyRules.Description | weekly_milestone_sync.py:198 | Defines the mirror's description from the backlink prefix, the backlink, a blank line and the original description. Its layout is `DescriptionLayout`. |
| WeeklyRules.DescriptionLayout | weekly_milestone_sync.py:197-198 | The mirror's description is the backlink prefix, then the short URL (else the URL, else empty), then a blank line, then the original description (else empty). |
| WeeklyRules.DueParam | weekly_milestone_sync.py:209-210 | The due date is sent exactly when the original has a non-empty one, and then it is that date. |
| WeeklyRules.NewCardRequest | weekly_milestone_sync.py:201-212 | Defines the creation request of the mirror. Its fields are stated by `NewCardRequestShape`. |
| WeeklyRules.NewCardRequestShape | weekly_milestone_sync.py:201-212 | The creation request targets the "this week" list, at the top, with the original's name. It carries the description above and the due date exactly when that date is non-empty. |
| WeeklyRules.MirrorRequests | weekly_milestone_sync.py:220-234 | Defines the requests that follow a successful creation. Their order and content are stated by `MirrorRequestsShape`. |
| WeeklyRules.MirrorRequestsShape | weekly_milestone_sync.py:220-234 | After creation come the provenance label, the orange "This Week" label, one member request per member in order, and last the comment on the original. |
| WeeklyRules.ListKey | weekly_milestone_sync.py:66 | The key has the name's length. Each character is the lower-cased character, or `_` for a space. No key contains a space or an upper-case letter. |
| WeeklyRules.KeyMap | weekly_milestone_sync.py:64-67 | The keys are exactly the keys of the lists' names. |
| WeeklyRules.KeyMapLastWins | weekly_milestone_sync.py:65-67 | A key maps to the id of the last list that produces it, so a later duplicate overwrites an earlier one. |
| WeeklySpec.BoardLists | weekly_milestone_sync.py:56-74 | `get_board_lists` sends exactly one fetch of the weekly board's lists. A failed fetch gives `{this_week: None}`. Otherwise the roles are `ListRoles` of the fetched lists. |
| WeeklyRules.ListRoles | weekly_milestone_sync.py:56-74 | A failed or empty fetch gives `{this_week: None}`. Otherwise the derived keys plus `this_week` keep their ids, and `this_week` falls back to the first list when no name produces it. |
| WeeklyRules.StatusRequests | weekly_milestone_sync.py:255-271 | The completion comment is sent exactly when the mirror is in the completed list and the original is open. The move is sent exactly when the original is closed and the mirror is elsewhere. At most one of the two is sent, and nothing else. |
| WeeklyRules.TeardownOf | weekly_milestone_sync.py:279-315 | The first matching case wins, with each case characterised both ways. Original gone: delete the mirror only if it exists. Mirror gone: comment only. Label missing on either side: delete and comment, blaming the original card whenever it lacks the label. The entry stays otherwise. There is at most one delete, of the mirror, and at most one comment. |
| WeeklySpec.OtherBoards | weekly_milestone_sync.py:317-325 | The result holds exactly the fetched boards other than the weekly board. |
| WeeklySpec.ProjectLabel | weekly_milestone_sync.py:327-346 | An existing label with the board's name is reused. Otherwise one creation request follows, coloured by the palette at `len(labels) % 10`. The result is then the id the creation answered with, or `None` when it failed. |
| WeeklySpec.ProjectLabelExisting | weekly_milestone_sync.py:330-334 | Against the service itself, with no failures: when the weekly board already has a label with the source board's name, the first such label's id is returned and nothing remote changes. |
| WeeklySpec.ProjectLabelCreates | weekly_milestone_sync.py:336-346 | Against the service itself, with no failures: when no such label exists, the result is the fresh id the service hands out, and a label with that id and name is then the first one found on the weekly board. |
| WeeklySpec.ProjectLabelReuse | weekly_milestone_sync.py:327-346 | Against the service itself, with no failures, on an existing weekly board: the result is an id, and it belongs to a label of the weekly board carrying the source board's name. Asking again returns the same id and changes nothing remote, so each source board gets one provenance label and later calls reuse it. |
| WeeklySpec.CopyCard | weekly_milestone_sync.py:189-244 | The other counters stay. Either the table and `pulled` stay, or exactly one entry (original id, mirror id, board id, original list) is appended and `pulled` grows by one. |
| WeeklySpec.CopyCardOutcome | weekly_milestone_sync.py:189-244 | An already mapped card changes nothing. Otherwise creation is the first request. An entry is added exactly when creation succeeded, and its mirror id is the id the service handed out then. |
| WeeklySpec.CopyCardCreated | weekly_milestone_sync.py:212-244 | Once creation answered with an id, the result is the dressing requests, the appended entry and `pulled + 1`. |
| WeeklySpec.CopyCardKeepsInvariant | weekly_milestone_sync.py:189-244 | Mirroring keeps original ids and mirror ids distinct, and keeps every mirror id allocated. |
| WeeklySpec.PullCards | weekly_milestone_sync.py:382-383 | The table only grows, by exactly the growth of `pulled`. The other counters stay. |
| WeeklySpec.PullBoard | weekly_milestone_sync.py:361-383 | The same shape of change for one board. |
| WeeklySpec.PullBoards | weekly_milestone_sync.py:361-383 | The same over all boards, in order. |
| WeeklySpec.Pull | weekly_milestone_sync.py:348-385 | The same for the whole pull step. |
| WeeklySpec.PullCardsKeepsInvariant | weekly_milestone_sync.py:382-383 | Mirroring a board's cards keeps the table invariant. |
| WeeklySpec.PullBoardsKeepsInvariant | weekly_milestone_sync.py:361-383 | Scanning boards keeps the table invariant. |
| WeeklySpec.PullKeepsInvariant | weekly_milestone_sync.py:348-385 | The pull step keeps the table invariant. |
| WeeklySpec.SyncCard | weekly_milestone_sync.py:246-271 | The table, `pulled` and `removed` stay. `synced` grows by at most one, and by exactly the number of requests sent after the two fetches. |
| WeeklySpec.SyncCardRequests | weekly_milestone_sync.py:246-271 | The two fetches go out. Then, only when both cards exist, the status actions go out, and `synced` counts exactly those. |
| WeeklySpec.SyncMappings | weekly_milestone_sync.py:387-394 | The table stays. `synced` grows by at most one per entry. Two fetches plus the counted actions are sent per entry. |
| WeeklySpec.CleanupStep | weekly_milestone_sync.py:276-315 | An untouched entry changes neither the table nor `removed`. Any other case removes the entries with that mirror id and adds one to `removed`. |
| WeeklySpec.CleanupFetchFailure | weekly_milestone_sync.py:276-286 | A failed fetch of the original reads as a deleted original, so the entry is dropped and counted even if the card still exists. The requests sent are the two fetches, then a delete of the mirror exactly when the mirror's fetch answered. |
| WeeklySpec.CleanupMappings | weekly_milestone_sync.py:275-315 | There is one case per snapshot entry, and `pulled` and `synced` stay. |
| WeeklySpec.KeptOnly | weekly_milestone_sync.py:275-315 | The kept entries are a sub-collection of the table. |
| WeeklySpec.CleanupStepShape | weekly_milestone_sync.py:284-315 | With distinct mirror ids, a removing step takes out exactly the current entry and keeps the rest distinct. |
| WeeklySpec.CleanupShape | weekly_milestone_sync.py:275-315 | Over the snapshot, the table ends as the entries before it plus the untouched ones, in order. Everything else is counted as removed. |
| WeeklySpec.Cleanup | weekly_milestone_sync.py:273-315 | Defines `cleanup_removed_labels` as one `CleanupStep` per entry of a copy of the table taken before the loop. Its effect on the table is `CleanupKeepsUntouched`. |
| WeeklySpec.CleanupKeepsUntouched | weekly_milestone_sync.py:273-315 | With distinct mirror ids, the table after cleanup is exactly the untouched entries in their original order. `removed` grows by the number of entries dropped. |
| WeeklySpec.KeptOnlyOneToOne | weekly_milestone_sync.py:275-315 | Keeping some entries of a one-to-one table leaves it one to one. |
| WeeklySpec.CleanupKeepsInvariant | weekly_milestone_sync.py:273-315 | Cleanup keeps the table invariant. |
| WeeklySpec.RunSteps | weekly_milestone_sync.py:403-411 | Defines the three steps of `run` in order: pull, status sync over the table left by the pull, cleanup. |
| WeeklySpec.RunKeepsInvariant | weekly_milestone_sync.py:403-411 | A whole run (pull, status sync, cleanup) keeps the table invariant. |
| WeeklySync.TrelloWeeklySync.constructor | weekly_milestone_sync.py:32-54 | The table is loaded and the counters start at zero. When no list roles are configured, they are derived from the weekly board. |
| WeeklySync.TrelloWeeklySync.ApiRequest | weekly_milestone_sync.py:114-141 | The object's service handle advances as `Call` says. |
| WeeklySync.TrelloWeeklySync.GetBoardLists | weekly_milestone_sync.py:56-74 | The loop leaves the roles `ListRoles` gives for the fetched lists. |
| WeeklySync.TrelloWeeklySync.GetCardsWithLabel | weekly_milestone_sync.py:143-156 | The nested loops with `break` leave exactly `FetchCardsWithLabel`. |
| WeeklySync.TrelloWeeklySync.GetCard | weekly_milestone_sync.py:158-160 | The method makes one fetch and returns the card, or `None` when the fetch failed. |
| WeeklySync.TrelloWeeklySync.FindMapping | weekly_milestone_sync.py:162-169 | The loop returns `FirstMatch` of the table. |
| WeeklySync.TrelloWeeklySync.AddMapping | weekly_milestone_sync.py:171-179 | The table gets exactly one entry appended. |
| WeeklySync.TrelloWeeklySync.RemoveMapping | weekly_milestone_sync.py:181-187 | The table becomes `Without` of the old table. |
| WeeklySync.TrelloWeeklySync.MirrorCard | weekly_milestone_sync.py:220-234 | The method sends exactly the dressing requests, in order, with the member loop one request per member. |
| WeeklySync.TrelloWeeklySync.CopyCardToWeekly | weekly_milestone_sync.py:189-244 | The method leaves exactly the state `CopyCard` gives. |
| WeeklySync.TrelloWeeklySync.SendStatus | weekly_milestone_sync.py:255-271 | The method sends exactly the status actions and counts them. |
| WeeklySync.TrelloWeeklySync.SyncCardStatus | weekly_milestone_sync.py:246-271 | The method leaves exactly the state `SyncCard` gives. |
| WeeklySync.TrelloWeeklySync.SendTeardown | weekly_milestone_sync.py:279-313 | The method sends exactly the teardown case's requests and says whether the entry stays. |
| WeeklySync.TrelloWeeklySync.CleanupEntry | weekly_milestone_sync.py:276-315 | The method leaves exactly the state `CleanupStep` gives for one entry. |
| WeeklySync.TrelloWeeklySync.CleanupRemovedLabels | weekly_milestone_sync.py:273-315 | The loop over a snapshot of the table, which it shrinks as it goes, leaves exactly `Cleanup`. |
| WeeklySync.TrelloWeeklySync.GetAllBoards | weekly_milestone_sync.py:317-325 | The method returns exactly `OtherBoards`. |
| WeeklySync.TrelloWeeklySync.GetOrCreateProjectLabel | weekly_milestone_sync.py:327-346 | The search-then-create loop returns exactly `ProjectLabel`. |
| WeeklySync.TrelloWeeklySync.CopyCards | weekly_milestone_sync.py:382-383 | The card loop leaves exactly `PullCards`. |
| WeeklySync.TrelloWeeklySync.PullBoardToWeekly | weekly_milestone_sync.py:361-383 | One board leaves exactly `PullBoard`. |
| WeeklySync.TrelloWeeklySync.PullCardsToWeekly | weekly_milestone_sync.py:348-385 | The board loop leaves exactly `Pull`. |
| WeeklySync.TrelloWeeklySync.SyncStatusChanges | weekly_milestone_sync.py:387-394 | The loop over the table leaves exactly `SyncMappings`. |
| WeeklySync.TrelloWeeklySync.SaveMapping | weekly_milestone_sync.py:107-112 | The table is stamped with the given time, and the file written is the table with that stamp. |
| WeeklySync.TrelloWeeklySync.Run | weekly_milestone_sync.py:396-432 | Pull, status sync and cleanup run in that order, then the table is saved. The run fails exactly when some request failed. With a table satisfying the invariant and the service faithful, the invariant still holds afterwards. |
| ThisWeekLabel.AllBoards | setup_this_week_label.py:57-60 | `get_all_boards` sends exactly one board fetch. A failed fetch gives no boards. |
| ThisWeekLabel.CheckBoard | setup_this_week_label.py:62-68 | There is one label fetch. The answer is true exactly when some fetched label is named "This Week", and false when the fetch failed. |
| ThisWeekLabel.CreateOn | setup_this_week_label.py:70-84 | There is one creation request. `labels_created` grows by one exactly when it was answered, and nothing else is counted. |
| ThisWeekLabel.SetupBoard | setup_this_week_label.py:106-115 | Defines one iteration: the label check, then either one more `labels_already_exist` or `create_label`. Its requests and counters are `SetupBoardSends`. |
| ThisWeekLabel.SetupBoards | setup_this_week_label.py:105-115 | Defines the loop as `SetupBoard` applied to the boards in order. |
| ThisWeekLabel.SetupAll | setup_this_week_label.py:86-115 | Defines `setup_all_boards`: fetch the boards, set `boards_scanned` to their number, and run the loop unless there are none. Its properties are the `SetupAll…` rows below. |
| ThisWeekLabel.SetupBoardSends | setup_this_week_label.py:106-115 | A board gets the label fetch, then a creation request exactly when the fetch did not show the label. `labels_already_exist` grows exactly when it did. At most one counter moves. |
| ThisWeekLabel.SetupBoardFetchFailure | setup_this_week_label.py:62-68 | A failed label fetch is followed by a creation request, whatever labels the board has. |
| ThisWeekLabel.CheckBoardFaithful | setup_this_week_label.py:62-68 | Against the service itself with no failures, the check is true exactly when the board has a label named "This Week", and nothing remote changes. |
| ThisWeekLabel.SetupBoardLabels | setup_this_week_label.py:106-115 | Against the service itself with no failures, the board carries the label afterwards, and labels are only added. |
| ThisWeekLabel.SetupBoardsCounts | setup_this_week_label.py:105-115 | The scanned count stays and neither counter drops. Together they grow by at most one per board. |
| ThisWeekLabel.SetupBoardsLabels | setup_this_week_label.py:105-115 | Against the service itself with no failures, every board visited carries the label afterwards. |
| ThisWeekLabel.SetupBoardsLabelled | setup_this_week_label.py:105-115 | Against the service itself, with no failures, when every board already carries the label: nothing remote changes, no error, no creation, and each board is counted as already labelled. |
| ThisWeekLabel.SetupAllCounts | setup_this_week_label.py:93-115 | `boards_scanned` is the number of boards fetched. From zero counters, `labels_created + labels_already_exist <= boards_scanned`. |
| ThisWeekLabel.SetupAllNoBoards | setup_this_week_label.py:95-101 | With no boards, only the board fetch is sent and no label is counted or created. |
| ThisWeekLabel.SetupAllLabels | setup_this_week_label.py:86-115 | Against the service itself with no failures, every board carries the label after a run. |
| ThisWeekLabel.SetupAllIdempotent | setup_this_week_label.py:86-115 | Against the service itself with no failures, a second run leaves the service exactly as the first left it. It creates no label, records no error, and finds every board already labelled. |
| ThisWeekLabel.LabelSetup.constructor | setup_this_week_label.py:17-31 | All counters start at zero. |
| ThisWeekLabel.LabelSetup.ApiRequest | setup_this_week_label.py:33-55 | The handle advances as `Call` says: a failed request counts exactly one error and yields nothing. |
| ThisWeekLabel.LabelSetup.GetAllBoards | setup_this_week_label.py:57-60 | The method returns the fetched boards, or none when the fetch failed. |
| ThisWeekLabel.LabelSetup.BoardHasLabel | setup_this_week_label.py:62-68 | The `any` loop returns exactly `CheckBoard`. |
| ThisWeekLabel.LabelSetup.CreateLabel | setup_this_week_label.py:70-84 | The method leaves exactly `CreateOn`. |
| ThisWeekLabel.LabelSetup.SetupOneBoard | setup_this_week_label.py:106-115 | One loop iteration leaves exactly `SetupBoard`. |
| ThisWeekLabel.LabelSetup.SetupAllBoards | setup_this_week_label.py:86-115 | The method leaves exactly `SetupAll`. |

## Left out

- HTTP transport, URLs, query parameters and authentication: `api_request` is `Service.Call` over an abstract service state. The HTTP method and endpoint are one `Request` constructor per endpoint used.
- The service itself: `Apply` is one reading of the endpoints the scripts use, not the real service. The server is a parameter of `Api`, and `Faithful` names the assumption that it answers as `Apply` does.
- An empty response body is not modelled. In the weekly sync it becomes `{}`, which the code reads as falsy; in the label script it becomes `None` without counting an error. Every successful answer here carries data.
- `api_request`'s "unsupported method" branch is not modelled. Both scripts only use the methods they support, so the branch is never taken.
- Logging, the printed summaries and the comment texts: comments are a `CommentKind` with the side that lost the label, not strings.
- `sys.exit` is not modelled. `Run` returns `failed`, the condition under which the script exits with status 1.
- Loading the configuration file and reading environment variables are not modelled. The constructor takes the weekly board id, the trigger label and the list roles as parameters.
- Mapping-file I/O is not modelled. Reading the file is `StoredMapping` (missing, invalid or parsed), and saving returns the `MappingFile` that would be written.
- `datetime.now()`: `Run` takes one timestamp for the entries it adds and one for the save. The script reads the clock on every `add_mapping`, so entries added in one run may carry different times.
- Identifiers are natural numbers, never empty or falsy. An id argument that may be absent is an `Option`.
- Lower-casing covers ASCII letters only.
- `WeeklySync.TrelloWeeklySync.CopyCardToWeekly`: needs `this_week` among the list roles. The script raises `KeyError` otherwise.
- `WeeklySync.TrelloWeeklySync.SyncCardStatus`: needs `completed` among the list roles, for the same reason. `SyncStatusChanges` and `Run` carry the same preconditions.
- The `except Exception` branch of `run` is not modelled, because the model raises no exception. The missing `completed` role that would reach it is a precondition instead. So the model does not show the mirrors of such a run going unrecorded.
- The counter of boards that had cards in `pull_cards_to_weekly` is not modelled; it is only printed.
- The board name passed to `create_label` is not modelled; it is only printed.
- The weekly board URL in the "added" comment is not modelled; it is part of the comment text.
