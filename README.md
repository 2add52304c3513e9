# botmon_cli, modelled in Dafny

botmon_cli is a terminal dashboard for a message bus. It covers the bots that read from or write to the bus's queues, and the statistics those bots report.

At startup the program reads a per-bus configuration file. It then shows one of two pages:
- the bus list, when no bus was named;
- otherwise, the main menu.

The main menu leads to a fuzzy-searchable list of bots. Choosing one fetches its statistics for the past hour and opens a detail view. That view groups the bot's statistics per queue and sums recent traffic per queue.

This project models the rule code at the core of the program, states what that code promises, and proves it:
- **Statistics merge** (`BotStats`). `CondensedStats` folds the per-bucket records of a bot into one summary:
  - counters are summed, the maximum duration is raised, and the minimum duration is guarded;
  - the per-queue maps are merged.

  The class updates its fields in place. The fold is proved equal to an order-free specification. The merged minimum duration is always 0, because the accumulator starts at 0.
- **Bucket keys and query windows** (`Dynamo`):
  - period names;
  - the `"{period}_{date}"` sort keys with fixed-width, zero-padded dates;
  - the absolute-time window of `AllBucketsBuilder`.

  For every period but `Week`, keys of one period have the same length, and their string order is the chronological order of the fields they show.
- **Key-driven state machine**:
  - `AppModel` holds the value-level rules of `handle_key_event`, `navigate`, the startup mode choice and the key hints.
  - `AppLaws` proves an invariant of reachable states and its consequences.
  - `App` is the `AppState` class. Each step is proved equal to its rule.
  - `run` stops on quit or at the first failing or panicking step.
- **Page helpers**:
  - the per-queue grouping of a bot's statistics (`Grouping`);
  - name stripping and the fuzzy search with its stable descending sort (`Search`, `BotPage`, `QueuePage`);
  - `get_bot_details` with its error cases (`BotPage`);
  - the sorted bus list (`BusSelectPage`);
  - the table rows of the detail view (`BotTable`);
  - the refresh-time clamp (`AppParams`, `Lib`);
  - the `stop_scroll` rule of the state dump (`CurrentState`).

Some things the program gets from outside become inputs. Each key step receives an `Env` holding:
- the two store fetches;
- the text-input widget's handling of a key;
- the fuzzy matcher's score.

The clock is a parameter (epoch milliseconds or civil fields). The configuration file is given as a map.

Outcomes are modelled as follows. Rust `Err` results are `Fail`. Panics are `Panic`: `todo!()`, `unimplemented!()`, `unwrap()` on `None`, an index out of bounds, and an unsigned subtraction that underflows.

## Model

| member | source | states |
|---|---|---|
| BotStats.QueueStats.Merge | src/bot_stats.rs:19-28 | both timestamps become the larger of the two values and units are summed; the checkpoint is the incoming one when present, otherwise it is kept |
| BotStats.MergeExecution | src/bot_stats.rs:74-95 | without an execution block the statistics are unchanged; counters only grow and the maximum only rises; the minimum only falls, and only to an incoming value above zero |
| BotStats.MergeExecutionStep | src/bot_stats.rs:74-95 | one record adds each reported counter to the old one and raises the maximum to the reported one (the same `Combine` the order-free aggregate uses), and lowers the minimum to a reported value above zero |
| BotStats.MergeQueuesSpec | src/bot_stats.rs:102-131 | the merged key set is old ∪ incoming; shared keys are merged, new keys are copied, other keys are untouched; an empty or `{}` block changes nothing |
| BotStats.MergeQueuesAddOne | src/bot_stats.rs:111-116 | merging one more incoming entry updates exactly that key: merged into the existing entry or inserted |
| BotStats.MergeEach | src/bot_stats.rs:111-116 | the map loop over the incoming entries yields the order-free per-queue merge |
| BotStats.CondensedStats.constructor | src/bot_stats.rs:150-162 | the accumulator starts all zero with empty read and write maps |
| BotStats.CondensedStats.MergeExecutionStats | src/bot_stats.rs:73-100 | the object becomes the old value with the record's execution block and both queue blocks merged in |
| BotStats.CondensedStats.MergeCounters | src/bot_stats.rs:74-96 | the counters become the execution rule applied to the old counters; the queue maps are left alone |
| BotStats.CondensedStats.MergeStats | src/bot_stats.rs:102-131 | read and write become the per-queue merges with the incoming blocks; execution statistics are unchanged |
| BotStats.MergeBotStats | src/bot_stats.rs:148-168 | a fresh summary equal to the fold of the records in input order from the zero accumulator |
| BotStats.MergeAllTotals | src/bot_stats.rs:164-166 | each execution total of the fold is the sum (the maximum for max duration) of that field over all records |
| BotStats.AggregatePermutation | src/bot_stats.rs:164-166 | the per-field aggregate does not depend on the order of the records |
| BotStats.MergeAllTotalsOrderFree | src/bot_stats.rs:164-166 | any reordering of the records gives the same execution statistics |
| BotStats.MinDurationAlwaysZero | src/bot_stats.rs:91-95 | starting from the zero accumulator, the merged minimum duration is 0 for every input |
| BotStats.ZeroMinDurationIgnored | src/bot_stats.rs:92 | an incoming minimum duration of 0 leaves the minimum unchanged |
| BotStats.MergeAllPerQueue | src/bot_stats.rs:111-126 | a queue is in the merged map exactly when some record reports it, and its entry collapses that queue's column in record order |
| BotStats.CollapseSummary | src/bot_stats.rs:19-28 | collapsing a column sums its units, takes the latest timestamps and keeps the last present checkpoint |
| BotStats.QueueUnitsAreSummed | src/bot_stats.rs:23 | per-queue units of the summary are the sum over the records; the checkpoint is the last present one |
| BotStats.MergeNumbersCommute | src/bot_stats.rs:21-23 | timestamps and units of a merge do not depend on the order of the two operands |
| BotStats.CheckpointDependsOnOrder | src/bot_stats.rs:25-27 | two records folded in opposite orders end with different checkpoints |
| Dynamo.PeriodNameInjective | src/dynamo.rs:33-44 | distinct periods display as distinct names |
| Dynamo.NewBotBucket | src/dynamo.rs:99-106 | the new bucket's key is the period name, `_` and the date at the period's resolution; a week bucket has no key |
| Dynamo.BucketKey | src/dynamo.rs:108-124 | formatting fails exactly for `Week` |
| Dynamo.DateTextPieces | src/dynamo.rs:110-119 | the date is the first 3 (day), 4 (hour) or 5 (minute periods) zero-padded fields with their separators |
| Dynamo.BucketKeyLength | src/dynamo.rs:110-123 | every key of a period has length name + 1 + 10, 13 or 16 |
| Dynamo.BucketKeyOrder | src/dynamo.rs:110-123 | for valid dates, keys of one period compare as strings exactly as their shown fields compare chronologically, and are equal exactly when those fields are |
| Dynamo.MinuteKeyNotRounded | src/dynamo.rs:111-113 | a 15-minute key carries the exact minute (10:07 stays 10:07) |
| Dynamo.HourKeyExample | src/dynamo.rs:114-116 | an hour key drops minutes |
| Dynamo.DayKeyExample | src/dynamo.rs:117-119 | a day key drops the time |
| Dynamo.AllBucketsBuilder.constructor | src/dynamo.rs:61-69 | the window defaults to 900000 ms ending at the supplied now |
| Dynamo.AllBucketsBuilder.PastMs | src/dynamo.rs:72-77 | sets only the window length and returns the builder itself |
| Dynamo.AllBucketsBuilder.SearchTil | src/dynamo.rs:79-82 | sets only the end instant and returns the builder itself |
| Dynamo.AllBucketsBuilder.Build | src/dynamo.rs:84-90 | end is the end instant, end − start is the window length, so start ≤ end for a non-negative window |
| Dynamo.OneHourWindow | src/dynamo.rs:60-91 | chaining the setters for one hour gives the window [t − 3600000, t] |
| Decimal.PadValue | src/dynamo.rs:112 | a zero-padded field reads back as its number |
| Decimal.PadOrder | src/dynamo.rs:112 | zero-padded fields of one width compare as strings exactly as their numbers compare |
| Decimal.DecimalStringValue | src/ui/bot.rs:123 | the decimal rendering of a number reads back as that number |
| Decimal.ParseDecimalString | src/app_params.rs:30 | parsing the rendering of a number in the 64-bit range gives it back |
| Decimal.ParseNegativeDecimalString | src/app_params.rs:30 | a minus sign and a rendering in range parse as the negative number |
| Decimal.ParseOverflow | src/app_params.rs:30 | a rendering above the 64-bit range does not parse |
| AppParams.NumToDuration | src/app_params.rs:29-40 | always Ok and within 10..600 seconds; values in range pass through, larger ones give 600, smaller ones give 10, unparseable input gives 10 |
| AppParams.InRangePassesThrough | src/app_params.rs:35-36 | a number from 10 to 600 is returned unchanged |
| AppParams.LargeIsCapped | src/app_params.rs:31-32 | a number above 600 gives 600 |
| AppParams.NegativeGivesMinimum | src/app_params.rs:33-34 | a negative number gives 10 |
| AppParams.OverflowGivesMinimum | src/app_params.rs:38 | a number that does not fit 64 bits fails to parse and gives 10 |
| Lib.NumToDuration | src/lib.rs:55-66 | the copy behaves exactly like the one in app_params.rs, within 10..600 seconds |
| Strings.RemoveAll | src/pages/bot.rs:119 | `replace(pat, "")` never lengthens the string |
| Strings.RemoveAllAbsent | src/pages/bot.rs:119 | a string without the marker is unchanged |
| Strings.PrefixThenRemoveAll | src/pages/bot.rs:119 | a marker followed by a name without markers gives the name |
| Strings.RemoveAllCanLeaveMarker | src/pages/bot.rs:119 | one left-to-right pass can leave a marker behind (`"bbot:ot:"` gives `"bot:"`) |
| Strings.LexLtTotal | src/pages/bus_select.rs:21 | the string order used by `sorted()` is total on distinct strings |
| Strings.LexLtTransitive | src/pages/bus_select.rs:21 | the string order is transitive |
| Nav.SatInc | src/app.rs:202 | `saturating_add(1)`: one more, capped at the usize maximum |
| Nav.SatDec | src/app.rs:210 | `saturating_sub(1)`: one less, floored at 0 |
| Nav.SatDecInc | src/app.rs:202-210 | below the cap, one step down undoes one step up |
| Nav.CycleDown | src/app.rs:152-157 | the cursor after Down is always below the list length |
| Nav.CycleUp | src/app.rs:158-163 | the cursor after Up is always below the list length |
| Nav.CycleDownNext | src/app.rs:152-157 | Down moves to the next entry and wraps from the last to the first |
| Nav.CycleUpPrevious | src/app.rs:158-163 | Up moves to the previous entry and wraps from the first to the last |
| Nav.CycleUpDown | src/app.rs:152-163 | Up undoes Down |
| Grouping.GroupedSnoc | src/pages/bot.rs:47-55 | one more record appends each of its reported entries to its key's list |
| Grouping.AppendEntries | src/pages/bot.rs:49-53 | the map loop over one record's entries appends each to its key's list, whatever the iteration order |
| Grouping.GroupStats | src/pages/bot.rs:44-74 | the grouping loop equals the record-order grouping specification; the queue page's copy of it (src/pages/queue.rs lines 35-65) is the same loop |
| Grouping.GroupedSpec | src/pages/bot.rs:44-74 | a key is grouped exactly when some record reports it, and its list is that key's entries in record order |
| Grouping.GroupedIgnoresEmpty | src/pages/bot.rs:48 | a record whose block is `{}` or empty contributes nothing |
| Grouping.GroupedCollapses | src/pages/bot.rs:44-74 | each grouped list is non-empty and collapses to the merged summary's entry for that key |
| Grouping.GroupedKeys | src/pages/bot.rs:44-74 | the grouped keys are the queue keys of the merged summary |
| Search.Matches | src/pages/bot.rs:143-152 | at most one match per corpus name |
| Search.Names | src/pages/bot.rs:157 | the result lists the names of the sorted matches, one per match, in order |
| Search.SearchRanked | src/pages/bot.rs:142-158 | the filter loop followed by the stable descending sort of the collected matches gives the ranked specification |
| Search.SortMultiset | src/pages/bot.rs:155 | the sort is a permutation of the matches |
| Search.SortDescending | src/pages/bot.rs:155 | the sort leaves scores non-increasing |
| Search.SortStable | src/pages/bot.rs:155 | matches of equal score keep their relative order |
| Search.MatchesScored | src/pages/bot.rs:148-152 | every kept match carries the matcher's score for its name |
| Search.MatchesMembers | src/pages/bot.rs:148-152 | a name is matched exactly when it is in the corpus and the matcher scores it |
| Search.RankedMembers | src/pages/bot.rs:142-158 | results are no longer than the corpus and hold exactly the corpus names with a score |
| Search.RankedOrdered | src/pages/bot.rs:154-157 | an earlier result never scores below a later one |
| Search.RankedStable | src/pages/bot.rs:155 | results of equal score appear in corpus order |
| BotPage.NewBotView | src/pages/bot.rs:33-42 | a new view is unscrolled, keeps the settings and the statistics, and its grouped keys are the merged summary's queue keys in each direction |
| BotPage.NavigateView | src/pages/bot.rs:79-94 | Up is a saturating −1, Down a saturating +1, any other key is an error that changes nothing |
| BotPage.BotViewState.constructor | src/pages/bot.rs:33-42 | the object holds the new view's value |
| BotPage.BotViewState.Navigate | src/pages/bot.rs:79-94 | the object steps as the navigation rule says |
| BotPage.BotNamesOf | src/pages/bot.rs:119 | one name per setting, in order, each the id with every `"bot:"` removed |
| BotPage.BotNameOfId | src/pages/bot.rs:119 | an id `bot:<name>` lists as `<name>` |
| BotPage.BotNames | src/pages/bot.rs:118-120 | panics exactly when the settings are not loaded; otherwise only the name list changes |
| BotPage.SearchBots | src/pages/bot.rs:142-158 | only the results change, and they hold exactly the bot names the matcher scores |
| BotPage.SelectedStats | src/pages/bot.rs:170-173 | the filter never adds records |
| BotPage.SelectedStatsMembers | src/pages/bot.rs:170-173 | a record is kept exactly when its id contains the name and its period is `minute_15` |
| BotPage.SelectedStatsConcat | src/pages/bot.rs:170-173 | the filter keeps record order |
| BotPage.FindSettings | src/pages/bot.rs:174-177 | none exactly when no id contains the name; otherwise the first settings in list order whose id contains it |
| BotPage.GetBotDetails | src/pages/bot.rs:160-191 | never panics; the three missing-data cases give their own errors; an error changes nothing; success exactly when settings are found, and then the detail view of those settings with the filtered records |
| BotPage.BotPageState.constructor | src/pages/bot.rs:97-108 | `default()`: the empty page |
| BotPage.BotPageState.BotNamesStep | src/pages/bot.rs:118-120 | the object steps as `bot_names` says |
| BotPage.BotPageState.SearchBotsStep | src/pages/bot.rs:142-158 | the object steps as `search_bots` says |
| BotPage.BotPageState.GetBotDetailsStep | src/pages/bot.rs:160-191 | the object steps as `get_bot_details` says; the detail view is kept or freshly built |
| QueuePage.QueueNamesOf | src/pages/queue.rs:69-77 | one name per queue, in order, each the event with every `"queue:"` removed |
| QueuePage.QueueNameOfEvent | src/pages/queue.rs:75 | an event `queue:<name>` lists as `<name>` |
| QueuePage.QueueNames | src/pages/queue.rs:69-77 | panics exactly when the queues are not loaded; otherwise only the name list changes |
| QueuePage.SearchQueues | src/pages/queue.rs:80-95 | only the results change; they are no longer than the queue list and hold exactly the queue names the matcher scores |
| QueuePage.QueueSearchState.constructor | src/pages/queue.rs:13-23 | `default()`: nothing loaded, nothing selected |
| QueuePage.QueueSearchState.QueueNamesStep | src/pages/queue.rs:69-77 | the object steps as `queue_names` says |
| QueuePage.QueueSearchState.SearchQueuesStep | src/pages/queue.rs:80-95 | the object steps as `search_queues` says |
| BusSelectPage.SortedFrom | src/pages/bus_select.rs:21 | the keys in strictly ascending order: same elements, no duplicates, as many as the keys |
| BusSelectPage.SortedKeys | src/pages/bus_select.rs:21 | the sorted key list of the configuration map, equal to the unique sorted sequence of its keys |
| BusSelectPage.SortedUnique | src/pages/bus_select.rs:21 | two strictly sorted lists with the same elements are equal |
| BusSelectPage.BusSelectState.constructor | src/pages/bus_select.rs:19-26 | buses are the configured names ascending, without duplicates, one per entry; cursor and scroll start at 0 |
| BotTable.NewTableData | src/ui/bot.rs:109-121 | the name with every `"queue:"` removed, and the units of the last three (or fewer) entries summed |
| BotTable.NoEventsNoUnits | src/ui/bot.rs:110-115 | entries that report no units, in particular no entries at all, give a count of 0 |
| BotTable.LastThreeCounted | src/ui/bot.rs:111-115 | with three or more entries, exactly the last three are summed |
| BotTable.RecentBounded | src/ui/bot.rs:111-115 | the recent sum never exceeds the total and equals it for up to three entries |
| BotTable.DecimalCell | src/ui/bot.rs:123 | the rendered count reads back as the count |
| BotTable.RefArray | src/ui/bot.rs:122-124 | two cells: the name, and the count in decimal digits that read back (and parse) as the count |
| AppModel.TabFromIndex | src/app.rs:467-477 | 0 is the bot page, 1 the queue page, anything else the main menu |
| AppModel.NavigateMenu | src/app.rs:404-419 | on the menu, Up and Down keep the cursor in {0,1} and toggle it, Enter opens the entry, other keys are errors that change nothing |
| AppModel.LoadingKey | src/app.rs:137-142 | never errors; moves to the main menu exactly when settings are loaded and non-empty and statistics are non-empty |
| AppModel.HandleKey | src/app.rs:122-133 | q and Esc set only the exit flag; Home resets the menu; F5 opens the state dump only in debug mode, on every page |
| AppModel.HandleEvent | src/app.rs:103-112 | events other than key presses change nothing |
| AppModel.Startup | src/app.rs:351-372 | a configured bus argument opens the main menu with its configuration; no argument opens the bus list; an unknown bus is an error |
| AppModel.GetKeys | src/app.rs:436-464 | the two global hints first, the state-view hint exactly in debug mode, Tab/Back exactly on the two scrolling pages, Enter/Select exactly on the four list pages |
| AppLaws.StartupInv | src/app.rs:334-399 | the startup state satisfies the invariant of reachable states |
| AppLaws.HandleKeyInv | src/app.rs:119-297 | every key step keeps the invariant, whatever its outcome |
| AppLaws.RunInv | src/app.rs:78-96 | any run of events keeps the invariant: the loading page is never reached, the state dump only in debug mode, the detail page only with a bot, and no bots without a configuration |
| AppLaws.BotViewKeysPass | src/app.rs:247-268 | in a reachable state the detail page's Up, Down and Tab never fail |
| AppLaws.BusSelectNeverPanics | src/app.rs:190-245 | in a reachable state no key on the bus list panics |
| AppLaws.QuitFromAnyPage | src/app.rs:122-123 | `q` ends the run at once on every page, even while typing a search |
| AppLaws.RunStopsAtError | src/app.rs:85 | the run ends with the first event that fails or panics |
| AppLaws.RunConcat | src/app.rs:80-94 | two batches of events run as one unless the first stopped on an error |
| AppLaws.RunAfterExit | src/app.rs:80 | once the exit flag is set no event changes anything |
| AppLaws.MainMenu | src/app.rs:404-419 | in a reachable state Up and Down toggle the menu cursor and Enter opens the bot or the queue page |
| AppLaws.QueuePageUnimplemented | src/app.rs:246 | on the queue page every non-global key panics |
| AppLaws.BotCursor | src/app.rs:145-163 | on the bot search, Up and Down change only the cursor and keep it on a result; without results nothing changes |
| AppLaws.BusCursor | src/app.rs:191-214 | on the bus list, Up and Down keep the cursor on a bus and move the scroll offset with saturation; without buses nothing changes |
| AppLaws.BotSearchTyping | src/app.rs:182-186 | other keys edit the query and rerun the search, leaving the cursor where it was |
| AppLaws.BotEnterFetchFails | src/app.rs:164-175 | the name is stored before the fetch, so a failed fetch changes only that name |
| AppLaws.BotEnterFetched | src/app.rs:175-179 | a successful fetch replaces the statistics and clears the search; the detail page opens exactly when the details are assembled |
| AppLaws.StaleCursorPanics | src/app.rs:166 | Enter with the cursor past a shrunken result list panics on the index |
| AppLaws.HomeSkipsBus | src/app.rs:124 | Home on the bus list passes and opens the menu with no configuration loaded, in a reachable state |
| AppLaws.BotPageWithoutConfigNeverPanics | src/app.rs:143-186 | in a reachable state without a configuration no bot-page key panics and Enter does nothing, since no bots were listed |
| AppLaws.BusEnterLoads | src/app.rs:216-239 | Enter selects the bus under the cursor and loads its configuration; fetched settings are listed and the menu opens; a failed fetch keeps the page with the bus selected |
| AppLaws.StateViewStopsAtEnd | src/app.rs:275-280 | Down on the state dump does nothing once the end is shown |
| AppLaws.UnknownKeysFail | src/app.rs:190-293 | on the bus list, the detail page and the state dump, an unknown key is an error that changes nothing |
| AppLaws.LoadingPage | src/app.rs:137-142 | on the loading page every key passes and opens the menu exactly when data are loaded |
| AppLaws.TabGoesBack | src/app.rs:247-293 | Tab returns from the detail page to the search and from the state dump to the menu, as the key hints offer |
| App.AppState.constructor | src/app.rs:377-398 | the fields `new` sets around the chosen mode and bus |
| App.AppState.New | src/app.rs:334-399 | the startup object: an error exactly for an unknown bus, otherwise the startup state, which satisfies the invariant |
| App.AppState.Navigate | src/app.rs:404-419 | the object steps as the menu rule says |
| App.AppState.LoadingStep | src/app.rs:137-142 | the object steps as the loading rule says |
| App.AppState.BotEnterStep | src/app.rs:164-181 | the object steps as the bot Enter rule says; the detail view is kept or freshly built |
| App.AppState.OpenBotStep | src/app.rs:175-179 | after a fetch the object stores the statistics, clears the query and opens the detail view exactly when it can be built, as the open rule says |
| App.AppState.BotKeyStep | src/app.rs:144-189 | the object steps as the bot search rule says |
| App.AppState.LoadBotSettingsStep | src/app.rs:324-332 | the object steps as `load_bot_settings` says |
| App.AppState.BusEnterStep | src/app.rs:216-239 | the object steps as the bus Enter rule says |
| App.AppState.BusKeyStep | src/app.rs:190-245 | the object steps as the bus list rule says |
| App.AppState.BotViewKeyStep | src/app.rs:247-268 | the detail view scrolls in place as the detail page rule says |
| App.AppState.StateViewKeyStep | src/app.rs:269-293 | the object steps as the state dump rule says |
| App.AppState.HandleKeyEvent | src/app.rs:119-297 | the object steps as `handle_key_event` says |
| App.AppState.HandleEvents | src/app.rs:103-112 | the object steps as `handle_events` says |
| App.AppState.Run | src/app.rs:78-96 | the loop ends as the run rule says (exit, first error, or no more events) and keeps the invariant |
| CurrentState.StopScrollRule | src/ui/current_state.rs:10-14 | fails exactly when a subtraction would underflow (height below 5 or fewer lines than visible rows); otherwise true exactly when the scroll offset shows the last line |
| CurrentState.ViewStep | src/ui/current_state.rs:10-17 | the render step never changes the scroll offset and changes nothing but `stop_scroll` |
| CurrentState.ViewAppState | src/ui/current_state.rs:5-17 | the object's `stop_scroll` is set or cleared in place as the rule says |
| CurrentState.RenderThenDownStaysInView | src/ui/current_state.rs:10-14 | rendering before each Down keeps the offset at most the last one, and Down at the last one changes nothing |
| CurrentState.DownWithoutRenderScrolls | src/app.rs:275-280 | without a render in between, Down keeps scrolling |

## Left out

- Network and serde. The store calls in src/dynamo.rs (the scan and the two queries) return values through the `Env`. Decoding of those values is not modelled. The same goes for `BotSettings` and `LeoConfig` (src/leo_config.rs) and the untagged `StatsOrEmpty`.
- BotSettings: only the fields the pages read are modelled. The nested checkpoint and instance records are not.
- QueuePage.QueueDetails: that type is not shown in the source, so it is modelled with its `event` name only. The queue detail view is a datatype and is not built by any shown code.
- Rendering. Drawing, layout and `center_rect` are not modelled, nor are the chart (src/ui/chart.rs) and the scrollbar widget states. For the state dump, its line count and area height are inputs of `CurrentState.ViewAppState`. `run` draws before it reads each event (src/app.rs:81), and `render_ui` hits `todo!()` on the queue page (src/ui/mod.rs:24). So in the program, entering the queue page panics at the next draw, before any further key is read. The Run model has no draw step: there `AppLaws.QueuePageUnimplemented` and `AppLaws.QuitFromAnyPage` describe key handling on the queue page that the program never reaches.
- Timing in `run` is not modelled: the tick rate, the poll timeout, the throbber and `on_tick`. The Run model handles events in order. It ends with `Pass` when the events run out.
- `gen_test_data` and `chart_data`: random floats.
- Console output of the core is not modelled: `println!("got to merge")` in `QueueStats::merge` (src/bot_stats.rs:20) and `println!("got to merge_stats")` in `merge_stats` (src/bot_stats.rs:103). They write to the terminal under the interface and change no state.
- Search.SearchRanked: `matches.sort_by` sorts the vector in place (src/pages/bot.rs:155). The model sorts the collected matches with the value function `SortByScore`, a stable insertion sort, so the update in place is not captured. The result is the same, since `sort_by` is stable.
- `Bus::from_str`: a `todo!()` stub.
- src/error.rs, src/main.rs, and `init`/`restore` in src/lib.rs: terminal and process plumbing.
- Clock values are parameters, not `Utc::now()` or `Instant`:
  - `AllBucketsBuilder.constructor` takes "now" in epoch milliseconds.
  - Key steps receive fetch results without the bucket arguments computed from the clock.
  - sub-millisecond precision and chrono's range checks are not modelled.
- BotStats.MergeExecution: u32 sums and `+=` are unbounded `nat`, so overflow (a debug panic or a release wrap at 2^32) is not modelled. The same holds for `BotStats.QueueStats.Merge` units and the `BotTable.NewTableData` count.
- Nav.CycleDown: the usize addition `index + len` before the saturating step is unbounded. Overflow there would need a list near 2^64 entries.
- Dynamo.BucketKey: the `Week` panic (`unimplemented!`) is returned as an error value carrying its message. Dates are civil fields with years 0..9999, the range `%Y` pads to four digits. `DateText` gives `Week` the day format, but `BucketKey` never uses it.
- AppModel.HandleKey: error messages omit the formatted key and state that `bail!` appends (`invalid key {a:?} pressed` becomes `invalid key pressed`). The `wrap_err` context that `run` and `handle_events` add is not modelled either.
- AppModel.BotViewKey: app.rs scrolls the detail view inline instead of calling `BotViewState::navigate`. The model calls `NavigateView` with Up or Down, which has the same effect.
- The shown files are out of step with each other. Each is modelled as written:
  - app.rs calls `BotBucket::new` with an `Option` and passes two buckets to the statistics fetch (src/app.rs:169-175). dynamo.rs takes a plain date and one bucket (src/dynamo.rs:100, src/dynamo.rs:208). The fetch is therefore an input keyed by the bot id and table only.
  - pages/bot.rs imports `BotDynamoStatsRecord`, but bot_stats.rs shows `DynamoStatsRecord` (src/bot_stats.rs:137). Both are the one `StatsRecord` datatype.
  - `render_ui` has no `StateView` arm and does not declare `current_state` (src/ui/mod.rs:21-31). So in the shown code `view_app_state` is never called and `stop_scroll` is never updated during a run. `CurrentState` models the rule on its own.
  - `render_bottom_bar` calls `get_keys()` without the debug flag (src/ui/mod.rs:62). The model follows the two-argument `get_keys` of app.rs.
- Two facts of the code are modelled as written and not corrected:
  - the state-view hint is the pair `("State View", "F5")`, description first, unlike the other hints;
  - the bot search cursor is not reset when a new search shrinks the results (see `AppLaws.StaleCursorPanics`).
