# Mortal replay scanner, modelled in Dafny

This project models the per-player replay scanner of Mortal
(`libriichi/src/dataset/gameplay.rs`). The scanner turns a parsed Mahjong game log,
a list of mjai events, into training records for each selected seat. The records
are column-oriented: observation, action label, mask, round index, discount flag,
turn and shanten, plus the hidden-information observation in oracle mode.

The model is split into modules:

- `Mjai` holds the event vocabulary: seats, tiles `0..36`, `u8`/`i8`, four-event windows, and round counting.
- `Tracker` holds the collaborators the scanner calls but whose code is not part of this model: `PlayerState`, `Invisible`, `Grp`, `ChiType::new` and `Tile::deaka`. An `Env` record bundles them as arbitrary functions, so every property proved here holds whatever they compute. The one exception is that in oracle mode the loaders require the reconstructions from `Invisible::new` to cover the rounds the scan reaches (see "Left out"). A tracker state is the seat plus the events fed to it so far.
- `NameLists` covers sorting and deduplication of the loader's name lists.
- `Labels` covers the lookahead event and the label `match` of `extend_from_event_window`, in the fixed 46-action space.
- `Replay` is the scan as pure functions: round and wall counters (`Bookkeep`), one window (`StepWindow`), the first `k` windows (`ScanUpTo`), the whole log (`Scan`), and the `dones` post-pass. The invariants it keeps are proved alongside.
- `Dataset` holds the source's three structs as classes:
  - `GameplayLoader` keeps its configuration in constant fields.
  - `LoaderContext` is the mutable scan cursor.
  - `Gameplay` holds the column buffers.

  The scanning methods are proved equal to `Replay`'s functions: `ExtendFromEventWindow`, `AddEntry`, `Record`, the window loop (`ScanWindow`, `ScanWindows`) and the loaders (`LoadEventsByPlayer`, `LoadSeats`, `LoadEvents`). Each `take_*` drain is proved to return its column's prior contents and leave the column empty. The `GameplayLoader` constructor is specified with `NameLists`.

## Model

| member | source | states |
|---|---|---|
| Dataset.GameplayLoader.constructor | libriichi/src/dataset/gameplay.rs:97-125 | Each name list is strictly ascending (sorted, no duplicates) and holds exactly the given names; a missing list is empty; each membership set has exactly the list's members; the other settings are stored unchanged |
| NameLists.SortDedup | libriichi/src/dataset/gameplay.rs:105-107 | The result is strictly ascending and has exactly the input's elements |
| NameLists.Insert | libriichi/src/dataset/gameplay.rs:106-107 | Inserting into a strictly ascending list keeps it strictly ascending and adds exactly the one element |
| NameLists.AscendingUnique | libriichi/src/dataset/gameplay.rs:106-107 | Two strictly ascending lists with the same elements are equal, so the result is the one `sort_unstable` then `dedup` gives |
| Dataset.SelectFrom | libriichi/src/dataset/gameplay.rs:175-189 | The kept seats from `i` on are strictly increasing, and a seat is in the result iff its name passes the filter |
| Dataset.SelectSeats | libriichi/src/dataset/gameplay.rs:175-189 | The selected seats are strictly increasing, and seat `s` is selected iff its name passes the filter: the allow-list if non-empty, else the deny-list if non-empty, else everyone |
| Dataset.AllowListIgnoresDenyList | libriichi/src/dataset/gameplay.rs:180-185 | With a non-empty allow-list, the deny-list has no effect on the selection |
| Dataset.NoFilterSelectsAll | libriichi/src/dataset/gameplay.rs:183-186 | With both lists empty, the selection is `[0, 1, 2, 3]` |
| Dataset.LoadGzLogFiles | libriichi/src/dataset/gameplay.rs:150-170 | The batch succeeds iff every file loads, and then yields the files' gameplays concatenated in order; a failure is the error of some failing file, tagged with its name |
| Dataset.GameplayLoader.LoadEvents | libriichi/src/dataset/gameplay.rs:172-198 | An empty log, or one not opening with `StartGame`, fails with `InvalidLog`; otherwise it fails iff some seat is selected and the round outcomes cannot be extracted; on success there is one fresh, fully scanned gameplay per selected seat, in seat order |
| Dataset.GameplayLoader.LoadSeats | libriichi/src/dataset/gameplay.rs:193-197 | Per-seat scans in order: failure iff the seat list is non-empty and `Grp` loading fails; on success one fresh gameplay per seat, each the complete scan of that seat |
| Dataset.LoaderContext.constructor | libriichi/src/dataset/gameplay.rs:275-288 | The cursor starts with empty trackers for the player and the three opponents in seat order, round 0 and zeroed wall counters |
| Replay.Bookkeep | libriichi/src/dataset/gameplay.rs:327-353 | The round index rises by one exactly on `EndKyoku`. Outside oracle mode the wall counters are untouched. In oracle mode: `EndKyoku` resets them; `Tsumo` advances exactly one of the dead-wall index (iff the previous draw came after a kan) or the live-wall index, and clears the flag; a kan sets the flag; any other event changes nothing |
| Dataset.LoaderContext.Advance | libriichi/src/dataset/gameplay.rs:323-357 | The head event moves the counters as `Bookkeep` says and, in oracle mode only, is fed to each opponent's tracker; the player's tracker is not touched yet |
| Dataset.LoaderContext.BookCounters | libriichi/src/dataset/gameplay.rs:327-353 | The counters after the head event are `Bookkeep` of those before |
| Dataset.LoaderContext.FeedOpponents | libriichi/src/dataset/gameplay.rs:354-356 | Each opponent's tracker has been fed the event, in seat order |
| Replay.KyokuStep | libriichi/src/dataset/gameplay.rs:327-329 | After the head `events[k-1]`, the round index equals the number of `EndKyoku` among the first `k` events |
| Mjai.CountEndKyokuMonotone | libriichi/src/dataset/gameplay.rs:327-329 | The round count over a longer prefix is never smaller, so the round index never decreases |
| Labels.NextEvent | libriichi/src/dataset/gameplay.rs:316-321 | The lookahead is `w[2]` when `w[1]` is `ReachAccepted` or `Dora`, else `w[1]`; it is never such an event unless two of them are in a row |
| Labels.ChiLabel | libriichi/src/dataset/gameplay.rs:373-377 | The chi labels are 38, 39 and 40 |
| Labels.ChooseLabel | libriichi/src/dataset/gameplay.rs:365-436 | Every label is in the action space. It is at most 37 (discount-eligible) exactly for a discard or reach lookahead. A kan-select tile comes only with label 42, on a kan lookahead, and is that kan's de-reddened tile. Each direct arm yields a label other than ron and pass |
| Labels.KanSelectRule | libriichi/src/dataset/gameplay.rs:379-396 | The kan-select record is produced exactly for: the player's own daiminkan with the flag set, or any kakan or ankan with the flag set or more than one candidate. It carries the de-reddened kan tile |
| Labels.ActorUncheckedArms | libriichi/src/dataset/gameplay.rs:365-396 | A discard, reach, kakan or ankan lookahead gives its label whoever the actor is |
| Labels.RonLabelRule | libriichi/src/dataset/gameplay.rs:398-415 | Label 43 iff `w[1]` is `Hora` and a `Hora` by the player appears in `w[1..]` before any `EndKyoku` |
| Labels.PassLabelRule | libriichi/src/dataset/gameplay.rs:417-432 | Label 45 iff no direct arm and no own ron apply, and either (the player could chi and the lookahead is a draw) or (it could pon, daiminkan or ron and `w[1]` is not `Hora`) |
| Labels.NoLabelRule | libriichi/src/dataset/gameplay.rs:398-436 | No label exactly when no direct arm applies and the fallback yields none |
| Labels.FindOwnHora | libriichi/src/dataset/gameplay.rs:402-415 | The loop over `wnd[1..]` that stops at `EndKyoku` finds a `Hora` by the player iff one comes before any `EndKyoku` |
| Dataset.Gameplay.DecideLabel | libriichi/src/dataset/gameplay.rs:364-436 | The label and kan-select tile computed by the `match` are those `ChooseLabel` defines |
| Dataset.Gameplay.ExtendFromEventWindow | libriichi/src/dataset/gameplay.rs:304-444 | The scan state after one window (player name, cursor, trackers, columns) is `StepWindow` of the state before |
| Dataset.Gameplay.Record | libriichi/src/dataset/gameplay.rs:359-443 | With the head booked and fed, the columns grow by the records of the window's label choice (none when the player cannot act) |
| Replay.StepRecords | libriichi/src/dataset/gameplay.rs:359-443 | One window adds at most two records and keeps the earlier ones; none when the player cannot act; a second record only after label 42, and then it is the de-reddened kan tile |
| Dataset.Gameplay.AddEntry | libriichi/src/dataset/gameplay.rs:446-466 | Every per-move column gains exactly one record, built from the cursor. `invisibleObs` gains one iff in oracle mode. The action is the label, the discount flag is `label <= 37`, and the round column is the round index cast to `u8` |
| Replay.PushEntry | libriichi/src/dataset/gameplay.rs:446-465 | Appending a record keeps the columns aligned, the labels in range with matching discount flags, and the round column ordered |
| Replay.StepPreservesInv | libriichi/src/dataset/gameplay.rs:438-465 | Every window keeps the columns aligned (`invisibleObs` exactly in oracle mode), every action below 46 with `applyGamma[i] == (actions[i] <= 37)`, and, below 256 rounds, the round column non-decreasing and never past the current round |
| Replay.FedStep | libriichi/src/dataset/gameplay.rs:354-359 | Feeding the head moves "the trackers have seen exactly the first `k-1` events" to `k` |
| Replay.ScanStart | libriichi/src/dataset/gameplay.rs:275-288 | Before any window, the trackers have seen nothing, the round is 0 and the columns are empty |
| Replay.ScanStep | libriichi/src/dataset/gameplay.rs:292-294 | One more window keeps the reconstruction index in bounds and moves the full scan invariant from `k-1` to `k` |
| Replay.ScanUpTo | libriichi/src/dataset/gameplay.rs:292-294 | After the first `k` windows, the round index is the number of `EndKyoku` among the first `k` events |
| Replay.ScanReached | libriichi/src/dataset/gameplay.rs:275-294 | After the first `k` windows, the player's tracker has been fed exactly the first `k` events; each opponent's has too in oracle mode, else nothing. The round index counts the `EndKyoku` among them, and the column invariant holds |
| Replay.ScanNext | libriichi/src/dataset/gameplay.rs:292-294 | The scan of `k+1` windows is one `StepWindow` after the scan of `k` |
| Replay.CoveredPrefix | libriichi/src/dataset/gameplay.rs:457-458 | If the reconstructions cover the rounds of all windows, they cover those of every prefix |
| Dataset.Gameplay.ScanWindow | libriichi/src/dataset/gameplay.rs:292-294 | One loop turn turns the scan state of `i` windows into that of `i+1` |
| Dataset.Gameplay.ScanWindows | libriichi/src/dataset/gameplay.rs:292-294 | The window loop leaves the state of the scan of the whole log |
| Dataset.Gameplay.LoadEventsByPlayer | libriichi/src/dataset/gameplay.rs:261-300 | Fails with `GrpFailed` iff the round outcomes cannot be extracted. Otherwise it returns a fresh gameplay for the seat whose columns and player name are those of the whole-log scan, with `grp` and seat stored and `dones` computed from the round column |
| Dataset.Gameplay.constructor | libriichi/src/dataset/gameplay.rs:269-273 | A new gameplay has empty columns, no `dones`, an empty name, and the given `grp` and seat |
| Replay.ShortLogNoRecords | libriichi/src/dataset/gameplay.rs:290-294 | A log of fewer than four events yields no window and no record |
| Replay.Dones | libriichi/src/dataset/gameplay.rs:296-297 | `dones` has one flag per record, or a lone `true` when there are none. The last flag is `true`, and each earlier flag says whether the next record has a higher round index |
| Replay.DonesMarkRoundEnds | libriichi/src/dataset/gameplay.rs:296-297 | On a scan's round column (below 256 rounds), a record is flagged done iff it is the last one or the next record is in another round |
| Replay.FourEventLog | libriichi/src/dataset/gameplay.rs:290-321 | For `[StartGame, Tsumo, Dahai, Tsumo]` there is a single window, headed by `StartGame`; it yields at most one record, and that record is a pass, never a discard |
| Dataset.Gameplay.TakeObs | libriichi/src/dataset/gameplay.rs:204-209 | Returns the prior observations and leaves the column empty |
| Dataset.Gameplay.TakeInvisibleObs | libriichi/src/dataset/gameplay.rs:211-216 | Returns the prior hidden-information observations and leaves the column empty |
| Dataset.Gameplay.TakeActions | libriichi/src/dataset/gameplay.rs:218-220 | Returns the prior actions and leaves the column empty |
| Dataset.Gameplay.TakeMasks | libriichi/src/dataset/gameplay.rs:222-227 | Returns the prior masks and leaves the column empty |
| Dataset.Gameplay.TakeAtKyoku | libriichi/src/dataset/gameplay.rs:229-231 | Returns the prior round column and leaves it empty |
| Dataset.Gameplay.TakeDones | libriichi/src/dataset/gameplay.rs:233-235 | Returns the prior `dones` and leaves it empty |
| Dataset.Gameplay.TakeApplyGamma | libriichi/src/dataset/gameplay.rs:237-239 | Returns the prior discount flags and leaves the column empty |
| Dataset.Gameplay.TakeAtTurns | libriichi/src/dataset/gameplay.rs:241-243 | Returns the prior turn column and leaves it empty |
| Dataset.Gameplay.TakeShantens | libriichi/src/dataset/gameplay.rs:245-247 | Returns the prior shanten column and leaves it empty |
| Dataset.Gameplay.TakeGrp | libriichi/src/dataset/gameplay.rs:250-252 | Returns the prior `grp` and leaves the default one |
| Dataset.Gameplay.TakePlayerId | libriichi/src/dataset/gameplay.rs:255-257 | Returns the seat and changes nothing |

Two behaviours of the code are worth stating outright:

- For the log `[StartGame, Tsumo(0), Dahai(0, A), Tsumo(1)]`, `events.windows(4)` yields one window. Its head is `StartGame` and its lookahead is the draw `Tsumo(0)`. So the scan yields at most one record, and that record is a pass, never a discard of `A` (`Replay.FourEventLog`).
- A log of fewer than four events yields no window and no record (`Replay.ShortLogNoRecords`). Its length alone is not an error. `load_events` still fails on such a log when the first event is not `StartGame` (gameplay.rs:190) or when `Grp::load_events` fails (gameplay.rs:267).

## Left out

- JSON line parsing and `load_log` (gameplay.rs:129-136) are left out; the model starts from a parsed event list.
- Gzip decompression and file reading in `load_gz_log_files` are left out. `Dataset.LoadGzLogFiles` takes them as a `loadFile` parameter and models only the batch's success/failure fold.
- Dataset.LoadGzLogFiles: it processes files in order and reports the first failing file. The rayon batch may report the error of any failing file, so the model states only that the error belongs to some failing file.
- Rayon parallelism over files and seats is left out. Seats are scanned sequentially in seat order, which the source permits because the scans share nothing mutable.
- pyo3/numpy marshalling (the `PyArray` conversion in the `take_*` methods), the Python argument defaults and `__repr__` are left out. The drains keep only take-and-empty semantics over opaque matrices.
- `BoomHashMap` is modelled as a mathematical set; its hashing internals are left out.
- The internals of `PlayerState` (`update`, `encode_obs`, `at_turn`, `shanten`, `kakan_candidates`, `ankan_candidates`), `Invisible::new`/`encode`, `Grp::load_events`, `ChiType::new` and `Tile::deaka` are not part of this model. They appear as arbitrary functions in `Tracker.Env`. The candidate lists are used only through their lengths. `Cans` carries `can_act` and `can_chi` as fields rather than as methods.
- Event payloads the scanner never reads (scores, scoring details, round winds and the like) are left out, as is the `Event::None` variant.
- Mjai.Event: `consumed` is one tile list of length 2 to 4 for chi, pon, daiminkan, kakan and ankan, instead of each call's fixed length.
- Dataset.GameplayLoader.LoadEvents: in oracle mode, when a scan runs (the log opens with `StartGame`, some seat is selected and `Grp::load_events` succeeds), it requires the hidden-information reconstructions to cover every round reached by a window head. The source indexes them by the round index only when a record is added (gameplay.rs:458), and panics if that round is not covered. The model asks for coverage of every reached round, including rounds in which no record is added, so it requires slightly more than the source needs. The same bound, under the same guard, is required by `Dataset.GameplayLoader.LoadSeats` and `Dataset.Gameplay.LoadEventsByPlayer`, and unguarded by the window loop `Dataset.Gameplay.ScanWindows` and `Dataset.Gameplay.ScanWindow`. `Dataset.Gameplay.ExtendFromEventWindow`, `Dataset.Gameplay.Record` and `Dataset.Gameplay.AddEntry` require the current round to be covered, even for a window that adds no record.
- NameLists.SortDedup: it builds the sorted, duplicate-free list by insertion rather than by an in-place unstable sort followed by `dedup`. `NameLists.AscendingUnique` shows the two give the same list.
- The `u32` `version` is an unbounded natural, which it passes through unchanged. The `usize` counters are unbounded too; they cannot overflow on any real log.
