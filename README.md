# pulsegen-client: a verified model of the local schedule compiler

pulsegen-client builds requests for a pulse-sequence generator. A request carries channels, pulse shapes and timed instructions. The package can also compile such a request on the client into per-channel pulse lists. This project models that compiler and the small pieces it rests on.

- **Layout engine** (`runner/_layout.py`). A schedule is a tree of elements: Play, the phase and frequency instructions, Barrier, Repeat, Stack, Absolute and Grid.
  - `create_layout_manager` builds one manager per element.
  - `measure(available)` computes each node's desired duration, bottom-up.
  - `arrange(time, final)` fixes each node's actual time and duration, top-down.
  - `render(time, tracker)` walks the tree in insertion order and calls the phase tracker.
  - Each container has its own policy:
    - Stack: per-channel used-time bookkeeping with `LayoutHelper`, packed forwards or backwards.
    - Absolute: explicit offsets.
    - Repeat: n copies with spacing.
    - Grid: fixed, automatic and star columns, with star space distributed by water-filling in `_expand_column_width`.
- **Phase tracker** (`runner/phase_tracker.py`). Per-channel base frequency, frequency shift and phase, all in cycles. The updates are closed-form and keep the phase continuous. A play appends a pulse to its channel's pulse list.
- **Pulse list** (`runner/_pulse_list.py`). The per-channel list the tracker appends to. It supports conditional append, uniform delay and amplitude scaling, plus Python list operations.
- **Runners** (`runner/_runner.py`):
  - `run_simple` feeds a flat instruction list to a tracker.
  - `run_schedule` runs create, measure, arrange and render, in that order.
  - Both delay each channel's list by the channel's delay.
- **Schedule data** (`schedule.py`): the element datatypes with their defaults and input converters, and `GridLength.parse`.
- **Request builders** (`pulse.py`, `contracts/_pulse_request.py` and the legacy `contracts.py`). Each is a small state machine: it registers unique names under dense ids and appends instructions. The legacy module also fixes the list layout its msgpack objects are packed from.

## Structure

| file | module | models |
|---|---|---|
| common.dfy | Common | extended reals (`Inf` for `math.inf`), Python errors, Python list indexing, insertion and slicing, sums |
| instructions.dfy | Instructions | the channel, shape and instruction records shared by the request modules |
| schedule.dfy | Schedule | `schedule.py` |
| pulse_list.dfy | PulseLists | `runner/_pulse_list.py`: pure functions plus the `PulseList` class |
| phase_tracker.dfy | PhaseTracking | `runner/phase_tracker.py`: update functions, the tracker state walk, and the `ChannelStatus`/`PhaseTracker` classes |
| layout_bounds.dfy | LayoutBounds | the clamping shared by every manager (`measure`, `arrange`, `_minmax`) |
| stack_layout.dfy | StackLayout | `LayoutHelper` |
| grid_columns.dfy | GridColumns | `_expand_column_width` |
| grid_layout.dfy | GridLayout | the Grid manager's column arithmetic |
| layout_spec.dfy | LayoutSpec | what measure, arrange and render compute, as functions on the element tree |
| layout.dfy | Layout | the `LayoutNode` class: the managers, with methods proved against LayoutSpec |
| requests.dfy | Requests | the name-table invariant the three builders share |
| pulse.dfy | Pulse | `pulse.py` |
| pulse_request.dfy | PulseRequest | `contracts/_pulse_request.py` |
| contracts_legacy.dfy | LegacyContracts | `contracts.py` |
| runner.dfy | Runner | `runner/_runner.py` |

Each layout method is proved against a specification function.
- Measuring a node records exactly the tree `LayoutSpec.MeasureOf(element, available)`.
- Arranging records `LayoutSpec.ArrangeOf`.
- Rendering makes exactly the tracker calls of `LayoutSpec.RenderOf`, as `PhaseTracking.RunSteps` walks them.

The lemmas beside those functions state what the source promises: bounds, channel bookkeeping, placement and water-filling.

Where the documentation and the code disagree, the model follows the code: a bare `"*"` column length hands the empty string to `float`, although the docstring at `schedule.py:453-454` promises one star. `Schedule.ParseBareStar` states the resulting error.

One disagreement goes the other way. The layout reads children through `element.children` (`_layout.py:215`, `:296`, `:302`, `:310`, `:328`, `:350`, `:363`, `:412`) and `element.child` (`_layout.py:175`). But `schedule.py` names those fields `elements` (`:341`, `:397`, `:532`) and `element` (`:301`). As written, building a layout manager for any container would raise AttributeError. Here the model follows the evidently intended fields: each container has one list of child elements, which the layout reads.

## Model

| member | source | states |
|---|---|---|
| `Common.PyIndex` | pulsegen_client/runner/_pulse_list.py:26-33 | Python subscripting: an index is valid exactly when `-n <= i < n`, and a negative index counts from the end |
| `Common.PyInsertPosition` | pulsegen_client/runner/_pulse_list.py:38-39 | `list.insert` never raises: the position is clamped into `0..n` |
| `Common.PySlice` | pulsegen_client/runner/_layout.py:370 | Python slicing `xs[i:j]`: with both bounds inside the list it is the sub-sequence from i up to j |
| `Common.PySliceEmpty` | pulsegen_client/runner/_layout.py:370 | a slice whose non-negative end does not lie past its start is empty, as for a span of 0 or less |
| `Common.PySliceNegativeEnd` | pulsegen_client/runner/_layout.py:370 | a negative end -k counts from the end of the list: `xs[i:-k]` drops the last k elements |
| `Common.PrefixSums` | pulsegen_client/runner/_layout.py:407-409 | each start is the sum of the widths before it; the first start is 0 |
| `Instructions.BaseFreqs` | pulsegen_client/runner/_runner.py:22 | the tracker's base frequencies are the channels' own, in channel order |
| `Schedule.ConvertMargin` | pulsegen_client/schedule.py:43-47 | a scalar margin applies to both sides; a pair is kept as given |
| `Schedule.ConvertMarginIdempotent` | pulsegen_client/schedule.py:43-47 | converting an already converted margin changes nothing |
| `Schedule.MakeAttributes` | pulsegen_client/schedule.py:49-61 | every keyword lands in its attribute, with the margin normalised |
| `Schedule.DefaultAttributes` | pulsegen_client/schedule.py:49-61 | the defaults: margin (0, 0), END alignment, visible, no duration, no maximum (infinity), minimum 0 |
| `Schedule.NewPlay` | pulsegen_client/schedule.py:93-111 | a Play's plateau, drag coefficient, frequency and phase default to 0, and it is not flexible |
| `Schedule.NewRepeat` | pulsegen_client/schedule.py:299-305 | a Repeat's spacing defaults to 0 |
| `Schedule.NewStack` | pulsegen_client/schedule.py:339-345 | a Stack's direction defaults to BACKWARDS |
| `Schedule.AbsoluteAsEntry` | pulsegen_client/schedule.py:381-387 | a bare element is placed at time 0; a (time, element) pair keeps its time; an Entry is returned unchanged |
| `Schedule.AbsoluteAsEntryIdempotent` | pulsegen_client/schedule.py:381-387 | converting a converted Absolute entry again changes nothing |
| `Schedule.AbsoluteConvertEntries` | pulsegen_client/schedule.py:389-393 | the list conversion keeps length and order and converts each entry |
| `Schedule.NewAbsolute` | pulsegen_client/schedule.py:395-397 | an Absolute holds its converted entries, in order, with default attributes |
| `Schedule.GridAsEntry` | pulsegen_client/schedule.py:505-515 | a bare element becomes (0, 1, e); (c, e) becomes (c, 1, e); (c, s, e) is kept; an Entry is returned unchanged |
| `Schedule.GridAsEntryIdempotent` | pulsegen_client/schedule.py:505-515 | converting a converted Grid entry again changes nothing |
| `Schedule.GridConvertEntries` | pulsegen_client/schedule.py:517-521 | the list conversion keeps length and order and converts each entry |
| `Schedule.AutoLength` | pulsegen_client/schedule.py:429-432 | `GridLength.auto()` has unit AUTO |
| `Schedule.StarLength` | pulsegen_client/schedule.py:434-437 | `GridLength.star(v)` has unit STAR and weight v |
| `Schedule.AbsLength` | pulsegen_client/schedule.py:439-442 | `GridLength.abs(v)` has unit SECOND and length v |
| `Schedule.Parse` | pulsegen_client/schedule.py:444-470 | a number becomes SECOND; "auto" in any letter case becomes AUTO; other text ending in '*' becomes STAR with the prefix's value; any other text becomes SECOND; an unparsable number raises ValueError |
| `Schedule.ParseUnit` | pulsegen_client/schedule.py:444-470 | both directions: AUTO exactly for "auto" in any case, STAR exactly for other text ending in '*', SECOND otherwise; the only error is ValueError on text |
| `Schedule.ParseBareStar` | pulsegen_client/schedule.py:444-470 | a bare "*" hands the empty string to `float` and so raises ValueError, contrary to the docstring's one star |
| `Schedule.ConvertColumns` | pulsegen_client/schedule.py:523-528 | succeeds exactly when every column converts; keeps length and order; GridLength values pass through unchanged; errors are ValueError |
| `Schedule.NewGrid` | pulsegen_client/schedule.py:530-534 | a Grid holds its converted entries and converted columns, failing exactly when a column fails to parse |
| `PulseLists.NewPulse` | pulsegen_client/runner/_pulse_list.py:53-65 | the appended item carries the given time, envelope and frequencies, delay 0, amplitude `rect(amp, phase)` and drag amplitude `i * amp * drag_coef` times that |
| `PulseLists.AddedPulse` | pulsegen_client/runner/_pulse_list.py:41-65 | amplitude 0 leaves the list unchanged; otherwise exactly one new item is appended after the old ones |
| `PulseLists.Delayed` | pulsegen_client/runner/_pulse_list.py:67-79 | length and order kept; each item's time and delay field move by d; every other field is unchanged |
| `PulseLists.Scaled` | pulsegen_client/runner/_pulse_list.py:81-93 | length and order kept; amp and drag_amp are multiplied by c; time, envelope, frequencies and delay are unchanged |
| `PulseLists.DelayCompose` | pulsegen_client/runner/_pulse_list.py:67-79 | delay(a) then delay(b) equals delay(a + b) |
| `PulseLists.DelayZero` | pulsegen_client/runner/_pulse_list.py:67-79 | delay(0) changes nothing |
| `PulseLists.DelayAppend` | pulsegen_client/runner/_pulse_list.py:41-79 | delaying distributes over appending |
| `PulseLists.ScaleCompose` | pulsegen_client/runner/_pulse_list.py:81-110 | scaling by a and then by b equals scaling by a * b |
| `PulseLists.ScaleOne` | pulsegen_client/runner/_pulse_list.py:81-110 | scaling by 1 changes nothing |
| `PulseLists.DelayScaleCommute` | pulsegen_client/runner/_pulse_list.py:67-110 | delaying and scaling commute |
| `PulseLists.PulseList.Empty` | pulsegen_client/runner/_pulse_list.py:23-24 | a list built without items is empty |
| `PulseLists.PulseList.FromItems` | pulsegen_client/runner/_pulse_list.py:23-24 | a list built from items holds exactly those items |
| `PulseLists.PulseList.Get` | pulsegen_client/runner/_pulse_list.py:26-27 | `x[i]` is the Python-indexed item, or IndexError; nothing changes |
| `PulseLists.PulseList.Set` | pulsegen_client/runner/_pulse_list.py:29-30 | `x[i] = v` replaces exactly the indexed item, or raises IndexError and changes nothing |
| `PulseLists.PulseList.Delete` | pulsegen_client/runner/_pulse_list.py:32-33 | `del x[i]` removes exactly the indexed item, or raises IndexError and changes nothing |
| `PulseLists.PulseList.Len` | pulsegen_client/runner/_pulse_list.py:35-36 | `len(x)` is the number of items |
| `PulseLists.PulseList.Insert` | pulsegen_client/runner/_pulse_list.py:38-39 | `insert(i, v)` puts v at the clamped position, with the items before and after it unchanged |
| `PulseLists.PulseList.AddPulse` | pulsegen_client/runner/_pulse_list.py:41-65 | the items become `AddedPulse` of the old items |
| `PulseLists.PulseList.Delay` | pulsegen_client/runner/_pulse_list.py:67-79 | the items become `Delayed` of the old items |
| `PulseLists.PulseList.Times` | pulsegen_client/runner/_pulse_list.py:81-93 | `x * c` is a fresh list of the scaled items, and x is unchanged |
| `PulseLists.PulseList.TimesLeft` | pulsegen_client/runner/_pulse_list.py:95-96 | `c * x` is `x * c`: a fresh list of the scaled items, x unchanged |
| `PulseLists.PulseList.TimesAssign` | pulsegen_client/runner/_pulse_list.py:98-111 | `x *= c` scales x's own items in place and returns x itself |
| `PhaseTracking.AfterShiftFreq` | pulsegen_client/runner/phase_tracker.py:20-22 | `shift_freq(d, t)` adds d to the frequency shift and keeps the carrier phase at t continuous; the base frequency is unchanged |
| `PhaseTracking.AfterSetFreq` | pulsegen_client/runner/phase_tracker.py:24-26 | `set_freq(f, t)` makes the frequency shift f and keeps the phase at t continuous |
| `PhaseTracking.AfterShiftPhase` | pulsegen_client/runner/phase_tracker.py:28-29 | `shift_phase(d)` adds d to the phase offset only |
| `PhaseTracking.AfterSetPhase` | pulsegen_client/runner/phase_tracker.py:31-32 | after `set_phase(p, t)` the shift-induced phase at t is p; frequencies are unchanged and the base frequency plays no part |
| `PhaseTracking.AfterSwapPhase` | pulsegen_client/runner/phase_tracker.py:34-37 | each channel ends with the other's prior carrier phase at t (total frequency times t plus phase); frequencies are unchanged |
| `PhaseTracking.ShiftFreqDetermined` | pulsegen_client/runner/phase_tracker.py:20-22 | the shift-frequency contract has exactly one solution, the computed state |
| `PhaseTracking.SetFreqDetermined` | pulsegen_client/runner/phase_tracker.py:24-26 | the set-frequency contract has exactly one solution |
| `PhaseTracking.SetPhaseDetermined` | pulsegen_client/runner/phase_tracker.py:31-32 | the set-phase contract has exactly one solution |
| `PhaseTracking.ShiftFreqInverse` | pulsegen_client/runner/phase_tracker.py:20-22 | shift_freq(d, t) then shift_freq(-d, t) restores the state exactly |
| `PhaseTracking.ShiftFreqCompose` | pulsegen_client/runner/phase_tracker.py:20-22 | two frequency shifts at the same time add up |
| `PhaseTracking.SetFreqIdempotent` | pulsegen_client/runner/phase_tracker.py:24-26 | setting the same frequency twice at the same time equals setting it once |
| `PhaseTracking.SetFreqIsShift` | pulsegen_client/runner/phase_tracker.py:20-26 | set_freq(f, t) is shift_freq by f less the current shift |
| `PhaseTracking.SetPhaseIdempotent` | pulsegen_client/runner/phase_tracker.py:31-32 | setting the same phase twice at the same time equals setting it once |
| `PhaseTracking.SwapTwice` | pulsegen_client/runner/phase_tracker.py:34-37 | swapping twice at the same time restores both channels |
| `PhaseTracking.SwapSelf` | pulsegen_client/runner/phase_tracker.py:34-37 | swapping a channel with itself changes nothing |
| `PhaseTracking.InitialState` | pulsegen_client/runner/phase_tracker.py:41-42 | one channel per base frequency, in order, each with shift 0, phase 0 and an empty pulse list |
| `PhaseTracking.ApplyChannelOp` | pulsegen_client/runner/phase_tracker.py:44-57 | a channel index outside Python's range raises IndexError and changes nothing; otherwise only the addressed channel(s) change, as the update functions say, and pulse lists are untouched |
| `PhaseTracking.ApplyPlay` | pulsegen_client/runner/phase_tracker.py:59-73 | IndexError for a bad channel; otherwise only that channel's list changes, gaining the pulse with global frequency base + shift, local frequency the pulse's, and phase channel phase + pulse phase; no channel state changes |
| `PhaseTracking.ApplyOp` | pulsegen_client/runner/phase_tracker.py:44-73 | any tracker call keeps the number of channels and the one-list-per-channel shape |
| `PhaseTracking.SwapOpTwice` | pulsegen_client/runner/phase_tracker.py:56-57 | a successful swap_phase repeated at the same time restores the tracker |
| `PhaseTracking.RunSteps` | pulsegen_client/runner/phase_tracker.py:40-76 | a walk of tracker calls, stopping at the first that raises, keeps the tracker's shape |
| `PhaseTracking.RunSingle` | pulsegen_client/runner/_runner.py:23-50 | a walk of one call is that call |
| `PhaseTracking.RunStepsAppend` | pulsegen_client/runner/_layout.py:218-222 | running two walks in turn is running their concatenation, so rendering children one after another composes |
| `PhaseTracking.ChannelStatus.constructor` | pulsegen_client/runner/phase_tracker.py:9-14 | a new channel has the given base frequency, shift 0, phase 0 and a fresh empty pulse list |
| `PhaseTracking.ChannelStatus.TotalFreq` | pulsegen_client/runner/phase_tracker.py:16-18 | the total frequency is base plus shift |
| `PhaseTracking.ChannelStatus.ShiftFreq` | pulsegen_client/runner/phase_tracker.py:20-22 | the fields become `AfterShiftFreq` of the old ones |
| `PhaseTracking.ChannelStatus.SetFreq` | pulsegen_client/runner/phase_tracker.py:24-26 | the fields become `AfterSetFreq` of the old ones |
| `PhaseTracking.ChannelStatus.ShiftPhase` | pulsegen_client/runner/phase_tracker.py:28-29 | the fields become `AfterShiftPhase` of the old ones |
| `PhaseTracking.ChannelStatus.SetPhase` | pulsegen_client/runner/phase_tracker.py:31-32 | the fields become `AfterSetPhase` of the old ones |
| `PhaseTracking.ChannelStatus.SwapPhase` | pulsegen_client/runner/phase_tracker.py:34-37 | two objects' phases become `AfterSwapPhase` of their old states; a channel swapped with itself keeps its phase, because both right-hand sides are read before either is assigned |
| `PhaseTracking.PhaseTracker.constructor` | pulsegen_client/runner/phase_tracker.py:41-42 | a new tracker is in `InitialState` of the base frequencies, with fresh channels and lists |
| `PhaseTracking.PhaseTracker.ShiftFreq` | pulsegen_client/runner/phase_tracker.py:44-45 | the tracker's state and outcome are those of `ApplyChannelOp`; a failed call changes nothing |
| `PhaseTracking.PhaseTracker.SetFreq` | pulsegen_client/runner/phase_tracker.py:47-48 | as `ApplyChannelOp` says; a failed call changes nothing |
| `PhaseTracking.PhaseTracker.ShiftPhase` | pulsegen_client/runner/phase_tracker.py:50-51 | as `ApplyChannelOp` says, taking no time; a failed call changes nothing |
| `PhaseTracking.PhaseTracker.SetPhase` | pulsegen_client/runner/phase_tracker.py:53-54 | as `ApplyChannelOp` says; a failed call changes nothing |
| `PhaseTracking.PhaseTracker.SwapPhase` | pulsegen_client/runner/phase_tracker.py:56-57 | both indices are looked up before either channel changes; then as `ApplyChannelOp` says |
| `PhaseTracking.PhaseTracker.Play` | pulsegen_client/runner/phase_tracker.py:59-73 | as `ApplyPlay` says: one pulse list is updated, no channel state changes |
| `PhaseTracking.PhaseTracker.Perform` | pulsegen_client/runner/phase_tracker.py:44-73 | any tracker call behaves as `ApplyOp` |
| `PhaseTracking.PhaseTracker.Finish` | pulsegen_client/runner/phase_tracker.py:75-76 | the pulse lists, in channel order, with nothing changed |
| `LayoutBounds.Clamp` | pulsegen_client/runner/_layout.py:38 | the result is at least the minimum, at most a consistent maximum, and is the input whenever the input already lies within them |
| `LayoutBounds.ClampExt` | pulsegen_client/runner/_layout.py:38 | the same over extended reals |
| `LayoutBounds.MinMax` | pulsegen_client/runner/_layout.py:68-77 | min <= max and both >= min_duration; a duration that is None or 0 gives the clamped (0, infinity); any other duration collapses both to the clamped duration |
| `LayoutBounds.MinDurationWins` | pulsegen_client/runner/_layout.py:68-77 | a minimum at or above the maximum wins: both bounds collapse onto it |
| `LayoutBounds.ContentAvailable` | pulsegen_client/runner/_layout.py:35-38 | the duration offered to the content lies within the node's bounds |
| `LayoutBounds.Unclipped` | pulsegen_client/runner/_layout.py:44 | the unclipped duration is max(measured + margins, 0) |
| `LayoutBounds.DesiredBounds` | pulsegen_client/runner/_layout.py:39-43 | 0 <= desired <= available, and desired equals the clamped content plus margins whenever that fits |
| `LayoutBounds.ArrangeContent` | pulsegen_client/runner/_layout.py:49-53 | the content duration handed to arrange_override lies within the node's bounds |
| `StackLayout.InitialDurations` | pulsegen_client/runner/_layout.py:250-252 | a stack with no channels keeps one shared time; otherwise every stack channel starts at 0 |
| `StackLayout.VisitIndex` | pulsegen_client/runner/_layout.py:256-261 | forward stacks visit their children first to last, backward stacks last to first |
| `StackLayout.ArrangeTime` | pulsegen_client/runner/_layout.py:275-280 | forwards a child starts at `used`; backwards at `total - used - duration` |
| `StackLayout.UsedTimeIsMax` | pulsegen_client/runner/_layout.py:263-268 | used_time raises ValueError exactly when no channel is asked for and none is recorded; otherwise it returns the maximum over the channels it reads, missing ones counting as 0 |
| `StackLayout.AfterReadTable` | pulsegen_client/runner/_layout.py:263-268 | reading inserts 0 for every missing channel read and changes no recorded time |
| `StackLayout.UpdatedUsedTable` | pulsegen_client/runner/_layout.py:282-288 | update_used sets each targeted channel (all stack channels when none are given) to the duration and leaves the others |
| `StackLayout.TotalTimeOf` | pulsegen_client/runner/_layout.py:270-273 | the total time is the maximum used time over all channels |
| `StackLayout.FoldStack` | pulsegen_client/runner/_layout.py:224-234 | the stack loop yields one used time per child |
| `StackLayout.StackStepEffect` | pulsegen_client/runner/_layout.py:226-233 | after placing a child that names channels, each of them holds the max of those channels' prior used times plus the child's duration; a child naming none starts at the max over every recorded channel and leaves every stack channel at that plus its duration; other channels are unchanged |
| `StackLayout.StackStepError` | pulsegen_client/runner/_layout.py:263-268 | placing a child raises only when it has no channels and no channel has a recorded time |
| `StackLayout.FoldStackKeys` | pulsegen_client/runner/_layout.py:282-288 | the recorded channels stay within the stack's channels |
| `StackLayout.SingleChannelPacking` | pulsegen_client/runner/_layout.py:224-234 | on one channel a stack packs its children one after another, and its total is the sum of the durations |
| `StackLayout.LayoutHelper.constructor` | pulsegen_client/runner/_layout.py:250-254 | a new helper holds `InitialDurations` and the given direction |
| `StackLayout.LayoutHelper.ReadFirst` | pulsegen_client/runner/_layout.py:268 | the first read of used_time's generator: the channel's time, or 0 inserted |
| `StackLayout.LayoutHelper.ReadNext` | pulsegen_client/runner/_layout.py:268 | a further read inserts a missing channel with 0 and raises the running maximum to its value |
| `StackLayout.LayoutHelper.ReadMax` | pulsegen_client/runner/_layout.py:268 | the maximum over the channels of a table read as a defaultdict, with the table after the reads |
| `StackLayout.LayoutHelper.UsedTime` | pulsegen_client/runner/_layout.py:263-268 | the result and the new table are those `UsedTimeIsMax` and `AfterReadTable` describe |
| `StackLayout.LayoutHelper.TotalTime` | pulsegen_client/runner/_layout.py:270-273 | the result is `TotalTimeOf` the table, which is unchanged |
| `StackLayout.LayoutHelper.OverwriteAll` | pulsegen_client/runner/_layout.py:286-288 | every target channel gets the duration; no other entry changes |
| `StackLayout.LayoutHelper.UpdateUsed` | pulsegen_client/runner/_layout.py:282-288 | the table becomes `UpdatedUsed` of the old one |
| `GridColumns.RangeLo` | pulsegen_client/runner/_layout.py:442-444 | the range start is clamped to the column count |
| `GridColumns.RangeHi` | pulsegen_client/runner/_layout.py:442-444 | the range end lies between its start and the column count, and is `column + span` when that fits |
| `GridColumns.Candidates` | pulsegen_client/runner/_layout.py:441-447 | the first loop records star columns of the range with their width per star, in column order, or raises ZeroDivisionError |
| `GridColumns.CandidatesComplete` | pulsegen_client/runner/_layout.py:441-447 | it raises exactly when the range holds a star column of weight 0, and otherwise records every star column of the range |
| `GridColumns.CandidatesFailed` | pulsegen_client/runner/_layout.py:441-447 | once the first loop has raised it stays raised |
| `GridColumns.SortByRatio` | pulsegen_client/runner/_layout.py:448 | sorting keeps the length |
| `GridColumns.SortByRatioPermutes` | pulsegen_client/runner/_layout.py:448 | the sorted list is a permutation of the candidates |
| `GridColumns.SortByRatioSorted` | pulsegen_client/runner/_layout.py:448 | the sorted list is ordered by width per star |
| `GridColumns.SortByRatioElements` | pulsegen_client/runner/_layout.py:448 | sorting keeps exactly the elements it was given |
| `GridColumns.SortByRatioStable` | pulsegen_client/runner/_layout.py:448 | the sort is stable: equal ratios stay in column order, and indices stay distinct |
| `GridColumns.Level` | pulsegen_client/runner/_layout.py:449-460 | the second loop breaks after at least one more column, always when any remain, or raises ZeroDivisionError on a star total of 0 |
| `GridColumns.LevelBalance` | pulsegen_client/runner/_layout.py:449-460 | where the loop breaks, the level times the raised columns' weight is the extra duration plus their old widths, and the level lies below the next ratio |
| `GridColumns.Rewrite` | pulsegen_client/runner/_layout.py:457-459 | the rewritten width list keeps its length |
| `GridColumns.RewriteValues` | pulsegen_client/runner/_layout.py:457-459 | raised columns hold level times their weight; every other column keeps its width |
| `GridColumns.RewriteSum` | pulsegen_client/runner/_layout.py:457-459 | raising distinct columns changes the total by their new widths less their old ones |
| `GridColumns.SortedCandidatesFacts` | pulsegen_client/runner/_layout.py:441-448 | the sorted candidates are sorted, stable and in range |
| `GridColumns.SortedCandidatesRange` | pulsegen_client/runner/_layout.py:441-448 | a sorted candidate is a star column of the range, and every star column of the range is one |
| `GridColumns.Expansion` | pulsegen_client/runner/_layout.py:437-460 | the decision raises at least one and at most all sorted candidates |
| `GridColumns.Expanded` | pulsegen_client/runner/_layout.py:437-460 | the new widths keep the column count |
| `GridColumns.ExpandedErrors` | pulsegen_client/runner/_layout.py:437-460 | the only error is ZeroDivisionError, and a star column of weight 0 in the range always causes it |
| `GridColumns.ExpandedFrame` | pulsegen_client/runner/_layout.py:437-460 | only star columns inside `[column, column + span)` are rewritten |
| `GridColumns.ExpansionBalanced` | pulsegen_client/runner/_layout.py:449-460 | the chosen level balances the raised columns' weight against the extra duration plus their old widths |
| `GridColumns.ExpansionRaises` | pulsegen_client/runner/_layout.py:437-460 | some columns are raised exactly when the range holds a star column |
| `GridColumns.ExpandedLevel` | pulsegen_client/runner/_layout.py:437-460 | water-filling: all raised columns end at one width-per-weight level, and every star column left alone already has more width per star |
| `GridColumns.BalancedConserves` | pulsegen_client/runner/_layout.py:449-460 | raising balanced candidates adds exactly the extra duration to the total |
| `GridColumns.ExpansionConserves` | pulsegen_client/runner/_layout.py:437-460 | the chosen raise grows the widths in total by `remaining` |
| `GridColumns.ExpandedConserves` | pulsegen_client/runner/_layout.py:437-460 | whenever the range holds a star column, the widths grow in total by exactly `remaining` |
| `GridColumns.CollectCandidates` | pulsegen_client/runner/_layout.py:441-447 | the first loop's result is `Candidates` of the widths |
| `GridColumns.RaiseColumns` | pulsegen_client/runner/_layout.py:457-459 | the write loop leaves the array equal to `Rewrite` of its old contents |
| `GridColumns.ExpandColumnWidth` | pulsegen_client/runner/_layout.py:437-460 | the array becomes `Expanded` of its old contents; on an error nothing has been written |
| `GridLayout.EffectiveColumns` | pulsegen_client/runner/_layout.py:341-342 | an empty column list becomes one `star(1)` column; any other list is kept |
| `GridLayout.ActualColumn` | pulsegen_client/runner/_layout.py:352 | a column index past the end becomes the last column |
| `GridLayout.ActualSpan` | pulsegen_client/runner/_layout.py:353 | the span is cut to the columns from the actual column on |
| `GridLayout.BaseSizes` | pulsegen_client/runner/_layout.py:345-348 | fixed columns start at their length, the others at 0 |
| `GridLayout.Widen` | pulsegen_client/runner/_layout.py:349-361 | the first pass keeps the column count |
| `GridLayout.WidenMax` | pulsegen_client/runner/_layout.py:349-361 | each column becomes the largest of its start width and the desired durations of the single-span children in it; fixed columns keep their width |
| `GridLayout.AddToAuto` | pulsegen_client/runner/_layout.py:386-389 | only automatic columns in the range grow, each by the same amount |
| `GridLayout.SpanFill` | pulsegen_client/runner/_layout.py:362-396 | the second pass for one child keeps the column count and fails only with ZeroDivisionError |
| `GridLayout.ShortFill` | pulsegen_client/runner/_layout.py:373-396 | water-filling over the span's star columns, or an equal share per automatic column when there are none, keeping the column count |
| `GridLayout.ExpandedFillsSpan` | pulsegen_client/runner/_layout.py:391-396 | water-filling a span that holds a star column adds exactly the extra duration to the span's total |
| `GridLayout.ExpandedOutside` | pulsegen_client/runner/_layout.py:391-396 | water-filling a span leaves the columns outside it alone |
| `GridLayout.AutoFillsSpan` | pulsegen_client/runner/_layout.py:379-389 | sharing the extra among the span's automatic columns adds exactly the extra to the span's total |
| `GridLayout.SpanFillFrame` | pulsegen_client/runner/_layout.py:362-396 | one child's step leaves every column outside its span, and every fixed column, as it was |
| `GridLayout.SpanFillFills` | pulsegen_client/runner/_layout.py:362-396 | a span short of its child that holds a star or automatic column ends exactly as wide as the child's desired duration |
| `GridLayout.SpanPass` | pulsegen_client/runner/_layout.py:362-396 | the second pass over the children keeps the column count |
| `GridLayout.SpanPassFixed` | pulsegen_client/runner/_layout.py:362-396 | fixed columns keep their width through the second pass, which can only fail by dividing by zero |
| `GridLayout.MinColumnWidths` | pulsegen_client/runner/_layout.py:340-398 | the minimum widths have one entry per column |
| `GridLayout.MinColumnWidthsFixed` | pulsegen_client/runner/_layout.py:345-398 | fixed columns are exactly their length wide, and measuring can only fail by dividing by zero |
| `GridLayout.MinColumnWidthsSingle` | pulsegen_client/runner/_layout.py:349-361 | without multi-column children the minimum widths are those of the first pass |
| `GridLayout.SinglePassIdentity` | pulsegen_client/runner/_layout.py:362-368 | the second pass skips children spanning at most one column |
| `GridLayout.ArrangedWidths` | pulsegen_client/runner/_layout.py:400-406 | arrange's widths keep the column count and fail only by dividing by zero |
| `GridLayout.ArrangedWidthsFill` | pulsegen_client/runner/_layout.py:400-406 | with a star column the arranged widths add up to the final duration whenever it exceeds the minimum; without one they are the minimum widths |
| `GridLayout.PlaceFacts` | pulsegen_client/runner/_layout.py:410-434 | a child gets min(desired, span width), or the span width when STRETCH, and starts at the span start (START and STRETCH), at start + span - actual (END), or halfway between (CENTER) |
| `GridLayout.AddAutoWidths` | pulsegen_client/runner/_layout.py:387-389 | the array becomes `AddToAuto` of its old contents |
| `GridLayout.SpanFillAt` | pulsegen_client/runner/_layout.py:362-396 | the array becomes `SpanFill` of its old contents, unchanged on an error |
| `GridLayout.ShortFillAt` | pulsegen_client/runner/_layout.py:373-396 | the array becomes `ShortFill` of its old contents, unchanged on an error |
| `GridLayout.MeasureColumns` | pulsegen_client/runner/_layout.py:345-398 | the measure loops compute `MinColumnWidths` |
| `GridLayout.WidenAt` | pulsegen_client/runner/_layout.py:349-361 | the first pass leaves the array equal to `Widen` of its old contents |
| `GridLayout.SpanPassAt` | pulsegen_client/runner/_layout.py:362-396 | the second pass in place computes `SpanPass`, stopping at the first error |
| `GridLayout.FailStops` | pulsegen_client/runner/_layout.py:362-396 | once the second pass fails it stays failed with the same error |
| `GridLayout.ColumnStarts` | pulsegen_client/runner/_layout.py:407-409 | the start loop computes `PrefixSums` of the widths |
| `GridLayout.ArrangeColumns` | pulsegen_client/runner/_layout.py:400-409 | arrange's widths are `ArrangedWidths` and its starts their prefix sums |
| `LayoutSpec.Children` | pulsegen_client/runner/_layout.py:80-109 | the children a manager is built for: none for instructions, the one child of a Repeat, the insertion-ordered children of Stack, Absolute and Grid |
| `LayoutSpec.ChildChannelsUnion` | pulsegen_client/runner/_layout.py:208-216 | a container's channels are exactly those of its children |
| `LayoutSpec.ChildChannelSets` | pulsegen_client/runner/_layout.py:224-234 | one channel set per child, in child order |
| `LayoutSpec.RepeatMeasured` | pulsegen_client/runner/_layout.py:178-185 | a Repeat of n > 0 measures its child once with n-th of what is left after the spacings, and takes n copies plus (n - 1) spacings |
| `LayoutSpec.StackMeasureFrom` | pulsegen_client/runner/_layout.py:224-234 | the stack measure loop records one tree per child and its total is the latest used time |
| `LayoutSpec.StackMeasureStep` | pulsegen_client/runner/_layout.py:224-234 | one turn of the stack measure loop: the child is measured with what is left after its channels' used time, and its end is recorded on those channels |
| `LayoutSpec.AbsoluteMeasureFrom` | pulsegen_client/runner/_layout.py:300-307 | every child is measured with the whole content duration, and the result is max(0, the latest offset plus desired) |
| `LayoutSpec.GridMeasureFrom` | pulsegen_client/runner/_layout.py:343-344 | every child is measured with the whole content duration, one tree per child |
| `LayoutSpec.ArrangeOf` | pulsegen_client/runner/_layout.py:46-56 | the node's actual time is its time plus the leading margin, the children's trees come from arranging the content |
| `LayoutSpec.RepeatArranged` | pulsegen_client/runner/_layout.py:187-193 | a Repeat of n > 0 arranges its child once at 0 with n-th of the final duration after spacings, and takes the whole final duration |
| `LayoutSpec.StackArrangeFrom` | pulsegen_client/runner/_layout.py:236-247 | a stack arranges one tree per child and returns the final duration it was given |
| `LayoutSpec.StackArrangeStep` | pulsegen_client/runner/_layout.py:236-247 | one turn of the stack arrange loop: the child keeps its desired duration and starts where `arrange_time` puts it |
| `LayoutSpec.AbsoluteArrangeFrom` | pulsegen_client/runner/_layout.py:309-314 | each child is arranged at exactly its offset with its desired duration |
| `LayoutSpec.GridArrangeFrom` | pulsegen_client/runner/_layout.py:410-435 | each child is arranged where `Place` puts it in its span |
| `LayoutSpec.RenderOf` | pulsegen_client/runner/_layout.py:58-66 | an invisible node renders nothing for its whole subtree; otherwise its content is rendered at the parent's time plus its actual time |
| `LayoutSpec.RepeatRun` | pulsegen_client/runner/_layout.py:195-205 | j renders of a Repeat's child in turn keep the tracker's shape |
| `LayoutSpec.RepeatRunSteps` | pulsegen_client/runner/_layout.py:195-205 | rendering the child j times in turn, each `actual_duration + spacing` after the last, is the walk of all those renders |
| `Layout.Visited` | pulsegen_client/runner/_layout.py:256-261 | the first k children a stack visits form a range of exactly k positions within the child list |
| `Layout.LayoutNode.constructor` | pulsegen_client/runner/_layout.py:12-18 | a new manager holds its element, children and channels, with the duration fields at 0 |
| `Layout.LayoutNode.Create` | pulsegen_client/runner/_layout.py:80-109 | a manager tree matching the element tree, or ValueError exactly when the tree holds an element of the base class |
| `Layout.LayoutNode.CreateChildren` | pulsegen_client/runner/_layout.py:208-216 | one manager per child, in insertion order, with the union of their channels |
| `Layout.LayoutNode.Measure` | pulsegen_client/runner/_layout.py:34-44 | the node and every child it measures record `MeasureOf(element, available)`, or the pass raises that tree's error |
| `Layout.LayoutNode.MeasureOverride` | pulsegen_client/runner/_layout.py:20-22 | every kind of manager measures its content as `MeasureOverrideOf` says |
| `Layout.LayoutNode.MeasureRepeat` | pulsegen_client/runner/_layout.py:178-185 | as `RepeatMeasured` says; a count of 0 measures nothing and gives 0 |
| `Layout.LayoutNode.MeasureStack` | pulsegen_client/runner/_layout.py:224-234 | the stack measure is `StackMeasureFrom` over a fresh helper |
| `Layout.LayoutNode.MeasureStackKids` | pulsegen_client/runner/_layout.py:226-233 | the loop measures every child in visiting order, as `StackMeasureFrom` says |
| `Layout.LayoutNode.MeasureStackKid` | pulsegen_client/runner/_layout.py:227-233 | one turn of the loop, as `StackMeasureStep` says |
| `Layout.LayoutNode.MeasureStackVisit` | pulsegen_client/runner/_layout.py:227-233 | the visited child is measured with what is left after its channels' used time, and its end is recorded |
| `Layout.LayoutNode.MeasureAbsolute` | pulsegen_client/runner/_layout.py:300-307 | the Absolute measure is `AbsoluteMeasureFrom` |
| `Layout.LayoutNode.MeasureAbsoluteKid` | pulsegen_client/runner/_layout.py:303-306 | one child measured with the whole content duration; the running maximum takes in its offset plus desired |
| `Layout.LayoutNode.MeasureGrid` | pulsegen_client/runner/_layout.py:340-398 | the Grid measure gives an empty column list one star column, measures every child, and takes the sum of `MinColumnWidths` |
| `Layout.LayoutNode.FixColumns` | pulsegen_client/runner/_layout.py:341-342 | the node's own column list becomes `EffectiveColumns` of itself |
| `Layout.LayoutNode.MeasureGridKids` | pulsegen_client/runner/_layout.py:343-344 | the loop is `GridMeasureFrom` |
| `Layout.LayoutNode.Arrange` | pulsegen_client/runner/_layout.py:46-56 | the node and every child it arranges record `ArrangeOf`, or the pass raises that tree's error |
| `Layout.LayoutNode.ArrangeOverride` | pulsegen_client/runner/_layout.py:24-26 | every kind of manager arranges its content as `ArrangeOverrideOf` says |
| `Layout.LayoutNode.ArrangeRepeat` | pulsegen_client/runner/_layout.py:187-193 | as `RepeatArranged` says |
| `Layout.LayoutNode.ArrangeStack` | pulsegen_client/runner/_layout.py:236-247 | the stack arrange is `StackArrangeFrom` over a fresh helper |
| `Layout.LayoutNode.ArrangeStackKids` | pulsegen_client/runner/_layout.py:238-246 | the loop arranges every child in visiting order, as `StackArrangeFrom` says |
| `Layout.LayoutNode.ArrangeStackKid` | pulsegen_client/runner/_layout.py:239-246 | one turn of the loop, as `StackArrangeStep` says |
| `Layout.LayoutNode.ArrangeStackVisit` | pulsegen_client/runner/_layout.py:239-246 | the visited child keeps its desired duration and starts where `arrange_time` puts it |
| `Layout.LayoutNode.ArrangeAbsolute` | pulsegen_client/runner/_layout.py:309-314 | the Absolute arrange is `AbsoluteArrangeFrom` |
| `Layout.LayoutNode.ArrangeGrid` | pulsegen_client/runner/_layout.py:400-435 | the Grid arrange computes `ArrangedWidths` and their starts, then `GridArrangeFrom` |
| `Layout.LayoutNode.ArrangeGridKids` | pulsegen_client/runner/_layout.py:410-434 | the loop arranges every child where `Place` puts it |
| `Layout.LayoutNode.Render` | pulsegen_client/runner/_layout.py:58-66 | performs exactly the tracker calls of `RenderOf`; the outcome and, on success, the new tracker state are those of `RunSteps` |
| `Layout.LayoutNode.RenderOverride` | pulsegen_client/runner/_layout.py:28-32 | every kind of manager performs the calls of `RenderOverrideOf` |
| `Layout.LayoutNode.RenderInstruction` | pulsegen_client/runner/_layout.py:130-165 | an instruction node makes its one tracker call with its channel, value and the parent's time plus its own |
| `Layout.LayoutNode.RenderPlay` | pulsegen_client/runner/_layout.py:134-151 | a Play's shape is looked up (-1 for none, else IndexError when out of range), and a flexible pulse's plateau is its actual duration less its width |
| `Layout.LayoutNode.RenderRepeat` | pulsegen_client/runner/_layout.py:195-205 | the child is rendered count times, as `RepeatRun` says |
| `Layout.LayoutNode.RenderRepeated` | pulsegen_client/runner/_layout.py:201-205 | the loop's n renders, each `actual_duration + spacing` after the last, stopping at the first error |
| `Layout.LayoutNode.RenderChildren` | pulsegen_client/runner/_layout.py:218-222 | containers render their children in insertion order, at the same time, whatever the stack direction |
| `Requests.Lookup` | pulsegen_client/pulse.py:297-298 | a name lookup succeeds exactly for a registered name, with its id; otherwise KeyError |
| `Requests.InitialTables` | pulsegen_client/pulse.py:202-211 | a fresh builder's tables are sound: no channels; rect, hann and triangle map to -1, 0 and 1 |
| `Requests.AddChannelDense` | pulsegen_client/pulse.py:237-250 | registering a new channel name under the next id keeps ids dense over 0..n-1 |
| `Requests.AddShapeOk` | pulsegen_client/pulse.py:265-269 | registering a new shape name under the next id keeps the shape table sound |
| `Requests.DenseNamesDistinct` | pulsegen_client/pulse.py:237-250 | dense channel ids imply distinct channel names |
| `Requests.ResolvesGrow` | pulsegen_client/pulse.py:237-269 | instructions that refer to existing channels and shapes keep doing so as more are added |
| `Pulse.RequestBuilder.constructor` | pulsegen_client/pulse.py:202-211 | no channels, shapes [Hann, Triangle], name map rect -1, hann 0, triangle 1, no instructions |
| `Pulse.RequestBuilder.AddChannel` | pulsegen_client/pulse.py:213-250 | ValueError exactly for a name in use, changing nothing; otherwise the channel is appended under id = prior count |
| `Pulse.RequestBuilder.AddInterpolatedShape` | pulsegen_client/pulse.py:252-269 | ValueError exactly for a name in use (the built-in names included); otherwise the shape is appended under id = prior count |
| `Pulse.RequestBuilder.Play` | pulsegen_client/pulse.py:271-311 | KeyError exactly when the channel or shape name is unknown, appending nothing; otherwise one Play with the looked-up ids |
| `Pulse.RequestBuilder.ShiftPhase` | pulsegen_client/pulse.py:313-321 | KeyError exactly for an unknown channel; otherwise one ShiftPhase is appended |
| `Pulse.RequestBuilder.SetPhase` | pulsegen_client/pulse.py:323-332 | KeyError exactly for an unknown channel; otherwise one SetPhase is appended |
| `Pulse.RequestBuilder.ShiftFrequency` | pulsegen_client/pulse.py:334-343 | KeyError exactly for an unknown channel; otherwise one ShiftFrequency is appended |
| `Pulse.RequestBuilder.SetFrequency` | pulsegen_client/pulse.py:345-354 | KeyError exactly for an unknown channel; otherwise one SetFrequency is appended |
| `Pulse.RequestBuilder.SwapPhase` | pulsegen_client/pulse.py:356-366 | KeyError exactly when either channel is unknown; otherwise one SwapPhase is appended |
| `Pulse.RequestBuilder.Build` | pulsegen_client/pulse.py:368-373 | the request holds the builder's three lists, in order; its channel names are distinct, the built-in shapes come first, and every instruction refers to an existing channel and shape |
| `PulseRequest.RequestBuilder.constructor` | pulsegen_client/contracts/_pulse_request.py:49-58 | the same fresh state: no channels, [Hann, Triangle], rect -1, hann 0, triangle 1 |
| `PulseRequest.RequestBuilder.AddChannel` | pulsegen_client/contracts/_pulse_request.py:60-97 | ValueError exactly for a name in use, changing nothing; otherwise id = prior count |
| `PulseRequest.RequestBuilder.AddInterpolatedShape` | pulsegen_client/contracts/_pulse_request.py:99-116 | ValueError exactly for a name in use; otherwise shape id = prior count |
| `PulseRequest.RequestBuilder.Play` | pulsegen_client/contracts/_pulse_request.py:118-158 | KeyError exactly for an unknown channel or shape, appending nothing; otherwise one Play |
| `PulseRequest.RequestBuilder.ShiftPhase` | pulsegen_client/contracts/_pulse_request.py:160-168 | KeyError exactly for an unknown channel; otherwise one ShiftPhase |
| `PulseRequest.RequestBuilder.SetPhase` | pulsegen_client/contracts/_pulse_request.py:170-179 | KeyError exactly for an unknown channel; otherwise one SetPhase |
| `PulseRequest.RequestBuilder.ShiftFrequency` | pulsegen_client/contracts/_pulse_request.py:181-190 | KeyError exactly for an unknown channel; otherwise one ShiftFrequency |
| `PulseRequest.RequestBuilder.SetFrequency` | pulsegen_client/contracts/_pulse_request.py:192-201 | KeyError exactly for an unknown channel; otherwise one SetFrequency |
| `PulseRequest.RequestBuilder.SwapPhase` | pulsegen_client/contracts/_pulse_request.py:203-213 | KeyError exactly when either channel is unknown; otherwise one SwapPhase |
| `PulseRequest.RequestBuilder.Build` | pulsegen_client/contracts/_pulse_request.py:215-220 | a PulseGenRequest of the three lists, in order, well built |
| `LegacyContracts.FloatsRoundTrip` | pulsegen_client/contracts.py:98-106 | a list of floats kept in the packed data is recovered exactly |
| `LegacyContracts.ChannelRoundTrip` | pulsegen_client/contracts.py:43-73 | a channel's packed data decodes back to the channel |
| `LegacyContracts.ShapeRoundTrip` | pulsegen_client/contracts.py:76-106 | a shape's union data `[type_id, payload]` decodes back to the shape |
| `LegacyContracts.InstructionRoundTrip` | pulsegen_client/contracts.py:109-217 | an instruction's union data, with ids PLAY 0 to SWAP_PHASE 5 and Play's fixed payload order, decodes back to it |
| `LegacyContracts.DecodedInstructionExact` | pulsegen_client/contracts.py:109-217 | data decodes to an instruction exactly when it is that instruction's encoding |
| `LegacyContracts.InstructionDataInjective` | pulsegen_client/contracts.py:109-217 | distinct instructions have distinct data |
| `LegacyContracts.RequestRoundTrip` | pulsegen_client/contracts.py:220-235 | a request's data `[channels, shapes, instructions]` decodes back to the request |
| `LegacyContracts.ResolvingEncodable` | pulsegen_client/contracts.py:109-217 | every instruction a builder appends is one with a union encoding |
| `LegacyContracts.RequestBuilder.constructor` | pulsegen_client/contracts.py:247-256 | no channels, [Hann, Triangle], the fixed name map rect/hann/triangle, no instructions |
| `LegacyContracts.RequestBuilder.AddChannel` | pulsegen_client/contracts.py:258-289 | ValueError exactly for a name in use, changing nothing; otherwise id = prior count |
| `LegacyContracts.RequestBuilder.Play` | pulsegen_client/contracts.py:291-330 | KeyError exactly for an unknown channel or shape, appending nothing; otherwise one Play in the legacy argument order |
| `LegacyContracts.RequestBuilder.ShiftPhase` | pulsegen_client/contracts.py:332-339 | KeyError exactly for an unknown channel; otherwise one ShiftPhase |
| `LegacyContracts.RequestBuilder.SetPhase` | pulsegen_client/contracts.py:341-349 | KeyError exactly for an unknown channel; otherwise one SetPhase |
| `LegacyContracts.RequestBuilder.ShiftFrequency` | pulsegen_client/contracts.py:351-359 | KeyError exactly for an unknown channel; otherwise one ShiftFrequency |
| `LegacyContracts.RequestBuilder.SetFrequency` | pulsegen_client/contracts.py:361-369 | KeyError exactly for an unknown channel; otherwise one SetFrequency |
| `LegacyContracts.RequestBuilder.SwapPhase` | pulsegen_client/contracts.py:371-380 | KeyError exactly when either channel is unknown; otherwise one SwapPhase |
| `LegacyContracts.RequestBuilder.Build` | pulsegen_client/contracts.py:382-387 | a PulseGenRequest of copies of the lists, whose data decodes back to it |
| `Runner.WaveformsKeys` | pulsegen_client/runner/_runner.py:52-57 | the waveform table has exactly the channel names as keys |
| `Runner.WaveformsLast` | pulsegen_client/runner/_runner.py:52-57 | a name maps to the waveform of the last channel carrying it |
| `Runner.WaveformsDistinct` | pulsegen_client/runner/_runner.py:52-57 | with distinct names every channel's delayed list appears under its own name |
| `Runner.SimpleSteps` | pulsegen_client/runner/_runner.py:23-50 | one tracker call per instruction, in list order |
| `Runner.SimpleRun` | pulsegen_client/runner/_runner.py:20-51 | run_simple's walk keeps one channel per request channel |
| `Runner.StepOutcome` | pulsegen_client/runner/_runner.py:24-50 | each instruction maps to the tracker call of its kind with the same channel, value and time (ShiftPhase with none); a Play with shape -1 has no shape, any other id indexes the shapes |
| `Runner.SimpleRunErrors` | pulsegen_client/runner/_runner.py:23-50 | run_simple fails exactly with the error of the first instruction that raises; an unknown instruction raises ValueError |
| `Runner.ResolvedNoError` | pulsegen_client/runner/_runner.py:23-50 | an instruction referring to existing channels and shapes never raises |
| `Runner.BuiltRequestRuns` | pulsegen_client/runner/_runner.py:20-51 | every request a builder builds runs without error |
| `Runner.SimpleStepsAppend` | pulsegen_client/runner/_runner.py:23-50 | the calls of two instruction lists in turn are the calls of their concatenation |
| `Runner.Execute` | pulsegen_client/runner/_runner.py:24-50 | one instruction performs its tracker call; a failing one changes nothing |
| `Runner.Collect` | pulsegen_client/runner/_runner.py:51-57 | the waveforms are each channel's pulse list delayed by its delay, under its name |
| `Runner.Feed` | pulsegen_client/runner/_runner.py:23-50 | the loop performs `SimpleSteps` in order, stopping at the first error |
| `Runner.RunSimple` | pulsegen_client/runner/_runner.py:13-57 | run_simple's result is the waveforms of `SimpleRun`, or its first error |
| `Runner.ScheduleRun` | pulsegen_client/runner/_runner.py:60-81 | run_schedule's walk keeps one channel per request channel |
| `Runner.RunSchedule` | pulsegen_client/runner/_runner.py:60-81 | run_schedule creates the managers, measures with infinity, arranges at 0 with the root's desired duration and renders at 0, all on one tracker; the result is the waveforms of `ScheduleRun` or its first error |

## Left out

- Sampling is not modelled: `PulseList.sample`, `runner/_shape_impl.py` and `shape.py`. These are numpy arrays, floating-point sample alignment, trigonometry and scipy interpolation. A waveform stands for the delayed pulse list together with the channel's sample count, rate and alignment level. Envelopes are opaque values; only their width and plateau are kept.
- `cmath.rect` is trigonometry. The pulse list and tracker take it as a function parameter `rect(amplitude, phase)`, and complex numbers are pairs of reals.
- Python floats are modelled as exact reals: no rounding, NaN or overflow. `math.inf` is the `Inf` of an extended real. It appears only where the source uses it: the available duration of the root measure and the default `max_duration`.
- Python's `float(...)` in `GridLength.parse` is a parameter of the model: a partial function from strings to reals.
- `str.lower` is modelled on ASCII letters only.
- `packb`, `unpack_response`, msgpack and `attrs.astuple` are foreign serialisation. The legacy data layout of `contracts.py` is modelled as nested values, not bytes. `contracts/_msgbase.py` is not part of this model.
- `client.py`, the examples, the benchmarks and `test.py` are network I/O, timing and plotting.
- The legacy `BareInstruction` type id and its plain `Instruction(...)` construction are kept only as an instruction of no known kind. run_simple rejects it with ValueError.
- Repeat counts and Grid column indices are natural numbers. Negative counts and columns are not modelled.
- The layout nodes' `desired_duration`, `unclipped_duration`, `actual_time` and `actual_duration` start at 0. The source's `None` asserts therefore have no counterpart; run_schedule always measures before it arranges.
- `Layout.LayoutNode.FixColumns` appends the `star(1)` column to the manager's own copy of the column list. In the source the list is the schedule element's own, so the element is mutated too. That aliasing is not modelled.
- `Layout.LayoutNode.Render`: when a walk fails, the contract does not state the tracker's partial state. The runners discard it.
- `Runner.Feed`: when the loop fails, the contract does not state the tracker's partial state. run_simple discards it.
- The AttributeError that `_layout.py` raises by reading `element.children`/`element.child` is not modelled: the layout reads the fields `schedule.py` defines (see above).
- `PulseRequest` repeats the `pulse.py` builder. Both modules are modelled, because both files are core.

