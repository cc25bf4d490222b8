# Draggable to-do list — a Dafny model of its task logic

The application is a single React component tree (`src/App.js`) showing a
fixed list of tasks. Each task record has a display text (`content`), a
`status` (Preparing, Working, Finished or Cancelled) and a stable 1-based
`index`. Under the rendering code sit five small operations, modelled here:

- **Seeding** (`App`): the fixed text list becomes one `Preparing` record per
  text, labelled 1..n in order (module `Tasks`, file `tasks.dfy`).
- **Counting** (`ItemCollection`): a left fold over the records into an object
  keyed by the lower-cased status name, starting from four zero counters
  (module `Counting`, file `counting.dfy`).
- **Reordering** (`ItemCollection`): a `draggingIndex` pointer (-1 when no
  drag is active). Drag start sets it to the dragged task's slot. Drag enter
  over another task swaps the two slots of the array in place and moves the
  pointer to the target slot. Drag end resets it to -1 (class
  `Board.ItemCollection`, file `board.dfy`).
- **Dropping** (`DropActionZone`): the drag payload, the text of the dragged
  task's stable index, is parsed and resolved to the first record with that
  index. That record's status becomes the zone's status. The state becomes a
  copy of the sequence in the same order (`Board.ItemCollection.Drop`).
- **Item display** (`Item`): a click toggles between the index face
  `"<index>. <content>"` and the status face `"<status>: <content>"`,
  starting on the index face. The status selects a text colour, and Finished
  or Cancelled text is struck through (module `ItemView`, file
  `item_view.dfy`).

`text.dfy` holds the decimal text of integers (`${index}` in a template
string) and the base-10 part of `parseInt` that reads the payload back.
`wrappers.dfy` holds the `Option` type that stands for `undefined` and `NaN`.
`scenario.dfy` runs the operations together: seeding eight tasks and dropping
two of them, and a drag session that reorders and then drops.

The mutable state is modelled as classes. `ItemCollection` holds
`tasks: array<Task>` and `draggingIndex: int`. Its invariant `Valid()` keeps
the pointer in `-1 .. |tasks|-1` and keeps stable indices unique; seeding
establishes the invariant and every operation preserves it. `Item` holds the
stored display text and the current face. That text is only recomputed by
a click, so an item flipped to its status face keeps showing its old status
after a drop changes it, until it is clicked again. Each state-changing method is
specified against a pure function (`Swap`, `DropResult`, `Flipped`, `Label`).
The properties are proved about those functions as lemmas.

Three points of the code shape the model:

- A drop whose payload matches no record throws in the code: `find` returns
  `undefined` and line 92 dereferences it inside the `setTasks` updater. The
  model replaces that crash with an error result: `Drop` returns `false` and
  keeps the state (see `Board.ItemCollection.Drop` under "Left out").
- The code lower-cases the status name and uses it as a key into the counter
  object. `Counting.Key` is that lower-cased name, and its contract says so.
- `indexOf` compares record objects by identity; the model compares record
  values. The two agree because stable indices are unique (`Valid()`), so no
  two slots hold equal records.

## Model

| member | source | states |
|---|---|---|
| Tasks.Seed | src/App.js:180-186 | seeding yields exactly one record per seed text |
| Tasks.SeedShape | src/App.js:179-187 | record `i` of the seed has text `list[i]`, status `Preparing` and index `i + 1` |
| Tasks.SeedIndices | src/App.js:180-186 | the seeded indices are exactly 1..n, and no two records share one |
| Counting.Key | src/App.js:116 | a status's counter key is the ASCII lower-casing of its name, and it is one of the four keys the fold starts with |
| Counting.Tally | src/App.js:114-124 | the counter object always has exactly the four keys it starts with, so no `NaN` counter can appear |
| Counting.TallyCountsStatuses | src/App.js:114-124 | each counter equals the number of records in its status |
| Counting.TallySum | src/App.js:114-124 | the counters start at 0, are never negative, and sum to the number of tasks |
| Counting.TallyIgnoresOrder | src/App.js:114-124 | two sequences with the same statuses, in any order, give equal counters |
| Counting.TallyAfterStatusChange | src/App.js:114-124 | overwriting one record's status moves one unit from the old status's counter to the new one's |
| Scenario.SeedTally | src/App.js:179-187 | right after seeding, preparing = n and the other three counters are 0 |
| Board.FirstMatch | src/App.js:88-91 | the result is the first position satisfying the predicate, or -1 exactly when none does |
| Board.IndexOf | src/App.js:141 | `indexOf`: the first slot holding the record, or -1 exactly when it is absent |
| Board.FindByIndex | src/App.js:88-90 | `find`: the first record with the given stable index, or -1 exactly when no record has it |
| Board.Swap | src/App.js:143-145 | the two slots are exchanged, every other slot and the length are unchanged, and the result is a permutation |
| Board.SwapInvolution | src/App.js:143-145 | swapping the same two slots twice restores the sequence |
| Board.SwapKeepsIndices | src/App.js:143-145 | reordering keeps the same set of stable indices, and unique indices stay unique |
| Board.SwapKeepsTally | src/App.js:143-147 | reordering leaves every counter unchanged |
| Board.Dropped | src/App.js:87-95 | the update fails exactly when no record has the index; otherwise only the slot `find` picks changes, and it gets the zone's status, with length and all other slots kept |
| Board.DropResult | src/App.js:86-95 | the update on the raw payload fails exactly when it parses to NaN or to an index no record has; otherwise it is the update for the parsed index |
| Board.DroppedChangesOneStatus | src/App.js:86-95 | a drop fails exactly when no record has the index; otherwise only the matching record's status becomes the zone's, and every text, index, other status, the order and the length stay |
| Board.DroppedMovesOneCount | src/App.js:92-95 | a successful drop moves one unit from the counter of the record's old status to the zone's counter |
| Board.PayloadFindsDraggedTask | src/App.js:86-92 | the payload written at drag start resolves on drop to the dragged record, in whatever slot it now is |
| Board.ItemCollection.constructor | src/App.js:126 | the collection starts with the seeded sequence and no drag in progress |
| Board.ItemCollection.StartDragging | src/App.js:45-48 | the payload is the text of the task's index (line 46), and the `startDragging` callback at lines 136-139 sets the pointer to the task's current slot (`indexOf`, -1 if absent) |
| Board.ItemCollection.DragEnter | src/App.js:140-148 | entering the dragged slot changes nothing; otherwise the sequence becomes `Swap(old, draggingIndex, target)`, the pointer moves to the target and still points at the dragged record, and the counters are unchanged |
| Board.ItemCollection.DragEnd | src/App.js:52-56 | whatever the prior state, the pointer becomes -1 |
| Board.ItemCollection.Drop | src/App.js:83-96 | succeeds exactly when the payload parses to an index some record has; then the state is a fresh copy equal to the dropped sequence, otherwise the state is unchanged |
| Decimal.Digits | src/App.js:27 | a natural number's digits are a non-empty string of digits |
| Decimal.ValueOfDigits | src/App.js:86 | reading the digits of `n` back gives `n` |
| Decimal.ParseShow | src/App.js:86 | `parseInt` recovers every integer from its text |
| Decimal.Show | src/App.js:27 | an integer's text starts with '-' exactly when it is negative, and every other character is a digit |
| Decimal.ParseInt | src/App.js:86 | `parseInt` gives NaN exactly when no digit follows the optional sign, and a negative result only after a '-' |
| ItemView.Item.constructor | src/App.js:27-28 | a new item shows the index face `"<index>. <content>"` |
| ItemView.Item.Click | src/App.js:36-44 | a click flips the face and shows that face's label for the current task; when the shown text was current, it changes |
| ItemView.Item.ClickTwice | src/App.js:36-44 | two clicks with the same task restore the face; they restore the text too when the shown text is current for the task, and otherwise show the current label |
| ItemView.IndexLabel | src/App.js:27 | the index face starts with a digit or '-' and ends with the task's text |
| ItemView.IndexLabelShowsIndex | src/App.js:27 | the index face shows the task's own stable index: `parseInt` of the label is that index, the number a drop of the task resolves |
| ItemView.StatusLabel | src/App.js:38 | the status face starts with a capital letter and ends with the task's text |
| ItemView.StatusLabelShowsStatus | src/App.js:38 | the status face tells the status: two tasks with the same status face have the same status and the same text |
| ItemView.Label | src/App.js:41 | both faces end with the task's text, and the first character tells which face is shown |
| ItemView.TextAfterClicks | src/App.js:36-44 | a new item clicked `n` times through `Item.Click` shows the index face for even `n` and the status face for odd `n` |
| ItemView.FacesDiffer | src/App.js:36-44 | the index face and the status face of a task never show the same text |
| ItemView.ClicksParity | src/App.js:36-44 | after an even number of clicks the face is the original one, after an odd number it is the other |
| ItemView.TextColour | src/App.js:63-70 | each status gets its own colour, so the colour determines the status |
| ItemView.StruckThrough | src/App.js:71-72 | the text is struck through exactly when the status is neither Preparing nor Working, that is Finished or Cancelled |
| ItemView.StruckMatchesClosedCounts | src/App.js:71-72 | the struck-through items are exactly those counted by the Finished and Cancelled zones |
| Scenario.DroppedAt | src/App.js:88-94 | with unique indices, dropping `k` rewrites exactly the slot that holds `k` |
| Scenario.DropTwoOfEight | src/App.js:86-96 | seeding eight tasks, dropping 3 onto Finished and 5 onto Cancelled gives counters 1/0/6/1; tasks 3 and 5 are struck through, and indices 1..8 keep their texts |
| Scenario.DropTwoOfTaskList | src/App.js:13-22 | the same run on the application's own eight seed texts: counters 1/0/6/1, tasks 3 and 5 struck through, and indices 1..8 kept on their texts |
| Scenario.ReorderThenDrop | src/App.js:136-148 | dragging task 1 over task 2, dropping task 1 on Finished and then ending the drag gives slot order 2,1,3..8 and counters 1/0/7/0 |

## Left out

- Rendering, `useState` re-render scheduling, `key` props and JSX layout: the state the hooks hold is modelled as class fields. Each handler runs to completion, as on the single UI thread.
- DOM styling side effects (opacity while dragging, background highlighting of drop zones): purely visual.
- The concrete colour hex values: `ItemView.TextColour` maps to a four-value enumeration instead.
- A status outside the four values, which would make a counter `NaN`: the `Status` datatype rules it out.
- `Board.ItemCollection.DragEnter` with `draggingIndex == -1`, or with a task not in the sequence: the method requires a drag in progress and a rendered task. In App.js, with the pointer at -1 and target slot `t`, `tmp` is `undefined` (line 143), line 144 stores the target record in an array property named `"-1"`, and line 145 writes `undefined` into slot `t`. `setdraggingIndex(t)` at line 146 then re-renders `ItemCollection`, and the counting `reduce` throws a TypeError at line 116 on `cur.status` of `undefined`. A target that is not in the sequence (index -1) empties slot `draggingIndex` the same way. The pointer is -1 during a drag that did not start on an item, for example a text selection dragged from the description block over an item, so this crash is reachable; the model does not capture it.
- `Decimal.ParseInt` models only an optional sign followed by decimal digits. Leading whitespace and the `0x` hexadecimal prefix of `parseInt` are not modelled. A drop zone accepts text from any drag source, so an outside drag can carry any text; for a payload with leading whitespace or a `0x` prefix (`" 3"`, `"0x3"`) `parseInt` in App.js resolves task 3 and changes its status, while the model fails the drop (`" 3"` parses to NaN and `"0x3"` to 0, which no record has).
- Board.ItemCollection.Drop: when the payload is NaN or matches no record, the drop updater in App.js throws a TypeError at line 92. The error escapes React's render and, with no error boundary, unmounts the whole page. The model replaces that crash with an error result: `ok` is false and the state is kept.
- The drop updater also sets the status on the record object still referenced by the old array. Records are values here, so that aliasing is not modelled; the old array is discarded by the update.
- The drag payload travels through the platform's `dataTransfer` channel. Here `StartDragging` returns it and `Drop` receives it.
