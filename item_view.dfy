/**
 * The `Item` component of src/App.js: the click toggle between the index
 * face and the status face of one rendered task, and the text style its
 * status selects.
 */
module ItemView {
  import opened Tasks
  import opened Counting
  import opened Decimal
  import opened Wrappers

  /** Which face an item shows: the `Item` component's `displayStatus`, "index" or "status". */
  datatype Face = ByIndex | ByStatus

  /** The face a click switches to. */
  function Flipped(f: Face): Face
  {
    match f
    case ByIndex => ByStatus
    case ByStatus => ByIndex
  }

  /** `"<index>. <content>"`: it starts with the index's first character and ends with the text. */
  function IndexLabel(t: Task): (r: string)
    ensures |r| > |t.content| && r[|r| - |t.content|..] == t.content
    ensures IsDigit(r[0]) || r[0] == '-'
  {
    Show(t.index) + ". " + t.content
  }

  /**
   * The index face shows the task's own stable index: `parseInt` reads it
   * back from the label, the same number a drop of this task resolves.
   */
  lemma IndexLabelShowsIndex(t: Task)
    ensures ParseInt(IndexLabel(t)) == Some(t.index)
  {
    var m := if t.index < 0 then -t.index else t.index;
    var d := Digits(m);
    var tail := ". " + t.content;
    ValueOfDigits(m);
    DigitRunStops(d, tail);
    assert (d + tail)[..|d|] == d;
    if t.index < 0 {
      assert IndexLabel(t) == "-" + (d + tail) && IndexLabel(t)[1..] == d + tail;
    } else {
      assert IndexLabel(t) == d + tail && !(d[0] == '-' || d[0] == '+');
    }
  }

  /** `"<status>: <content>"`: it starts with a capital letter and ends with the text. */
  function StatusLabel(t: Task): (r: string)
    ensures |r| > |t.content| && r[|r| - |t.content|..] == t.content
    ensures 'A' <= r[0] <= 'Z'
  {
    StatusName(t.status) + ": " + t.content
  }

  /**
   * The status face tells the status: two tasks with the same status face
   * have the same status and the same text.
   */
  lemma StatusLabelShowsStatus(t: Task, u: Task)
    ensures StatusLabel(t) == StatusLabel(u) ==> t.status == u.status && t.content == u.content
  {
    if StatusLabel(t) == StatusLabel(u) {
      assert StatusLabel(t)[0] == StatusLabel(u)[0];
      assert StatusName(t.status) == StatusName(u.status);
    }
  }

  /**
   * The text shown for `t` on face `f`. Both faces end with the task's
   * text, and the first character tells which face is shown.
   */
  function Label(f: Face, t: Task): (r: string)
    ensures |r| > |t.content| && r[|r| - |t.content|..] == t.content
    ensures f == ByIndex <==> (IsDigit(r[0]) || r[0] == '-')
  {
    match f
    case ByIndex => IndexLabel(t)
    case ByStatus => StatusLabel(t)
  }

  /** The two faces never show the same text, so the toggle is always visible. */
  lemma FacesDiffer(t: Task)
    ensures Label(ByIndex, t) != Label(ByStatus, t)
  {
  }

  /** The face shown after `n` clicks, starting from `f`. */
  function AfterClicks(f: Face, n: nat): Face
  {
    if n == 0 then f else Flipped(AfterClicks(f, n - 1))
  }

  /**
   * An even number of clicks brings an item back to the face it showed,
   * an odd number shows the other one.
   */
  lemma {:induction false} ClicksParity(f: Face, n: nat)
    ensures AfterClicks(f, n) == if n % 2 == 0 then f else Flipped(f)
  {
    if n > 0 {
      ClicksParity(f, n - 1);
    }
  }

  /**
   * A freshly rendered item clicked `n` times shows the index face after
   * an even number of clicks and the status face after an odd number.
   */
  method TextAfterClicks(t: Task, n: nat) returns (text: string)
    ensures text == Label(if n % 2 == 0 then ByIndex else ByStatus, t)
  {
    var item := new Item(t);
    var k := 0;
    while k < n
      invariant 0 <= k <= n
      invariant item.displayStatus == AfterClicks(ByIndex, k)
      invariant item.displayContent == Label(item.displayStatus, t)
    {
      item.Click(t);
      k := k + 1;
    }
    ClicksParity(ByIndex, n);
    text := item.displayContent;
  }

  /**
   * The local state of one rendered item: the text it shows and the face
   * that text belongs to. The text is stored, not derived, as in the `Item` component:
   * it is only recomputed by a click.
   */
  class Item {
    var displayContent: string
    var displayStatus: Face

    /** A new item shows its index face. */
    constructor (task: Task)
      ensures displayStatus == ByIndex && displayContent == IndexLabel(task)
    {
      displayContent := IndexLabel(task);
      displayStatus := ByIndex;
    }

    /** A click on the item currently rendering `task` flips its face. */
    method Click(task: Task)
      modifies this
      ensures displayStatus == Flipped(old(displayStatus))
      ensures displayContent == Label(displayStatus, task)
      ensures old(displayContent) == Label(old(displayStatus), task) ==> displayContent != old(displayContent)
    {
      if displayStatus == ByIndex {
        displayContent := StatusLabel(task);
        displayStatus := ByStatus;
      } else {
        displayContent := IndexLabel(task);
        displayStatus := ByIndex;
      }
      FacesDiffer(task);
    }

    /**
     * Two clicks with the same task bring back the face shown before. The
     * text comes back too when the shown text was current for the task; a
     * stale text (the task's status changed since the last click) is
     * replaced by the current label.
     */
    method ClickTwice(task: Task)
      modifies this
      ensures displayStatus == old(displayStatus)
      ensures displayContent == Label(displayStatus, task)
      ensures old(displayContent) == Label(old(displayStatus), task) ==> displayContent == old(displayContent)
    {
      Click(task);
      Click(task);
    }
  }

  /** The text colours; their concrete hex values carry no logic. */
  datatype Colour = Green | Blue | Gray | Olive

  /**
   * The colour chain of the item's style, tested in the order App.js tests them.
   * Every status has its own colour: the colour tells the status back.
   */
  function TextColour(s: Status): (c: Colour)
    ensures ColourStatus(c) == s
  {
    if s == Finished then Green
    else if s == Working then Blue
    else if s == Cancelled then Gray
    else assert s.Preparing?; Olive
  }

  /** The status a colour stands for. */
  function ColourStatus(c: Colour): Status
  {
    match c
    case Green => Finished
    case Blue => Working
    case Gray => Cancelled
    case Olive => Preparing
  }

  /** Whether the item's text is struck through: never for a task still open. */
  function StruckThrough(s: Status): (r: bool)
    ensures !r <==> s in {Preparing, Working}
  {
    s == Finished || s == Cancelled
  }

  /** How many records of `ts` are rendered struck through. */
  function StruckCount(ts: seq<Task>): nat
    decreases |ts|
  {
    if ts == [] then 0
    else StruckCount(ts[..|ts| - 1]) + (if StruckThrough(ts[|ts| - 1].status) then 1 else 0)
  }

  /**
   * The struck-through items are exactly the ones counted by the Finished
   * and Cancelled zones.
   */
  lemma {:induction false} StruckMatchesClosedCounts(ts: seq<Task>)
    ensures StruckCount(ts) == Tally(ts)["finished"] + Tally(ts)["cancelled"]
    decreases |ts|
  {
    if ts != [] {
      StruckMatchesClosedCounts(ts[..|ts| - 1]);
    }
  }
}
