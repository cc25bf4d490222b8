/**
 * The drag-and-drop behaviour of src/App.js: the `ItemCollection` state
 * (the task sequence and the `draggingIndex` pointer), the swap performed
 * on every drag-enter, and the update a `DropActionZone` applies on drop.
 */
module Board {
  import opened Tasks
  import opened Counting
  import opened Wrappers
  import opened Decimal

  /**
   * The first position of `s` whose element satisfies `p`, or -1 when there
   * is none (the search behind `Array.prototype.find` and `indexOf`).
   */
  function FirstMatch<T>(s: seq<T>, p: T -> bool): (r: int)
    ensures -1 <= r < |s|
    ensures r == -1 <==> forall i :: 0 <= i < |s| ==> !p(s[i])
    ensures r >= 0 ==> p(s[r]) && forall i :: 0 <= i < r ==> !p(s[i])
    decreases |s|
  {
    if s == [] then -1
    else if p(s[0]) then 0
    else
      var r := FirstMatch(s[1..], p);
      if r == -1 then -1 else r + 1
  }

  /** `tasks.indexOf(task)`: the first slot holding `t`, or -1. */
  function IndexOf(s: seq<Task>, t: Task): (r: int)
    ensures -1 <= r < |s|
    ensures r == -1 <==> t !in s
    ensures r >= 0 ==> s[r] == t && t !in s[..r]
  {
    FirstMatch(s, (u: Task) => u == t)
  }

  /** The slot of the first record whose stable index is `k`, or -1. */
  function FindByIndex(s: seq<Task>, k: int): (r: int)
    ensures -1 <= r < |s|
    ensures r == -1 <==> forall i :: 0 <= i < |s| ==> s[i].index != k
    ensures r >= 0 ==> s[r].index == k && forall i :: 0 <= i < r ==> s[i].index != k
  {
    FirstMatch(s, (u: Task) => u.index == k)
  }

  /** Exchanging slots `i` and `j` of `s`, as the drag-enter handler does through `tmp`. */
  function Swap<T>(s: seq<T>, i: nat, j: nat): (r: seq<T>)
    requires i < |s| && j < |s|
    ensures |r| == |s| && r[i] == s[j] && r[j] == s[i]
    ensures forall k :: 0 <= k < |s| && k != i && k != j ==> r[k] == s[k]
    ensures multiset(r) == multiset(s)
  {
    s[i := s[j]][j := s[i]]
  }

  /**
   * The sequence a drop of payload `k` onto the zone of status `z` leaves:
   * the first record labelled `k` gets status `z`; `None` when no record is
   * labelled `k` (where the drop updater of App.js dereferences `undefined`).
   */
  function Dropped(s: seq<Task>, k: int, z: Status): (r: Option<seq<Task>>)
    ensures r.None? <==> forall i :: 0 <= i < |s| ==> s[i].index != k
    ensures r.Some? ==>
              && |r.value| == |s|
              && r.value[FindByIndex(s, k)] == s[FindByIndex(s, k)].(status := z)
              && forall i :: 0 <= i < |s| && i != FindByIndex(s, k) ==> r.value[i] == s[i]
  {
    var p := FindByIndex(s, k);
    if p == -1 then None else Some(s[p := s[p].(status := z)])
  }

  /** A drop of the raw payload text: `NaN` labels no record. */
  function DropResult(s: seq<Task>, payload: string, z: Status): (r: Option<seq<Task>>)
    ensures r.None? <==> ParseInt(payload).None? || forall i :: 0 <= i < |s| ==> s[i].index != ParseInt(payload).value
    ensures r.Some? ==> r == Dropped(s, ParseInt(payload).value, z)
  {
    match ParseInt(payload)
    case None => None
    case Some(k) => Dropped(s, k, z)
  }

  /**
   * The payload written at drag start resolves, on drop, to the dragged
   * record wherever reordering has moved it: that record, and only it,
   * gets the zone's status.
   */
  lemma PayloadFindsDraggedTask(s: seq<Task>, t: Task, z: Status)
    requires UniqueIndices(s) && t in s
    ensures DropResult(s, Show(t.index), z) == Some(s[IndexOf(s, t) := t.(status := z)])
  {
    ParseShow(t.index);
    var p := IndexOf(s, t);
    var q := FindByIndex(s, t.index);
    assert s[p].index == t.index;
  }

  /** Swapping twice restores the sequence: a swap is a transposition. */
  lemma SwapInvolution<T>(s: seq<T>, i: nat, j: nat)
    requires i < |s| && j < |s|
    ensures Swap(Swap(s, i, j), i, j) == s
  {
  }

  /** Reordering leaves the per-status counters as they were. */
  lemma SwapKeepsTally(s: seq<Task>, i: nat, j: nat)
    requires i < |s| && j < |s|
    ensures Tally(Swap(s, i, j)) == Tally(s)
  {
    assert StatusesOf(Swap(s, i, j)) == Swap(StatusesOf(s), i, j);
    TallyIgnoresOrder(Swap(s, i, j), s);
  }

  /**
   * Reordering never renumbers a record: the same stable indices are
   * present afterwards and they stay unique.
   */
  lemma SwapKeepsIndices(s: seq<Task>, i: nat, j: nat)
    requires i < |s| && j < |s|
    ensures IndexSet(Swap(s, i, j)) == IndexSet(s)
    ensures UniqueIndices(s) ==> UniqueIndices(Swap(s, i, j))
  {
    var r := Swap(s, i, j);
    forall x | x in IndexSet(s) ensures x in IndexSet(r) {
      var n :| 0 <= n < |s| && s[n].index == x;
      var m := if n == i then j else if n == j then i else n;
      assert r[m].index == x;
    }
    if UniqueIndices(s) {
      forall a, b | 0 <= a < |r| && 0 <= b < |r| && r[a].index == r[b].index
        ensures a == b
      {
        var a' := if a == i then j else if a == j then i else a;
        var b' := if b == i then j else if b == j then i else b;
        assert r[a] == s[a'] && r[b] == s[b'];
      }
    }
  }

  /**
   * A drop succeeds exactly when some record carries the payload index, and
   * then changes one field of one record: the record labelled `k` gets
   * status `z`; every text, every index, every other status, the order and
   * the length stay as they were.
   */
  lemma DroppedChangesOneStatus(s: seq<Task>, k: int, z: Status)
    requires UniqueIndices(s)
    ensures Dropped(s, k, z).None? <==> forall i :: 0 <= i < |s| ==> s[i].index != k
    ensures Dropped(s, k, z).Some? ==>
              var r := Dropped(s, k, z).value;
              && |r| == |s|
              && UniqueIndices(r)
              && (forall i :: 0 <= i < |s| ==> r[i].content == s[i].content && r[i].index == s[i].index)
              && (forall i :: 0 <= i < |s| ==> r[i].status == if s[i].index == k then z else s[i].status)
  {
  }

  /**
   * A successful drop moves one unit from the counter of the record's old
   * status to the counter of the zone's status.
   */
  lemma DroppedMovesOneCount(s: seq<Task>, k: int, z: Status)
    requires Dropped(s, k, z).Some?
    ensures var p := FindByIndex(s, k);
            forall st ::
              Tally(Dropped(s, k, z).value)[Key(st)] ==
              Tally(s)[Key(st)] - (if s[p].status == st then 1 else 0) + (if z == st then 1 else 0)
  {
    TallyAfterStatusChange(s, FindByIndex(s, k), z);
  }

  /**
   * The state `ItemCollection` works on: the task sequence (held by `App`
   * and handed down with its setter) and the slot of the task being
   * dragged, -1 when no drag is in progress.
   */
  class ItemCollection {
    var tasks: array<Task>
    var draggingIndex: int

    ghost predicate Valid()
      reads this, tasks
    {
      -1 <= draggingIndex < tasks.Length && UniqueIndices(tasks[..])
    }

    /** `App` seeds the sequence from `list`; no drag is in progress. */
    constructor (list: seq<string>)
      ensures Valid() && fresh(tasks)
      ensures tasks[..] == Seed(list) && draggingIndex == -1
    {
      var seed := Seed(list);
      tasks := new Task[|seed|](i requires 0 <= i < |seed| => seed[i]);
      draggingIndex := -1;
      new;
      SeedIndices(list);
      assert tasks[..] == seed;
    }

    /**
     * The drag-start handler: the drag payload is the text of the task's
     * stable index (the element's `id`), and `startDragging` sets the
     * pointer to the task's current slot.
     */
    method StartDragging(task: Task) returns (payload: string)
      requires Valid()
      modifies this`draggingIndex
      ensures Valid()
      ensures payload == Show(task.index)
      ensures draggingIndex == IndexOf(tasks[..], task)
      ensures task in tasks[..] ==> 0 <= draggingIndex && tasks[draggingIndex] == task
    {
      payload := Show(task.index);
      draggingIndex := IndexOf(tasks[..], task);
    }

    /**
     * `myDragEnter`: entering the task in slot `draggingIndex` does nothing;
     * entering any other task swaps the two slots in place and moves the
     * pointer to the target slot, which now holds the dragged record.
     */
    method DragEnter(task: Task)
      requires Valid() && 0 <= draggingIndex
      requires task in tasks[..]
      modifies this`draggingIndex, tasks
      ensures Valid()
      ensures var target := IndexOf(old(tasks[..]), task);
              if old(draggingIndex) == target then
                tasks[..] == old(tasks[..]) && draggingIndex == old(draggingIndex)
              else
                tasks[..] == Swap(old(tasks[..]), old(draggingIndex), target) && draggingIndex == target
      ensures 0 <= draggingIndex && tasks[draggingIndex] == old(tasks[draggingIndex])
      ensures Tally(tasks[..]) == Tally(old(tasks[..]))
    {
      var targetIndex := IndexOf(tasks[..], task);
      if draggingIndex == targetIndex {
        return;
      }
      ghost var before := tasks[..];
      var tmp := tasks[draggingIndex];
      tasks[draggingIndex] := tasks[targetIndex];
      tasks[targetIndex] := tmp;
      assert tasks[..] == Swap(before, draggingIndex, targetIndex);
      SwapKeepsIndices(before, draggingIndex, targetIndex);
      SwapKeepsTally(before, draggingIndex, targetIndex);
      draggingIndex := targetIndex;
    }

    /** The drag-end handler: whatever the prior state, no drag is in progress. */
    method DragEnd()
      requires Valid()
      modifies this`draggingIndex
      ensures Valid() && draggingIndex == -1
    {
      draggingIndex := -1;
    }

    /**
     * The `onDrop` handler of the zone for status `zone`, given the drag
     * payload. When the payload parses to an index `k` that labels a record,
     * the state becomes a fresh copy of the sequence with that record's
     * status overwritten; otherwise the update fails (`ok` is false) and
     * nothing changes.
     */
    method Drop(payload: string, zone: Status) returns (ok: bool)
      requires Valid()
      modifies this
      ensures Valid() && draggingIndex == old(draggingIndex)
      ensures ok <==> DropResult(old(tasks[..]), payload, zone).Some?
      ensures ok ==> fresh(tasks) && DropResult(old(tasks[..]), payload, zone) == Some(tasks[..])
      ensures !ok ==> tasks == old(tasks) && tasks[..] == old(tasks[..])
    {
      var parsed := ParseInt(payload);
      if parsed.None? {
        return false;
      }
      var k := parsed.value;
      var realIndex := FindByIndex(tasks[..], k);
      if realIndex == -1 {
        return false;
      }
      ghost var before := tasks[..];
      var updatedTask := tasks[realIndex].(status := zone);
      var current := tasks;
      var newTasks := new Task[current.Length](i requires 0 <= i < current.Length reads current => current[i]);
      newTasks[realIndex] := updatedTask;
      tasks := newTasks;
      assert tasks[..] == before[realIndex := updatedTask];
      DroppedChangesOneStatus(before, k, zone);
      return true;
    }
  }
}
