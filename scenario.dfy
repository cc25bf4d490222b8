/**
 * The whole widget on its own seed list: every task starts `Preparing`,
 * and drops move tasks between the counters while their labels stay put.
 */
module Scenario {
  import opened Tasks
  import opened Counting
  import opened Board
  import opened ItemView
  import opened Wrappers

  /** Right after seeding all tasks are counted as preparing. */
  lemma SeedTally(list: seq<string>)
    ensures Tally(Seed(list)) == map["finished" := 0, "working" := 0, "preparing" := |list|, "cancelled" := 0]
  {
    var s := Seed(list);
    SeedShape(list);
    TallyCountsStatuses(s);
    TallySum(s);
    forall st | st != Preparing
      ensures Occurrences(s, st) == 0
    {
      assert st !in StatusesOf(s);
    }
    assert Tally(s)[Key(Finished)] == 0 && Tally(s)[Key(Working)] == 0 && Tally(s)[Key(Cancelled)] == 0;
  }

  /** With unique labels, dropping `k` rewrites exactly the record in slot `p` labelled `k`. */
  lemma DroppedAt(s: seq<Task>, p: nat, k: int, z: Status)
    requires UniqueIndices(s) && p < |s| && s[p].index == k
    ensures Dropped(s, k, z) == Some(s[p := s[p].(status := z)])
    ensures UniqueIndices(s[p := s[p].(status := z)])
  {
    DroppedChangesOneStatus(s, k, z);
  }

  /** The counters are determined by their four values. */
  lemma TallyFromCounts(ts: seq<Task>, f: int, w: int, p: int, c: int)
    requires Tally(ts)[Key(Finished)] == f && Tally(ts)[Key(Working)] == w
    requires Tally(ts)[Key(Preparing)] == p && Tally(ts)[Key(Cancelled)] == c
    ensures Tally(ts) == map["finished" := f, "working" := w, "preparing" := p, "cancelled" := c]
  {
  }

  /** The sequence after the two drops, written as slot updates of the seed. */
  function TwoDrops(list: seq<string>): (r: seq<Task>)
    requires |list| == 8
    ensures |r| == 8
  {
    var s0 := Seed(list);
    var s1 := s0[2 := s0[2].(status := Finished)];
    s1[4 := s1[4].(status := Cancelled)]
  }

  /** The two drops find tasks 3 and 5 in slots 2 and 4. */
  lemma TwoDropsResolve(list: seq<string>)
    requires |list| == 8
    ensures Dropped(Seed(list), 3, Finished).Some?
    ensures var s1 := Dropped(Seed(list), 3, Finished).value;
            Dropped(s1, 5, Cancelled) == Some(TwoDrops(list))
  {
    var s0 := Seed(list);
    SeedShape(list);
    SeedIndices(list);
    DroppedAt(s0, 2, 3, Finished);
    var s1 := s0[2 := s0[2].(status := Finished)];
    assert s1[4] == s0[4];
    DroppedAt(s1, 4, 5, Cancelled);
  }

  /** After the two drops the counters read 1 finished, 6 preparing, 1 cancelled. */
  lemma TwoDropsTally(list: seq<string>)
    requires |list| == 8
    ensures Tally(TwoDrops(list)) == map["finished" := 1, "working" := 0, "preparing" := 6, "cancelled" := 1]
    ensures StruckCount(TwoDrops(list)) == 2
  {
    var s0 := Seed(list);
    SeedShape(list);
    SeedTally(list);
    var s1 := s0[2 := s0[2].(status := Finished)];
    assert s1[4] == s0[4];
    TallyAfterStatusChange(s0, 2, Finished);
    TallyAfterStatusChange(s1, 4, Cancelled);
    TallyFromCounts(TwoDrops(list), 1, 0, 6, 1);
    StruckMatchesClosedCounts(TwoDrops(list));
  }

  /**
   * Seeding eight tasks, dropping task 3 onto Finished and task 5 onto
   * Cancelled leaves six preparing, one finished and one cancelled task;
   * tasks 3 and 5 are struck through, and every index 1..8 is still
   * attached to its original text.
   */
  lemma DropTwoOfEight(list: seq<string>)
    requires |list| == 8
    ensures Dropped(Seed(list), 3, Finished).Some?
    ensures var s1 := Dropped(Seed(list), 3, Finished).value;
            && Dropped(s1, 5, Cancelled).Some?
            && var s2 := Dropped(s1, 5, Cancelled).value;
               && |s2| == 8
               && Tally(s2) == map["finished" := 1, "working" := 0, "preparing" := 6, "cancelled" := 1]
               && StruckThrough(s2[2].status) && StruckThrough(s2[4].status) && StruckCount(s2) == 2
               && forall i :: 0 <= i < 8 ==> s2[i].index == i + 1 && s2[i].content == list[i]
  {
    TwoDropsResolve(list);
    TwoDropsTally(list);
    SeedShape(list);
    var s2 := TwoDrops(list);
    assert forall i :: 0 <= i < 8 ==> s2[i].index == Seed(list)[i].index && s2[i].content == Seed(list)[i].content;
  }

  /** The same run on the application's own seed list. */
  lemma DropTwoOfTaskList()
    ensures Dropped(Seed(TaskList), 3, Finished).Some?
    ensures var s1 := Dropped(Seed(TaskList), 3, Finished).value;
            && Dropped(s1, 5, Cancelled).Some?
            && var s2 := Dropped(s1, 5, Cancelled).value;
               && |s2| == 8
               && Tally(s2) == map["finished" := 1, "working" := 0, "preparing" := 6, "cancelled" := 1]
               && StruckThrough(s2[2].status) && StruckThrough(s2[4].status) && StruckCount(s2) == 2
               && forall i :: 0 <= i < 8 ==> s2[i].index == i + 1 && s2[i].content == TaskList[i]
  {
    DropTwoOfEight(TaskList);
  }

  /** The stable indices of `s` in slot order. */
  function Labels(s: seq<Task>): (r: seq<int>)
    ensures |r| == |s| && forall i :: 0 <= i < |s| ==> r[i] == s[i].index
  {
    seq(|s|, i requires 0 <= i < |s| => s[i].index)
  }

  /**
   * What the session below leaves: swapping the first two seeded records
   * and setting the status of the record now in slot 1 to Finished.
   */
  lemma SwapThenFinish(list: seq<string>)
    requires |list| == 8
    ensures var s1 := Swap(Seed(list), 0, 1);
            var s2 := s1[1 := s1[1].(status := Finished)];
            && Labels(s2) == [2, 1, 3, 4, 5, 6, 7, 8]
            && Tally(s2) == map["finished" := 1, "working" := 0, "preparing" := 7, "cancelled" := 0]
  {
    var s0 := Seed(list);
    SeedShape(list);
    SeedTally(list);
    var s1 := Swap(s0, 0, 1);
    var s2 := s1[1 := s1[1].(status := Finished)];
    SwapKeepsTally(s0, 0, 1);
    TallyAfterStatusChange(s1, 1, Finished);
    TallyFromCounts(s2, 1, 0, 7, 0);
    assert s1[1].status == Preparing;
  }

  /**
   * A drag session on a seed of eight tasks: task 1 is dragged over task
   * 2 (the two trade slots), the payload of task 1 is dropped onto
   * Finished, and the drag ends. The drop finds task 1 in its new slot.
   */
  method ReorderThenDrop(list: seq<string>) returns (order: seq<int>, counts: map<string, int>)
    requires |list| == 8
    ensures order == [2, 1, 3, 4, 5, 6, 7, 8]
    ensures counts == map["finished" := 1, "working" := 0, "preparing" := 7, "cancelled" := 0]
  {
    var c := new ItemCollection(list);
    SeedShape(list);
    ghost var s0 := c.tasks[..];
    var first, second := c.tasks[0], c.tasks[1];
    var payload := c.StartDragging(first);
    c.DragEnter(second);
    assert IndexOf(s0, second) == 1;
    ghost var s1 := c.tasks[..];
    PayloadFindsDraggedTask(s1, first, Finished);
    assert IndexOf(s1, first) == 1;
    var ok := c.Drop(payload, Finished);
    c.DragEnd();
    SwapThenFinish(list);
    order := Labels(c.tasks[..]);
    counts := Tally(c.tasks[..]);
  }
}
