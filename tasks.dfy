/**
 * The task records of the to-do list and the seed list they are built from
 * when the application starts (the `App` component of src/App.js).
 */
module Tasks {

  /** The four states a task can be in. */
  datatype Status = Preparing | Working | Finished | Cancelled

  /** The text stored in a task's `status` field and shown on a drop zone. */
  function StatusName(s: Status): string
  {
    match s
    case Preparing => "Preparing"
    case Working => "Working"
    case Finished => "Finished"
    case Cancelled => "Cancelled"
  }

  /**
   * One task record: its display text, its status, and its stable 1-based
   * `index`, which labels the task and is never renumbered by reordering.
   */
  datatype Task = Task(content: string, status: Status, index: int)

  /** The fixed list of task texts the application is seeded with. */
  const TaskList: seq<string> := [
    "Each item should have an index number",
    "The item under the cursor should be highlighted",
    "After click an item, it should be flipped to its backside, in which the detailed descriptions (randomly generated) are shown",
    "The order of items can be arranged by drag & drop",
    "The index number should be maintained during reordering",
    "Each item is in one of the following state, indicated with font color",
    "Drag an item and drop it to the following state block will change its state",
    "Show a count number besides the following blocks"
  ]

  /**
   * The `taskList.map((task, index) => ...)` of the seed: the text at
   * position `i` of `list` becomes a `Preparing` task labelled `i + 1`.
   * `offset` is the number of texts already mapped.
   */
  function SeedFrom(list: seq<string>, offset: nat): (r: seq<Task>)
    ensures |r| == |list|
    decreases |list|
  {
    if list == [] then []
    else [Task(list[0], Preparing, offset + 1)] + SeedFrom(list[1..], offset + 1)
  }

  /** The task sequence built from `list` when the application starts. */
  function Seed(list: seq<string>): (r: seq<Task>)
    ensures |r| == |list|
  {
    SeedFrom(list, 0)
  }

  /** No two records of `s` carry the same stable index. */
  ghost predicate UniqueIndices(s: seq<Task>)
  {
    forall i, j :: 0 <= i < |s| && 0 <= j < |s| && s[i].index == s[j].index ==> i == j
  }

  /** Mapping the texts from `offset` on gives one record per text, in order. */
  lemma {:induction false} SeedFromAt(list: seq<string>, offset: nat, i: nat)
    requires i < |list|
    ensures SeedFrom(list, offset)[i] == Task(list[i], Preparing, offset + i + 1)
  {
    if i > 0 {
      SeedFromAt(list[1..], offset + 1, i - 1);
    }
  }

  /**
   * After seeding there is one record per seed text, in order: record `i`
   * holds text `i`, status `Preparing` and index `i + 1`.
   */
  lemma SeedShape(list: seq<string>)
    ensures |Seed(list)| == |list|
    ensures forall i :: 0 <= i < |list| ==> Seed(list)[i] == Task(list[i], Preparing, i + 1)
  {
    forall i | 0 <= i < |list|
      ensures Seed(list)[i] == Task(list[i], Preparing, i + 1)
    {
      SeedFromAt(list, 0, i);
    }
  }

  /** The set of stable indices carried by the records of `s`. */
  ghost function IndexSet(s: seq<Task>): set<int>
  {
    set i | 0 <= i < |s| :: s[i].index
  }

  /** The stable indices of the seeded records are exactly 1..n, each once. */
  lemma SeedIndices(list: seq<string>)
    ensures UniqueIndices(Seed(list))
    ensures forall k :: k in IndexSet(Seed(list)) <==> 1 <= k <= |list|
  {
    SeedShape(list);
    var s := Seed(list);
    forall k | 1 <= k <= |list|
      ensures k in IndexSet(s)
    {
      assert s[k - 1].index == k;
    }
  }
}
