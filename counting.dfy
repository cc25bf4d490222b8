/**
 * The per-status counters of `ItemCollection` in src/App.js: a left fold
 * over the task sequence into an object keyed by the lower-cased status
 * name, started from four zero counters.
 */
module Counting {
  import opened Tasks

  /** ASCII lower-casing of one character, as `toLowerCase` does on these names. */
  function LowerChar(c: char): char
  {
    if 'A' <= c <= 'Z' then (c as int - 'A' as int + 'a' as int) as char else c
  }

  function Lower(s: string): (r: string)
    ensures |r| == |s|
  {
    seq(|s|, i requires 0 <= i < |s| => LowerChar(s[i]))
  }

  /**
   * The counter key of a status: what `cur.status.toLowerCase()` computes
   * from its name, and one of the keys the fold starts with.
   */
  function Key(s: Status): (r: string)
    ensures r == Lower(StatusName(s))
    ensures r in Initial
  {
    match s
    case Preparing => "preparing"
    case Working => "working"
    case Finished => "finished"
    case Cancelled => "cancelled"
  }

  /** The accumulator the fold starts from. */
  const Initial: map<string, int> := map["finished" := 0, "working" := 0, "preparing" := 0, "cancelled" := 0]

  /** The counters after folding over `ts`; they always have exactly the four keys. */
  function Tally(ts: seq<Task>): (r: map<string, int>)
    ensures r.Keys == Initial.Keys
    decreases |ts|
  {
    if ts == [] then Initial
    else
      var acc := Tally(ts[..|ts| - 1]);
      var key := Key(ts[|ts| - 1].status);
      acc[key := acc[key] + 1]
  }

  /** The statuses of `ts`, in order. */
  function StatusesOf(ts: seq<Task>): (r: seq<Status>)
    ensures |r| == |ts|
  {
    seq(|ts|, i requires 0 <= i < |ts| => ts[i].status)
  }

  /** How many records of `ts` are in status `s`. */
  function Occurrences(ts: seq<Task>, s: Status): nat
  {
    multiset(StatusesOf(ts))[s]
  }

  lemma StatusesOfSnoc(ts: seq<Task>)
    requires ts != []
    ensures StatusesOf(ts) == StatusesOf(ts[..|ts| - 1]) + [ts[|ts| - 1].status]
  {
  }

  /** Each counter holds exactly the number of records in its status. */
  lemma {:induction false} TallyCountsStatuses(ts: seq<Task>)
    ensures forall s :: Tally(ts)[Key(s)] == Occurrences(ts, s)
    decreases |ts|
  {
    if ts != [] {
      var init := ts[..|ts| - 1];
      TallyCountsStatuses(init);
      StatusesOfSnoc(ts);
    }
  }

  /** The four counters start at zero and always sum to the number of tasks. */
  lemma {:induction false} TallySum(ts: seq<Task>)
    ensures Tally([]) == map["finished" := 0, "working" := 0, "preparing" := 0, "cancelled" := 0]
    ensures Tally(ts)["finished"] >= 0 && Tally(ts)["working"] >= 0
    ensures Tally(ts)["preparing"] >= 0 && Tally(ts)["cancelled"] >= 0
    ensures Tally(ts)["finished"] + Tally(ts)["working"] + Tally(ts)["preparing"] + Tally(ts)["cancelled"] == |ts|
    decreases |ts|
  {
    if ts != [] {
      TallySum(ts[..|ts| - 1]);
    }
  }

  /** The counters depend only on how many records are in each status, not on their order. */
  lemma TallyIgnoresOrder(ts: seq<Task>, us: seq<Task>)
    requires multiset(StatusesOf(ts)) == multiset(StatusesOf(us))
    ensures Tally(ts) == Tally(us)
  {
    TallyCountsStatuses(ts);
    TallyCountsStatuses(us);
    assert Tally(ts)[Key(Preparing)] == Tally(us)[Key(Preparing)];
    assert Tally(ts)[Key(Working)] == Tally(us)[Key(Working)];
    assert Tally(ts)[Key(Finished)] == Tally(us)[Key(Finished)];
    assert Tally(ts)[Key(Cancelled)] == Tally(us)[Key(Cancelled)];
  }

  /**
   * Overwriting the status of record `p` with `z` moves one unit from the
   * counter of its old status to the counter of `z`.
   */
  lemma TallyAfterStatusChange(ts: seq<Task>, p: nat, z: Status)
    requires p < |ts|
    ensures forall s ::
              Tally(ts[p := ts[p].(status := z)])[Key(s)] ==
              Tally(ts)[Key(s)] - (if ts[p].status == s then 1 else 0) + (if z == s then 1 else 0)
  {
    var us := ts[p := ts[p].(status := z)];
    assert StatusesOf(us) == StatusesOf(ts)[p := z];
    TallyCountsStatuses(ts);
    TallyCountsStatuses(us);
  }
}
