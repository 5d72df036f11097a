/** The per-day record of the store: a mood and an ordered list of tasks, addressed by index. */
module Records {
  import opened Wrappers

  datatype Mood = Happy | Neutral | Sad

  /** A task; `id` is the creation timestamp, which nothing uses to address it. */
  datatype Task = Task(id: int, text: string, completed: bool)

  /** `{mood, tasks}`; a mood of `None` is the source's `null`. */
  datatype DayRecord = DayRecord(mood: Option<Mood>, tasks: seq<Task>)

  /** The record created on first access to a day: `{mood: null, tasks: []}`. */
  const EmptyDay: DayRecord := DayRecord(None, [])

  predicate AllCompleted(tasks: seq<Task>) {
    forall j :: 0 <= j < |tasks| ==> tasks[j].completed
  }

  predicate NoneCompleted(tasks: seq<Task>) {
    forall j :: 0 <= j < |tasks| ==> !tasks[j].completed
  }

  /** The positions of the completed tasks: an independent reference for the count below. */
  function CompletedIndices(tasks: seq<Task>): set<int> {
    set j | 0 <= j < |tasks| && tasks[j].completed
  }

  /** `tasks.filter(task => task.completed).length`. */
  function CompletedCount(tasks: seq<Task>): (n: nat)
    ensures n <= |tasks|
  {
    if tasks == [] then 0
    else CompletedCount(tasks[..|tasks| - 1]) + (if tasks[|tasks| - 1].completed then 1 else 0)
  }

  /** Every task is completed exactly when the count reaches the total, and none is exactly when it is 0. */
  lemma {:induction false} CompletedCountExtremes(tasks: seq<Task>)
    ensures CompletedCount(tasks) == |tasks| <==> AllCompleted(tasks)
    ensures CompletedCount(tasks) == 0 <==> NoneCompleted(tasks)
  {
    if tasks != [] {
      var last := |tasks| - 1;
      var prefix := tasks[..last];
      CompletedCountExtremes(prefix);
      assert forall j :: 0 <= j < last ==> prefix[j] == tasks[j];
    }
  }

  /** The filtered length is the number of positions holding a completed task. */
  lemma {:induction false} CompletedCountIsCardinality(tasks: seq<Task>)
    ensures CompletedCount(tasks) == |CompletedIndices(tasks)|
  {
    if tasks != [] {
      var last := |tasks| - 1;
      var prefix := tasks[..last];
      CompletedCountIsCardinality(prefix);
      assert CompletedIndices(tasks) == CompletedIndices(prefix) + (if tasks[last].completed then {last} else {});
    }
  }

  /** Counting completed tasks distributes over concatenation. */
  lemma {:induction false} CompletedCountConcat(a: seq<Task>, b: seq<Task>)
    ensures CompletedCount(a + b) == CompletedCount(a) + CompletedCount(b)
  {
    if b == [] {
      assert a + b == a;
    } else {
      var last := |b| - 1;
      var ab := a + b;
      assert ab[..|ab| - 1] == a + b[..last];
      assert ab[|ab| - 1] == b[last];
      CompletedCountConcat(a, b[..last]);
    }
  }

  /** The count of a list is the count before position `i`, task `i` itself, and the count after it. */
  lemma CompletedCountAround(tasks: seq<Task>, i: int)
    requires 0 <= i < |tasks|
    ensures CompletedCount(tasks) == CompletedCount(tasks[..i]) + (if tasks[i].completed then 1 else 0) + CompletedCount(tasks[i + 1..])
  {
    var pre, post := tasks[..i], tasks[i + 1..];
    var single := [tasks[i]];
    assert single[..0] == [];
    CompletedCountConcat(pre, single);
    CompletedCountConcat(pre + single, post);
    assert (pre + single) + post == tasks;
  }

  /** `dayData.tasks.push(newTask)` with a fresh, unfinished task. */
  function Appended(tasks: seq<Task>, id: int, text: string): (r: seq<Task>)
    ensures |r| == |tasks| + 1 && r[..|tasks|] == tasks
    ensures r[|tasks|] == Task(id, text, false)
    ensures CompletedCount(r) == CompletedCount(tasks)
  {
    var r := tasks + [Task(id, text, false)];
    assert r[..|tasks|] == tasks;
    r
  }

  /** `tasks[i].completed = !tasks[i].completed`. */
  function Toggled(tasks: seq<Task>, i: int): (r: seq<Task>)
    requires 0 <= i < |tasks|
    ensures |r| == |tasks|
    ensures r[i].id == tasks[i].id && r[i].text == tasks[i].text && r[i].completed == !tasks[i].completed
    ensures forall j :: 0 <= j < |r| && j != i ==> r[j] == tasks[j]
  {
    tasks[i := tasks[i].(completed := !tasks[i].completed)]
  }

  /** `tasks.splice(i, 1)`. */
  function Removed(tasks: seq<Task>, i: int): (r: seq<Task>)
    requires 0 <= i < |tasks|
    ensures |r| == |tasks| - 1
    ensures forall j :: 0 <= j < i ==> r[j] == tasks[j]
    ensures forall j :: i <= j < |r| ==> r[j] == tasks[j + 1]
    ensures multiset(r) + multiset{tasks[i]} == multiset(tasks)
  {
    assert tasks == tasks[..i] + [tasks[i]] + tasks[i + 1..];
    tasks[..i] + tasks[i + 1..]
  }

  /** Toggling the same task twice restores the list. */
  lemma ToggledTwice(tasks: seq<Task>, i: int)
    requires 0 <= i < |tasks|
    ensures Toggled(Toggled(tasks, i), i) == tasks
  {
  }

  /** A toggle moves the completed count by exactly one, in the direction of the flip. */
  lemma ToggledCount(tasks: seq<Task>, i: int)
    requires 0 <= i < |tasks|
    ensures CompletedCount(Toggled(tasks, i)) == CompletedCount(tasks) + (if tasks[i].completed then -1 else 1)
  {
    var r := Toggled(tasks, i);
    assert r[..i] == tasks[..i] && r[i + 1..] == tasks[i + 1..];
    CompletedCountAround(tasks, i);
    CompletedCountAround(r, i);
  }

  /** A delete lowers the completed count by one exactly when the removed task was completed. */
  lemma RemovedCount(tasks: seq<Task>, i: int)
    requires 0 <= i < |tasks|
    ensures CompletedCount(Removed(tasks, i)) == CompletedCount(tasks) - (if tasks[i].completed then 1 else 0)
  {
    CompletedCountAround(tasks, i);
    CompletedCountConcat(tasks[..i], tasks[i + 1..]);
  }
}
