/**
 * The task store: the list held in the task file and the five commands
 * that read or change it. Each command is a method of Store, written
 * with the loop the command runs; the list it leaves behind is given by
 * a function on the list it started from, and the properties of those
 * functions are proved below them.
 */
module TaskStore {
  import opened TaskModel

  /** Two records agree on everything but the id (what renumbering keeps). */
  predicate SameRecord(a: Task, b: Task)
  {
    a.description == b.description && a.status == b.status
    && a.createdAt == b.createdAt && a.updatedAt == b.updatedAt
  }

  // ---------------------------------------------------------------- add

  /** The list after `add`: a new todo task with the next id at the end. */
  function Appended(tasks: seq<Task>, description: string, createdAt: Timestamp, updatedAt: Timestamp): (r: seq<Task>)
    ensures |r| == |tasks| + 1 && r[..|tasks|] == tasks
    ensures r[|tasks|].id == |tasks| + 1 && r[|tasks|].status == Todo
    ensures r[|tasks|].description == description
    ensures r[|tasks|].createdAt == createdAt && r[|tasks|].updatedAt == updatedAt
    ensures Dense(r) <==> Dense(tasks)
  {
    tasks + [Task(|tasks| + 1, description, Todo, createdAt, updatedAt)]
  }

  // --------------------------------------------------------------- list

  /** Whether `list` with this filter shows the task (no filter shows all). */
  predicate Matches(t: Task, filter: Option<Status>)
  {
    filter.None? || t.status == filter.value
  }

  /** The tasks `list` shows, in stored order. */
  function Filtered(tasks: seq<Task>, filter: Option<Status>): (r: seq<Task>)
    ensures |r| <= |tasks|
    ensures forall t :: t in r <==> t in tasks && Matches(t, filter)
  {
    if tasks == [] then []
    else
      var last := tasks[|tasks| - 1];
      assert tasks == tasks[..|tasks| - 1] + [last];
      Filtered(tasks[..|tasks| - 1], filter) + (if Matches(last, filter) then [last] else [])
  }

  /** The printed line of each task, in order. */
  function Formatted(ts: seq<Task>): (lines: seq<string>)
    ensures |lines| == |ts|
    ensures forall i :: 0 <= i < |ts| ==> lines[i] == TaskLine(ts[i])
  {
    seq(|ts|, i requires 0 <= i < |ts| => TaskLine(ts[i]))
  }

  /**
   * What `list` prints: the notice when the store itself is empty, and
   * otherwise one line per shown task (possibly none at all).
   */
  function Listing(tasks: seq<Task>, filter: Option<Status>): (lines: seq<string>)
    ensures lines == [NoTasksMessage] <==> tasks == []
    ensures tasks != [] ==> |lines| <= |tasks|
  {
    if tasks == [] then [NoTasksMessage]
    else
      var shown := Formatted(Filtered(tasks, filter));
      // every task line opens with "[", the notice does not
      assert shown != [] ==> shown[0][0] == '[' != NoTasksMessage[0];
      shown
  }

  lemma FormattedSnoc(ts: seq<Task>, t: Task)
    ensures Formatted(ts + [t]) == Formatted(ts) + [TaskLine(t)]
  {
  }

  /** Extending the scanned prefix by one task adds that task's line exactly when it passes the filter. */
  lemma ShownPrefixStep(tasks: seq<Task>, i: nat, filter: Option<Status>)
    requires i < |tasks|
    ensures Formatted(Filtered(tasks[..i + 1], filter))
      == Formatted(Filtered(tasks[..i], filter)) + (if Matches(tasks[i], filter) then [TaskLine(tasks[i])] else [])
  {
    assert tasks[..i + 1][..i] == tasks[..i];
    var shown := Filtered(tasks[..i], filter);
    if Matches(tasks[i], filter) {
      assert Filtered(tasks[..i + 1], filter) == shown + [tasks[i]];
      FormattedSnoc(shown, tasks[i]);
    } else {
      assert Filtered(tasks[..i + 1], filter) == shown;
    }
  }

  /** Without a filter every task is shown. */
  lemma {:induction false} FilteredAll(tasks: seq<Task>)
    ensures Filtered(tasks, None) == tasks
  {
    if tasks != [] {
      FilteredAll(tasks[..|tasks| - 1]);
    }
  }

  /** A one-task store shows its task exactly when the task passes the filter. */
  lemma FilteredSingle(x: Task, filter: Option<Status>)
    ensures Filtered([x], filter) == if Matches(x, filter) then [x] else []
  {
  }

  /** Filtering keeps order: the shown tasks of a concatenation are those of each part, in turn. */
  lemma {:induction false} FilteredAppend(a: seq<Task>, b: seq<Task>, filter: Option<Status>)
    ensures Filtered(a + b, filter) == Filtered(a, filter) + Filtered(b, filter)
  {
    if b == [] {
      assert a + b == a;
    } else {
      var front := b[..|b| - 1];
      assert (a + b)[..|a + b| - 1] == a + front;
      FilteredAppend(a, front, filter);
    }
  }

  /** On a store with dense ids, the shown tasks come in strictly increasing id order. */
  lemma {:induction false} FilteredIncreasing(tasks: seq<Task>, filter: Option<Status>)
    requires Dense(tasks)
    ensures forall i, j :: 0 <= i < j < |Filtered(tasks, filter)| ==>
      Filtered(tasks, filter)[i].id < Filtered(tasks, filter)[j].id
  {
    if tasks != [] {
      var front := tasks[..|tasks| - 1];
      var last := tasks[|tasks| - 1];
      FilteredIncreasing(front, filter);
      var f := Filtered(front, filter);
      forall t | t in f
        ensures t.id < last.id
      {
        var k :| 0 <= k < |front| && front[k] == t;
      }
    }
  }

  /** The "No tasks found." notice appears exactly when the unfiltered store is empty. */
  lemma ListingNoticeIffEmpty(tasks: seq<Task>, filter: Option<Status>)
    ensures NoTasksMessage in Listing(tasks, filter) <==> tasks == []
  {
  }

  /** A filter no task passes shows nothing. */
  lemma {:induction false} FilteredNoneMatch(tasks: seq<Task>, filter: Option<Status>)
    requires forall i :: 0 <= i < |tasks| ==> !Matches(tasks[i], filter)
    ensures Filtered(tasks, filter) == []
  {
    if tasks != [] {
      FilteredNoneMatch(tasks[..|tasks| - 1], filter);
    }
  }

  /** A non-empty store whose tasks all fail the filter prints nothing at all. */
  lemma ListingNoMatchIsSilent(tasks: seq<Task>, filter: Option<Status>)
    requires tasks != []
    requires forall i :: 0 <= i < |tasks| ==> !Matches(tasks[i], filter)
    ensures Listing(tasks, filter) == []
  {
    FilteredNoneMatch(tasks, filter);
  }

  /**
   * With any filter, a non-empty store prints exactly the lines of the
   * stored tasks that pass the filter, and no other line.
   */
  lemma ListingShowsMatches(tasks: seq<Task>, filter: Option<Status>)
    requires tasks != []
    ensures forall l :: l in Listing(tasks, filter) <==>
      exists t :: t in tasks && Matches(t, filter) && l == TaskLine(t)
  {
  }

  /** Without a filter, a non-empty store prints every task, in stored order. */
  lemma ListingUnfiltered(tasks: seq<Task>)
    requires tasks != []
    ensures Listing(tasks, None) == Formatted(tasks)
  {
    FilteredAll(tasks);
  }

  // ---------------------------------------------------- update / status

  /** The list after `update`: the first task with the id gets the new description and update time. */
  function WithDescription(tasks: seq<Task>, id: int, description: string, now: Timestamp): (r: seq<Task>)
    ensures |r| == |tasks|
    ensures FindTask(tasks, id).None? ==> r == tasks
    ensures FindTask(tasks, id).Some? ==>
      var i := FindTask(tasks, id).value;
      r[i].description == description && r[i].updatedAt == now
      && r[i].id == tasks[i].id && r[i].status == tasks[i].status && r[i].createdAt == tasks[i].createdAt
      && forall j :: 0 <= j < |tasks| && j != i ==> r[j] == tasks[j]
    ensures Dense(r) <==> Dense(tasks)
  {
    match FindTask(tasks, id)
    case None => tasks
    case Some(i) => tasks[i := tasks[i].(description := description, updatedAt := now)]
  }

  /** The list after a status change: the first task with the id gets the new status and update time. */
  function WithStatus(tasks: seq<Task>, id: int, status: Status, now: Timestamp): (r: seq<Task>)
    ensures |r| == |tasks|
    ensures FindTask(tasks, id).None? ==> r == tasks
    ensures FindTask(tasks, id).Some? ==>
      var i := FindTask(tasks, id).value;
      r[i].status == status && r[i].updatedAt == now
      && r[i].id == tasks[i].id && r[i].description == tasks[i].description && r[i].createdAt == tasks[i].createdAt
      && forall j :: 0 <= j < |tasks| && j != i ==> r[j] == tasks[j]
    ensures Dense(r) <==> Dense(tasks)
  {
    match FindTask(tasks, id)
    case None => tasks
    case Some(i) => tasks[i := tasks[i].(status := status, updatedAt := now)]
  }

  // ------------------------------------------------------------- delete

  /** Every task's id set to its 1-based position, nothing else touched. */
  function Renumbered(s: seq<Task>): (r: seq<Task>)
    ensures |r| == |s| && Dense(r)
    ensures forall j :: 0 <= j < |s| ==> SameRecord(r[j], s[j])
  {
    seq(|s|, j requires 0 <= j < |s| => s[j].(id := j + 1))
  }

  /**
   * The list after `delete`: the first task with the id is removed, the
   * others keep their order and records, and ids become positions again.
   */
  function WithoutTask(tasks: seq<Task>, id: int): (r: seq<Task>)
    ensures FindTask(tasks, id).None? ==> r == tasks
    ensures FindTask(tasks, id).Some? ==>
      var i := FindTask(tasks, id).value;
      |r| == |tasks| - 1 && Dense(r)
      && (forall j :: 0 <= j < i ==> SameRecord(r[j], tasks[j]))
      && (forall j :: i <= j < |r| ==> SameRecord(r[j], tasks[j + 1]))
  {
    match FindTask(tasks, id)
    case None => tasks
    case Some(i) => Renumbered(tasks[..i] + tasks[i + 1..])
  }

  /**
   * Deleting from a store with ids 1..N succeeds exactly for an id in 1..N,
   * removes the task at position id - 1 and leaves ids 1..N-1.
   */
  lemma DeleteOnDense(tasks: seq<Task>, id: int)
    requires Dense(tasks)
    ensures 1 <= id <= |tasks| ==>
      var r := WithoutTask(tasks, id);
      |r| == |tasks| - 1 && Dense(r)
      && (forall j :: 0 <= j < id - 1 ==> SameRecord(r[j], tasks[j]))
      && (forall j :: id - 1 <= j < |r| ==> SameRecord(r[j], tasks[j + 1]))
    ensures !(1 <= id <= |tasks|) ==> WithoutTask(tasks, id) == tasks
  {
    DenseFind(tasks, id);
  }

  // -------------------------------------------------------------- store

  /** The task file of one invocation: loaded on entry, saved by every command that changes it. */
  class Store {
    var tasks: seq<Task>

    /** Loading: the saved list, or an empty one when there is no file yet. */
    constructor Open(saved: Option<seq<Task>>)
      ensures tasks == if saved.Some? then saved.value else []
    {
      tasks := if saved.Some? then saved.value else [];
    }

    method Add(description: string, createdAt: Timestamp, updatedAt: Timestamp) returns (lines: seq<string>)
      modifies this
      ensures tasks == Appended(old(tasks), description, createdAt, updatedAt)
      ensures lines == [AddedMessage(|old(tasks)| + 1)]
    {
      var taskId := |tasks| + 1;
      var task := Task(taskId, description, Todo, createdAt, updatedAt);
      tasks := tasks + [task];
      lines := [AddedMessage(taskId)];
    }

    method List(filter: Option<Status>) returns (lines: seq<string>)
      ensures lines == Listing(tasks, filter)
    {
      if tasks == [] {
        return [NoTasksMessage];
      }
      lines := [];
      for i := 0 to |tasks|
        invariant lines == Formatted(Filtered(tasks[..i], filter))
      {
        ShownPrefixStep(tasks, i, filter);
        if Matches(tasks[i], filter) {
          lines := lines + [TaskLine(tasks[i])];
        }
      }
      assert tasks[..|tasks|] == tasks;
    }

    method Update(id: int, description: string, now: Timestamp) returns (lines: seq<string>)
      modifies this
      ensures tasks == WithDescription(old(tasks), id, description, now)
      ensures lines == [if FindTask(old(tasks), id).Some? then UpdatedMessage(id) else NotFoundMessage(id)]
    {
      var i := 0;
      while i < |tasks|
        invariant 0 <= i <= |tasks| && tasks == old(tasks)
        invariant forall j :: 0 <= j < i ==> tasks[j].id != id
      {
        if tasks[i].id == id {
          tasks := tasks[i := tasks[i].(description := description, updatedAt := now)];
          return [UpdatedMessage(id)];
        }
        i := i + 1;
      }
      lines := [NotFoundMessage(id)];
    }

    method Delete(id: int) returns (lines: seq<string>)
      modifies this
      ensures tasks == WithoutTask(old(tasks), id)
      ensures lines == [if FindTask(old(tasks), id).Some? then DeletedMessage(id) else NotFoundMessage(id)]
    {
      var i := 0;
      while i < |tasks|
        invariant 0 <= i <= |tasks| && tasks == old(tasks)
        invariant forall j :: 0 <= j < i ==> tasks[j].id != id
      {
        if tasks[i].id == id {
          tasks := tasks[..i] + tasks[i + 1..];
          ghost var remaining := tasks;
          var k := 0;
          while k < |tasks|
            invariant 0 <= k <= |tasks| == |remaining|
            invariant forall j :: 0 <= j < k ==> tasks[j] == remaining[j].(id := j + 1)
            invariant forall j :: k <= j < |tasks| ==> tasks[j] == remaining[j]
          {
            tasks := tasks[k := tasks[k].(id := k + 1)];
            k := k + 1;
          }
          return [DeletedMessage(id)];
        }
        i := i + 1;
      }
      lines := [NotFoundMessage(id)];
    }

    method ChangeStatus(id: int, status: Status, now: Timestamp) returns (lines: seq<string>)
      modifies this
      ensures tasks == WithStatus(old(tasks), id, status, now)
      ensures lines == [if FindTask(old(tasks), id).Some? then StatusChangedMessage(id, status) else NotFoundMessage(id)]
    {
      var i := 0;
      while i < |tasks|
        invariant 0 <= i <= |tasks| && tasks == old(tasks)
        invariant forall j :: 0 <= j < i ==> tasks[j].id != id
      {
        if tasks[i].id == id {
          tasks := tasks[i := tasks[i].(status := status, updatedAt := now)];
          return [StatusChangedMessage(id, status)];
        }
        i := i + 1;
      }
      lines := [NotFoundMessage(id)];
    }
  }
}
