/**
 * The command line: each parsed command selects one store operation,
 * with the fixed status that the two mark commands pass. Execute is the
 * effect of one invocation on the saved list and its output; Run performs
 * it on a Store. A sequence of invocations runs each against the list the
 * previous one saved.
 */
module Dispatch {
  import opened TaskModel
  import opened TaskStore

  /** A command as the argument parser delivers it; NoCommand is a bare invocation. */
  datatype Command =
    | Add(task: string)
    | List(status: Option<Status>)
    | Update(id: int, description: string)
    | Delete(id: int)
    | MarkInProgress(id: int)
    | MarkDone(id: int)
    | NoCommand

  /** What an invocation prints: lines of its own, or the parser's usage text. */
  datatype Reply = Printed(lines: seq<string>) | Usage

  datatype Outcome = Outcome(tasks: seq<Task>, reply: Reply)

  /** The reply of a command that looks a task up by id. */
  function ByIdReply(tasks: seq<Task>, id: int, success: string): seq<string>
  {
    [if FindTask(tasks, id).Some? then success else NotFoundMessage(id)]
  }

  /**
   * One invocation on the saved list `tasks`. `now1` and `now2` are the
   * clock readings the command takes, in order: add reads the clock twice,
   * update and the mark commands once.
   */
  function Execute(tasks: seq<Task>, cmd: Command, now1: Timestamp, now2: Timestamp): (o: Outcome)
    ensures Dense(tasks) ==> Dense(o.tasks)
    ensures (cmd.List? || cmd.NoCommand?) ==> o.tasks == tasks
    ensures o.reply.Usage? <==> cmd.NoCommand?
  {
    match cmd
    case Add(description) =>
      Outcome(Appended(tasks, description, now1, now2), Printed([AddedMessage(|tasks| + 1)]))
    case List(filter) =>
      Outcome(tasks, Printed(Listing(tasks, filter)))
    case Update(id, description) =>
      Outcome(WithDescription(tasks, id, description, now1), Printed(ByIdReply(tasks, id, UpdatedMessage(id))))
    case Delete(id) =>
      Outcome(WithoutTask(tasks, id), Printed(ByIdReply(tasks, id, DeletedMessage(id))))
    case MarkInProgress(id) =>
      Outcome(WithStatus(tasks, id, InProgress, now1),
        Printed(ByIdReply(tasks, id, StatusChangedMessage(id, InProgress))))
    case MarkDone(id) =>
      Outcome(WithStatus(tasks, id, Done, now1), Printed(ByIdReply(tasks, id, StatusChangedMessage(id, Done))))
    case NoCommand =>
      Outcome(tasks, Usage)
  }

  /** Performs one invocation on the store. */
  method Run(store: Store, cmd: Command, now1: Timestamp, now2: Timestamp) returns (reply: Reply)
    modifies store
    ensures Outcome(store.tasks, reply) == Execute(old(store.tasks), cmd, now1, now2)
  {
    match cmd {
      case Add(description) =>
        var lines := store.Add(description, now1, now2);
        reply := Printed(lines);
      case List(filter) =>
        var lines := store.List(filter);
        reply := Printed(lines);
      case Update(id, description) =>
        var lines := store.Update(id, description, now1);
        reply := Printed(lines);
      case Delete(id) =>
        var lines := store.Delete(id);
        reply := Printed(lines);
      case MarkInProgress(id) =>
        var lines := store.ChangeStatus(id, InProgress, now1);
        reply := Printed(lines);
      case MarkDone(id) =>
        var lines := store.ChangeStatus(id, Done, now1);
        reply := Printed(lines);
      case NoCommand =>
        reply := Usage;
    }
  }

  /** The id a command looks up, if it takes one. */
  predicate TakesId(cmd: Command)
  {
    cmd.Update? || cmd.Delete? || cmd.MarkInProgress? || cmd.MarkDone?
  }

  /**
   * A command naming an unknown id leaves the list exactly as it was and
   * prints the not-found line; a known id never prints it.
   */
  lemma UnknownIdIff(tasks: seq<Task>, cmd: Command, now1: Timestamp, now2: Timestamp)
    requires TakesId(cmd)
    ensures FindTask(tasks, cmd.id).None? ==>
      Execute(tasks, cmd, now1, now2) == Outcome(tasks, Printed([NotFoundMessage(cmd.id)]))
    ensures FindTask(tasks, cmd.id).Some? ==>
      Execute(tasks, cmd, now1, now2).reply != Printed([NotFoundMessage(cmd.id)])
  {
    // The success messages and the not-found message differ in their fixed wording.
  }

  /** The two mark commands set the found task's status to in-progress and done respectively. */
  lemma MarkSetsStatus(tasks: seq<Task>, cmd: Command, now1: Timestamp, now2: Timestamp)
    requires cmd.MarkInProgress? || cmd.MarkDone?
    requires FindTask(tasks, cmd.id).Some?
    ensures Execute(tasks, cmd, now1, now2).tasks[FindTask(tasks, cmd.id).value].status
      == if cmd.MarkInProgress? then InProgress else Done
  {
  }

  /** One invocation with its two clock readings. */
  datatype Invocation = Invocation(cmd: Command, now1: Timestamp, now2: Timestamp)

  /** The saved list after running `runs` in order, starting from `tasks`. */
  function ExecuteAll(tasks: seq<Task>, runs: seq<Invocation>): seq<Task>
  {
    if runs == [] then tasks
    else
      var last := runs[|runs| - 1];
      Execute(ExecuteAll(tasks, runs[..|runs| - 1]), last.cmd, last.now1, last.now2).tasks
  }

  /** Dense ids are an invariant of every sequence of invocations. */
  lemma {:induction false} ExecuteAllKeepsDense(tasks: seq<Task>, runs: seq<Invocation>)
    requires Dense(tasks)
    ensures Dense(ExecuteAll(tasks, runs))
  {
    if runs != [] {
      ExecuteAllKeepsDense(tasks, runs[..|runs| - 1]);
    }
  }

  /**
   * Any sequence of adds, starting without a task file, saves exactly the
   * added tasks in the order added, with ids 1..N, all still todo.
   */
  lemma {:induction false} AddsBuildList(runs: seq<Invocation>)
    requires forall k :: 0 <= k < |runs| ==> runs[k].cmd.Add?
    ensures |ExecuteAll([], runs)| == |runs|
    ensures forall k :: 0 <= k < |runs| ==>
      ExecuteAll([], runs)[k] == Task(k + 1, runs[k].cmd.task, Todo, runs[k].now1, runs[k].now2)
  {
    if runs != [] {
      AddsBuildList(runs[..|runs| - 1]);
    }
  }

  /**
   * Add "Buy milk", add "Write report", delete 1, list: the one line shown
   * is the second task, renumbered to id 1.
   */
  lemma ScenarioAddAddDeleteList(c1: Timestamp, u1: Timestamp, c2: Timestamp, u2: Timestamp, t: Timestamp)
    ensures
      var s1 := Execute([], Add("Buy milk"), c1, u1);
      var s2 := Execute(s1.tasks, Add("Write report"), c2, u2);
      var s3 := Execute(s2.tasks, Delete(1), t, t);
      var s4 := Execute(s3.tasks, List(None), t, t);
      s1.reply == Printed([AddedMessage(1)]) && s2.reply == Printed([AddedMessage(2)])
      && s3.reply == Printed([DeletedMessage(1)])
      && s4.tasks == [Task(1, "Write report", Todo, c2, u2)]
      && s4.reply == Printed([TaskLine(Task(1, "Write report", Todo, c2, u2))])
  {
    ListingUnfiltered([Task(1, "Write report", Todo, c2, u2)]);
  }

  /** Adding "A" to an empty store and marking task 1 done gives one done task. */
  lemma AddThenMarkDone(c: Timestamp, u: Timestamp, t: Timestamp)
    ensures Execute(Execute([], Add("A"), c, u).tasks, MarkDone(1), t, t).tasks == [Task(1, "A", Done, c, t)]
  {
    var a := Task(1, "A", Todo, c, u);
    assert Execute([], Add("A"), c, u).tasks == [a];
    assert FindTask([a], 1) == Some(0);
  }

  /** Listing a one-task store by its status shows it; by another status shows nothing. */
  lemma ListSingle(x: Task, other: Status, t: Timestamp)
    requires other != x.status
    ensures Execute([x], List(Some(x.status)), t, t).reply == Printed([TaskLine(x)])
    ensures Execute([x], List(Some(other)), t, t).reply == Printed([])
  {
    FilteredSingle(x, Some(x.status));
    FilteredSingle(x, Some(other));
  }

  /**
   * Add "A", mark it done: listing done shows it, listing todo prints
   * nothing, not even the notice, because the store is not empty.
   */
  lemma ScenarioFilterMiss(c: Timestamp, u: Timestamp, t: Timestamp)
    ensures
      var s1 := Execute([], Add("A"), c, u);
      var s2 := Execute(s1.tasks, MarkDone(1), t, t);
      Execute(s2.tasks, List(Some(Done)), t, t).reply == Printed([TaskLine(Task(1, "A", Done, c, t))])
      && Execute(s2.tasks, List(Some(Todo)), t, t).reply == Printed([])
  {
    AddThenMarkDone(c, u, t);
    ListSingle(Task(1, "A", Done, c, t), Todo, t);
  }
}
