/**
 * The records of the task tracker: a task, its status, the dense-id
 * invariant of a task list, the search for a task by id that every
 * id-taking command performs, and the text the command line prints.
 */
module TaskModel {

  datatype Option<T> = None | Some(value: T)

  /** The three states a task can be in; a new task starts as Todo. */
  datatype Status = Todo | InProgress | Done

  /** The clock reading stored with a task ("YYYY-MM-DD HH:MM:SS"), taken as given. */
  type Timestamp = string

  /** One record of the task file. */
  datatype Task = Task(
    id: int,
    description: string,
    status: Status,
    createdAt: Timestamp,
    updatedAt: Timestamp)

  /** The spelling of a status in the file and on the command line. */
  function StatusName(s: Status): string
  {
    match s
    case Todo => "todo"
    case InProgress => "in-progress"
    case Done => "done"
  }

  /** The ids of `tasks` are exactly 1..|tasks|, in list order. */
  ghost predicate Dense(tasks: seq<Task>)
  {
    forall i :: 0 <= i < |tasks| ==> tasks[i].id == i + 1
  }

  /**
   * The position of the first task whose id is `id`, as the loops of the
   * update, delete and status commands find it, or None when no task has it.
   */
  function FindTask(tasks: seq<Task>, id: int): (r: Option<nat>)
    ensures r.Some? ==> r.value < |tasks| && tasks[r.value].id == id
    ensures r.Some? ==> forall j :: 0 <= j < r.value ==> tasks[j].id != id
    ensures r.None? ==> forall j :: 0 <= j < |tasks| ==> tasks[j].id != id
  {
    if tasks == [] then None
    else if tasks[0].id == id then Some(0)
    else match FindTask(tasks[1..], id)
      case None => None
      case Some(k) => Some(k + 1)
  }

  /** On a list with dense ids, an id is found exactly when it lies in 1..N, at position id - 1. */
  lemma DenseFind(tasks: seq<Task>, id: int)
    requires Dense(tasks)
    ensures FindTask(tasks, id) == if 1 <= id <= |tasks| then Some(id - 1) else None
  {
    if 1 <= id <= |tasks| {
      assert tasks[id - 1].id == id;
    }
  }

  // Decimal rendering of an int, as Python's str() writes it.

  function DigitChar(d: nat): char
    requires d < 10
  {
    "0123456789"[d]
  }

  function NatToString(n: nat): string
    decreases n
  {
    if n < 10 then [DigitChar(n)] else NatToString(n / 10) + [DigitChar(n % 10)]
  }

  function IntToString(i: int): string
  {
    if i < 0 then "-" + NatToString(-i) else NatToString(i)
  }

  /** The line `list` prints for one task. */
  function TaskLine(t: Task): (line: string)
    ensures |line| > 0 && line[0] == '['
  {
    "[" + IntToString(t.id) + "] " + t.description + " / " + StatusName(t.status)
      + " (create : " + t.createdAt + ", last update : " + t.updatedAt + ")"
  }

  const NoTasksMessage: string := "No tasks found."

  function AddedMessage(id: int): string
  {
    "Task added sucessfully (ID: " + IntToString(id) + ")"
  }

  function UpdatedMessage(id: int): string
  {
    "Task updated successfully (ID: " + IntToString(id) + ")"
  }

  function DeletedMessage(id: int): string
  {
    "Task deleted successfully (ID: " + IntToString(id) + ")"
  }

  function StatusChangedMessage(id: int, s: Status): string
  {
    "Task status changed to " + StatusName(s) + " (ID: " + IntToString(id) + ")"
  }

  function NotFoundMessage(id: int): string
  {
    "Task with ID " + IntToString(id) + " not found."
  }
}
