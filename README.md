# Task tracker: a verified model of the task store

`task-cli.py` is a command-line task tracker. Each invocation loads the task
list from `tasks.json`, runs one command, and saves the list again if the
command changed it. A task record has an integer `id`, a `description`, a
`status` (`todo`, `in-progress` or `done`) and two timestamps
(`createdAt`, `updatedAt`). The commands are `add`, `list [status]`,
`update <id> <description>`, `delete <id>`, `mark-in-progress <id>` and
`mark-done <id>`.

The model has three modules:

- `TaskModel` (`task_model.dfy`) holds the records. It defines `Status`,
  `Task`, the dense-id invariant `Dense` (ids are exactly `1..N` in list
  order), and `FindTask`. `FindTask` is the search for the first task with a
  given id, which the update, delete and status loops all run. It also
  holds the text the program prints: task lines and the messages.
- `TaskStore` (`task_store.dfy`) holds the class `Store`. Its field `tasks`
  stands for the contents of the task file. Its methods `Add`, `List`,
  `Update`, `Delete` and `ChangeStatus` perform the five operations with the
  loops the script runs. The postconditions of the four changing methods
  give the new list as a function of the old one: `Appended`,
  `WithDescription`, `WithoutTask` and `WithStatus`. `List` changes
  nothing, and its printed lines are `Listing`. The properties are proved about those
  functions: which fields change, what order is kept, and whether dense ids
  are preserved.
- `Dispatch` (`dispatch.dfy`) holds the parsed `Command`. `Execute` is the
  pure effect of one invocation, and `Run` carries it out on a `Store`. A
  sequence of invocations is modelled by `ExecuteAll`, where each invocation
  works on the list the previous one saved.

Output is returned, not printed. A method returns the lines the script
would print. An invocation without a command returns `Usage`, which stands
for argparse's help text. Clock readings are parameters. `add` reads the
clock twice (lines 38 and 39), so it takes two values, and `createdAt ==
updatedAt` is never claimed. `update` and the mark commands read it once.
`Execute` and `Run` take two readings, `now1` and `now2`, and use them in
that order.

Behaviour of the script that the model keeps as written:

- `add` prints the new id and returns nothing.
- A missing id prints `Task with ID <id> not found.` and nothing is raised.
- The add message keeps the script's spelling "sucessfully".
- Ids come from argparse as any `int`, so a zero or negative id is accepted
  and simply not found.
- `delete` calls `tasks.remove(task)`, which removes the first element
  equal to the matched record. Any earlier equal record would have the same
  id and would have been matched first. So the model removes exactly the
  matched position.
- No operation requires dense ids, because the script works on whatever
  file it loads. Dense ids are proved preserved when they hold beforehand.
  A successful `delete` makes the ids dense whatever they were before.

## Model

| member | source | states |
|---|---|---|
| `TaskModel.FindTask` | task-cli.py:68-69 | the result is the position of the FIRST task whose id matches: every earlier task has a different id; None means no task has the id |
| `TaskModel.DenseFind` | task-cli.py:85-86 | on a list with ids 1..N, an id is found exactly when 1 <= id <= N, and then at position id - 1 |
| `TaskModel.TaskLine` | task-cli.py:58 | a listed task's line starts with "[" (the id in brackets), so it can never be the "No tasks found." notice |
| `TaskStore.Appended` | task-cli.py:32-41 | add keeps every earlier task unchanged and in place, and appends one task with id \|tasks\|+1, status todo, the given description and the two clock readings; the ids are dense afterwards exactly when they were dense before |
| `TaskStore.Filtered` | task-cli.py:56-57 | a task is shown exactly when it is stored and its status equals the filter (or there is no filter); at most \|tasks\| are shown |
| `TaskStore.Listing` | task-cli.py:52-58 | what `list` prints: exactly the one-line notice when the store is empty and never when it is not, and otherwise at most one line per stored task; for a non-empty store its definition is the lines of `Filtered`, whose content and order ListingShowsMatches, FilteredAppend and FilteredSingle pin down |
| `TaskStore.ListingShowsMatches` | task-cli.py:56-58 | for any filter, a non-empty store prints a line exactly when it is the line of a stored task that passes the filter |
| `TaskStore.FilteredSingle` | task-cli.py:56-57 | a one-task store shows its task exactly when the task passes the filter |
| `TaskStore.FilteredAll` | task-cli.py:57 | with no filter, exactly the stored list is shown, in order |
| `TaskStore.FilteredAppend` | task-cli.py:56-58 | filtering keeps stored order: filtering a + b gives the filtered a followed by the filtered b |
| `TaskStore.FilteredIncreasing` | task-cli.py:56-58 | on a store with dense ids, the shown tasks appear in strictly increasing id order |
| `TaskStore.FilteredNoneMatch` | task-cli.py:56-57 | when no task passes the filter, nothing is shown |
| `TaskStore.ListingNoticeIffEmpty` | task-cli.py:52-55 | "No tasks found." is printed if and only if the unfiltered store is empty, for every filter |
| `TaskStore.ListingNoMatchIsSilent` | task-cli.py:53-58 | a non-empty store whose tasks all fail the filter prints no line at all, not even the notice |
| `TaskStore.ListingUnfiltered` | task-cli.py:56-58 | without a filter, a non-empty store prints one line for every task, in stored order |
| `TaskStore.WithDescription` | task-cli.py:68-72 | for a found id, the first matching task gets the new description and update time, its id, status and createdAt are unchanged, and every other task is unchanged; for an unknown id the list is unchanged; the length is kept and ids are dense after exactly when before |
| `TaskStore.WithStatus` | task-cli.py:104-108 | for a found id, the first matching task gets the new status and update time, its id, description and createdAt are unchanged, and every other task is unchanged; for an unknown id the list is unchanged; ids are dense after exactly when before |
| `TaskStore.Renumbered` | task-cli.py:88-89 | the renumbering pass gives ids exactly 1..N and keeps each task's description, status and timestamps at its position |
| `TaskStore.WithoutTask` | task-cli.py:85-90 | for a found id, the list is one shorter with ids 1..N-1, tasks before the removed one keep their records and positions, and later ones move up by one, keeping their records; for an unknown id the list is unchanged |
| `TaskStore.DeleteOnDense` | task-cli.py:85-90 | on ids 1..N, delete succeeds exactly for 1 <= id <= N, removes the task at position id - 1 and leaves ids 1..N-1 with the other records in order; any other id leaves the list unchanged |
| `TaskStore.Store.Open` | task-cli.py:14-17 | loading gives the saved list, or the empty list when there is no file |
| `TaskStore.Store.Add` | task-cli.py:26-43 | the new stored list is Appended(old list), and the printed line is the added message with id \|old list\|+1 |
| `TaskStore.Store.List` | task-cli.py:45-58 | the loop prints exactly Listing(tasks, filter): the notice for an empty store, or else the lines of the matching tasks in stored order; the store is not modified |
| `TaskStore.Store.Update` | task-cli.py:60-75 | the loop's early return leaves WithDescription(old list) stored; it prints the success line exactly when FindTask finds the id, and the not-found line otherwise |
| `TaskStore.Store.Delete` | task-cli.py:78-93 | the search loop, the removal and the renumbering loop leave WithoutTask(old list) stored; it prints the success line exactly when the id is found |
| `TaskStore.Store.ChangeStatus` | task-cli.py:96-111 | the loop leaves WithStatus(old list) stored; it prints "Task status changed to <status>" exactly when the id is found, and the not-found line otherwise |
| `Dispatch.Execute` | task-cli.py:149-162 | every command keeps ids dense if they were dense; list and the bare invocation leave the list unchanged; only the bare invocation gives the usage text |
| `Dispatch.Run` | task-cli.py:149-162 | running a command on the store gives exactly the list and reply of Execute, with mark-in-progress and mark-done passing their fixed status |
| `Dispatch.UnknownIdIff` | task-cli.py:60-111 | for update, delete and both mark commands, an unknown id leaves the list unchanged and prints only the not-found line, and a known id never prints it |
| `Dispatch.MarkSetsStatus` | task-cli.py:157-160 | mark-in-progress sets the found task's status to in-progress; mark-done sets it to done |
| `Dispatch.ExecuteAllKeepsDense` | task-cli.py:149-160 | dense ids 1..N hold after any sequence of invocations that starts from dense ids |
| `Dispatch.AddsBuildList` | task-cli.py:32-41 | any sequence of adds, starting without a file, saves exactly the added tasks in the order added, with ids 1..N, each still todo with its own clock readings |
| `Dispatch.ScenarioAddAddDeleteList` | task-cli.py:78-93 | add "Buy milk", add "Write report", delete 1, list: only "Write report" remains, renumbered to id 1, and it is the one line listed |
| `Dispatch.AddThenMarkDone` | task-cli.py:157-160 | adding "A" to an empty store and then marking id 1 done leaves one task: id 1, "A", done, with its creation time and the new update time |
| `Dispatch.ListSingle` | task-cli.py:151-152 | listing a one-task store by its own status prints its line, and listing by any other status prints nothing |
| `Dispatch.ScenarioFilterMiss` | task-cli.py:52-58 | after adding "A" and marking it done, listing done shows it, and listing todo prints nothing: no line and no notice |

## Left out

- JSON file I/O (`os.path.exists`, `open`, `json.load`, `json.dump`, lines 14-24). The file is the `tasks` field. Loading is the `Open` constructor, and saving is the assignment to the field. The save/load round trip belongs to the JSON library and is not modelled.
- The clock and timestamp formatting (`datetime.now().strftime`, lines 38-39, 71, 107). Timestamps are opaque strings passed in as parameters.
- The argparse setup, argument parsing and `print_help` (lines 119-147, 162). The model starts from a parsed `Command`. The `choices` limit on the list filter becomes the `Status` enum. The help text is the single value `Usage`.
- Malformed or ill-typed records in the task file. Every record is assumed to be a well-formed `Task`, with its status one of the three names.
- Concurrency between separate invocations sharing the file. The script has no locking, and all races happen outside the program.
- IO errors from an unreadable or unwritable file. They propagate as uncaught exceptions in the script and are not modelled.
- TaskModel.TaskLine: its contract states only that the line starts with "[". The exact text of a listed line is given by its definition, not by its contract.
