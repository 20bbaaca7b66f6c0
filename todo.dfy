/**
 * The todo window: the views it derives from the task and list collections it is given
 * (the filtered task list, the items-left counter, the active list's name, the priority badge),
 * and its own state, the new-task input and the edit dialog.
 */
module TodoWindow {
  import opened Wrappers
  import opened Seqs
  import opened Text
  import opened Types

  function InList(listId: string): Task -> bool {
    (t: Task) => t.listId == listId
  }

  function IsOpen(): Task -> bool {
    (t: Task) => !t.completed
  }

  function IsDone(): Task -> bool {
    (t: Task) => t.completed
  }

  function OpenInList(listId: string): Task -> bool {
    (t: Task) => t.listId == listId && !t.completed
  }

  /** `getFilteredTasks`: the active list's tasks, narrowed by the "active" or "completed" filter. */
  function FilteredTasks(tasks: seq<Task>, activeListId: string, filter: string): seq<Task> {
    var inList := Keep(tasks, InList(activeListId));
    if filter == "active" then Keep(inList, IsOpen())
    else if filter == "completed" then Keep(inList, IsDone())
    else inList
  }

  /** Whether a task passes the filter, the rule the view applies. */
  predicate Shown(t: Task, activeListId: string, filter: string) {
    && t.listId == activeListId
    && (filter == "active" ==> !t.completed)
    && (filter == "completed" ==> t.completed)
  }

  /**
   * A task is shown exactly when it belongs to the active list and passes the filter; any filter
   * other than "active" and "completed" narrows nothing.
   */
  lemma FilteredTasksMembers(tasks: seq<Task>, activeListId: string, filter: string, t: Task)
    ensures t in FilteredTasks(tasks, activeListId, filter) <==> t in tasks && Shown(t, activeListId, filter)
  {
    var inList := Keep(tasks, InList(activeListId));
    KeepMembership(tasks, InList(activeListId), t);
    KeepMembership(inList, IsOpen(), t);
    KeepMembership(inList, IsDone(), t);
  }

  /** The shown tasks keep the order they have in the collection. */
  lemma FilteredTasksOrder(tasks: seq<Task>, activeListId: string, filter: string)
    ensures IsSubsequence(FilteredTasks(tasks, activeListId, filter), tasks)
  {
    var inList := Keep(tasks, InList(activeListId));
    var shown := (t: Task) => Shown(t, activeListId, filter);
    if filter == "active" {
      KeepKeep(tasks, InList(activeListId), IsOpen(), shown);
      KeepIsSubsequence(tasks, shown);
    } else if filter == "completed" {
      KeepKeep(tasks, InList(activeListId), IsDone(), shown);
      KeepIsSubsequence(tasks, shown);
    } else {
      KeepIsSubsequence(tasks, InList(activeListId));
    }
  }

  /** Appending a task adds it at the end of the view of its own list, and leaves other lists' views alone. */
  lemma FilteredTasksAppend(tasks: seq<Task>, t: Task, activeListId: string, filter: string)
    ensures FilteredTasks(tasks + [t], activeListId, filter)
      == FilteredTasks(tasks, activeListId, filter) + (if Shown(t, activeListId, filter) then [t] else [])
  {
    KeepAppend(tasks, [t], InList(activeListId));
    var inList := Keep(tasks, InList(activeListId));
    var extra := Keep([t], InList(activeListId));
    assert [t][1..] == [];
    if filter == "active" {
      KeepAppend(inList, extra, IsOpen());
    } else if filter == "completed" {
      KeepAppend(inList, extra, IsDone());
    }
  }

  /** `countActiveTasks`. */
  function CountActiveTasks(tasks: seq<Task>, activeListId: string): nat {
    |Keep(tasks, OpenInList(activeListId))|
  }

  /** The counter is the length of the view under the "active" filter. */
  lemma CountIsActiveView(tasks: seq<Task>, activeListId: string)
    ensures CountActiveTasks(tasks, activeListId) == |FilteredTasks(tasks, activeListId, "active")|
  {
    KeepKeep(tasks, InList(activeListId), IsOpen(), OpenInList(activeListId));
  }

  /** The number of tasks in `tasks` that are open and in the list, counted one by one. */
  function OpenCount(tasks: seq<Task>, activeListId: string): nat {
    if tasks == [] then 0
    else (if tasks[0].listId == activeListId && !tasks[0].completed then 1 else 0) + OpenCount(tasks[1..], activeListId)
  }

  /** The counter agrees with counting the open tasks of the list one by one. */
  lemma {:induction false} CountActiveTasksCounts(tasks: seq<Task>, activeListId: string)
    ensures CountActiveTasks(tasks, activeListId) == OpenCount(tasks, activeListId)
  {
    if tasks != [] {
      CountActiveTasksCounts(tasks[1..], activeListId);
    }
  }

  function HasListId(id: string): TodoList -> bool {
    (l: TodoList) => l.id == id
  }

  const FallbackListName := "Tasks"

  /** `getActiveListName`: the name of the first list with the active id, or "Tasks". */
  function ActiveListName(lists: seq<TodoList>, activeListId: string): (name: string)
    ensures forall i :: 0 <= i < |lists| && lists[i].id == activeListId ==>
      (forall j :: 0 <= j < i ==> lists[j].id != activeListId) ==> name == lists[i].name
    ensures (forall j :: 0 <= j < |lists| ==> lists[j].id != activeListId) ==> name == FallbackListName
  {
    match FindIndex(lists, HasListId(activeListId))
    case Some(i) => lists[i].name
    case None => FallbackListName
  }

  /** The footer: "N item left" for one task, "N items left" otherwise. */
  function ItemsLeftText(count: nat): string {
    Decimal(count) + " item" + (if count != 1 then "s" else "") + " left"
  }

  lemma ItemsLeftWording(count: nat)
    ensures ItemsLeftText(count) == Decimal(count) + " item left" <==> count == 1
    ensures ItemsLeftText(count) == Decimal(count) + " items left" <==> count != 1
  {
    var d := Decimal(count);
    if count == 1 {
      assert ItemsLeftText(count) != d + " items left" by {
        assert |ItemsLeftText(count)| != |d + " items left"|;
      }
    } else {
      assert ItemsLeftText(count) != d + " item left" by {
        assert |ItemsLeftText(count)| != |d + " item left"|;
      }
    }
  }

  const HighColor := "bg-red-500"
  const MediumColor := "bg-yellow-500"
  const LowColor := "bg-blue-500"

  /** The priority dot's colour: red for "high", yellow for "medium", blue for anything else. */
  function PriorityColor(priority: string): (color: string)
    ensures color == HighColor <==> priority == "high"
    ensures color == MediumColor <==> priority == "medium"
    ensures color == LowColor <==> priority != "high" && priority != "medium"
  {
    if priority == "high" then HighColor
    else if priority == "medium" then MediumColor
    else LowColor
  }

  /** The priority badge: `charAt(0).toUpperCase() + slice(1)`. */
  function PriorityLabel(priority: string): string {
    if priority == "" then "" else [UpperChar(priority[0])] + priority[1..]
  }

  /**
   * The label differs from the priority at most in its first character, which is upper-cased;
   * labelling a label changes nothing.
   */
  lemma PriorityLabelShape(priority: string)
    ensures |PriorityLabel(priority)| == |priority|
    ensures priority != "" ==>
      (PriorityLabel(priority)[0] == UpperChar(priority[0]) && PriorityLabel(priority)[1..] == priority[1..])
    ensures PriorityLabel(PriorityLabel(priority)) == PriorityLabel(priority)
    ensures PriorityLabel("medium") == "Medium" && PriorityLabel("high") == "High" && PriorityLabel("low") == "Low"
  {
    if priority != "" {
      var l := PriorityLabel(priority);
      assert l[0] == UpperChar(priority[0]);
      assert UpperChar(l[0]) == l[0];
      assert [UpperChar(l[0])] + l[1..] == l;
    }
    assert PriorityLabel("medium") == ['M'] + "edium";
    assert PriorityLabel("high") == ['H'] + "igh";
    assert PriorityLabel("low") == ['L'] + "ow";
  }

  /** The task `addTask` hands to `onAddTask` for the input text, if the text is not blank. */
  function NewTask(text: string, freshId: int, activeListId: string): Option<Task> {
    var title := Trim(text);
    if title == "" then None
    else Some(Task(freshId, title, "", false, "", "", "medium", activeListId))
  }

  /** Blank input, all whitespace, gives no task, and any other input gives one. */
  lemma NewTaskBlank(text: string, freshId: int, activeListId: string)
    ensures NewTask(text, freshId, activeListId).None? <==> forall k :: 0 <= k < |text| ==> IsWhitespace(text[k])
  {
    TrimEmpty(text);
  }

  /**
   * A task made from the input carries the trimmed text, which is non-empty and starts and ends
   * with a non-whitespace character, the supplied id, the active list, and the default fields.
   */
  lemma NewTaskFields(text: string, freshId: int, activeListId: string)
    requires NewTask(text, freshId, activeListId).Some?
    ensures var t := NewTask(text, freshId, activeListId).value;
      && t.id == freshId && t.listId == activeListId && t.title == Trim(text)
      && t.title != "" && !IsWhitespace(t.title[0]) && !IsWhitespace(t.title[|t.title| - 1])
      && t.description == "" && t.dueDate == "" && t.dueTime == ""
      && !t.completed && t.priority == "medium"
  {
    TrimEnds(text);
  }

  /** The window's own state: the input box and the edit dialog. */
  class TodoForm {
    var newTaskText: string
    var editModalOpen: bool
    var currentEditTask: Option<Task>

    constructor ()
      ensures newTaskText == "" && !editModalOpen && currentEditTask == None
    {
      newTaskText := "";
      editModalOpen := false;
      currentEditTask := None;
    }

    /** The input's `onChange`. */
    method TypeText(text: string)
      modifies this
      ensures newTaskText == text
      ensures editModalOpen == old(editModalOpen) && currentEditTask == old(currentEditTask)
    {
      newTaskText := text;
    }

    /**
     * `addTask`: hands at most one task to `onAddTask` (the result) and then clears the input;
     * blank input changes nothing.
     */
    method AddTask(freshId: int, activeListId: string) returns (emitted: Option<Task>)
      modifies this
      ensures emitted == NewTask(old(newTaskText), freshId, activeListId)
      ensures newTaskText == if emitted.Some? then "" else old(newTaskText)
      ensures editModalOpen == old(editModalOpen) && currentEditTask == old(currentEditTask)
    {
      if Trim(newTaskText) != "" {
        var task := Task(freshId, Trim(newTaskText), "", false, "", "", "medium", activeListId);
        emitted := Some(task);
        newTaskText := "";
      } else {
        emitted := None;
      }
    }

    /** The edit button of a task. */
    method OpenEditTask(task: Task)
      modifies this
      ensures editModalOpen && currentEditTask == Some(task) && newTaskText == old(newTaskText)
    {
      currentEditTask := Some(task);
      editModalOpen := true;
    }

    /**
     * The dialog's save callback: it computes the updated collection and drops it, so the only
     * change is that the dialog closes. The collection is the caller's and is not returned.
     */
    method SaveEditedTask(tasks: seq<Task>, updated: Task)
      modifies this
      ensures !editModalOpen && newTaskText == old(newTaskText) && currentEditTask == old(currentEditTask)
    {
      var updatedTasks := seq(|tasks|, i requires 0 <= i < |tasks| => if tasks[i].id == updated.id then updated else tasks[i]);
      editModalOpen := false;
    }

    /** The dialog's delete callback: likewise computes and drops the reduced collection. */
    method DeleteEditedTask(tasks: seq<Task>, taskId: int)
      modifies this
      ensures !editModalOpen && newTaskText == old(newTaskText) && currentEditTask == old(currentEditTask)
    {
      var updatedTasks := Keep(tasks, (t: Task) => t.id != taskId);
      editModalOpen := false;
    }
  }
}
