/**
 * The home page: the state it owns (settings, tasks, lists, the active list and filter, the
 * completed-pomodoro count, the current channel, which panels are open), the handlers the
 * windows call, and the load and save of that state through `localStorage`.
 */
module Page {
  import opened Wrappers
  import opened Seqs
  import opened Text
  import opened Types
  import opened Storage
  import opened TodoWindow
  import Channels
  import NowPlaying
  import PomodoroWindow

  const SettingsKey := "lofiAppSettings"
  const TasksKey := "lofiAppTasks"
  const ListsKey := "lofiAppLists"
  const ActiveListKey := "lofiAppActiveList"
  const FilterKey := "lofiAppFilter"
  const CountKey := "lofiAppPomodoroCount"

  const SliceKeys: set<string> := {SettingsKey, TasksKey, ListsKey, ActiveListKey, FilterKey, CountKey}

  const DefaultChannel := "M-4zE2GG87w"
  const DefaultListId := "default"

  /** The part of the page's state that is saved and loaded. */
  datatype AppState = AppState(
    settings: Settings,
    tasks: seq<Task>,
    lists: seq<TodoList>,
    activeListId: string,
    filter: string,
    count: nat)

  function DefaultSettings(): Settings {
    Settings(25, 5, 15, true, "minimal")
  }

  function DefaultState(): AppState {
    AppState(DefaultSettings(), [], [TodoList(DefaultListId, "Main List", "#9764c7")], DefaultListId, "all", 0)
  }

  // ---------------------------------------------------------------------------------------------
  // Handlers, as functions on the saved state

  function AddTask(st: AppState, task: Task): AppState {
    st.(tasks := st.tasks + [task])
  }

  /** The `map` of `handleToggleTaskCompletion`. */
  function ToggledTasks(tasks: seq<Task>, id: int): seq<Task> {
    seq(|tasks|, i requires 0 <= i < |tasks| => if tasks[i].id == id then tasks[i].(completed := !tasks[i].completed) else tasks[i])
  }

  function ToggleTaskCompletion(st: AppState, id: int): AppState {
    st.(tasks := ToggledTasks(st.tasks, id))
  }

  function ClearCompletedTasks(st: AppState): AppState {
    st.(tasks := Keep(st.tasks, IsOpen()))
  }

  function ChangeFilter(st: AppState, filter: string): AppState {
    st.(filter := filter)
  }

  function ChangeActiveList(st: AppState, listId: string): AppState {
    st.(activeListId := listId)
  }

  function AddList(st: AppState, list: TodoList): AppState {
    st.(lists := st.lists + [list])
  }

  function OtherList(id: string): TodoList -> bool {
    (l: TodoList) => l.id != id
  }

  function OutsideList(id: string): Task -> bool {
    (t: Task) => t.listId != id
  }

  /** `handleDeleteList`: drop the list and its tasks; if it was active, fall back to "default". */
  function DeleteList(st: AppState, listId: string): AppState {
    st.(lists := Keep(st.lists, OtherList(listId)),
        tasks := Keep(st.tasks, OutsideList(listId)),
        activeListId := if st.activeListId == listId then DefaultListId else st.activeListId)
  }

  function UpdatePomodoroCount(st: AppState, count: nat): AppState {
    st.(count := count)
  }

  function SaveSettings(st: AppState, settings: Settings): AppState {
    st.(settings := settings)
  }

  // ---------------------------------------------------------------------------------------------
  // Properties of the handlers

  /**
   * Toggling keeps every task in place, flips `completed` exactly on the tasks with the id, and
   * changes no other field.
   */
  lemma ToggleFlipsOnlyTarget(tasks: seq<Task>, id: int)
    ensures |ToggledTasks(tasks, id)| == |tasks|
    ensures forall i :: 0 <= i < |tasks| ==>
      var t := ToggledTasks(tasks, id)[i];
      && (t.completed != tasks[i].completed <==> tasks[i].id == id)
      && t.(completed := tasks[i].completed) == tasks[i]
  {
  }

  /** An id no task has changes nothing. */
  lemma ToggleUnknownId(tasks: seq<Task>, id: int)
    requires forall i :: 0 <= i < |tasks| ==> tasks[i].id != id
    ensures ToggledTasks(tasks, id) == tasks
  {
  }

  /** Toggling the same task twice restores the collection. */
  lemma ToggleTwice(tasks: seq<Task>, id: int)
    ensures ToggledTasks(ToggledTasks(tasks, id), id) == tasks
  {
  }

  /**
   * Clearing keeps exactly the open tasks, in their order; clearing again changes nothing, and no
   * list's items-left counter moves.
   */
  lemma ClearCompletedKeepsOpen(st: AppState, listId: string, t: Task)
    ensures t in ClearCompletedTasks(st).tasks <==> t in st.tasks && !t.completed
    ensures IsSubsequence(ClearCompletedTasks(st).tasks, st.tasks)
    ensures ClearCompletedTasks(ClearCompletedTasks(st)) == ClearCompletedTasks(st)
    ensures CountActiveTasks(ClearCompletedTasks(st).tasks, listId) == CountActiveTasks(st.tasks, listId)
  {
    KeepMembership(st.tasks, IsOpen(), t);
    KeepIsSubsequence(st.tasks, IsOpen());
    KeepIdempotent(st.tasks, IsOpen());
    KeepKeep(st.tasks, IsOpen(), OpenInList(listId), OpenInList(listId));
  }

  /** No completed task survives clearing, and the view under the "completed" filter is empty. */
  lemma ClearCompletedEmptiesDoneView(st: AppState)
    ensures forall i :: 0 <= i < |ClearCompletedTasks(st).tasks| ==> !ClearCompletedTasks(st).tasks[i].completed
    ensures FilteredTasks(ClearCompletedTasks(st).tasks, st.activeListId, "completed") == []
  {
    var open := ClearCompletedTasks(st).tasks;
    forall i | 0 <= i < |open| ensures !open[i].completed {
      assert open[i] in open;
    }
    var view := FilteredTasks(open, st.activeListId, "completed");
    if view != [] {
      FilteredTasksMembers(open, st.activeListId, "completed", view[0]);
      assert false;
    }
  }

  /**
   * A new open task in the active list appears at the end of the "all" and "active" views and
   * raises the items-left counter by one.
   */
  lemma AddTaskShows(st: AppState, task: Task)
    requires task.listId == st.activeListId && !task.completed
    ensures FilteredTasks(AddTask(st, task).tasks, st.activeListId, "all") == FilteredTasks(st.tasks, st.activeListId, "all") + [task]
    ensures FilteredTasks(AddTask(st, task).tasks, st.activeListId, "active") == FilteredTasks(st.tasks, st.activeListId, "active") + [task]
    ensures CountActiveTasks(AddTask(st, task).tasks, st.activeListId) == CountActiveTasks(st.tasks, st.activeListId) + 1
  {
    FilteredTasksAppend(st.tasks, task, st.activeListId, "all");
    FilteredTasksAppend(st.tasks, task, st.activeListId, "active");
    CountIsActiveView(st.tasks, st.activeListId);
    CountIsActiveView(st.tasks + [task], st.activeListId);
  }

  /**
   * Deleting a list removes it and every task in it, resets the active list to "default" exactly
   * when the deleted list was active, and leaves every other list's view of its tasks unchanged.
   */
  lemma DeleteListCascades(st: AppState, listId: string, other: string, filter: string)
    requires other != listId
    ensures forall i :: 0 <= i < |DeleteList(st, listId).lists| ==> DeleteList(st, listId).lists[i].id != listId
    ensures forall i :: 0 <= i < |DeleteList(st, listId).tasks| ==> DeleteList(st, listId).tasks[i].listId != listId
    ensures (DeleteList(st, listId).activeListId == DefaultListId) <==> (st.activeListId == listId || st.activeListId == DefaultListId)
    ensures st.activeListId != listId ==> DeleteList(st, listId).activeListId == st.activeListId
    ensures DeleteList(st, listId).(lists := st.lists, tasks := st.tasks, activeListId := st.activeListId) == st
    ensures forall t :: t in DeleteList(st, listId).tasks <==> t in st.tasks && t.listId != listId
    ensures IsSubsequence(DeleteList(st, listId).tasks, st.tasks)
    ensures FilteredTasks(DeleteList(st, listId).tasks, other, filter) == FilteredTasks(st.tasks, other, filter)
  {
    var after := DeleteList(st, listId);
    forall i | 0 <= i < |after.lists| ensures after.lists[i].id != listId {
      assert after.lists[i] in after.lists;
    }
    forall i | 0 <= i < |after.tasks| ensures after.tasks[i].listId != listId {
      assert after.tasks[i] in after.tasks;
    }
    forall t ensures t in after.tasks <==> t in st.tasks && t.listId != listId {
      KeepMembership(st.tasks, OutsideList(listId), t);
    }
    KeepIsSubsequence(st.tasks, OutsideList(listId));
    KeepKeep(st.tasks, OutsideList(listId), InList(other), InList(other));
  }

  /** The other lists survive deletion, in their order. */
  lemma DeleteListKeepsOthers(st: AppState, listId: string, l: TodoList)
    ensures l in DeleteList(st, listId).lists <==> l in st.lists && l.id != listId
    ensures IsSubsequence(DeleteList(st, listId).lists, st.lists)
    ensures multiset(DeleteList(st, listId).lists)[l] == if l.id != listId then multiset(st.lists)[l] else 0
  {
    KeepCount(st.lists, OtherList(listId), l);
    KeepMembership(st.lists, OtherList(listId), l);
    KeepIsSubsequence(st.lists, OtherList(listId));
  }

  // ---------------------------------------------------------------------------------------------
  // Persistence

  /** The six `setItem` calls of `saveDataToLocalStorage`, in order. */
  function SaveWrites(st: AppState): seq<(string, Entry)> {
    [ (SettingsKey, SettingsValue(st.settings)),
      (TasksKey, TasksValue(st.tasks)),
      (ListsKey, ListsValue(st.lists)),
      (ActiveListKey, TextValue(st.activeListId)),
      (FilterKey, TextValue(st.filter)),
      (CountKey, TextValue(Decimal(st.count))) ]
  }

  predicate WritesKey(writes: seq<(string, Entry)>, key: string) {
    exists i :: 0 <= i < |writes| && writes[i].0 == key
  }

  predicate DistinctKeys(writes: seq<(string, Entry)>) {
    forall i, j :: 0 <= i < j < |writes| ==> writes[i].0 != writes[j].0
  }

  /**
   * Performs the writes in order inside one `try`: the first key whose `setItem` throws ends the
   * sequence, and the writes before it stay done.
   */
  function ApplyWrites(items: map<string, Entry>, writes: seq<(string, Entry)>, rejected: set<string>): map<string, Entry>
    decreases |writes|
  {
    if writes == [] then items
    else if writes[0].0 in rejected then items
    else ApplyWrites(items[writes[0].0 := writes[0].1], writes[1..], rejected)
  }

  /** The writes from position `k` on: the one at `k`, then the rest unless it throws. */
  lemma ApplyWritesAt(items: map<string, Entry>, writes: seq<(string, Entry)>, k: nat, rejected: set<string>)
    requires k < |writes|
    ensures ApplyWrites(items, writes[k..], rejected)
      == if writes[k].0 in rejected then items
         else ApplyWrites(items[writes[k].0 := writes[k].1], writes[k + 1..], rejected)
  {
    assert writes[k..][0] == writes[k];
    assert writes[k..][1..] == writes[k + 1..];
  }

  /** A key the writes never name keeps what it held. */
  lemma {:induction false} ApplyWritesFrame(items: map<string, Entry>, writes: seq<(string, Entry)>, rejected: set<string>, key: string)
    requires !WritesKey(writes, key)
    ensures Lookup(ApplyWrites(items, writes, rejected), key) == Lookup(items, key)
    decreases |writes|
  {
    if writes != [] && writes[0].0 !in rejected {
      forall i | 0 <= i < |writes[1..]| ensures writes[1..][i].0 != key {
        assert writes[1..][i] == writes[i + 1];
      }
      assert writes[0].0 != key;
      ApplyWritesFrame(items[writes[0].0 := writes[0].1], writes[1..], rejected, key);
    }
  }

  /** When no write throws and the keys are distinct, every key holds what was written to it. */
  lemma {:induction false} ApplyWritesAllAccepted(items: map<string, Entry>, writes: seq<(string, Entry)>, rejected: set<string>, i: nat)
    requires forall j :: 0 <= j < |writes| ==> writes[j].0 !in rejected
    requires DistinctKeys(writes)
    requires i < |writes|
    ensures Lookup(ApplyWrites(items, writes, rejected), writes[i].0) == Some(writes[i].1)
    decreases |writes|
  {
    var rest := writes[1..];
    var next := items[writes[0].0 := writes[0].1];
    forall j | 0 <= j < |rest| ensures rest[j].0 !in rejected { assert rest[j] == writes[j + 1]; }
    forall j, k | 0 <= j < k < |rest| ensures rest[j].0 != rest[k].0 {
      assert rest[j] == writes[j + 1] && rest[k] == writes[k + 1];
    }
    if i == 0 {
      forall j | 0 <= j < |rest| ensures rest[j].0 != writes[0].0 { assert rest[j] == writes[j + 1]; }
      ApplyWritesFrame(next, rest, rejected, writes[0].0);
    } else {
      assert rest[i - 1] == writes[i];
      ApplyWritesAllAccepted(next, rest, rejected, i - 1);
    }
  }

  /** What `saveDataToLocalStorage` leaves in storage when it saves `st`. */
  function Persisted(items: map<string, Entry>, st: AppState, rejected: set<string>): map<string, Entry> {
    ApplyWrites(items, SaveWrites(st), rejected)
  }

  /** The three JSON slices: `JSON.parse` throws on anything but a value of the slice's shape. */
  function LoadSettings(st: AppState, e: Option<Entry>): Option<AppState> {
    if !Truthy(e) then Some(st)
    else if e.value.SettingsValue? then Some(st.(settings := e.value.settings))
    else None
  }

  function LoadTasks(st: AppState, e: Option<Entry>): Option<AppState> {
    if !Truthy(e) then Some(st)
    else if e.value.TasksValue? then Some(st.(tasks := e.value.tasks))
    else None
  }

  function LoadLists(st: AppState, e: Option<Entry>): Option<AppState> {
    if !Truthy(e) then Some(st)
    else if e.value.ListsValue? then Some(st.(lists := e.value.lists))
    else None
  }

  /** The two plain-text slices, taken as they are when non-empty. */
  function LoadActiveList(st: AppState, e: Option<Entry>): AppState {
    if Truthy(e) && e.value.TextValue? then st.(activeListId := e.value.text) else st
  }

  function LoadFilter(st: AppState, e: Option<Entry>): AppState {
    if Truthy(e) && e.value.TextValue? then st.(filter := e.value.text) else st
  }

  /** The count, read back with `parseInt` when it is a string of decimal digits. */
  function LoadCount(st: AppState, e: Option<Entry>): AppState {
    if Truthy(e) && e.value.TextValue? && AllDigits(e.value.text) then st.(count := DecimalValue(e.value.text)) else st
  }

  /**
   * The mount effect: the six slices read in order inside one `try`; a parse that throws ends the
   * load, and the slices read before it stay applied.
   */
  function Loaded(base: AppState, items: map<string, Entry>): AppState {
    match LoadSettings(base, Lookup(items, SettingsKey))
    case None => base
    case Some(s1) =>
      match LoadTasks(s1, Lookup(items, TasksKey))
      case None => s1
      case Some(s2) =>
        match LoadLists(s2, Lookup(items, ListsKey))
        case None => s2
        case Some(s3) => LoadText(s3, items)
  }

  /** The three plain-text slices, which cannot throw. */
  function LoadText(st: AppState, items: map<string, Entry>): AppState {
    LoadCount(LoadFilter(LoadActiveList(st, Lookup(items, ActiveListKey)), Lookup(items, FilterKey)), Lookup(items, CountKey))
  }

  lemma SaveWritesDistinct(st: AppState)
    ensures DistinctKeys(SaveWrites(st))
    ensures forall i :: 0 <= i < |SaveWrites(st)| ==> SaveWrites(st)[i].0 in SliceKeys
  {
  }

  /**
   * Saving and then loading restores the saved state, whatever the page held before the load,
   * when no write throws; an empty active list id or filter is not restored, since an empty
   * string reads back as missing.
   */
  lemma LoadAfterSave(base: AppState, items: map<string, Entry>, st: AppState, rejected: set<string>)
    requires rejected !! SliceKeys
    ensures Loaded(base, Persisted(items, st, rejected))
      == st.(activeListId := if st.activeListId == "" then base.activeListId else st.activeListId,
             filter := if st.filter == "" then base.filter else st.filter)
    ensures st.activeListId != "" && st.filter != "" ==> Loaded(base, Persisted(items, st, rejected)) == st
  {
    var w := SaveWrites(st);
    SaveWritesDistinct(st);
    ApplyWritesAllAccepted(items, w, rejected, 0);
    ApplyWritesAllAccepted(items, w, rejected, 1);
    ApplyWritesAllAccepted(items, w, rejected, 2);
    ApplyWritesAllAccepted(items, w, rejected, 3);
    ApplyWritesAllAccepted(items, w, rejected, 4);
    ApplyWritesAllAccepted(items, w, rejected, 5);
    DecimalRoundTrip(st.count);
  }

  /** Loading from empty storage keeps the defaults. */
  lemma LoadEmptyStorage()
    ensures Loaded(DefaultState(), map[]) == DefaultState()
  {
  }

  /** A stored, non-empty slice under a JSON key that `JSON.parse` cannot turn into the slice's shape. */
  predicate BadSettings(e: Option<Entry>) { Truthy(e) && !e.value.SettingsValue? }

  predicate BadTasks(e: Option<Entry>) { Truthy(e) && !e.value.TasksValue? }

  predicate BadLists(e: Option<Entry>) { Truthy(e) && !e.value.ListsValue? }

  /** Unparsable settings end the load at once: nothing is applied, even slices stored correctly. */
  lemma LoadStopsAtCorruptSettings(base: AppState, items: map<string, Entry>)
    requires BadSettings(Lookup(items, SettingsKey))
    ensures Loaded(base, items) == base
  {
  }

  /**
   * Unparsable tasks text ends the load there: the settings before it are applied, and nothing
   * after it is, even slices stored correctly.
   */
  lemma LoadStopsAtCorruptTasks(base: AppState, items: map<string, Entry>)
    requires !BadSettings(Lookup(items, SettingsKey))
    requires BadTasks(Lookup(items, TasksKey))
    ensures Loaded(base, items).settings
      == if Truthy(Lookup(items, SettingsKey)) then items[SettingsKey].settings else base.settings
    ensures Loaded(base, items) == base.(settings := Loaded(base, items).settings)
  {
  }

  /**
   * Unparsable lists end the load there: the settings and tasks before them are applied, and
   * the active list, filter and count after them are not.
   */
  lemma LoadStopsAtCorruptLists(base: AppState, items: map<string, Entry>)
    requires !BadSettings(Lookup(items, SettingsKey)) && !BadTasks(Lookup(items, TasksKey))
    requires BadLists(Lookup(items, ListsKey))
    ensures Loaded(base, items).settings
      == if Truthy(Lookup(items, SettingsKey)) then items[SettingsKey].settings else base.settings
    ensures Loaded(base, items).tasks
      == if Truthy(Lookup(items, TasksKey)) then items[TasksKey].tasks else base.tasks
    ensures Loaded(base, items) == base.(settings := Loaded(base, items).settings, tasks := Loaded(base, items).tasks)
  {
  }

  /** A slice that is missing, or stored as the empty string, leaves its part of the state as it was. */
  lemma LoadMissingSliceKeeps(base: AppState, items: map<string, Entry>)
    ensures !Truthy(Lookup(items, SettingsKey)) ==> Loaded(base, items).settings == base.settings
    ensures !Truthy(Lookup(items, TasksKey)) ==> Loaded(base, items).tasks == base.tasks
    ensures !Truthy(Lookup(items, ListsKey)) ==> Loaded(base, items).lists == base.lists
    ensures !Truthy(Lookup(items, ActiveListKey)) ==> Loaded(base, items).activeListId == base.activeListId
    ensures !Truthy(Lookup(items, FilterKey)) ==> Loaded(base, items).filter == base.filter
    ensures !Truthy(Lookup(items, CountKey)) ==> Loaded(base, items).count == base.count
  {
  }

  /**
   * When `setItem` throws on the tasks key, the settings are saved, and the tasks and every slice
   * after them keep what storage held before.
   */
  lemma SaveStopsAtRejectedTasks(items: map<string, Entry>, st: AppState, rejected: set<string>)
    requires SettingsKey !in rejected && TasksKey in rejected
    ensures Persisted(items, st, rejected) == items[SettingsKey := SettingsValue(st.settings)]
  {
    var w := SaveWrites(st);
    var next := items[SettingsKey := SettingsValue(st.settings)];
    assert ApplyWrites(items, w, rejected) == ApplyWrites(next, w[1..], rejected);
    assert w[1..][0] == w[1];
    assert ApplyWrites(next, w[1..], rejected) == next;
  }

  /**
   * The handlers save the state of the render they were called in, not the state they produce:
   * after adding a task and reloading, the task is missing.
   */
  lemma StaleSaveLosesTask(items: map<string, Entry>, st: AppState, task: Task, rejected: set<string>)
    requires rejected !! SliceKeys
    requires st.activeListId != "" && st.filter != ""
    ensures Loaded(DefaultState(), Persisted(items, st, rejected)).tasks == st.tasks
    ensures Loaded(DefaultState(), Persisted(items, st, rejected)).tasks != AddTask(st, task).tasks
  {
    LoadAfterSave(DefaultState(), items, st, rejected);
    assert |AddTask(st, task).tasks| == |st.tasks| + 1;
  }

  /** Saving the state that results, instead, makes the added task survive a reload. */
  lemma CurrentSaveKeepsTask(items: map<string, Entry>, st: AppState, task: Task, rejected: set<string>)
    requires rejected !! SliceKeys
    requires st.activeListId != "" && st.filter != ""
    ensures Loaded(DefaultState(), Persisted(items, AddTask(st, task), rejected)) == AddTask(st, task)
  {
    LoadAfterSave(DefaultState(), items, AddTask(st, task), rejected);
  }

  /**
   * The timer's completion saves the page state of the render in which the timer was started.
   * A task `t1` added while it runs is in storage once a later handler has saved (the first
   * save after the add); the completion's save then drops it again.
   */
  lemma TimerSaveDropsRunTasks(items: map<string, Entry>, started: AppState, t1: Task, rejected: set<string>)
    requires rejected !! SliceKeys
    requires started.activeListId != "" && started.filter != ""
    ensures var afterAdds := Persisted(Persisted(items, started, rejected), AddTask(started, t1), rejected);
      && Loaded(DefaultState(), afterAdds).tasks == started.tasks + [t1]
      && Loaded(DefaultState(), Persisted(afterAdds, started, rejected)).tasks == started.tasks
  {
    var afterAdds := Persisted(Persisted(items, started, rejected), AddTask(started, t1), rejected);
    LoadAfterSave(DefaultState(), Persisted(items, started, rejected), AddTask(started, t1), rejected);
    LoadAfterSave(DefaultState(), afterAdds, started, rejected);
  }

  /**
   * Saving the state the count handler produces, instead, keeps the tasks added during the
   * run and the new count.
   */
  lemma CurrentCountSaveKeepsRunTasks(items: map<string, Entry>, started: AppState, t1: Task, t2: Task, count: nat, rejected: set<string>)
    requires rejected !! SliceKeys
    requires started.activeListId != "" && started.filter != ""
    ensures var now := UpdatePomodoroCount(AddTask(AddTask(started, t1), t2), count);
      && Loaded(DefaultState(), Persisted(items, now, rejected)).tasks == started.tasks + [t1, t2]
      && Loaded(DefaultState(), Persisted(items, now, rejected)).count == count
  {
    var now := UpdatePomodoroCount(AddTask(AddTask(started, t1), t2), count);
    LoadAfterSave(DefaultState(), items, now, rejected);
    assert now.tasks == started.tasks + [t1, t2];
  }

  lemma TrimStartExample()
    ensures TrimStart(" Read ") == "Read "
  {
    var rest := "Read ";
    assert " Read "[0] == ' ' && " Read "[1..] == rest;
    assert rest[0] == 'R' && !IsWhitespace('R');
    assert TrimStart(rest) == rest;
  }

  lemma TrimEndExample()
    ensures TrimEnd("Read ") == "Read"
  {
    assert "Read "[4] == ' ' && "Read "[..4] == "Read";
    assert "Read"[3] == 'd' && !IsWhitespace('d');
    assert TrimEnd("Read") == "Read";
  }

  /** The input " Read " becomes a task titled "Read". */
  lemma TrimmedInputTask()
    ensures NewTask(" Read ", 1, DefaultListId) == Some(Task(1, "Read", "", false, "", "", "medium", DefaultListId))
  {
    TrimStartExample();
    TrimEndExample();
    assert Trim(" Read ") == "Read";
  }

  /**
   * A task ticked off in the default list shows under the "completed" filter, not under
   * "active", and the footer reads "0 items left".
   */
  lemma CompletedTaskViews(t: Task)
    requires t.listId == DefaultListId && !t.completed
    ensures
      var st := ToggleTaskCompletion(AddTask(DefaultState(), t), t.id);
      && FilteredTasks(st.tasks, st.activeListId, "completed") == [t.(completed := true)]
      && FilteredTasks(st.tasks, st.activeListId, "active") == []
      && ItemsLeftText(CountActiveTasks(st.tasks, st.activeListId)) == "0 items left"
  {
    var done := t.(completed := true);
    var st := ToggleTaskCompletion(AddTask(DefaultState(), t), t.id);
    assert st.tasks == [done];
    assert [done][1..] == [];
    assert Keep([done], InList(DefaultListId)) == [done];
    assert Keep([done], IsDone()) == [done];
    assert Keep([done], IsOpen()) == [];
    assert Keep([done], OpenInList(DefaultListId)) == [];
    assert Decimal(0) == "0";
  }

  /**
   * From the defaults: type " Read ", add it and tick it off; the "completed" view holds
   * the ticked task and nothing is left.
   */
  lemma AddThenCompleteScenario()
    ensures
      var t := Task(1, "Read", "", false, "", "", "medium", DefaultListId);
      && NewTask(" Read ", 1, DefaultListId) == Some(t)
      && var st := ToggleTaskCompletion(AddTask(DefaultState(), t), 1);
      && FilteredTasks(st.tasks, st.activeListId, "completed") == [t.(completed := true)]
      && FilteredTasks(st.tasks, st.activeListId, "active") == []
      && ItemsLeftText(CountActiveTasks(st.tasks, st.activeListId)) == "0 items left"
  {
    TrimmedInputTask();
    CompletedTaskViews(Task(1, "Read", "", false, "", "", "medium", DefaultListId));
  }

  /** The default channel is the first catalog entry. */
  lemma DefaultChannelTitle()
    ensures NowPlaying.CurrentChannelTitle(Channels.Catalog, DefaultChannel) == "Spring Lofi"
  {
    assert Channels.Catalog[0].id == DefaultChannel;
  }

  // ---------------------------------------------------------------------------------------------
  // The page

  class Home {
    var settings: Settings
    var tasks: seq<Task>
    var lists: seq<TodoList>
    var activeListId: string
    var currentFilter: string
    var pomodoroCount: nat
    var currentChannel: string
    var pomodoroVisible: bool
    var todoVisible: bool
    var settingsVisible: bool
    /** The mounted timer window, present exactly while its panel is open. */
    var timer: PomodoroWindow.PomodoroTimer?
    /** The mounted task window's own state, present exactly while its panel is open. */
    var todoForm: TodoForm?
    const store: LocalStorage

    function Snapshot(): AppState
      reads this
    {
      AppState(settings, tasks, lists, activeListId, currentFilter, pomodoroCount)
    }

    /** The channel, the view flags and the mounted windows, none of which are saved. */
    function Panels(): (string, bool, bool, bool, PomodoroWindow.PomodoroTimer?, TodoForm?)
      reads this
    {
      (currentChannel, pomodoroVisible, todoVisible, settingsVisible, timer, todoForm)
    }

    constructor (store: LocalStorage)
      ensures Snapshot() == DefaultState() && this.store == store
      ensures Panels() == (DefaultChannel, false, false, false, null, null)
    {
      settings := DefaultSettings();
      tasks := [];
      lists := [TodoList(DefaultListId, "Main List", "#9764c7")];
      activeListId := DefaultListId;
      currentFilter := "all";
      pomodoroCount := 0;
      currentChannel := DefaultChannel;
      pomodoroVisible := false;
      todoVisible := false;
      settingsVisible := false;
      timer := null;
      todoForm := null;
      this.store := store;
    }

    /** The mount effect: reads the six slices; a parse that throws ends it early. */
    method LoadDataFromLocalStorage()
      modifies this
      ensures Snapshot() == Loaded(old(Snapshot()), store.items)
      ensures Panels() == old(Panels())
    {
      ghost var items := store.items;
      ghost var s0 := Snapshot();
      var storedSettings := store.Get(SettingsKey);
      assert storedSettings == Lookup(items, SettingsKey);
      if Truthy(storedSettings) {
        if !storedSettings.value.SettingsValue? { return; }
        settings := storedSettings.value.settings;
      }
      ghost var s1 := Snapshot();
      assert LoadSettings(s0, Lookup(items, SettingsKey)) == Some(s1);
      var storedTasks := store.Get(TasksKey);
      assert storedTasks == Lookup(items, TasksKey);
      if Truthy(storedTasks) {
        if !storedTasks.value.TasksValue? { return; }
        tasks := storedTasks.value.tasks;
      }
      ghost var s2 := Snapshot();
      assert LoadTasks(s1, Lookup(items, TasksKey)) == Some(s2);
      var storedLists := store.Get(ListsKey);
      assert storedLists == Lookup(items, ListsKey);
      if Truthy(storedLists) {
        if !storedLists.value.ListsValue? { return; }
        lists := storedLists.value.lists;
      }
      assert LoadLists(s2, Lookup(items, ListsKey)) == Some(Snapshot());
      LoadTextSlices();
    }

    /** The last three reads of the mount effect, which cannot throw. */
    method LoadTextSlices()
      modifies this
      ensures Snapshot() == LoadText(old(Snapshot()), store.items)
      ensures Panels() == old(Panels())
    {
      ghost var items := store.items;
      ghost var s3 := Snapshot();
      var storedActiveList := store.Get(ActiveListKey);
      assert storedActiveList == Lookup(items, ActiveListKey);
      if Truthy(storedActiveList) && storedActiveList.value.TextValue? {
        activeListId := storedActiveList.value.text;
      }
      ghost var s4 := Snapshot();
      assert s4 == LoadActiveList(s3, Lookup(items, ActiveListKey));
      var storedFilter := store.Get(FilterKey);
      assert storedFilter == Lookup(items, FilterKey);
      if Truthy(storedFilter) && storedFilter.value.TextValue? {
        currentFilter := storedFilter.value.text;
      }
      ghost var s5 := Snapshot();
      assert s5 == LoadFilter(s4, Lookup(items, FilterKey));
      var storedCount := store.Get(CountKey);
      assert storedCount == Lookup(items, CountKey);
      if Truthy(storedCount) && storedCount.value.TextValue? && AllDigits(storedCount.value.text) {
        pomodoroCount := DecimalValue(storedCount.value.text);
      }
      assert Snapshot() == LoadCount(s5, Lookup(items, CountKey));
      assert Snapshot() == LoadText(s3, items);
    }

    /** `saveDataToLocalStorage`, writing the values of the state `snapshot`. */
    method SaveDataToLocalStorage(snapshot: AppState)
      modifies store
      ensures store.items == Persisted(old(store.items), snapshot, store.rejected)
    {
      ghost var w := SaveWrites(snapshot);
      ghost var r := store.rejected;
      ghost var start := store.items;
      assert w[0..] == w;
      ghost var prev := store.items;
      var ok := store.SetItem(SettingsKey, SettingsValue(snapshot.settings));
      ApplyWritesAt(prev, w, 0, r);
      if !ok { return; }
      prev := store.items;
      ok := store.SetItem(TasksKey, TasksValue(snapshot.tasks));
      ApplyWritesAt(prev, w, 1, r);
      if !ok { return; }
      prev := store.items;
      ok := store.SetItem(ListsKey, ListsValue(snapshot.lists));
      ApplyWritesAt(prev, w, 2, r);
      if !ok { return; }
      prev := store.items;
      ok := store.SetItem(ActiveListKey, TextValue(snapshot.activeListId));
      ApplyWritesAt(prev, w, 3, r);
      if !ok { return; }
      prev := store.items;
      ok := store.SetItem(FilterKey, TextValue(snapshot.filter));
      ApplyWritesAt(prev, w, 4, r);
      if !ok { return; }
      prev := store.items;
      ok := store.SetItem(CountKey, TextValue(Decimal(snapshot.count)));
      ApplyWritesAt(prev, w, 5, r);
      assert w[6..] == [];
    }

    /** Saves the state as it is now; the handlers call this after their update in the corrected page. */
    method SaveCurrentState()
      modifies store
      ensures store.items == Persisted(old(store.items), Snapshot(), store.rejected)
    {
      SaveDataToLocalStorage(Snapshot());
    }

    /**
     * `handleSaveSettings`. A mounted timer receives the new settings prop, which runs its
     * settings effect.
     */
    method HandleSaveSettings(newSettings: Settings)
      requires timer != null ==> timer.IsValid()
      modifies this, store, timer
      ensures Snapshot() == SaveSettings(old(Snapshot()), newSettings)
      ensures Panels() == old(Panels()).(3 := false)
      ensures store.items == Persisted(old(store.items), old(Snapshot()), store.rejected)
      ensures timer != null ==>
        && timer.IsValid() && timer.settings == newSettings
        && timer.State() == PomodoroWindow.SettingsChanged(old(timer.State()), newSettings)
    {
      var before := Snapshot();
      settings := newSettings;
      settingsVisible := false;
      SaveDataToLocalStorage(before);
      if timer != null {
        timer.ChangeSettings(newSettings);
      }
    }

    method HandleAddTask(task: Task)
      modifies this, store
      ensures Snapshot() == AddTask(old(Snapshot()), task) && Panels() == old(Panels())
      ensures store.items == Persisted(old(store.items), old(Snapshot()), store.rejected)
    {
      var before := Snapshot();
      tasks := tasks + [task];
      SaveDataToLocalStorage(before);
    }

    method HandleToggleTaskCompletion(taskId: int)
      modifies this, store
      ensures Snapshot() == ToggleTaskCompletion(old(Snapshot()), taskId) && Panels() == old(Panels())
      ensures store.items == Persisted(old(store.items), old(Snapshot()), store.rejected)
    {
      var before := Snapshot();
      tasks := ToggledTasks(tasks, taskId);
      SaveDataToLocalStorage(before);
    }

    method HandleClearCompletedTasks()
      modifies this, store
      ensures Snapshot() == ClearCompletedTasks(old(Snapshot())) && Panels() == old(Panels())
      ensures store.items == Persisted(old(store.items), old(Snapshot()), store.rejected)
    {
      var before := Snapshot();
      tasks := Keep(tasks, IsOpen());
      SaveDataToLocalStorage(before);
    }

    method HandleChangeFilter(filter: string)
      modifies this, store
      ensures Snapshot() == ChangeFilter(old(Snapshot()), filter) && Panels() == old(Panels())
      ensures store.items == Persisted(old(store.items), old(Snapshot()), store.rejected)
    {
      var before := Snapshot();
      currentFilter := filter;
      SaveDataToLocalStorage(before);
    }

    method HandleChangeActiveList(listId: string)
      modifies this, store
      ensures Snapshot() == ChangeActiveList(old(Snapshot()), listId) && Panels() == old(Panels())
      ensures store.items == Persisted(old(store.items), old(Snapshot()), store.rejected)
    {
      var before := Snapshot();
      activeListId := listId;
      SaveDataToLocalStorage(before);
    }

    method HandleAddList(list: TodoList)
      modifies this, store
      ensures Snapshot() == AddList(old(Snapshot()), list) && Panels() == old(Panels())
      ensures store.items == Persisted(old(store.items), old(Snapshot()), store.rejected)
    {
      var before := Snapshot();
      lists := lists + [list];
      SaveDataToLocalStorage(before);
    }

    method HandleDeleteList(listId: string)
      modifies this, store
      ensures Snapshot() == DeleteList(old(Snapshot()), listId) && Panels() == old(Panels())
      ensures store.items == Persisted(old(store.items), old(Snapshot()), store.rejected)
    {
      var before := Snapshot();
      lists := Keep(lists, OtherList(listId));
      tasks := Keep(tasks, OutsideList(listId));
      if activeListId == listId {
        activeListId := DefaultListId;
      }
      SaveDataToLocalStorage(before);
    }

    /**
     * `handleUpdatePomodoroCount`, which the timer calls only from the interval that
     * `startTimer` set up. That interval holds the handler of the render in which the timer was
     * started, so the save writes `startedIn`, the page state of that render.
     */
    method HandleUpdatePomodoroCount(count: nat, startedIn: AppState)
      modifies this, store
      ensures Snapshot() == UpdatePomodoroCount(old(Snapshot()), count) && Panels() == old(Panels())
      ensures store.items == Persisted(old(store.items), startedIn, store.rejected)
    {
      pomodoroCount := count;
      SaveDataToLocalStorage(startedIn);
    }

    /** `handleChangeChannel`; loading the video into the player is not modelled. */
    method HandleChangeChannel(videoId: string)
      modifies this
      ensures Snapshot() == old(Snapshot()) && Panels() == old(Panels()).(0 := videoId)
    {
      currentChannel := videoId;
    }

    /**
     * The launcher's timer button. Closing unmounts the timer window, so its countdown, mode and
     * toast are discarded (its effect's cleanup clears the interval); opening mounts a new one.
     */
    method TogglePomodoroPanel()
      modifies this
      ensures Snapshot() == old(Snapshot())
      ensures Panels().(4 := old(timer)) == old(Panels()).(1 := !old(pomodoroVisible))
      ensures pomodoroVisible ==>
        && timer != null && fresh(timer) && timer.IsValid()
        && timer.settings == settings && timer.State() == PomodoroWindow.Initial(settings)
      ensures !pomodoroVisible ==> timer == null
    {
      if pomodoroVisible {
        pomodoroVisible := false;
        timer := null;
      } else {
        pomodoroVisible := true;
        timer := new PomodoroWindow.PomodoroTimer(settings);
      }
    }

    /** The timer window's close button: the window is unmounted and its state discarded. */
    method ClosePomodoroPanel()
      modifies this
      ensures Snapshot() == old(Snapshot())
      ensures Panels() == old(Panels()).(1 := false, 4 := null)
    {
      pomodoroVisible := false;
      timer := null;
    }

    /**
     * The launcher's task button. Closing unmounts the task window and discards its input and
     * edit dialog; opening mounts a new one with an empty input.
     */
    method ToggleTodoPanel()
      modifies this
      ensures Snapshot() == old(Snapshot())
      ensures Panels().(5 := old(todoForm)) == old(Panels()).(2 := !old(todoVisible))
      ensures todoVisible ==>
        && todoForm != null && fresh(todoForm)
        && todoForm.newTaskText == "" && !todoForm.editModalOpen && todoForm.currentEditTask == None
      ensures !todoVisible ==> todoForm == null
    {
      if todoVisible {
        todoVisible := false;
        todoForm := null;
      } else {
        todoVisible := true;
        todoForm := new TodoForm();
      }
    }

    /** The task window's close button: the window is unmounted and its state discarded. */
    method CloseTodoPanel()
      modifies this
      ensures Snapshot() == old(Snapshot())
      ensures Panels() == old(Panels()).(2 := false, 5 := null)
    {
      todoVisible := false;
      todoForm := null;
    }

    /** The timer's settings button. */
    method ShowSettings()
      modifies this
      ensures Snapshot() == old(Snapshot()) && Panels() == old(Panels()).(3 := true)
    {
      settingsVisible := true;
    }

    /** The settings panel's close button. */
    method CloseSettings()
      modifies this
      ensures Snapshot() == old(Snapshot()) && Panels() == old(Panels()).(3 := false)
    {
      settingsVisible := false;
    }
  }
}
