// Model-View-Controller task manager: the model owns the tasks, the controller
// turns user commands into model updates and reports the outcome as a message.
module Mvc {
  import opened Wrappers
  import opened Dicts
  import Seqs
  import Text

  datatype TaskPriority = Low | Medium | High | Critical
  datatype TaskStatus = Todo | InProgress | Done

  /** `Task`; `completedAt` is empty until the task is marked done (creation time is not modelled). */
  datatype Task = Task(id: int, title: string, description: string, priority: TaskPriority,
                       status: TaskStatus, completedAt: string)

  /** The numbers the model's `stats` property reports. */
  datatype Stats = Stats(total: nat, done: nat, inProgress: nat, todo: nat)

  /** Tasks listed in insertion order have strictly increasing ids. */
  ghost predicate IdsIncrease(ts: seq<Task>)
  {
    forall i, j :: 0 <= i < j < |ts| ==> ts[i].id < ts[j].id
  }

  function StatusIs(s: TaskStatus): Task -> bool { (t: Task) => t.status == s }
  function PriorityIs(p: TaskPriority): Task -> bool { (t: Task) => t.priority == p }
  function IdIsNot(id: int): Task -> bool { (t: Task) => t.id != id }

  /** Every task has exactly one of the three statuses, so the three counts add up to the total. */
  lemma {:induction false} StatusCountsPartition(ts: seq<Task>)
    ensures |ts| == |Seqs.Filter(ts, StatusIs(Done))| + |Seqs.Filter(ts, StatusIs(InProgress))|
                    + |Seqs.Filter(ts, StatusIs(Todo))|
  {
    if |ts| > 0 {
      StatusCountsPartition(ts[1..]);
    }
  }

  function TaskIdOf(t: Task): Option<int> { Some(t.id) }

  lemma StoredValuesIncrease(d: Dict<int, Task>, nextId: int)
    requires StoredUnder(d, TaskIdOf, nextId)
    ensures IdsIncrease(d.Values())
  {
  }

  /** Deleting a stored id is the same as filtering its task out of `values()`. */
  lemma RemoveFiltersOut(d: Dict<int, Task>, nextId: int, id: int)
    requires StoredUnder(d, TaskIdOf, nextId) && id in d.entries
    ensures d.Remove(id).Values() == Seqs.Filter(d.Values(), IdIsNot(id))
  {
    var vs := d.Values();
    var k := d.IndexOfKey(id);
    ValuesRemove(d, id);
    assert forall i :: 0 <= i < |vs| ==> vs[i].id == d.keys[i];
    FilterDropsOne(vs, k, id);
  }

  /** Filtering out an id held by exactly one task drops just that task. */
  lemma {:induction false} FilterDropsOne(ts: seq<Task>, k: nat, id: int)
    requires k < |ts| && ts[k].id == id
    requires forall i :: 0 <= i < |ts| && i != k ==> ts[i].id != id
    ensures Seqs.Filter(ts, IdIsNot(id)) == ts[..k] + ts[k + 1..]
  {
    if k == 0 {
      FilterKeepsAll(ts[1..], id);
    } else {
      FilterDropsOne(ts[1..], k - 1, id);
      assert ts[1..][..k - 1] + ts[1..][k..] == ts[1..k] + ts[k + 1..];
      assert ts[..k] == [ts[0]] + ts[1..k];
    }
  }

  /** Filtering out an id that is not stored changes nothing. */
  lemma {:induction false} AbsentFiltersNothing(d: Dict<int, Task>, nextId: int, id: int)
    requires StoredUnder(d, TaskIdOf, nextId) && id !in d.entries
    ensures Seqs.Filter(d.Values(), IdIsNot(id)) == d.Values()
  {
    var vs := d.Values();
    forall i | 0 <= i < |vs| ensures vs[i].id != id {
      assert vs[i].id == d.keys[i];
    }
    FilterKeepsAll(vs, id);
  }

  lemma {:induction false} FilterKeepsAll(ts: seq<Task>, id: int)
    requires forall i :: 0 <= i < |ts| ==> ts[i].id != id
    ensures Seqs.Filter(ts, IdIsNot(id)) == ts
  {
    if |ts| > 0 {
      FilterKeepsAll(ts[1..], id);
    }
  }

  /** `TaskModel`: tasks keyed by id in a dict, and the next id to hand out. */
  class TaskModel {
    var tasks: Dict<int, Task>
    var nextId: int
    /** How many times `_notify_observers` has run; the view's `on_model_changed` does nothing. */
    var notifications: nat

    ghost predicate Valid()
      reads this
    {
      StoredUnder(tasks, TaskIdOf, nextId)
    }

    constructor ()
      ensures Valid() && AllTasks() == [] && nextId == 1 && notifications == 0
    {
      tasks := Empty();
      nextId := 1;
      notifications := 0;
    }

    /** `get_all_tasks`: every task, oldest first. */
    function AllTasks(): seq<Task>
      reads this
      requires Valid()
    {
      tasks.Values()
    }

    /** The tasks come out oldest first: their ids increase along the list. */
    lemma AllTasksInOrder()
      requires Valid()
      ensures IdsIncrease(AllTasks())
    {
      StoredValuesIncrease(tasks, nextId);
    }

    /** `get_task`: the task with that id, if there is one. */
    function GetTask(id: int): (r: Option<Task>)
      reads this
      requires Valid()
      ensures r.Some? <==> id in tasks.entries
      ensures r.Some? ==> r.value.id == id && r.value in AllTasks()
    {
      if id in tasks.entries then
        var i := tasks.IndexOfKey(id);
        assert AllTasks()[i] == tasks.entries[id];
        Some(tasks.entries[id])
      else None
    }

    /** `add_task`: stores a new to-do task under the next id and returns it. */
    method AddTask(title: string, description: string, priority: TaskPriority) returns (t: Task)
      requires Valid()
      modifies this
      ensures Valid()
      ensures t == Task(old(nextId), title, description, priority, Todo, "")
      ensures tasks == old(tasks).Put(t.id, t) && nextId == old(nextId) + 1
      ensures AllTasks() == old(AllTasks()) + [t]
      ensures notifications == old(notifications) + 1
    {
      var id, d := nextId, tasks;
      t := Task(id, title, description, priority, Todo, "");
      AddKeepsStored(d, TaskIdOf, id, t);
      ValuesPutNew(d, id, t);
      tasks := d.Put(id, t);
      nextId := id + 1;
      notifications := notifications + 1;
    }

    /** `update_status`: sets the status of a stored task, stamping `now` when it becomes done. */
    method UpdateStatus(id: int, status: TaskStatus, now: string) returns (r: Option<Task>)
      requires Valid()
      modifies this
      ensures Valid() && nextId == old(nextId)
      ensures old(GetTask(id)).None? ==> r.None? && tasks == old(tasks) && notifications == old(notifications)
      ensures old(GetTask(id)).Some? ==>
        var t := old(GetTask(id)).value;
        r == Some(t.(status := status, completedAt := if status == Done then now else t.completedAt)) &&
        tasks == old(tasks).Put(id, r.value) && notifications == old(notifications) + 1
    {
      if id !in tasks.entries {
        return None;
      }
      var current := tasks.entries[id];
      var t := current.(status := status, completedAt := if status == Done then now else current.completedAt);
      ReplaceKeepsStored(tasks, TaskIdOf, nextId, id, t);
      tasks := tasks.Put(id, t);
      r := Some(t);
      notifications := notifications + 1;
    }

    /** `delete_task`: removes the task if it exists and says whether it did. */
    method DeleteTask(id: int) returns (deleted: bool)
      requires Valid()
      modifies this
      ensures Valid() && nextId == old(nextId)
      ensures deleted <==> old(GetTask(id)).Some?
      ensures deleted ==> tasks == old(tasks).Remove(id)
      ensures !deleted ==> tasks == old(tasks)
      ensures AllTasks() == Seqs.Filter(old(AllTasks()), IdIsNot(id))
      ensures notifications == old(notifications) + (if deleted then 1 else 0)
    {
      var d := tasks;
      deleted := id in d.entries;
      if deleted {
        RemoveKeepsStored(d, TaskIdOf, nextId, id);
        RemoveFiltersOut(d, nextId, id);
        tasks := d.Remove(id);
        notifications := notifications + 1;
      } else {
        AbsentFiltersNothing(d, nextId, id);
      }
    }

    /** `get_tasks_by_status`. */
    function TasksByStatus(s: TaskStatus): (ts: seq<Task>)
      reads this
      requires Valid()
      ensures forall t :: t in ts <==> t in AllTasks() && t.status == s
      ensures Seqs.IsSubsequence(ts, AllTasks())
    {
      Seqs.FilterIsSubsequence(AllTasks(), StatusIs(s));
      Seqs.FilterMembers(AllTasks(), StatusIs(s));
      Seqs.Filter(AllTasks(), StatusIs(s))
    }

    /** `get_tasks_by_priority`. */
    function TasksByPriority(p: TaskPriority): (ts: seq<Task>)
      reads this
      requires Valid()
      ensures forall t :: t in ts <==> t in AllTasks() && t.priority == p
      ensures Seqs.IsSubsequence(ts, AllTasks())
    {
      Seqs.FilterIsSubsequence(AllTasks(), PriorityIs(p));
      Seqs.FilterMembers(AllTasks(), PriorityIs(p));
      Seqs.Filter(AllTasks(), PriorityIs(p))
    }

    /** The `stats` property (without its formatted completion rate). */
    function GetStats(): (st: Stats)
      reads this
      requires Valid()
      ensures st.total == |AllTasks()| == st.done + st.inProgress + st.todo
    {
      StatusCountsPartition(AllTasks());
      Stats(|tasks.keys|, |TasksByStatus(Done)|, |TasksByStatus(InProgress)|, |TasksByStatus(Todo)|)
    }
  }

  /** The controller's `priority_map` lookup: case-insensitive, Medium for anything unknown. */
  function PriorityFromText(text: string): TaskPriority
  {
    match Text.Lower(text)
    case "low" => Low
    case "medium" => Medium
    case "high" => High
    case "critical" => Critical
    case _ => Medium
  }

  lemma PriorityIgnoresCase(text: string)
    ensures PriorityFromText(Text.Lower(text)) == PriorityFromText(text)
  {
    Text.LowerIdempotent(text);
  }

  /** The four accepted spellings map to their priorities; every other text falls back to Medium. */
  lemma PriorityNames(text: string)
    ensures PriorityFromText(text) == Low <==> Text.Lower(text) == "low"
    ensures PriorityFromText(text) == High <==> Text.Lower(text) == "high"
    ensures PriorityFromText(text) == Critical <==> Text.Lower(text) == "critical"
  {
  }

  /** `TaskController`: each command updates the model and returns the message the view would show. */
  class TaskController {
    const model: TaskModel

    constructor (model: TaskModel)
      ensures this.model == model
    {
      this.model := model;
    }

    method CreateTask(title: string, description: string, priority: string) returns (message: string)
      requires model.Valid()
      modifies model
      ensures model.Valid()
      ensures model.AllTasks() == old(model.AllTasks()) + [Task(old(model.nextId), title, description, PriorityFromText(priority), Todo, "")]
      ensures model.nextId == old(model.nextId) + 1 && model.notifications == old(model.notifications) + 1
      ensures message == "Task '" + title + "' created (ID: " + Text.IntToString(old(model.nextId)) + ")"
    {
      var t := model.AddTask(title, description, PriorityFromText(priority));
      message := "Task '" + t.title + "' created (ID: " + Text.IntToString(t.id) + ")";
    }

    method CompleteTask(id: int, now: string) returns (message: string)
      requires model.Valid()
      modifies model
      ensures model.Valid()
      ensures model.nextId == old(model.nextId)
      ensures old(model.GetTask(id)).Some? ==>
        var t := old(model.GetTask(id)).value;
        model.tasks == old(model.tasks).Put(id, t.(status := Done, completedAt := now)) &&
        model.notifications == old(model.notifications) + 1 &&
        message == "Task '" + t.title + "' marked as done! ✅"
      ensures old(model.GetTask(id)).None? ==>
        model.tasks == old(model.tasks) && model.notifications == old(model.notifications) &&
        message == "Task #" + Text.IntToString(id) + " not found."
    {
      var r := model.UpdateStatus(id, Done, now);
      if r.Some? {
        assert r.value in model.AllTasks();
        message := "Task '" + r.value.title + "' marked as done! ✅";
      } else {
        message := "Task #" + Text.IntToString(id) + " not found.";
      }
    }

    method StartTask(id: int) returns (message: string)
      requires model.Valid()
      modifies model
      ensures model.Valid()
      ensures model.nextId == old(model.nextId)
      ensures old(model.GetTask(id)).Some? ==>
        var t := old(model.GetTask(id)).value;
        model.tasks == old(model.tasks).Put(id, t.(status := InProgress)) &&
        model.notifications == old(model.notifications) + 1 &&
        message == "Started working on '" + t.title + "' 🚀"
      ensures old(model.GetTask(id)).None? ==>
        model.tasks == old(model.tasks) && model.notifications == old(model.notifications) &&
        message == "Task #" + Text.IntToString(id) + " not found."
    {
      var r := model.UpdateStatus(id, InProgress, "");
      if r.Some? {
        assert r.value in model.AllTasks();
        message := "Started working on '" + r.value.title + "' 🚀";
      } else {
        message := "Task #" + Text.IntToString(id) + " not found.";
      }
    }

    method DeleteTask(id: int) returns (message: string)
      requires model.Valid()
      modifies model
      ensures model.Valid()
      ensures model.GetTask(id).None? && model.nextId == old(model.nextId)
      ensures model.AllTasks() == Seqs.Filter(old(model.AllTasks()), IdIsNot(id))
      ensures model.tasks == if old(model.GetTask(id)).Some? then old(model.tasks).Remove(id) else old(model.tasks)
      ensures model.notifications == old(model.notifications) + (if old(model.GetTask(id)).Some? then 1 else 0)
      ensures message == if old(model.GetTask(id)).Some? then "Task #" + Text.IntToString(id) + " deleted. 🗑️"
                         else "Task #" + Text.IntToString(id) + " not found."
    {
      var deleted := model.DeleteTask(id);
      if deleted {
        message := "Task #" + Text.IntToString(id) + " deleted. 🗑️";
      } else {
        message := "Task #" + Text.IntToString(id) + " not found.";
      }
    }
  }
}
