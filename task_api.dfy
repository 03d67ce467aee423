/** task_manager_api/main.go, and task_manager_task_4/data/task_service.go, which is the same code over
    models.Tasks: a package-level slice of tasks served by five gin handlers. */
module TaskApi {
  import opened Wrappers
  import opened Http
  import Seqs

  /** DueDate is a time.Time, kept as milliseconds since the Unix epoch. */
  datatype Task = Task(id: string, title: string, description: string, dueDate: int, status: string)


  const Day := 86_400_000

  predicate HasId(id: string, t: Task) { t.id == id }

  function FindTask(ts: seq<Task>, id: string): (r: Option<nat>)
    ensures r.Some? ==> r.value < |ts| && ts[r.value].id == id && forall j :: 0 <= j < r.value ==> ts[j].id != id
    ensures r.None? <==> forall j :: 0 <= j < |ts| ==> ts[j].id != id
  {
    Seqs.FirstWhere(ts, t => HasId(id, t))
  }

  /** The partial update: a field is replaced only by a non-empty incoming value. */
  function Patch(t: Task, incoming: Task): (r: Task)
    ensures r.id == t.id && r.dueDate == t.dueDate && r.status == t.status
  {
    t.(title := if incoming.title != "" then incoming.title else t.title,
       description := if incoming.description != "" then incoming.description else t.description)
  }

  /** updateTask's effect on the slice: the first task with the ID is patched, nothing else changes. */
  function UpdateFirst(ts: seq<Task>, id: string, incoming: Task): (r: seq<Task>)
    ensures |r| == |ts|
    ensures (forall j :: 0 <= j < |ts| ==> ts[j].id != id) ==> r == ts
  {
    match FindTask(ts, id)
    case None => ts
    case Some(i) => ts[i := Patch(ts[i], incoming)]
  }

  /** deleteById's effect on the slice: the first task with the ID is spliced out. */
  function DeleteFirst(ts: seq<Task>, id: string): (r: seq<Task>)
    ensures |ts| - 1 <= |r| <= |ts|
    ensures |r| == |ts| <==> forall j :: 0 <= j < |ts| ==> ts[j].id != id
  {
    match FindTask(ts, id)
    case None => ts
    case Some(i) => Seqs.RemoveAt(ts, i)
  }

  function Message(text: string): Body<Task> { Fields([("message", text)]) }

  /** The partial update keeps ID, DueDate and Status, and replaces Title (Description) exactly when the
      incoming one is non-empty. */
  lemma PatchFields(t: Task, incoming: Task)
    ensures var p := Patch(t, incoming);
            && p.id == t.id && p.dueDate == t.dueDate && p.status == t.status
            && (incoming.title != "" ==> p.title == incoming.title)
            && (incoming.title == "" ==> p.title == t.title)
            && (incoming.description != "" ==> p.description == incoming.description)
            && (incoming.description == "" ==> p.description == t.description)
  {
  }

  /** Only the first task with the ID changes, and only as Patch says; the length never changes. */
  lemma UpdateFirstChangesOneTask(ts: seq<Task>, id: string, incoming: Task)
    ensures |UpdateFirst(ts, id, incoming)| == |ts|
    ensures FindTask(ts, id).None? ==> UpdateFirst(ts, id, incoming) == ts
    ensures FindTask(ts, id).Some? ==>
              var i := FindTask(ts, id).value;
              && UpdateFirst(ts, id, incoming)[i] == Patch(ts[i], incoming)
              && forall j :: 0 <= j < |ts| && j != i ==> UpdateFirst(ts, id, incoming)[j] == ts[j]
  {
  }

  /** Deleting removes exactly the first task with the ID and keeps the others in order, so the length
      drops by one exactly when some task has the ID. */
  lemma DeleteFirstRemovesOne(ts: seq<Task>, id: string)
    ensures (exists j :: 0 <= j < |ts| && ts[j].id == id) <==> |DeleteFirst(ts, id)| == |ts| - 1
    ensures (forall j :: 0 <= j < |ts| ==> ts[j].id != id) <==> DeleteFirst(ts, id) == ts
    ensures FindTask(ts, id).Some? ==>
              var i := FindTask(ts, id).value;
              DeleteFirst(ts, id) == ts[..i] + ts[i+1..]
  {
    match FindTask(ts, id)
    case None =>
    case Some(i) =>
      assert ts[i].id == id;
      assert |DeleteFirst(ts, id)| != |ts|;
  }

  /** A task appended at the end is what a lookup of its ID finds, unless an earlier task has that ID. */
  lemma FindAfterAppend(ts: seq<Task>, t: Task)
    ensures FindTask(ts + [t], t.id) == (if FindTask(ts, t.id).Some? then FindTask(ts, t.id) else Some(|ts|))
  {
    var s := ts + [t];
    match FindTask(ts, t.id)
    case Some(i) =>
      assert s[i] == ts[i];
      assert forall j :: 0 <= j < i ==> s[j] == ts[j];
    case None =>
      assert s[|ts|] == t;
      assert forall j :: 0 <= j < |ts| ==> s[j] == ts[j];
  }

  class TaskList {
    var tasks: seq<Task>

    /** The three mock tasks of task_manager_api, due now, in one day and in two days. */
    constructor Seeded(now: int)
      ensures |tasks| == 3
      ensures tasks[0] == Task("1", "Task 1", "First task", now, "Pending")
      ensures tasks[1] == Task("2", "Task 2", "Second task", now + Day, "In Progress")
      ensures tasks[2] == Task("3", "Task 3", "Third task", now + 2 * Day, "Completed")
    {
      tasks := [Task("1", "Task 1", "First task", now, "Pending"),
                Task("2", "Task 2", "Second task", now + Day, "In Progress"),
                Task("3", "Task 3", "Third task", now + 2 * Day, "Completed")];
    }

    /** getTasks: the whole slice, in order, with 200. */
    method GetTasks() returns (reply: Reply<seq<Task>>)
      ensures reply == Json(StatusOK, Payload(tasks))
    {
      reply := Json(StatusOK, Payload(tasks));
    }

    /** getTasksById: the first task with the ID, else 404 "task not found". */
    method GetTasksById(id: string) returns (reply: Reply<Task>)
      ensures FindTask(tasks, id).Some? ==> reply == Json(StatusOK, Payload(tasks[FindTask(tasks, id).value]))
      ensures FindTask(tasks, id).None? ==> reply == Json(StatusNotFound, Message("task not found"))
    {
      for i := 0 to |tasks|
        invariant forall j :: 0 <= j < i ==> tasks[j].id != id
      {
        if tasks[i].id == id {
          return Json(StatusOK, Payload(tasks[i]));
        }
      }
      reply := Json(StatusNotFound, Message("task not found"));
    }

    /** updateTask: a bind failure answers 400 with the error text; otherwise the first task with the
        ID is patched (200), or 404 "id not found" when there is none. */
    method UpdateTask(id: string, body: Bound<Task>) returns (reply: Reply<Task>)
      modifies this
      ensures body.err.Some? ==> tasks == old(tasks) && reply == Json(StatusBadRequest, Text(body.err.value))
      ensures body.err.None? ==> tasks == UpdateFirst(old(tasks), id, body.value)
      ensures body.err.None? && FindTask(old(tasks), id).Some? ==> reply == Json(StatusOK, Message("task updated "))
      ensures body.err.None? && FindTask(old(tasks), id).None? ==> reply == Json(StatusNotFound, Message("id not found"))
    {
      if body.err.Some? {
        return Json(StatusBadRequest, Text(body.err.value));
      }
      var updated := body.value;
      for idx := 0 to |tasks|
        invariant tasks == old(tasks)
        invariant forall j :: 0 <= j < idx ==> tasks[j].id != id
      {
        if tasks[idx].id == id {
          if updated.title != "" {
            tasks := tasks[idx := tasks[idx].(title := updated.title)];
          }
          if updated.description != "" {
            tasks := tasks[idx := tasks[idx].(description := updated.description)];
          }
          assert FindTask(old(tasks), id) == Some(idx);
          return Json(StatusOK, Message("task updated "));
        }
      }
      reply := Json(StatusNotFound, Message("id not found"));
    }

    /** deleteById: the first task with the ID is spliced out (200), else 404 "ID not found". */
    method DeleteById(id: string) returns (reply: Reply<Task>)
      modifies this
      ensures tasks == DeleteFirst(old(tasks), id)
      ensures FindTask(old(tasks), id).Some? ==> reply == Json(StatusOK, Message("task deleted successfully"))
      ensures FindTask(old(tasks), id).None? ==> reply == Json(StatusNotFound, Message("ID not found"))
    {
      for idx := 0 to |tasks|
        invariant tasks == old(tasks)
        invariant forall j :: 0 <= j < idx ==> tasks[j].id != id
      {
        if tasks[idx].id == id {
          assert FindTask(tasks, id) == Some(idx);
          tasks := tasks[..idx] + tasks[idx+1..];
          return Json(StatusOK, Message("task deleted successfully"));
        }
      }
      reply := Json(StatusNotFound, Message("ID not found"));
    }

    /** addTask: appends whatever was bound. A bind failure writes 400 first but does not return, so the
        task is still appended and the 201 body follows under the committed 400 status. */
    method AddTask(body: Bound<Task>) returns (reply: Reply<Task>)
      modifies this
      ensures tasks == old(tasks) + [body.value]
      ensures body.err.None? ==> reply == Json(StatusCreated, Message("task created"))
      ensures body.err.Some? ==> reply == Reply(StatusBadRequest, [Text(body.err.value), Message("task created")])
    {
      var r: Reply<Task>;
      var written := false;
      if body.err.Some? {
        r := Json(StatusBadRequest, Text(body.err.value));
        written := true;
      }
      tasks := tasks + [body.value];
      if written {
        reply := Then(r, StatusCreated, Message("task created"));
      } else {
        reply := Json(StatusCreated, Message("task created"));
      }
    }
  }
}
