/** task_manger_clean_testing/delivery/controllers/task_controller.go: each handler maps the caller's
    role, the bound request body and the use case's outcome to a status and a JSON body. The use case
    passes the repository's result through unchanged, so the outcomes are those of TaskRepository. */
module TaskController {
  import opened Wrappers
  import opened Http
  import Auth
  import opened Domain
  import Mongo
  import Bson
  import TaskRepository

  /** What the handlers send as JSON values: a task list, or one task that may be null. */
  datatype TaskJson = TaskList(tasks: seq<Task>) | OneTask(task: Option<Task>)

  function ErrorReply(status: int, error: string, message: string): Reply<TaskJson> {
    Json(status, Fields([("error", error), ("message", message)]))
  }

  /** The role gate of the three mutating handlers: 400 with the role error unless usertype is ADMIN. */
  function RoleRefusal(keys: Auth.Keys): (r: Option<Reply<TaskJson>>)
    ensures r.None? <==> Auth.GetString(keys, "usertype") == "ADMIN"
    ensures r.Some? ==> r.value == Json(StatusBadRequest, Fields([("error", "unauthorized to access")]))
  {
    match Auth.CheckUserType(keys, "ADMIN")
    case Some(e) => Some(Json(StatusBadRequest, Fields([("error", e)])))
    case None => None
  }

  /** GetTasks: no role check; an error is 500, otherwise the tasks. */
  function GetTasks(outcome: Result<seq<Task>>): (r: Reply<TaskJson>)
    ensures r.Reply? && (r.status == StatusOK <==> outcome.Ok?)
    ensures outcome.Err? ==> r == ErrorReply(StatusInternalServerError, "Failed to retrieve tasks", outcome.error)
    ensures outcome.Ok? ==> r == Json(StatusOK, Payload(TaskList(outcome.value)))
  {
    match outcome
    case Err(e) => ErrorReply(StatusInternalServerError, "Failed to retrieve tasks", e)
    case Ok(tasks) => Json(StatusOK, Payload(TaskList(tasks)))
  }

  /** GetTasksById: "no documents" is 400, any other error 500, otherwise 200 with the task, which is
      null when the repository found none. */
  function GetTasksById(outcome: Result<Option<Task>>): (r: Reply<TaskJson>)
    ensures outcome == Err(Mongo.ErrNoDocuments) ==>
              r == ErrorReply(StatusBadRequest, "Failed to retrieve task, the ID doesn't exist", Mongo.ErrNoDocuments)
    ensures outcome.Err? && outcome.error != Mongo.ErrNoDocuments ==>
              r == ErrorReply(StatusInternalServerError, "Failed to retrieve task", outcome.error)
    ensures outcome.Ok? ==> r == Json(StatusOK, Payload(OneTask(outcome.value)))
  {
    match outcome
    case Err(e) =>
      if e == Mongo.ErrNoDocuments then ErrorReply(StatusBadRequest, "Failed to retrieve task, the ID doesn't exist", e)
      else ErrorReply(StatusInternalServerError, "Failed to retrieve task", e)
    case Ok(task) => Json(StatusOK, Payload(OneTask(task)))
  }

  /** The use case of a mutating handler runs only for an ADMIN caller whose body binds. */
  predicate Admitted(keys: Auth.Keys, body: Bound<Task>) {
    Auth.GetString(keys, "usertype") == "ADMIN" && body.err.None?
  }

  /** UpdateTask: role gate, then bind, then the use case's error. `outcome` is what the use case
      returns if it runs. */
  function UpdateTask(keys: Auth.Keys, body: Bound<Task>, outcome: Option<string>): (r: Reply<TaskJson>)
    ensures Auth.GetString(keys, "usertype") != "ADMIN" ==> r == RoleRefusal(keys).value
    ensures Auth.GetString(keys, "usertype") == "ADMIN" && body.err.Some? ==>
              r == ErrorReply(StatusBadRequest, "Failed to bind request data", body.err.value)
    ensures Admitted(keys, body) && outcome.Some? ==>
              r == ErrorReply(StatusInternalServerError, "Failed to update task in the database", outcome.value)
    ensures Admitted(keys, body) && outcome.None? ==>
              r == Json(StatusOK, Fields([("message", "Task updated successfully")]))
  {
    match RoleRefusal(keys)
    case Some(refusal) => refusal
    case None =>
      if body.err.Some? then ErrorReply(StatusBadRequest, "Failed to bind request data", body.err.value)
      else match outcome
        case Some(e) => ErrorReply(StatusInternalServerError, "Failed to update task in the database", e)
        case None => Json(StatusOK, Fields([("message", "Task updated successfully")]))
  }

  /** DeleteById: role gate, then the use case's error (500) or count: 0 is 404. */
  function DeleteById(keys: Auth.Keys, outcome: Result<int>): (r: Reply<TaskJson>)
    ensures Auth.GetString(keys, "usertype") != "ADMIN" ==> r == RoleRefusal(keys).value
    ensures Auth.GetString(keys, "usertype") == "ADMIN" ==>
              match outcome
              case Err(e) => r == ErrorReply(StatusInternalServerError, "Failed to delete task", e)
              case Ok(n) =>
                if n == 0 then r == ErrorReply(StatusNotFound, "Task not found", "No task with the provided ID exists")
                else r == Json(StatusOK, Fields([("message", "Task deleted successfully")]))
  {
    match RoleRefusal(keys)
    case Some(refusal) => refusal
    case None =>
      match outcome
      case Err(e) => ErrorReply(StatusInternalServerError, "Failed to delete task", e)
      case Ok(n) =>
        if n == 0 then ErrorReply(StatusNotFound, "Task not found", "No task with the provided ID exists")
        else Json(StatusOK, Fields([("message", "Task deleted successfully")]))
  }

  /** AddTask: role gate, bind, then the use case's error; success echoes the task. */
  function AddTask(keys: Auth.Keys, body: Bound<Task>, outcome: Option<string>): (r: Reply<TaskJson>)
    ensures Auth.GetString(keys, "usertype") != "ADMIN" ==> r == RoleRefusal(keys).value
    ensures Auth.GetString(keys, "usertype") == "ADMIN" && body.err.Some? ==>
              r == ErrorReply(StatusBadRequest, "Failed to bind request data", body.err.value)
    ensures Admitted(keys, body) && outcome.Some? ==>
              r == ErrorReply(StatusInternalServerError, "Failed to add task to the database", outcome.value)
    ensures Admitted(keys, body) && outcome.None? ==>
              r == Json(StatusOK, FieldsWith([("message", "Task added successfully")], "task", OneTask(Some(body.value))))
  {
    match RoleRefusal(keys)
    case Some(refusal) => refusal
    case None =>
      if body.err.Some? then ErrorReply(StatusBadRequest, "Failed to bind request data", body.err.value)
      else match outcome
        case Some(e) => ErrorReply(StatusInternalServerError, "Failed to add task to the database", e)
        case None =>
          Json(StatusOK, FieldsWith([("message", "Task added successfully")], "task", OneTask(Some(body.value))))
  }

  /** A caller that is refused, or whose body does not bind, gets the same answer whatever the use
      case would have done: the use case is not consulted. */
  lemma UseCaseSkippedUnlessAdmitted(keys: Auth.Keys, body: Bound<Task>, o1: Option<string>, o2: Option<string>,
                                     d1: Result<int>, d2: Result<int>)
    requires !Admitted(keys, body)
    ensures UpdateTask(keys, body, o1) == UpdateTask(keys, body, o2)
    ensures AddTask(keys, body, o1) == AddTask(keys, body, o2)
    ensures Auth.GetString(keys, "usertype") != "ADMIN" ==> DeleteById(keys, d1) == DeleteById(keys, d2)
  {
  }

  /** Through the repository, a request for an ID no task has is answered 200 with a null task. */
  lemma MissingTaskIsNull(repo: TaskRepository.TaskRepository, id: string)
    requires Mongo.FirstMatch(repo.store.docs, "id", Bson.Str(id)).None?
    ensures GetTasksById(repo.GetTasksById(id, None)) == Json(StatusOK, Payload(OneTask(None)))
  {
  }

  /** Through the repository, deleting an ID no task has is answered 404, and deleting one that some
      task has is answered 200. */
  lemma DeleteAnswersByCount(keys: Auth.Keys, docs: seq<Bson.Doc>, id: string)
    requires Auth.GetString(keys, "usertype") == "ADMIN"
    ensures var n := |docs| - |Mongo.Unmatched(docs, "id", Bson.Str(id))|;
            DeleteById(keys, Ok(n)).status == (if Mongo.FirstMatch(docs, "id", Bson.Str(id)).None? then StatusNotFound else StatusOK)
  {
    Mongo.DeleteCount(docs, "id", Bson.Str(id));
  }
}
