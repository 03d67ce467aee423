/** task_manger_clean_architecture/repositories/task_repository.go: the Mongo-backed TaskRepository. */
module TaskRepository {
  import opened Wrappers
  import opened Bson
  import opened Domain
  import Mongo
  import Seqs

  const FetchFailed := "error fetching tasks from database"
  const DecodeFailed := "error decoding task data"

  /** The `$set` document of UpdateTask: every field but the ID. */
  function TaskFields(u: Task): (f: Doc)
    ensures f.Keys == {"title", "description", "status", "duedate"}
  {
    map["title" := Str(u.title), "description" := Str(u.description), "status" := Str(u.status),
        "duedate" := DateTime(u.dueDate)]
  }

  /** A stored task after UpdateTask's `$set`: title, description, status and due date are the new
      ones, the ID is kept. */
  lemma UpdatedTaskDecodes(d: Doc, stored: Task, u: Task)
    requires DecodeTask(d) == Ok(stored)
    ensures DecodeTask(SetFields(d, TaskFields(u))) ==
            Ok(stored.(title := u.title, description := u.description, status := u.status, dueDate := u.dueDate))
  {
    var d' := SetFields(d, TaskFields(u));
    assert "id" !in TaskFields(u);
    assert ("id" in d') == ("id" in d) && ("id" in d ==> d'["id"] == d["id"]);
  }

  /** What UpdateTask does to the collection: the first document with the ID gets the new fields,
      every other document is untouched, and with no such document nothing changes. */
  lemma UpdateTaskEffect(docs: seq<Doc>, id: string, u: Task)
    ensures Mongo.FirstMatch(docs, "id", Str(id)).None? ==> Mongo.Updated(docs, "id", Str(id), TaskFields(u), false, "") == docs
    ensures Mongo.FirstMatch(docs, "id", Str(id)).Some? ==>
              var i := Mongo.FirstMatch(docs, "id", Str(id)).value;
              var r := Mongo.Updated(docs, "id", Str(id), TaskFields(u), false, "");
              && |r| == |docs|
              && r[i] == SetFields(docs[i], TaskFields(u))
              && forall j :: 0 <= j < |docs| && j != i ==> r[j] == docs[j]
  {
  }

  class TaskRepository {
    const store: Mongo.Collection

    constructor (store: Mongo.Collection)
      ensures this.store == store
    {
      this.store := store;
    }

    /** AddTask: inserts the five fields without looking for an existing task with the same ID. */
    method AddTask(t: Task, freshId: string, fault: Option<string>) returns (err: Option<string>)
      modifies store
      ensures fault.Some? ==> err == fault && store.docs == old(store.docs)
      ensures fault.None? ==> err.None? && store.docs == old(store.docs) + [Mongo.WithObjectId(EncodeTask(t), freshId)]
    {
      var r := store.InsertOne(EncodeTask(t), freshId, fault);
      if r.Err? {
        return Some(r.error);
      }
      return None;
    }

    /** DeleteById: DeleteMany on the ID; the count is the number of tasks that had it. */
    method DeleteById(id: string, fault: Option<string>) returns (r: Result<int>)
      modifies store
      ensures fault.Some? ==> r == Err(fault.value) && store.docs == old(store.docs)
      ensures fault.None? ==> store.docs == Mongo.Unmatched(old(store.docs), "id", Str(id))
      ensures fault.None? ==> r == Ok(Seqs.CountWhere(old(store.docs), (d: Doc) => Matches(d, "id", Str(id))))
    {
      ghost var before := store.docs;
      r := store.DeleteMany("id", Str(id), fault);
      Mongo.DeleteCount(before, "id", Str(id));
    }

    /** GetTasks: decodes every stored document in order; the first that does not decode fails the
        whole call. `cursorFault` is an error the cursor reports once the documents are read. */
    method GetTasks(findFault: Option<string>, cursorFault: Option<string>) returns (r: Result<seq<Task>>)
      ensures findFault.Some? ==> r == Err(FetchFailed)
      ensures findFault.None? && (exists j :: 0 <= j < |store.docs| && DecodeTask(store.docs[j]).Err?) ==> r == Err(DecodeFailed)
      ensures findFault.None? && cursorFault.None? && (forall j :: 0 <= j < |store.docs| ==> DecodeTask(store.docs[j]).Ok?) ==> r.Ok?
      ensures cursorFault.Some? ==> r.Err?
      ensures r.Ok? ==> |r.value| == |store.docs| && forall j :: 0 <= j < |r.value| ==> DecodeTask(store.docs[j]) == Ok(r.value[j])
    {
      var found := store.FindAll(findFault);
      if found.Err? {
        return Err(FetchFailed);
      }
      var docs := found.value;
      var tasks: seq<Task> := [];
      for i := 0 to |docs|
        invariant docs == store.docs
        invariant |tasks| == i
        invariant forall j :: 0 <= j < i ==> DecodeTask(docs[j]) == Ok(tasks[j])
      {
        var task := DecodeTask(docs[i]);
        if task.Err? {
          return Err(DecodeFailed);
        }
        tasks := tasks + [task.value];
      }
      if cursorFault.Some? {
        return Err(cursorFault.value);
      }
      return Ok(tasks);
    }

    /** GetTasksById: the first task with the ID; no such task is `Ok(None)`, not an error. */
    function GetTasksById(id: string, fault: Option<string>): (r: Result<Option<Task>>)
      reads store
      ensures fault.Some? ==> r == Err(fault.value)
      ensures fault.None? && Mongo.FirstMatch(store.docs, "id", Str(id)).None? ==> r == Ok(None)
      ensures fault.None? && Mongo.FirstMatch(store.docs, "id", Str(id)).Some? ==>
                var d := store.docs[Mongo.FirstMatch(store.docs, "id", Str(id)).value];
                r == (match DecodeTask(d) case Ok(t) => Ok(Some(t)) case Err(e) => Err(e))
    {
      match store.FindOne("id", Str(id), fault)
      case Err(e) => if e == Mongo.ErrNoDocuments && fault.None? then Ok(None) else Err(e)
      case Ok(d) => match DecodeTask(d) case Ok(t) => Ok(Some(t)) case Err(e) => Err(e)
    }

    /** UpdateTask: `$set` of title, description, status and due date on the first task with the ID,
        without upsert; an unknown ID is not an error. */
    method UpdateTask(id: string, u: Task, fault: Option<string>) returns (err: Option<string>)
      modifies store
      ensures fault.Some? ==> err == fault && store.docs == old(store.docs)
      ensures fault.None? ==> err.None? && store.docs == Mongo.Updated(old(store.docs), "id", Str(id), TaskFields(u), false, "")
    {
      var r := store.UpdateOne("id", Str(id), TaskFields(u), false, "", fault);
      if r.Err? {
        return Some(r.error);
      }
      return None;
    }
  }

  /** Adding a task whose ID no stored task has, then looking the ID up, gives the task back. */
  lemma AddThenFind(repo: TaskRepository, before: seq<Doc>, t: Task, freshId: string)
    requires repo.store.docs == before + [Mongo.WithObjectId(EncodeTask(t), freshId)]
    requires forall j :: 0 <= j < |before| ==> !Matches(before[j], "id", Str(t.id))
    ensures repo.GetTasksById(t.id, None) == Ok(Some(t))
  {
    var stored := Mongo.WithObjectId(EncodeTask(t), freshId);
    assert stored == map["_id" := ObjectId(freshId)] + EncodeTask(t);
    TaskRoundTrip(t, map["_id" := ObjectId(freshId)]);
    assert repo.store.docs[|before|] == stored;
    assert Matches(stored, "id", Str(t.id));
  }
}
