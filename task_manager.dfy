/**
 * The `TaskManager` component's state and its event handlers. Each handler
 * that awaits a request takes the request's outcome as an argument and
 * returns the requests it issued, in order; a handler that routes a failure
 * to `handleErrors` also returns the resulting disposition.
 */
module Manager {
  import opened Wrappers
  import opened Text
  import opened Tasks
  import opened Gateway
  import opened Errors
  import opened Projection

  /** All of the component's state at one moment. */
  datatype Snapshot = Snapshot(
    tasks: seq<Task>,
    filter: StatusFilter,
    search: string,
    newTitulo: string,
    newDescripcion: string,
    newFecha: string,
    editing: Draft)

  /** The list after an awaited `GET /tasks`: the server's list, or the old one if the request failed. */
  function Refreshed(current: seq<Task>, response: Response<seq<Task>>): (next: seq<Task>)
    ensures response.Ok? ==> next == response.body
    ensures response.Err? ==> next == current
  {
    match response
    case Ok(list) => list
    case Err(_) => current
  }

  /** Refreshing again with the same answer changes nothing. */
  lemma RefreshIdempotent(current: seq<Task>, response: Response<seq<Task>>)
    ensures Refreshed(Refreshed(current, response), response) == Refreshed(current, response)
  {
  }

  /** A successful refresh replaces the list outright: what was there before does not matter. */
  lemma RefreshReplaces(a: seq<Task>, b: seq<Task>, response: Response<seq<Task>>)
    requires response.Ok?
    ensures Refreshed(a, response) == Refreshed(b, response) == response.body
  {
  }

  class TaskManager {
    /** `Cookies.get("token")`, read when the component renders. */
    const token: Option<string>

    var tasks: seq<Task>
    var filter: StatusFilter
    var search: string
    var newTitulo: string
    var newDescripcion: string
    var newFecha: string
    /** `tareaSelect`, the edit dialog's working copy. */
    var editing: Draft

    function State(): Snapshot
      reads this
    {
      Snapshot(tasks, filter, search, newTitulo, newDescripcion, newFecha, editing)
    }

    /**
     * `filteredTasks`, recomputed from the current state: listed tasks that
     * pass the test, and the whole list under TODAS without a search.
     */
    function Visible(): (r: seq<Task>)
      reads this
      ensures |r| <= |tasks|
      ensures forall t :: t in r <==> t in tasks && Keep(t, filter, search)
      ensures search == "" && filter == Todas ==> r == tasks
    {
      FilteredMembers(tasks, filter, search);
      TodasShowsAll(tasks);
      Filtered(tasks, filter, search)
    }

    /** The initial state: no tasks, filter TODAS, empty inputs, empty working copy. */
    constructor (token: Option<string>)
      ensures this.token == token
      ensures State() == Snapshot([], Todas, "", "", "", "", EmptyDraft)
    {
      this.token := token;
      tasks := [];
      filter := Todas;
      search := "";
      newTitulo := "";
      newDescripcion := "";
      newFecha := "";
      editing := EmptyDraft;
    }

    /** The search box. */
    method SetSearch(text: string)
      modifies this
      ensures State() == old(State()).(search := text)
    {
      search := text;
    }

    /** The status drop-down. */
    method SetFilter(f: StatusFilter)
      modifies this
      ensures State() == old(State()).(filter := f)
    {
      filter := f;
    }

    /** The new task's title input. */
    method SetNewTitulo(text: string)
      modifies this
      ensures State() == old(State()).(newTitulo := text)
    {
      newTitulo := text;
    }

    /** The new task's description input. */
    method SetNewDescripcion(text: string)
      modifies this
      ensures State() == old(State()).(newDescripcion := text)
    {
      newDescripcion := text;
    }

    /** The new task's due-date input. */
    method SetNewFecha(text: string)
      modifies this
      ensures State() == old(State()).(newFecha := text)
    {
      newFecha := text;
    }

    /** `fetchTasks`: load the list; a failure is only logged. */
    method FetchTasks(response: Response<seq<Task>>) returns (calls: seq<Call>)
      modifies this
      ensures calls == [Call(token, GetTasks)]
      ensures State() == old(State()).(tasks := Refreshed(old(tasks), response))
    {
      calls := [Call(token, GetTasks)];
      match response {
        case Ok(list) =>
          tasks := list;
        case Err(_) =>
      }
    }

    /**
     * `addTask`: a blank title does nothing at all. Otherwise the inputs are
     * posted as they are (the title untrimmed); the created task is appended
     * without re-fetching and the inputs are cleared. A failed post is not
     * caught, so it leaves everything as it was.
     */
    method AddTask(response: Response<Task>) returns (calls: seq<Call>)
      modifies this
      ensures IsBlank(old(newTitulo)) ==> calls == [] && State() == old(State())
      ensures !IsBlank(old(newTitulo)) ==>
                calls == [Call(token, PostTask(old(newTitulo), old(newDescripcion), old(newFecha)))]
      ensures !IsBlank(old(newTitulo)) && response.Ok? ==>
                State() == old(State()).(tasks := old(tasks) + [response.body],
                                         newTitulo := "", newDescripcion := "", newFecha := "")
      ensures !IsBlank(old(newTitulo)) && response.Ok? ==>
                Filtered(tasks, filter, search)
                == Filtered(old(tasks), filter, search) + (if Keep(response.body, filter, search) then [response.body] else [])
      ensures !IsBlank(old(newTitulo)) && response.Err? ==> State() == old(State())
    {
      if Trim(newTitulo) != "" {
        calls := [Call(token, PostTask(newTitulo, newDescripcion, newFecha))];
        match response {
          case Ok(task) =>
            FilteredSnoc(tasks, task, filter, search);
            tasks := tasks + [task];
            newTitulo := "";
            newDescripcion := "";
            newFecha := "";
          case Err(_) =>
        }
      } else {
        calls := [];
      }
    }

    /**
     * `updateTask`: put the fields, then refresh the whole list on success;
     * on failure the list stays and the error goes to the classifier.
     */
    method UpdateTask(id: Option<TaskId>, data: Draft, put: Response<()>, list: Response<seq<Task>>)
      returns (calls: seq<Call>, disposition: Option<Disposition>)
      modifies this
      ensures calls == [Call(token, PutTask(id, data))] + (if put.Ok? then [Call(token, GetTasks)] else [])
      ensures put.Ok? ==> disposition == None && State() == old(State()).(tasks := Refreshed(old(tasks), list))
      ensures put.Err? ==> disposition == Some(Classify(put.error)) && State() == old(State())
    {
      calls := [Call(token, PutTask(id, data))];
      match put {
        case Ok(_) =>
          var refresh := FetchTasks(list);
          calls := calls + refresh;
          disposition := None;
        case Err(e) =>
          disposition := Some(Classify(e));
      }
    }

    /** `changeStatus`: an update whose body is only the new `estado`. */
    method ChangeStatus(id: TaskId, estado: Estado, put: Response<()>, list: Response<seq<Task>>)
      returns (calls: seq<Call>, disposition: Option<Disposition>)
      modifies this
      ensures calls == [Call(token, PutTask(Some(id), StatusOnly(estado)))] + (if put.Ok? then [Call(token, GetTasks)] else [])
      ensures put.Ok? ==> disposition == None && State() == old(State()).(tasks := Refreshed(old(tasks), list))
      ensures put.Err? ==> disposition == Some(Classify(put.error)) && State() == old(State())
    {
      calls, disposition := UpdateTask(Some(id), StatusOnly(estado), put, list);
    }

    /** `handleDeleteTask`: delete, then refresh on success; classify a failure. */
    method HandleDeleteTask(id: TaskId, del: Response<()>, list: Response<seq<Task>>)
      returns (calls: seq<Call>, disposition: Option<Disposition>)
      modifies this
      ensures calls == [Call(token, DeleteTask(id))] + (if del.Ok? then [Call(token, GetTasks)] else [])
      ensures del.Ok? ==> disposition == None && State() == old(State()).(tasks := Refreshed(old(tasks), list))
      ensures del.Err? ==> disposition == Some(Classify(del.error)) && State() == old(State())
    {
      calls := [Call(token, DeleteTask(id))];
      match del {
        case Ok(_) =>
          var refresh := FetchTasks(list);
          calls := calls + refresh;
          disposition := None;
        case Err(e) =>
          disposition := Some(Classify(e));
      }
    }

    /** `handleModalUpdate`: the working copy becomes a copy of `t`, whatever it held. */
    method HandleModalUpdate(t: Task)
      modifies this
      ensures State() == old(State()).(editing := FromTask(t))
      ensures ToTask(editing) == Some(t)
    {
      editing := FromTask(t);
    }

    /** The dialog's title input: only the working copy's `titulo` changes. */
    method EditTitulo(text: string)
      modifies this
      ensures State() == old(State()).(editing := old(editing).(titulo := Some(text)))
    {
      editing := editing.(titulo := Some(text));
    }

    /** The dialog's description input: only the working copy's `descripcion` changes. */
    method EditDescripcion(text: string)
      modifies this
      ensures State() == old(State()).(editing := old(editing).(descripcion := Some(text)))
    {
      editing := editing.(descripcion := Some(text));
    }

    /** The dialog's due-date input: only the working copy's `fechaLimite` changes. */
    method EditFechaLimite(text: string)
      modifies this
      ensures State() == old(State()).(editing := old(editing).(fechaLimite := Some(text)))
    {
      editing := editing.(fechaLimite := Some(text));
    }

    /**
     * `handleUpdate`: send the whole working copy under its own id. The copy
     * is kept afterwards; nothing clears it.
     */
    method HandleUpdate(put: Response<()>, list: Response<seq<Task>>)
      returns (calls: seq<Call>, disposition: Option<Disposition>)
      modifies this
      ensures calls == [Call(token, PutTask(old(editing).id, old(editing)))] + (if put.Ok? then [Call(token, GetTasks)] else [])
      ensures put.Ok? ==> disposition == None && State() == old(State()).(tasks := Refreshed(old(tasks), list))
      ensures put.Err? ==> disposition == Some(Classify(put.error)) && State() == old(State())
    {
      calls, disposition := UpdateTask(editing.id, editing, put, list);
    }
  }
}
