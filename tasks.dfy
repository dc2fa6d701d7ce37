/**
 * The task record the server returns, and the working copy the edit dialog
 * holds while a task is being changed.
 */
module Tasks {
  import opened Wrappers

  /** Server-assigned identifier; never interpreted by the client. */
  type TaskId = string

  /** The three values of `estado`. */
  datatype Estado = PENDIENTE | PROGRESO | COMPLETADA

  /** `{id, titulo, descripcion, fechaLimite, estado}`; the due date is an opaque string. */
  datatype Task = Task(
    id: TaskId,
    titulo: string,
    descripcion: string,
    fechaLimite: string,
    estado: Estado)

  /**
   * The working copy `tareaSelect`: an object whose fields may be missing.
   * It starts as the empty string, which spreads to an object with no fields
   * (EmptyDraft); a task copied into it has every field; each input of the
   * dialog overwrites one field. The same shape is the body of a partial
   * update request (`{estado}` is a draft with only `estado` present).
   */
  datatype Draft = Draft(
    id: Option<TaskId>,
    titulo: Option<string>,
    descripcion: Option<string>,
    fechaLimite: Option<string>,
    estado: Option<Estado>)

  const EmptyDraft: Draft := Draft(None, None, None, None, None)

  /** The body of a status change: only `estado` is sent. */
  function StatusOnly(e: Estado): (d: Draft)
    ensures d.estado == Some(e)
    ensures d.(estado := None) == EmptyDraft
  {
    EmptyDraft.(estado := Some(e))
  }

  /** The working copy of a whole task (`setNewTareaSelect(task)`). */
  function FromTask(t: Task): (d: Draft)
    ensures ToTask(d) == Some(t)
  {
    Draft(Some(t.id), Some(t.titulo), Some(t.descripcion), Some(t.fechaLimite), Some(t.estado))
  }

  /** A working copy that has every field describes one task. */
  function ToTask(d: Draft): (t: Option<Task>)
    ensures t.Some? <==> d.id.Some? && d.titulo.Some? && d.descripcion.Some? && d.fechaLimite.Some? && d.estado.Some?
  {
    if d.id.Some? && d.titulo.Some? && d.descripcion.Some? && d.fechaLimite.Some? && d.estado.Some? then
      Some(Task(d.id.value, d.titulo.value, d.descripcion.value, d.fechaLimite.value, d.estado.value))
    else
      None
  }

  /** A complete working copy is exactly the copy of the task it describes. */
  lemma {:induction false} FromToTask(d: Draft, t: Task)
    requires ToTask(d) == Some(t)
    ensures FromTask(t) == d
  {
  }

  /**
   * Editing one field of the copy of `t` gives the copy of `t` with that one
   * field replaced, whichever of the three editable fields it is.
   */
  lemma EditsCommuteWithCopy(t: Task, v: string)
    ensures FromTask(t).(titulo := Some(v)) == FromTask(t.(titulo := v))
    ensures FromTask(t).(descripcion := Some(v)) == FromTask(t.(descripcion := v))
    ensures FromTask(t).(fechaLimite := Some(v)) == FromTask(t.(fechaLimite := v))
  {
  }
}
