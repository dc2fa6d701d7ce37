/**
 * Short sessions with the task manager, each method proved from the
 * handlers' contracts alone, and one search over a fixed list proved from
 * the projection's definition.
 */
module Scenarios {
  import opened Wrappers
  import opened Tasks
  import opened Gateway
  import opened Errors
  import opened Projection
  import opened Manager

  const Report: Task := Task("t1", "Informe mensual", "enviar al equipo", "2024-05-31", PENDIENTE)
  const Groceries: Task := Task("t2", "Compras", "pan y leche", "", PROGRESO)

  /**
   * The list holds a pending and an in-progress task; the pending one is
   * marked completed and the refresh returns the new list; filtering on
   * PROGRESO then shows only the in-progress task.
   */
  method StatusChangeScenario() returns (visible: seq<Task>, calls: seq<Call>)
    ensures visible == [Groceries]
    ensures calls == [Call(Some("tok"), PutTask(Some("t1"), StatusOnly(COMPLETADA))), Call(Some("tok"), GetTasks)]
  {
    var m := new TaskManager(Some("tok"));
    var loaded := m.FetchTasks(Ok([Report, Groceries]));
    var disposition;
    var done := Report.(estado := COMPLETADA);
    calls, disposition := m.ChangeStatus(Report.id, COMPLETADA, Ok(()), Ok([done, Groceries]));
    assert m.tasks == [done, Groceries] && m.search == "";
    m.SetFilter(Only(PROGRESO));
    visible := m.Visible();
    assert [done, Groceries] == [done] + [Groceries];
    FilteredAppend([done], [Groceries], Only(PROGRESO), "");
    FilteredSingleton(done, Only(PROGRESO), "");
    FilteredSingleton(Groceries, Only(PROGRESO), "");
  }

  /**
   * A title of spaces issues no request; a real title is posted and the
   * created task appended, after which the inputs are empty again.
   */
  method AddScenario() returns (blankCalls: seq<Call>, calls: seq<Call>, tasks: seq<Task>, title: string)
    ensures blankCalls == []
    ensures calls == [Call(None, PostTask("Compras", "pan y leche", ""))]
    ensures tasks == [Report, Groceries] && title == ""
  {
    var m := new TaskManager(None);
    var loaded := m.FetchTasks(Ok([Report]));
    m.SetNewTitulo("   ");
    assert Text.IsBlank("   ") by {
      forall i | 0 <= i < 3 ensures Text.IsJsSpace("   "[i]) {
        assert "   "[i] == ' ';
      }
    }
    blankCalls := m.AddTask(Ok(Groceries));
    m.SetNewTitulo("Compras");
    m.SetNewDescripcion("pan y leche");
    assert !Text.IsJsSpace("Compras"[0]);
    calls := m.AddTask(Ok(Groceries));
    tasks, title := m.tasks, m.newTitulo;
  }

  /**
   * A create rejected with 422 is not caught: no dialog is produced, and the
   * list and all three inputs stay as they were.
   */
  method FailedAddScenario() returns (calls: seq<Call>, tasks: seq<Task>, inputs: (string, string, string))
    ensures calls == [Call(None, PostTask("Compras", "pan y leche", "2024-06-01"))]
    ensures tasks == [Report]
    ensures inputs == ("Compras", "pan y leche", "2024-06-01")
  {
    var m := new TaskManager(None);
    var loaded := m.FetchTasks(Ok([Report]));
    m.SetNewTitulo("Compras");
    m.SetNewDescripcion("pan y leche");
    m.SetNewFecha("2024-06-01");
    assert !Text.IsJsSpace("Compras"[0]);
    calls := m.AddTask(Err(HttpError(422, ErrorList([FieldError("titulo requerido", "titulo")]))));
    tasks, inputs := m.tasks, (m.newTitulo, m.newDescripcion, m.newFecha);
  }

  /**
   * A failed status change leaves the list as it was, and a 422 answer
   * shows the validation messages in order.
   */
  method FailedUpdateScenario() returns (tasks: seq<Task>, disposition: Option<Disposition>)
    ensures tasks == [Report]
    ensures disposition == Some(Handled(ShowMessages(["titulo requerido", "estado invalido"]), EmptyObject, false))
  {
    var m := new TaskManager(Some("tok"));
    var loaded := m.FetchTasks(Ok([Report]));
    var report := ErrorList([FieldError("titulo requerido", "titulo"), FieldError("estado invalido", "estado")]);
    assert Messages(report.errors) == ["titulo requerido", "estado invalido"];
    var calls;
    calls, disposition := m.ChangeStatus(Report.id, COMPLETADA, Err(HttpError(422, report)), Ok([]));
    tasks := m.tasks;
  }

  /**
   * Opening the dialog on a task and retyping its title sends that task with
   * the new title, under the task's own id.
   */
  method EditScenario() returns (calls: seq<Call>)
    ensures calls == [Call(Some("tok"), PutTask(Some("t1"), FromTask(Report.(titulo := "Informe anual")))),
                      Call(Some("tok"), GetTasks)]
  {
    var m := new TaskManager(Some("tok"));
    m.HandleModalUpdate(Report);
    m.EditTitulo("Informe anual");
    EditsCommuteWithCopy(Report, "Informe anual");
    var disposition;
    calls, disposition := m.HandleUpdate(Ok(()), Err(NoResponse));
  }

  /** The capitalised search text occurs at the start of the report's lower-cased title. */
  lemma ReportMatches()
    ensures MatchesSearch(Report, "INFORME")
  {
    var q := Text.Lower("INFORME");
    assert q == "informe";
    assert Text.OccursAt(Text.Lower(Report.titulo), q, 0);
  }

  /** Neither the title nor the description of the groceries task holds an `i`. */
  lemma GroceriesMisses()
    ensures !MatchesSearch(Groceries, "INFORME")
  {
    var q := Text.Lower("INFORME");
    assert q[0] == 'i';
    assert Text.Lower(Groceries.titulo) == "compras";
    assert Text.Lower(Groceries.descripcion) == "pan y leche";
    Text.AbsentFirstChar("compras", q);
    Text.AbsentFirstChar("pan y leche", q);
  }

  /**
   * A search in capitals finds the task whose title holds the word in any
   * case, even though the status filter asks for completed tasks and that
   * task is pending, and drops the task that mentions the word nowhere.
   */
  lemma SearchScenario()
    ensures Filtered([Report, Groceries], Only(COMPLETADA), "INFORME") == [Report]
  {
    ReportMatches();
    GroceriesMisses();
    assert [Report, Groceries] == [Report] + [Groceries];
    FilteredAppend([Report], [Groceries], Only(COMPLETADA), "INFORME");
    FilteredSingleton(Report, Only(COMPLETADA), "INFORME");
    FilteredSingleton(Groceries, Only(COMPLETADA), "INFORME");
  }
}
