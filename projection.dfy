/**
 * `filteredTasks`: the tasks shown, derived from the task list, the status
 * filter and the search text. A non-empty search text takes over from the
 * status filter.
 */
module Projection {
  import opened Text
  import opened Tasks

  /** The status filter: TODAS or one `estado`. */
  datatype StatusFilter = Todas | Only(estado: Estado)

  /**
   * The title or the description contains the search text, ignoring ASCII
   * case. The empty text is contained in everything.
   */
  function MatchesSearch(t: Task, search: string): (r: bool)
    ensures r <==> IsSubstring(Lower(search), Lower(t.titulo)) || IsSubstring(Lower(search), Lower(t.descripcion))
    ensures search == "" ==> r
  {
    var q := Lower(search);
    assert search == "" ==> OccursAt(Lower(t.titulo), q, 0);
    Includes(Lower(t.titulo), q) || Includes(Lower(t.descripcion), q)
  }

  /**
   * The test `filteredTasks` applies to each task: a non-empty search text
   * decides alone; otherwise TODAS keeps everything and a status keeps its
   * own tasks.
   */
  function Keep(t: Task, filter: StatusFilter, search: string): (r: bool)
    ensures search != "" ==> (r <==> MatchesSearch(t, search))
    ensures search == "" ==> (r <==> filter == Todas || filter == Only(t.estado))
  {
    if search != "" then MatchesSearch(t, search)
    else filter.Todas? || t.estado == filter.estado
  }

  /** `tasks.filter(...)`: the kept tasks, left to right. */
  function Filtered(tasks: seq<Task>, filter: StatusFilter, search: string): (r: seq<Task>)
    ensures |r| <= |tasks|
  {
    if tasks == [] then []
    else (if Keep(tasks[0], filter, search) then [tasks[0]] else []) + Filtered(tasks[1..], filter, search)
  }

  /** Concatenation regroups freely. */
  lemma ConcatAssoc(x: seq<Task>, y: seq<Task>, z: seq<Task>)
    ensures x + (y + z) == (x + y) + z
  {
  }

  /** Filtering a concatenation filters each part. */
  lemma {:induction false} FilteredAppend(a: seq<Task>, b: seq<Task>, filter: StatusFilter, search: string)
    ensures Filtered(a + b, filter, search) == Filtered(a, filter, search) + Filtered(b, filter, search)
  {
    if a == [] {
      assert a + b == b;
    } else {
      var head := if Keep(a[0], filter, search) then [a[0]] else [];
      assert (a + b)[0] == a[0];
      assert (a + b)[1..] == a[1..] + b;
      FilteredAppend(a[1..], b, filter, search);
      ConcatAssoc(head, Filtered(a[1..], filter, search), Filtered(b, filter, search));
    }
  }

  /** A one-task list is shown or hidden as a whole. */
  lemma FilteredSingleton(t: Task, filter: StatusFilter, search: string)
    ensures Filtered([t], filter, search) == if Keep(t, filter, search) then [t] else []
  {
    assert [t][1..] == [];
  }

  /** Appending one task to the list shows it at the end exactly when it passes the test. */
  lemma FilteredSnoc(tasks: seq<Task>, t: Task, filter: StatusFilter, search: string)
    ensures Filtered(tasks + [t], filter, search)
            == Filtered(tasks, filter, search) + (if Keep(t, filter, search) then [t] else [])
  {
    FilteredAppend(tasks, [t], filter, search);
    FilteredSingleton(t, filter, search);
  }

  /**
   * The positions of the kept tasks in increasing order, collected from the
   * right end: an independent description of what the filter keeps.
   */
  ghost function KeptIndices(tasks: seq<Task>, filter: StatusFilter, search: string): (idx: seq<int>)
    ensures forall j :: 0 <= j < |idx| ==> 0 <= idx[j] < |tasks|
    ensures forall j, k :: 0 <= j < k < |idx| ==> idx[j] < idx[k]
    ensures forall i :: 0 <= i < |tasks| ==> (i in idx <==> Keep(tasks[i], filter, search))
    decreases |tasks|
  {
    if tasks == [] then []
    else
      var n := |tasks| - 1;
      var front := KeptIndices(tasks[..n], filter, search);
      var last := if Keep(tasks[n], filter, search) then [n] else [];
      assert forall i :: 0 <= i < n ==> tasks[..n][i] == tasks[i];
      assert forall i :: i in front ==> i < n;
      assert forall i :: i in last ==> i == n;
      front + last
  }

  /**
   * The projection is exactly the tasks at the kept positions, in order: an
   * order-preserving subsequence of the list holding every kept task and
   * nothing else.
   */
  lemma {:induction false} FilteredIsKeptTasks(tasks: seq<Task>, filter: StatusFilter, search: string)
    ensures |Filtered(tasks, filter, search)| == |KeptIndices(tasks, filter, search)|
    ensures forall j :: 0 <= j < |KeptIndices(tasks, filter, search)| ==>
              Filtered(tasks, filter, search)[j] == tasks[KeptIndices(tasks, filter, search)[j]]
    decreases |tasks|
  {
    if tasks != [] {
      var n := |tasks| - 1;
      var front := tasks[..n];
      assert tasks == front + [tasks[n]];
      FilteredAppend(front, [tasks[n]], filter, search);
      FilteredSingleton(tasks[n], filter, search);
      FilteredIsKeptTasks(front, filter, search);
      var idx := KeptIndices(tasks, filter, search);
      var r := Filtered(tasks, filter, search);
      assert idx == KeptIndices(front, filter, search) + (if Keep(tasks[n], filter, search) then [n] else []);
      assert r == Filtered(front, filter, search) + (if Keep(tasks[n], filter, search) then [tasks[n]] else []);
      forall j | 0 <= j < |idx| ensures r[j] == tasks[idx[j]] {
        if j < |KeptIndices(front, filter, search)| {
          assert r[j] == Filtered(front, filter, search)[j];
          assert tasks[idx[j]] == front[idx[j]];
        }
      }
    }
  }

  /** A task is shown exactly when it is in the list and passes the test. */
  lemma {:induction false} FilteredMembers(tasks: seq<Task>, filter: StatusFilter, search: string)
    ensures forall t :: t in Filtered(tasks, filter, search) <==> t in tasks && Keep(t, filter, search)
  {
    if tasks != [] {
      FilteredMembers(tasks[1..], filter, search);
      assert tasks == [tasks[0]] + tasks[1..];
    }
  }

  /** Each kept task is shown as many times as it is listed; any other, never. */
  lemma {:induction false} FilteredCount(tasks: seq<Task>, filter: StatusFilter, search: string, t: Task)
    ensures multiset(Filtered(tasks, filter, search))[t] == if Keep(t, filter, search) then multiset(tasks)[t] else 0
  {
    if tasks != [] {
      FilteredCount(tasks[1..], filter, search, t);
      assert tasks == [tasks[0]] + tasks[1..];
      assert multiset(tasks) == multiset([tasks[0]]) + multiset(tasks[1..]);
      var head := if Keep(tasks[0], filter, search) then [tasks[0]] else [];
      assert Filtered(tasks, filter, search) == head + Filtered(tasks[1..], filter, search);
      assert multiset(Filtered(tasks, filter, search)) == multiset(head) + multiset(Filtered(tasks[1..], filter, search));
    }
  }

  /** With a search text, the shown tasks are exactly those matching it. */
  lemma SearchSelectsMatches(tasks: seq<Task>, filter: StatusFilter, search: string)
    requires search != ""
    ensures forall t :: t in Filtered(tasks, filter, search) <==> t in tasks && MatchesSearch(t, search)
  {
    FilteredMembers(tasks, filter, search);
  }

  /** With a search text, the status filter makes no difference. */
  lemma {:induction false} SearchIgnoresFilter(tasks: seq<Task>, f1: StatusFilter, f2: StatusFilter, search: string)
    requires search != ""
    ensures Filtered(tasks, f1, search) == Filtered(tasks, f2, search)
  {
    if tasks != [] {
      SearchIgnoresFilter(tasks[1..], f1, f2, search);
    }
  }

  /** Two search texts that agree up to ASCII case show the same tasks. */
  lemma {:induction false} SearchCaseInsensitive(tasks: seq<Task>, filter: StatusFilter, s1: string, s2: string)
    requires Lower(s1) == Lower(s2)
    ensures Filtered(tasks, filter, s1) == Filtered(tasks, filter, s2)
  {
    assert |s1| == |Lower(s1)| == |s2|;
    if tasks != [] {
      SearchCaseInsensitive(tasks[1..], filter, s1, s2);
    }
  }

  /** Without a search text, TODAS shows the whole list. */
  lemma {:induction false} TodasShowsAll(tasks: seq<Task>)
    ensures Filtered(tasks, Todas, "") == tasks
  {
    if tasks != [] {
      TodasShowsAll(tasks[1..]);
      assert tasks == [tasks[0]] + tasks[1..];
    }
  }

  /** Without a search text, a status filter shows exactly the tasks in that status. */
  lemma OnlyShowsStatus(tasks: seq<Task>, e: Estado)
    ensures forall t :: t in Filtered(tasks, Only(e), "") <==> t in tasks && t.estado == e
  {
    FilteredMembers(tasks, Only(e), "");
  }

  /** Filtering what is already shown shows the same. */
  lemma {:induction false} FilteredIdempotent(tasks: seq<Task>, filter: StatusFilter, search: string)
    ensures Filtered(Filtered(tasks, filter, search), filter, search) == Filtered(tasks, filter, search)
  {
    if tasks != [] {
      var head := if Keep(tasks[0], filter, search) then [tasks[0]] else [];
      FilteredAppend(head, Filtered(tasks[1..], filter, search), filter, search);
      FilteredIdempotent(tasks[1..], filter, search);
    }
  }
}
