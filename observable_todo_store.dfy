/**
 * The observable todo store of ObservableTodoStore.ts: the same list logic,
 * todos that may carry an assignee, and a pending-request counter. The
 * reactive wiring (observables, the computed getters, the logging autorun)
 * is not part of this model.
 */
module ObservableTodoStore {
  import opened Wrappers
  import opened Todos

  datatype Assignee = Assignee(name: string, email: string)

  datatype ObservableTodo = ObservableTodo(completed: bool, task: string, assignee: Option<Assignee>)

  /** What the count and the report look at: the flag and the task. */
  function Plain(ts: seq<ObservableTodo>): (r: seq<Todo>)
    ensures |r| == |ts|
    ensures forall i :: 0 <= i < |ts| ==> r[i] == Todo(ts[i].completed, ts[i].task)
  {
    seq(|ts|, i requires 0 <= i < |ts| => Todo(ts[i].completed, ts[i].task))
  }

  class ObservableTodoStore {
    var todos: seq<ObservableTodo>
    var pendingRequests: int

    /** A new store has no todos and no pending requests. */
    constructor()
      ensures todos == [] && pendingRequests == 0
    {
      todos := [];
      pendingRequests := 0;
    }

    /** Pushes one open, unassigned todo; the earlier todos and the request counter stay as they were. */
    method AddTodo(task: string)
      modifies this
      ensures todos == old(todos) + [ObservableTodo(false, task, None)]
      ensures pendingRequests == old(pendingRequests)
    {
      todos := todos + [ObservableTodo(false, task, None)];
    }

    /** The completedTodosCount getter: the number of completed todos, at most their number. */
    function CompletedTodosCount(): (c: nat)
      reads this
      ensures c <= |todos|
      ensures c == |set i: nat | i < |todos| && todos[i].completed|
    {
      var plain := Plain(todos);
      CompletedCountIsCardinality(plain);
      assert CompletedIndices(plain) == set i: nat | i < |todos| && todos[i].completed;
      CompletedCount(plain)
    }

    /** The report getter. */
    function Report(): (r: string)
      reads this
      ensures r == "<none>" <==> |todos| == 0
    {
      Todos.Report(Plain(todos))
    }
  }

  /** Adding a todo keeps the completed count, whatever the assignees of the others. */
  lemma AddTodoKeepsCount(ts: seq<ObservableTodo>, task: string)
    ensures CompletedCount(Plain(ts + [ObservableTodo(false, task, None)])) == CompletedCount(Plain(ts))
  {
    assert Plain(ts + [ObservableTodo(false, task, None)]) == Plain(ts) + [Todo(false, task)];
    CompletedCountAppend(Plain(ts), Todo(false, task));
  }
}
