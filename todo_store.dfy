/** The plain todo store of TodoStore.ts: a list of todos that only grows. */
module TodoStore {
  import opened Todos

  class TodoStore {
    var todos: seq<Todo>

    /** A new store has no todos. */
    constructor()
      ensures todos == []
    {
      todos := [];
    }

    /** Pushes one open todo for `task`; the earlier todos stay as they were. */
    method AddTodo(task: string)
      modifies this
      ensures todos == old(todos) + [Todo(false, task)]
    {
      todos := todos + [Todo(false, task)];
    }

    /** The completedTodosCount getter. */
    function CompletedTodosCount(): (c: nat)
      reads this
      ensures c <= |todos|
      ensures c == |CompletedIndices(todos)|
    {
      CompletedCountIsCardinality(todos);
      CompletedCount(todos)
    }

    /** The report of the current list. */
    function Report(): (r: string)
      reads this
      ensures r == "<none>" <==> |todos| == 0
    {
      Todos.Report(todos)
    }
  }

  /** Adding a todo leaves the completed count as it was and makes the report non-empty. */
  lemma AddTodoKeepsCount(todos: seq<Todo>, task: string)
    ensures CompletedCount(todos + [Todo(false, task)]) == CompletedCount(todos)
    ensures Todos.Report(todos + [Todo(false, task)]) != "<none>"
  {
    CompletedCountAppend(todos, Todo(false, task));
  }

  /** A store that has been given two tasks reports the first as next, with progress 0/2. */
  method TwoTasks() returns (count: nat, next: string)
    ensures count == 0 && next == "walk"
  {
    var store := new TodoStore();
    store.AddTodo("walk");
    store.AddTodo("shop");
    assert store.todos == [Todo(false, "walk"), Todo(false, "shop")];
    count := store.CompletedTodosCount();
    next := NextTask(store.todos).GetOr("<none>");
  }
}
