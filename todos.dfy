/**
 * The logic the two todo stores share: a todo is a task and a completion
 * flag, the store counts completed todos and reports the next open task and
 * the progress as a string.
 */
module Todos {
  import opened Wrappers

  datatype Todo = Todo(completed: bool, task: string)

  /** How many todos are completed (the length of the filtered list). */
  function CompletedCount(todos: seq<Todo>): (c: nat)
    ensures c <= |todos|
    decreases |todos|
  {
    if todos == [] then 0
    else CompletedCount(todos[..|todos| - 1]) + (if todos[|todos| - 1].completed then 1 else 0)
  }

  /** The indices of the completed todos. */
  ghost function CompletedIndices(todos: seq<Todo>): set<nat> {
    set i: nat | i < |todos| && todos[i].completed
  }

  /** The count is the number of positions holding a completed todo. */
  lemma {:induction false} CompletedCountIsCardinality(todos: seq<Todo>)
    ensures CompletedCount(todos) == |CompletedIndices(todos)|
    decreases |todos|
  {
    if todos != [] {
      var n := |todos| - 1;
      var init := todos[..n];
      CompletedCountIsCardinality(init);
      assert forall i :: 0 <= i < n ==> init[i] == todos[i];
      if todos[n].completed {
        assert CompletedIndices(todos) == CompletedIndices(init) + {n};
      } else {
        assert CompletedIndices(todos) == CompletedIndices(init);
      }
    }
  }

  /** Appending a todo adds one to the count exactly when it is completed. */
  lemma CompletedCountAppend(todos: seq<Todo>, t: Todo)
    ensures CompletedCount(todos + [t]) == CompletedCount(todos) + (if t.completed then 1 else 0)
  {
    assert (todos + [t])[..|todos|] == todos;
  }

  /** The task of the first todo that is not completed, if any. */
  function NextTask(todos: seq<Todo>): (r: Option<string>)
    ensures r.Some? <==> exists i :: 0 <= i < |todos| && !todos[i].completed
    ensures r.Some? ==> exists i :: 0 <= i < |todos| && !todos[i].completed && todos[i].task == r.value &&
                                    forall j :: 0 <= j < i ==> todos[j].completed
    decreases |todos|
  {
    if todos == [] then None
    else if !todos[0].completed then Some(todos[0].task)
    else
      var r := NextTask(todos[1..]);
      assert forall i :: 1 <= i < |todos| ==> todos[1..][i - 1] == todos[i];
      r
  }

  /** Decimal digits. */
  predicate IsDigit(c: char) {
    '0' <= c <= '9'
  }

  /** The decimal form of n, as a template literal prints a non-negative integer. */
  function NatToString(n: nat): (s: string)
    ensures |s| > 0
    ensures forall i :: 0 <= i < |s| ==> IsDigit(s[i])
    ensures |s| > 1 ==> s[0] != '0'
  {
    if n < 10 then [Digit(n)] else NatToString(n / 10) + [Digit(n % 10)]
  }

  function Digit(d: nat): (c: char)
    requires d < 10
    ensures IsDigit(c) && c as int - '0' as int == d
  {
    ('0' as int + d) as char
  }

  function DigitValue(c: char): nat
    requires IsDigit(c)
  {
    c as int - '0' as int
  }

  /** Reads a string of decimal digits back as a number. */
  function ParseDigits(s: string): nat
    requires forall i :: 0 <= i < |s| ==> IsDigit(s[i])
  {
    if s == [] then 0
    else ParseDigits(s[..|s| - 1]) * 10 + DigitValue(s[|s| - 1])
  }

  /** The decimal form reads back as the number it prints. */
  lemma {:induction false} NatToStringRoundTrip(n: nat)
    ensures ParseDigits(NatToString(n)) == n
  {
    var s := NatToString(n);
    if n >= 10 {
      NatToStringRoundTrip(n / 10);
      assert s[..|s| - 1] == NatToString(n / 10);
    } else {
      assert s[..0] == [];
    }
  }

  /** The report: `<none>` for an empty list, else the next open task and the progress. */
  function Report(todos: seq<Todo>): (r: string)
    ensures r == "<none>" <==> |todos| == 0
    ensures |todos| > 0 ==> r == "Next todo: \"" + NextTask(todos).GetOr("<none>") + "\". Progress: "
                                 + NatToString(CompletedCount(todos)) + "/" + NatToString(|todos|)
  {
    if |todos| == 0 then "<none>"
    else
      var r := "Next todo: \"" + NextTask(todos).GetOr("<none>") + "\". Progress: "
               + NatToString(CompletedCount(todos)) + "/" + NatToString(|todos|);
      assert r[0] == 'N';
      r
  }

  /**
   * Every todo is completed exactly when the progress reads n/n, and then
   * the report names no next task.
   */
  lemma {:induction false} AllDone(todos: seq<Todo>)
    ensures CompletedCount(todos) == |todos| <==> forall i :: 0 <= i < |todos| ==> todos[i].completed
    ensures CompletedCount(todos) == |todos| ==> NextTask(todos).None?
    decreases |todos|
  {
    if todos != [] {
      var n := |todos| - 1;
      var init := todos[..n];
      AllDone(init);
      assert forall i :: 0 <= i < n ==> init[i] == todos[i];
    }
  }
}
