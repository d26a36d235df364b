/** The "top todo" summary: the most urgent todo of a non-empty list. */
module Top {
  import opened Todos

  /** The reducer `(acc, cur) => cur.priority < acc.priority ? cur : acc`. */
  function Step(acc: Todo, cur: Todo): (r: Todo)
    ensures r == acc || r == cur
    ensures r.priority <= acc.priority && r.priority <= cur.priority
    ensures r.priority == acc.priority ==> r == acc
  {
    if cur.priority < acc.priority then cur else acc
  }

  /** `rest.reduce(Step, acc)`: a left fold over `rest` starting from `acc`. */
  function Reduce(acc: Todo, rest: seq<Todo>): (r: Todo)
    ensures r == acc || r in rest
    ensures r.priority <= acc.priority
    ensures forall t :: t in rest ==> r.priority <= t.priority
    decreases |rest|
  {
    if rest == [] then acc else Reduce(Step(acc, rest[0]), rest[1..])
  }

  /** Position `k` holds the least priority of `s`, and no earlier position
      holds a priority that low. */
  predicate IsFirstMinimum(s: seq<Todo>, k: int)
  {
    0 <= k < |s|
    && (forall j :: 0 <= j < |s| ==> s[k].priority <= s[j].priority)
    && (forall j :: 0 <= j < k ==> s[k].priority < s[j].priority)
  }

  /** A list has at most one first minimum. */
  lemma FirstMinimumUnique(s: seq<Todo>, k: int, m: int)
    requires IsFirstMinimum(s, k) && IsFirstMinimum(s, m)
    ensures k == m
  {
    assert s[k].priority == s[m].priority;
  }

  /** Folding the rest of `s` from index `i`, with the accumulator at the
      first minimum `s[a]` of the part already seen, ends at the first
      minimum of all of `s`. */
  lemma {:induction false} ReduceReachesFirstMinimum(s: seq<Todo>, i: nat, a: nat)
    requires a <= i <= |s| && a < |s|
    requires forall j :: 0 <= j < i ==> s[a].priority <= s[j].priority
    requires forall j :: 0 <= j < a ==> s[a].priority < s[j].priority
    ensures exists k :: IsFirstMinimum(s, k) && Reduce(s[a], s[i..]) == s[k]
    decreases |s| - i
  {
    if i == |s| {
      assert s[i..] == [];
      assert IsFirstMinimum(s, a);
    } else {
      assert s[i..][0] == s[i] && s[i..][1..] == s[i + 1..];
      var next := if s[i].priority < s[a].priority then i else a;
      assert Step(s[a], s[i]) == s[next];
      ReduceReachesFirstMinimum(s, i + 1, next);
    }
  }

  /** `todos.reduce(Step, todos[0])`. An empty list is excluded: the note at
      src/TodoApp.js:60 says the summary section should be omitted when there
      is no top todo, though the skeleton does not do it. For a non-empty list
      the result is a todo of the list, no todo is more urgent, and among the
      todos of that priority it is the earliest. */
  function TopTodo(todos: seq<Todo>): (top: Todo)
    requires |todos| > 0
    ensures top in todos
    ensures forall t :: t in todos ==> top.priority <= t.priority
    ensures forall k :: IsFirstMinimum(todos, k) ==> top == todos[k]
    ensures exists k :: IsFirstMinimum(todos, k) && top == todos[k]
  {
    ReduceReachesFirstMinimum(todos, 0, 0);
    assert todos[0..] == todos;
    var top := Reduce(todos[0], todos);
    forall k, m | IsFirstMinimum(todos, k) && IsFirstMinimum(todos, m) ensures k == m {
      FirstMinimumUnique(todos, k, m);
    }
    top
  }

  /** A one-todo list yields that todo. */
  lemma TopOfSingleton(t: Todo)
    ensures TopTodo([t]) == t
  {
  }

  /** Ties go to the earliest todo: priorities 3, 1, 2, 1 select the second. */
  lemma TopTieGoesToEarliest(a: Todo, b: Todo, c: Todo, d: Todo)
    requires a.priority == 3 && b.priority == 1 && c.priority == 2 && d.priority == 1
    ensures TopTodo([a, b, c, d]) == b
  {
    assert IsFirstMinimum([a, b, c, d], 1);
  }
}
