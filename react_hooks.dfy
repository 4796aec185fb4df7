/** The logic inside the hooks demonstrations (src/components/ReactHooks.js):
    the todo reducer, the guard of the "Add" button, and the summation loop
    whose result is memoised. */
module ReactHooks {
  import opened Sequences

  /** A todo item. The id comes from the clock when the item is added. */
  datatype Todo = Todo(id: int, text: string, completed: bool)

  /** An action type the reducer has no case for. */
  type OtherKind = k: string | k !in {"ADD_TODO", "TOGGLE_TODO", "DELETE_TODO"} witness ""

  /** The actions the reducer is dispatched with. `Unrecognised` stands for
      any other action type. */
  datatype Action =
    | Add(text: string)
    | Toggle(id: int)
    | Delete(id: int)
    | Unrecognised(kind: OtherKind)

  // ---------------------------------------------------------------------
  // The reducer

  /** The TOGGLE_TODO case: every item whose id matches has its completion
      flipped; ids, texts, order and all other items are kept. */
  function ToggleItems(state: seq<Todo>, id: int): (r: seq<Todo>)
    ensures |r| == |state|
    ensures forall i :: 0 <= i < |state| ==>
      && r[i].id == state[i].id
      && r[i].text == state[i].text
      && (r[i].completed != state[i].completed <==> state[i].id == id)
  {
    if state == [] then []
    else
      var t := state[0];
      var t' := if t.id == id then t.(completed := !t.completed) else t;
      [t'] + ToggleItems(state[1..], id)
  }

  /** Toggling the same id twice gives the list back. */
  lemma ToggleTwice(state: seq<Todo>, id: int)
    ensures ToggleItems(ToggleItems(state, id), id) == state
  {
  }

  /** The DELETE_TODO case: the items whose id differs, in their order. */
  function DeleteItems(state: seq<Todo>, id: int): (r: seq<Todo>)
    ensures IsSubsequence(r, state)
    ensures forall t :: t in r <==> t in state && t.id != id
    ensures forall t :: multiset(r)[t] == if t.id != id then multiset(state)[t] else 0
  {
    Filter(state, (t: Todo) => t.id != id)
  }

  /** Deleting an id no item carries leaves the list as it was. */
  lemma DeleteAbsent(state: seq<Todo>, id: int)
    requires forall i :: 0 <= i < |state| ==> state[i].id != id
    ensures DeleteItems(state, id) == state
  {
    FilterKeepsAll(state, (t: Todo) => t.id != id);
  }

  /** `todoReducer`. `now` is the clock reading that becomes the id of an
      added item. */
  function Reduce(state: seq<Todo>, action: Action, now: int): (r: seq<Todo>)
    ensures action.Add? ==>
      && |r| == |state| + 1 && r[..|state|] == state
      && r[|state|].id == now && r[|state|].text == action.text && !r[|state|].completed
    ensures action.Toggle? ==>
      && |r| == |state|
      && forall i :: 0 <= i < |state| ==>
        r[i].id == state[i].id && r[i].text == state[i].text &&
        (r[i].completed != state[i].completed <==> state[i].id == action.id)
    ensures action.Delete? ==>
      && IsSubsequence(r, state)
      && (forall t :: t in r <==> t in state && t.id != action.id)
      && forall t :: multiset(r)[t] == if t.id != action.id then multiset(state)[t] else 0
    ensures action.Unrecognised? ==> r == state
  {
    match action
    case Add(text) => state + [Todo(now, text, false)]
    case Toggle(id) => ToggleItems(state, id)
    case Delete(id) => DeleteItems(state, id)
    case Unrecognised(_) => state
  }

  // ---------------------------------------------------------------------
  // Trimming the input

  /** The characters `String.prototype.trim` removes: the ECMAScript
      WhiteSpace and LineTerminator code points. */
  predicate IsWhitespace(c: char)
    ensures c == ' ' || c == '\t' || c == '\n' || c == '\r' ==> IsWhitespace(c)
    ensures IsWhitespace(c) ==> !('0' <= c <= '9') && !('A' <= c <= 'Z') && !('a' <= c <= 'z')
  {
    var n := c as int;
    n == 0x09 || n == 0x0A || n == 0x0B || n == 0x0C || n == 0x0D || n == 0x20 ||
    n == 0xA0 || n == 0x1680 || (0x2000 <= n <= 0x200A) || n == 0x2028 || n == 0x2029 ||
    n == 0x202F || n == 0x205F || n == 0x3000 || n == 0xFEFF
  }

  /** Drops leading whitespace. */
  function TrimStart(s: string): (r: string)
    ensures |r| <= |s| && r == s[|s| - |r|..]
    ensures forall i :: 0 <= i < |s| - |r| ==> IsWhitespace(s[i])
    ensures r != [] ==> !IsWhitespace(r[0])
  {
    if s != [] && IsWhitespace(s[0]) then TrimStart(s[1..]) else s
  }

  /** Drops trailing whitespace. */
  function TrimEnd(s: string): (r: string)
    ensures |r| <= |s| && r == s[..|r|]
    ensures forall i :: |r| <= i < |s| ==> IsWhitespace(s[i])
    ensures r != [] ==> !IsWhitespace(r[|r| - 1])
  {
    if s != [] && IsWhitespace(s[|s| - 1]) then TrimEnd(s[..|s| - 1]) else s
  }

  /** `trim()`: `s` without its leading and trailing whitespace. The result
      is empty exactly when `s` holds only whitespace. */
  function Trim(s: string): (r: string)
    ensures exists lo, hi ::
      && 0 <= lo <= hi <= |s| && r == s[lo..hi]
      && (forall i :: 0 <= i < lo ==> IsWhitespace(s[i]))
      && (forall i :: hi <= i < |s| ==> IsWhitespace(s[i]))
    ensures r != [] ==> !IsWhitespace(r[0]) && !IsWhitespace(r[|r| - 1])
    ensures r == [] <==> forall i :: 0 <= i < |s| ==> IsWhitespace(s[i])
  {
    var t := TrimStart(s);
    var r := TrimEnd(t);
    TrimSlice(s, t, r);
    var lo, hi := |s| - |t|, |s| - |t| + |r|;
    assert r == s[lo..hi];
    r
  }

  /** Trimming both ends takes the slice between the two runs of
      whitespace. */
  lemma TrimSlice(s: string, t: string, r: string)
    requires |t| <= |s| && t == s[|s| - |t|..]
    requires |r| <= |t| && r == t[..|r|]
    requires forall i :: |r| <= i < |t| ==> IsWhitespace(t[i])
    ensures r == s[|s| - |t|..|s| - |t| + |r|]
    ensures forall i :: |s| - |t| + |r| <= i < |s| ==> IsWhitespace(s[i])
  {
  }

  /** The state of the todo demonstration: the list and the text field. */
  class TodoList {
    var todos: seq<Todo>
    var input: string

    constructor ()
      ensures todos == [] && input == ""
    {
      todos := [];
      input := "";
    }

    /** The text field's `onChange`. */
    method SetInput(text: string)
      modifies this
      ensures input == text && todos == old(todos)
    {
      input := text;
    }

    /** `dispatch`, as the toggle and delete controls use it. */
    method Dispatch(action: Action, now: int)
      modifies this
      ensures todos == Reduce(old(todos), action, now) && input == old(input)
    {
      todos := Reduce(todos, action, now);
    }

    /** `addTodo`: when the input is more than whitespace, the untrimmed
        input is added as a new item and the field is cleared; otherwise
        nothing changes. */
    method AddTodo(now: int)
      modifies this
      ensures Trim(old(input)) != [] ==>
        todos == old(todos) + [Todo(now, old(input), false)] && input == ""
      ensures Trim(old(input)) == [] ==> todos == old(todos) && input == old(input)
    {
      if Trim(input) != [] {
        Dispatch(Add(input), now);
        input := "";
      }
    }
  }

  // ---------------------------------------------------------------------
  // The expensive calculation

  /** 0 + 1 + ... + (n - 1); zero when n is not positive. */
  function SumBelow(n: int): int
    decreases if n <= 0 then 0 else n
  {
    if n <= 0 then 0 else SumBelow(n - 1) + (n - 1)
  }

  /** Gauss's closed form of the sum. */
  lemma {:induction false} SumBelowClosedForm(n: nat)
    ensures SumBelow(n) == n * (n - 1) / 2
  {
    if n > 0 {
      SumBelowClosedForm(n - 1);
      assert (n - 1) * (n - 2) + 2 * (n - 1) == n * (n - 1);
    }
  }

  /** The loop of `ExpensiveCalculation`: the sum of every i with
      0 <= i < number * 1000000, over mathematical integers. */
  method ExpensiveResult(number: int) returns (result: int)
    ensures result == SumBelow(number * 1000000)
    ensures number > 0 ==> result == (number * 1000000) * (number * 1000000 - 1) / 2
    ensures number <= 0 ==> result == 0
  {
    var limit := number * 1000000;
    result := 0;
    var i := 0;
    while i < limit
      invariant 0 <= i && (i <= limit || i == 0)
      invariant result == SumBelow(i)
    {
      result := result + i;
      i := i + 1;
    }
    if limit > 0 {
      SumBelowClosedForm(limit);
    }
  }
}
