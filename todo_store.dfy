/**
 The in-memory todo store: the record type, the read-only queries the
 validation gate and the handlers run over the store (does some todo carry an
 id, the first index carrying it, the first todo carrying it), the id a create
 assigns, the splice a delete performs, and the id invariant that every
 mutation keeps.
 */
module TodoStore {

  datatype Option<T> = None | Some(value: T)

  /** One todo record. Ids are assigned by the store, never by the client. */
  datatype Todo = Todo(id: int, title: string, completed: bool)

  /** The typed body of a create request: only the title comes from the client. */
  datatype PostBody = PostBody(title: string)

  /** The typed body of an update request. */
  datatype PutBody = PutBody(title: string, completed: bool)

  /** The store as the process starts. */
  const InitialTodos: seq<Todo> := [Todo(1, "ネーム", true), Todo(2, "下書き", false)]

  /** Some todo in the store carries `id`. */
  predicate HasId(todos: seq<Todo>, id: int)
  {
    exists i :: 0 <= i < |todos| && todos[i].id == id
  }

  /** Ids strictly increase along the store (hence no two todos share an id). */
  ghost predicate IdsIncreasing(todos: seq<Todo>)
  {
    forall i, j :: 0 <= i < j < |todos| ==> todos[i].id < todos[j].id
  }

  /** The store invariant: ids strictly increasing and all positive. */
  ghost predicate WellFormed(todos: seq<Todo>)
  {
    && IdsIncreasing(todos)
    && forall i :: 0 <= i < |todos| ==> 1 <= todos[i].id
  }

  /**
   The index of the first todo carrying `id`, or -1 when none does
   (array findIndex).
   */
  function FindIndex(todos: seq<Todo>, id: int): (r: int)
    ensures -1 <= r < |todos|
    ensures r == -1 <==> !HasId(todos, id)
    ensures 0 <= r ==> todos[r].id == id
    ensures 0 <= r ==> forall j :: 0 <= j < r ==> todos[j].id != id
    decreases |todos|
  {
    if |todos| == 0 then -1
    else if todos[0].id == id then 0
    else
      var k := FindIndex(todos[1..], id);
      assert forall j :: 1 <= j < |todos| ==> todos[j] == todos[1..][j - 1];
      if k == -1 then -1 else k + 1
  }

  /** The first todo carrying `id`, or None (undefined) when none does (array find). */
  function Find(todos: seq<Todo>, id: int): (r: Option<Todo>)
    ensures r.Some? <==> HasId(todos, id)
    ensures r.Some? ==> r.value.id == id && r.value in todos
    ensures r.Some? ==> exists i :: 0 <= i < |todos| && todos[i] == r.value &&
                                    forall j :: 0 <= j < i ==> todos[j].id != id
  {
    var i := FindIndex(todos, id);
    if i < 0 then None else Some(todos[i])
  }

  /**
   The id a create assigns: one more than the last todo's id, or 1 on an
   empty store. On a store with increasing ids that is one more than the
   largest id present, so it is fresh (and positive on a well-formed store).
   */
  function NextId(todos: seq<Todo>): (r: int)
    ensures IdsIncreasing(todos) ==> forall i :: 0 <= i < |todos| ==> todos[i].id < r
    ensures IdsIncreasing(todos) && |todos| > 0 ==> HasId(todos, r - 1)
    ensures WellFormed(todos) ==> 1 <= r && !HasId(todos, r)
  {
    var lastId := if |todos| > 0 then todos[|todos| - 1].id else 0;
    lastId + 1
  }

  /** The store after removing the one element at index `i` (splice(i, 1)). */
  function RemoveAt(todos: seq<Todo>, i: int): (r: seq<Todo>)
    requires 0 <= i < |todos|
    ensures |r| == |todos| - 1
    ensures forall k :: 0 <= k < i ==> r[k] == todos[k]
    ensures forall k :: i <= k < |r| ==> r[k] == todos[k + 1]
    ensures multiset(r) + multiset{todos[i]} == multiset(todos)
  {
    assert todos == todos[..i] + [todos[i]] + todos[i + 1..];
    todos[..i] + todos[i + 1..]
  }

  /** On a store whose ids are increasing, the id gate's todo is the only one with that id. */
  lemma FindIndexIsOnlyMatch(todos: seq<Todo>, id: int)
    requires IdsIncreasing(todos)
    requires HasId(todos, id)
    ensures forall k :: 0 <= k < |todos| ==> (todos[k].id == id <==> k == FindIndex(todos, id))
  {
  }

  lemma InitialWellFormed()
    ensures WellFormed(InitialTodos)
  {
  }

  /** Appending a new todo with the next id keeps the store well-formed. */
  lemma PushPreservesWellFormed(todos: seq<Todo>, body: PostBody)
    requires WellFormed(todos)
    ensures WellFormed(todos + [Todo(NextId(todos), body.title, false)])
  {
  }

  /** Overwriting title and completed at an index while keeping the id keeps the store well-formed. */
  lemma ReplacePreservesWellFormed(todos: seq<Todo>, i: int, body: PutBody)
    requires WellFormed(todos)
    requires 0 <= i < |todos|
    ensures WellFormed(todos[i := Todo(todos[i].id, body.title, body.completed)])
  {
  }

  /** Removing one element keeps the store well-formed. */
  lemma RemovePreservesWellFormed(todos: seq<Todo>, i: int)
    requires WellFormed(todos)
    requires 0 <= i < |todos|
    ensures WellFormed(RemoveAt(todos, i))
  {
  }

  /**
   Removing the todo the gate found for `id` removes `id` from the store and
   keeps every other id present.
   */
  lemma RemoveDropsOnlyThatId(todos: seq<Todo>, id: int)
    requires WellFormed(todos)
    requires HasId(todos, id)
    ensures !HasId(RemoveAt(todos, FindIndex(todos, id)), id)
    ensures forall x :: x != id ==> (HasId(RemoveAt(todos, FindIndex(todos, id)), x) <==> HasId(todos, x))
  {
    var i := FindIndex(todos, id);
    var r := RemoveAt(todos, i);
    forall x | x != id && HasId(todos, x)
      ensures HasId(r, x)
    {
      var k :| 0 <= k < |todos| && todos[k].id == x;
      if k < i {
        assert r[k].id == x;
      } else {
        assert r[k - 1].id == x;
      }
    }
  }

  /**
   Ids are reused: removing the most recently created todo and creating again
   hands out the same id, because the next id comes from the last element,
   not from a counter.
   */
  lemma CreateDeleteCreateReusesId(todos: seq<Todo>, first: PostBody)
    ensures var s1 := todos + [Todo(NextId(todos), first.title, false)];
            var s2 := RemoveAt(s1, |s1| - 1);
            NextId(s2) == s1[|s1| - 1].id
  {
  }

  /** On the initial store, deleting todo 2 and creating gives the new todo id 2 again. */
  lemma InitialStoreReusesId()
    ensures NextId(RemoveAt(InitialTodos, 1)) == InitialTodos[1].id == 2
  {
  }

  /** When ids are dense from 1, the next id is the store size plus one. */
  lemma DenseNextId(todos: seq<Todo>)
    requires forall i :: 0 <= i < |todos| ==> todos[i].id == i + 1
    ensures NextId(todos) == |todos| + 1
  {
  }
}
