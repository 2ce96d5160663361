/**
 The HTTP face of the todo store: responses as a status code plus a payload,
 the id-validation gate that runs before get-one, update and delete, and a
 server object owning the store, whose methods are the five route handlers.
 */
module TodoApp {
  import opened TodoStore

  /** What a response carries: a JSON array, one JSON todo, `{id}`, or plain text. */
  datatype Payload =
    | TodoList(todos: seq<Todo>)
    | OneTodo(todo: Todo)
    | DeletedId(id: int)
    | Text(message: string)

  datatype Response = Response(status: int, payload: Payload)

  const BadRequest: Response := Response(400, Text("Invalid ID format. Please provide a valid number."))
  const NotFound: Response := Response(404, Text("Todo not found"))

  /** The gate either answers the request itself or hands a validated id on to the handler. */
  datatype GateResult = Reject(response: Response) | Continue(id: int)

  /**
   The id-validation gate. `param` is the path id after numeric parsing:
   None stands for a parse that gives NaN. The gate only reads the store.
   */
  function Gate(todos: seq<Todo>, param: Option<int>): (g: GateResult)
    ensures param.None? ==> g == Reject(BadRequest)
    ensures param.Some? && !HasId(todos, param.value) ==> g == Reject(NotFound)
    ensures g.Continue? <==> param.Some? && HasId(todos, param.value)
    ensures g.Continue? ==> g.id == param.value && 0 <= FindIndex(todos, g.id)
  {
    match param
    case None => Reject(BadRequest)
    case Some(id) => if !HasId(todos, id) then Reject(NotFound) else Continue(id)
  }

  /** The server: the store is a sequence field that the handlers reassign. */
  class TodoServer {
    var todos: seq<Todo>

    /** The store invariant every handler keeps. */
    ghost predicate Valid()
      reads this
    {
      WellFormed(todos)
    }

    constructor ()
      ensures Valid() && todos == InitialTodos
    {
      todos := InitialTodos;
      InitialWellFormed();
    }

    /** GET /todos: the whole store, in store order. */
    method ListTodos() returns (r: Response)
      ensures r.status == 200 && r.payload == TodoList(todos)
    {
      r := Response(200, TodoList(todos));
    }

    /** Handler of GET /todos/:id, reached only with an id the gate passed. */
    method GetOne(id: int) returns (r: Response)
      requires Valid()
      requires HasId(todos, id)
      ensures r.status == 200 && r.payload.OneTodo?
      ensures r.payload.todo.id == id && r.payload.todo in todos
      ensures forall t :: t in todos && t.id == id ==> t == r.payload.todo
    {
      var todo := Find(todos, id);
      FindIndexIsOnlyMatch(todos, id);
      r := Response(200, OneTodo(todo.value));
    }

    /** GET /todos/:id: the gate, then the get-one handler; the store is only read. */
    method GetTodo(param: Option<int>) returns (r: Response)
      requires Valid()
      ensures param.None? ==> r == BadRequest
      ensures param.Some? && !HasId(todos, param.value) ==> r == NotFound
      ensures param.Some? && HasId(todos, param.value) ==>
                r.status == 200 && r.payload.OneTodo? &&
                r.payload.todo.id == param.value && r.payload.todo in todos &&
                forall t :: t in todos && t.id == param.value ==> t == r.payload.todo
    {
      var g := Gate(todos, param);
      match g
      case Reject(response) =>
        r := response;
      case Continue(id) =>
        r := GetOne(id);
    }

    /**
     POST /todos: append a todo with the next id and completed false,
     answering 201 with the new todo.
     */
    method PostTodo(body: PostBody) returns (r: Response)
      requires Valid()
      modifies this
      ensures Valid()
      ensures var created := Todo(NextId(old(todos)), body.title, false);
              todos == old(todos) + [created] && r == Response(201, OneTodo(created))
      ensures !HasId(old(todos), r.payload.todo.id)
    {
      var lastId := 0;
      if |todos| > 0 {
        lastId := todos[|todos| - 1].id;
      }
      var newTodo := Todo(lastId + 1, body.title, false);
      PushPreservesWellFormed(todos, body);
      todos := todos + [newTodo];
      r := Response(201, OneTodo(newTodo));
    }

    /**
     Handler of PUT /todos/:id: overwrite title and completed of the first
     todo with the gated id, keeping its id.
     */
    method Put(id: int, body: PutBody) returns (r: Response)
      requires Valid()
      requires HasId(todos, id)
      modifies this
      ensures Valid()
      ensures var updated := Todo(id, body.title, body.completed);
              todos == old(todos)[FindIndex(old(todos), id) := updated] &&
              r == Response(200, OneTodo(updated))
    {
      var index := FindIndex(todos, id);
      var newTodo := Todo(todos[index].id, body.title, body.completed);
      ReplacePreservesWellFormed(todos, index, body);
      todos := todos[index := newTodo];
      r := Response(200, OneTodo(todos[index]));
    }

    /** PUT /todos/:id: the gate, then the update handler. */
    method PutTodo(param: Option<int>, body: PutBody) returns (r: Response)
      requires Valid()
      modifies this
      ensures Valid()
      ensures param.None? ==> r == BadRequest && todos == old(todos)
      ensures param.Some? && !HasId(old(todos), param.value) ==> r == NotFound && todos == old(todos)
      ensures param.Some? && HasId(old(todos), param.value) ==>
                var updated := Todo(param.value, body.title, body.completed);
                todos == old(todos)[FindIndex(old(todos), param.value) := updated] &&
                r == Response(200, OneTodo(updated))
    {
      var g := Gate(todos, param);
      match g
      case Reject(response) =>
        r := response;
      case Continue(id) =>
        r := Put(id, body);
    }

    /**
     Handler of DELETE /todos/:id: splice out the first todo with the gated
     id and answer with that id.
     */
    method Delete(id: int) returns (r: Response)
      requires Valid()
      requires HasId(todos, id)
      modifies this
      ensures Valid()
      ensures todos == RemoveAt(old(todos), FindIndex(old(todos), id))
      ensures r == Response(200, DeletedId(id))
      ensures !HasId(todos, id)
    {
      var index := FindIndex(todos, id);
      RemovePreservesWellFormed(todos, index);
      RemoveDropsOnlyThatId(todos, id);
      todos := RemoveAt(todos, index);
      r := Response(200, DeletedId(id));
    }

    /** DELETE /todos/:id: the gate, then the delete handler. */
    method DeleteTodo(param: Option<int>) returns (r: Response)
      requires Valid()
      modifies this
      ensures Valid()
      ensures param.None? ==> r == BadRequest && todos == old(todos)
      ensures param.Some? && !HasId(old(todos), param.value) ==> r == NotFound && todos == old(todos)
      ensures param.Some? && HasId(old(todos), param.value) ==>
                todos == RemoveAt(old(todos), FindIndex(old(todos), param.value)) &&
                r == Response(200, DeletedId(param.value)) &&
                Gate(todos, param) == Reject(NotFound)
    {
      var g := Gate(todos, param);
      match g
      case Reject(response) =>
        r := response;
      case Continue(id) =>
        r := Delete(id);
    }
  }

  /**
   A client run of the service from a fresh store: get 1, get 3, create,
   update 1, delete 2, get 2 again, then list.
   */
  method Scenario() returns (responses: seq<Response>)
    ensures responses == [
      Response(200, OneTodo(Todo(1, "ネーム", true))),
      NotFound,
      Response(201, OneTodo(Todo(3, "x", false))),
      Response(200, OneTodo(Todo(1, "y", false))),
      Response(200, DeletedId(2)),
      NotFound,
      Response(200, TodoList([Todo(1, "y", false), Todo(3, "x", false)]))
    ]
  {
    var server := new TodoServer();
    assert HasId(InitialTodos, 1) by { assert InitialTodos[0].id == 1; }
    var r1 := server.GetTodo(Some(1));
    assert r1 == Response(200, OneTodo(Todo(1, "ネーム", true)));
    var r2 := server.GetTodo(Some(3));
    assert r2 == NotFound;
    var r3 := server.PostTodo(PostBody("x"));
    assert r3 == Response(201, OneTodo(Todo(3, "x", false)));
    assert server.todos == InitialTodos + [Todo(3, "x", false)];
    assert FindIndex(server.todos, 1) == 0;
    var r4 := server.PutTodo(Some(1), PutBody("y", false));
    assert r4 == Response(200, OneTodo(Todo(1, "y", false)));
    assert server.todos[1].id == 2;
    assert FindIndex(server.todos, 2) == 1;
    var r5 := server.DeleteTodo(Some(2));
    assert r5 == Response(200, DeletedId(2));
    var r6 := server.GetTodo(Some(2));
    assert r6 == NotFound;
    assert |server.todos| == 2 && server.todos[0] == Todo(1, "y", false) && server.todos[1] == Todo(3, "x", false);
    assert server.todos == [Todo(1, "y", false), Todo(3, "x", false)];
    var r7 := server.ListTodos();
    responses := [r1, r2, r3, r4, r5, r6, r7];
  }
}
