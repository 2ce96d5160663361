# Todo service: in-memory store, id-validation gate, CRUD handlers

A Dafny model of the todo service in `src/index.ts`: a single in-memory,
ordered store of todos (`id`, `title`, `completed`), a validation gate that
runs before the id-carrying routes, and the five route handlers (list,
get-one, create, update, delete).

- `todo_store.dfy` (module `TodoStore`): the records, the initial store, the
  read-only queries the gate and handlers run over the store (some todo has
  this id; the first index with this id, -1 when none; the first todo with
  this id), the id a create assigns, the splice a delete performs, and the
  store invariant `WellFormed` (ids strictly increasing along the store and
  positive, hence unique) with its preservation lemmas.
- `todo_app.dfy` (module `TodoApp`): responses as a status plus a payload,
  the gate as a function of the store and the parsed path id, and the class
  `TodoServer` whose field `todos: seq<Todo>` is the store. Each route is a
  method; gated routes run the gate and either return its error response
  unchanged or call the handler method. Every method keeps `Valid()`, so
  starting from the initial store ids stay increasing and unique after any
  sequence of requests, which is what lets the handlers' first-match lookups
  hit exactly the todo the gate approved.

The path id is given to the gate already parsed: `None` stands for a parse
giving NaN, `Some(n)` for a numeric id. Request bodies are typed records
(`PostBody(title)`, `PutBody(title, completed)`).

The create handler takes the new id from the last element, not from the
largest id; `NextId` proves that on a store with increasing ids these agree
(the last id is the largest), so the model follows the code and the two
descriptions coincide under the invariant.

## Model

| member | source | states |
|---|---|---|
| `TodoStore.FindIndex` | src/index.ts:66 | result is -1 exactly when no todo has the id; otherwise an in-range index whose todo has the id and no earlier todo has it |
| `TodoStore.Find` | src/index.ts:49 | result is present exactly when some todo has the id; it is a member of the store with that id, and no earlier todo has the id |
| `TodoStore.NextId` | src/index.ts:56-59 | on increasing ids the new id exceeds every id and is one more than an id present (the largest); on a well-formed store it is positive and no todo has it |
| `TodoStore.RemoveAt` | src/index.ts:74 | splice of one element: length drops by one, elements before the index are kept, elements after shift down by one in order, and the multiset loses exactly the removed todo |
| `TodoStore.FindIndexIsOnlyMatch` | src/index.ts:67 | on increasing ids, the index the handlers look up is the only index whose todo has the gated id |
| `TodoStore.InitialWellFormed` | src/index.ts:19-22 | the initial store has strictly increasing positive ids |
| `TodoStore.PushPreservesWellFormed` | src/index.ts:56-60 | appending a todo with the next id keeps ids increasing and positive |
| `TodoStore.ReplacePreservesWellFormed` | src/index.ts:67-68 | replacing a todo's title and completed while keeping its id keeps ids increasing and positive |
| `TodoStore.RemovePreservesWellFormed` | src/index.ts:73-74 | removing one todo keeps ids increasing and positive |
| `TodoStore.RemoveDropsOnlyThatId` | src/index.ts:73-74 | removing the first todo with a present id leaves no todo with that id and every other id present exactly as before |
| `TodoStore.CreateDeleteCreateReusesId` | src/index.ts:56-60 | after creating a todo and deleting it, the next create hands out the same id again |
| `TodoStore.InitialStoreReusesId` | src/index.ts:19-22 | on the initial store, deleting todo 2 makes the next create hand out id 2 again |
| `TodoStore.DenseNextId` | src/index.ts:56-59 | when ids are 1..n in order, the next id is the store size plus one |
| `TodoApp.Gate` | src/index.ts:28-42 | unparseable id gives the 400 response; a parsed id no todo has gives the 404 response; it continues exactly when some todo has the id, handing that id on unchanged, and then the handlers' lookup finds it |
| `TodoApp.TodoServer.constructor` | src/index.ts:19-22 | the store starts as the two initial todos and satisfies the invariant |
| `TodoApp.TodoServer.ListTodos` | src/index.ts:44 | status 200 with the whole store in store order |
| `TodoApp.TodoServer.GetOne` | src/index.ts:48-51 | for a gated id: status 200 with a todo of the store that has that id, and every todo with that id is that one |
| `TodoApp.TodoServer.GetTodo` | src/index.ts:48-51 | 400 for an unparseable id, 404 for an unknown id, otherwise 200 with the only todo having that id; the store is not changed |
| `TodoApp.TodoServer.PostTodo` | src/index.ts:53-62 | the store becomes the old store with one todo appended, whose id is the next id and completed is false; status 201 with that todo; its id was not in the store; invariant kept |
| `TodoApp.TodoServer.Put` | src/index.ts:64-70 | for a gated id: the todo at the first matching index becomes the body's title and completed with the same id, nothing else changes; status 200 with the new todo; invariant kept |
| `TodoApp.TodoServer.PutTodo` | src/index.ts:64-70 | 400 or 404 with the store unchanged when the gate rejects; otherwise the update above |
| `TodoApp.TodoServer.Delete` | src/index.ts:72-76 | for a gated id: the store becomes the old store with the first matching todo spliced out; status 200 with that id; no todo has the id any more; invariant kept |
| `TodoApp.TodoServer.DeleteTodo` | src/index.ts:72-76 | 400 or 404 with the store unchanged when the gate rejects; otherwise the delete above, after which the gate answers 404 for that id |
| `TodoApp.Scenario` | src/index.ts:44-76 | from a fresh server: get 1 gives todo 1, get 3 gives 404, create "x" gives id 3 with 201, update 1 keeps id 1, delete 2 answers {id: 2}, get 2 then gives 404, and the list is todos 1 and 3 in order |

## Left out

- Parsing of the path parameter into a number (JavaScript number conversion accepts floats, whitespace, hex and the empty string): the gate receives an already-parsed `Option<int>`, so a fractional id, which the code would answer with 404, is not represented.
- Parsing of the JSON request body, and the object spread that copies any extra body fields into the stored todo: bodies are typed records with exactly the fields the routes use; a body missing `title` (stored with an undefined title) is not represented.
- The web framework: routing, middleware registration, response building and the environment bindings. A response is a status code plus a payload.
- Interleaving of concurrent requests at the awaits of the create, update and gate paths: every request is one atomic step on the store.
- Number precision: ids are unbounded integers, whereas the code uses floating-point numbers, so id arithmetic beyond 2^53 is not modelled.
- TodoApp.TodoServer.GetOne: the code would answer a JSON null if the lookup missed; the handler requires a gated id, so that unreachable branch is not modelled.
- TodoApp.TodoServer.Put and TodoApp.TodoServer.Delete: their behaviour when called without the gate (an index of -1, where the update would fail and the splice would remove the last todo) is not modelled; the handlers require an id the gate passed.
