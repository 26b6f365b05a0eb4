# Todo store of the Dioxus todo app

This project models the in-memory state of a small Dioxus todo app. The state is three signals:

- the ordered list of `Todo` records (`id`, `text`, `description`, `completed`);
- the name draft, bound to the "Name" input;
- the description draft, bound to the "Description" input.

The app starts with an empty list and two empty drafts. A keystroke overwrites one draft. The "Add todo" click runs `add_todo`, which pushes a new todo with `id = length + 1`, `completed = false` and the current drafts as its text and description. The click then clears both drafts. `Todo::toggle_completed` negates the completion flag of one item.

Everything lives in module `Todos` (`todos.dfy`).

- `Todo` is a datatype, because the source clones it and stores it by value in a `Vec`. `Todo.Toggled` is the value the item has after `toggle_completed`.
- `TodoApp` is a class whose fields are the three signals. Its methods are the two input handlers, the "Add todo" click handler (`Submit`), `add_todo` (`AddTodo`), `toggle_completed` on one list item (`Toggle`), and `Handle`, which routes an event to its handler. Each one updates those fields in place. `TodoApp.Valid` is the dense-id invariant (`DenseIds`): the ids are exactly `1..N` in list order.
- `Step` is what one handler does to the state, written as a value-level function. `Run` replays a sequence of events from the initial state. The constructor's contract says the object starts in `Initial`. Each handler method's contract says the new state is `Step` of the old one. `Session` feeds a fresh `TodoApp` a sequence of events through `Handle` and proves that its state is then `Run` of those events. So the properties proved about `Run` hold of the object's state.

## Model

| member | source | states |
|---|---|---|
| Todos.Todo.Toggled | src/main.rs:24-26 | the completion flag is negated; id, text and description are unchanged |
| Todos.ToggledTwice | src/main.rs:24-26 | toggling twice restores the original record, and one toggle always changes it |
| Todos.Appended | src/main.rs:51-64 | the list grows by exactly one. Every earlier item keeps its position and values. The new last item has id = old length + 1, is not completed, and carries the given name and description. No draft value is refused, including empty ones |
| Todos.AppendedKeepsDense | src/main.rs:57-63 | pushing with id = length + 1 onto a list whose ids are 1..N gives a list whose ids are 1..N+1 |
| Todos.DenseIdsLocate | src/main.rs:57 | under the dense-id invariant, two positions have the same id exactly when they are the same position |
| Todos.ToggledKeepsDense | src/main.rs:24-26 | toggling one item keeps the dense-id invariant |
| Todos.Step | src/main.rs:86-103 | one handler: a name input sets the name draft to the input's value, and a description input sets the description draft. Either input leaves the other draft and the list unchanged. An "Add todo" click makes the list `Appended` of the old list with both drafts, then sets both drafts to `""` |
| Todos.Run | src/main.rs:68-103 | replays a sequence of events, oldest first, from `Initial` (empty list, empty drafts); after a click the drafts are empty |
| Todos.StepKeepsDense | src/main.rs:86-102 | every event handler (name input, description input, "Add todo" click) keeps the dense-id invariant |
| Todos.RunDense | src/main.rs:57-102 | from the initial empty list, after any sequence of events, `todos[k].id == k + 1` for every position k |
| Todos.RunLength | src/main.rs:63-103 | after any sequence of events, the list length equals the number of "Add todo" clicks: every click adds one todo, whatever the drafts hold, and no other event adds one |
| Todos.RunNothingCompleted | src/main.rs:60-103 | no todo added by the app's handlers is ever completed, because new todos start not completed and no handler calls `toggle_completed` |
| Todos.RunAppendOnly | src/main.rs:63-103 | the list is append-only: the list after some events is a prefix of the list after any further events |
| Todos.TodoApp.constructor | src/main.rs:68-70 | the app starts with an empty list and two empty drafts, which is the initial state `Initial`, and the invariant holds |
| Todos.TodoApp.SetName | src/main.rs:86 | the name draft becomes the input's value; the description draft and the list are unchanged; the invariant is kept |
| Todos.TodoApp.SetDescription | src/main.rs:94 | the description draft becomes the input's value; the name draft and the list are unchanged; the invariant is kept |
| Todos.TodoApp.AddTodo | src/main.rs:51-64 | the list becomes `Appended` of the old list with the current drafts; the drafts are unchanged; the invariant is kept |
| Todos.TodoApp.Submit | src/main.rs:99-103 | the list becomes `Appended` of the old list with the drafts read before the click, and both drafts become `""`; the invariant is kept |
| Todos.TodoApp.Handle | src/main.rs:84-103 | routes an input or click event to its handler; the new state is `Step` of the old state and the event, and the invariant is kept |
| Todos.Session | src/main.rs:68-103 | a fresh app that handles a sequence of events one at a time ends in the state `Run` of those events, with the invariant holding |
| Todos.TodoApp.Toggle | src/main.rs:24-26 | only the item at the given position changes, and it becomes `Toggled` of itself; the drafts are unchanged; the invariant is kept |

## Left out

- `main`, the logger set-up and `dioxus::launch` (src/main.rs:7-12) are process start-up and I/O. The `info!("add todo")` log line that `add_todo` writes on every call (src/main.rs:52) is left out too, because it does not change the state.
- `Todo::show_todo` and all `rsx!` markup and styling are rendering through the Dioxus library and are not modelled. The stylesheet link is left out for the same reason. Only the wiring of the inputs and the button to their handlers is kept, as `Handle`. The Dioxus event loop that delivers the events is not part of this source; `Session` stands for it as a plain loop over a given sequence of events.
- Dioxus signals and their re-render scheduling are modelled as plain fields. Each handler runs to completion before the next one starts.
- Todos.TodoApp.AddTodo: ids are unbounded integers. The source computes `todos.len() as i32 + 1` as a 32-bit addition. When the list already holds 2^31 - 1 items, the cast gives the largest i32 value. The `+ 1` then panics in a debug build and wraps to the smallest i32 value in a release build. For longer lists the `as` cast itself truncates silently. The model leaves out this panic path along with the wrap-around and truncation.
- Todos.TodoApp.Toggle: the source never calls `toggle_completed` from a handler (the click handler at src/main.rs:32 is commented out). Toggle models calling it on the list item at a given position. It is therefore not one of the replayed events.
- Deleting an item, re-numbering after a delete, editing an item's fields, looking an item up by id, and an edit or navigation mode are not part of this source file, so they are not modelled.
