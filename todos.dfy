/** The in-memory todo store of the todo app: the Todo record, its
    toggle, `add_todo`, and the App's draft-name / draft-description
    signals with the handlers that update them.

    The store is modelled twice: as the class TodoApp, whose methods update
    the list and the drafts in place as the event handlers do, and as the
    value-level replay function Run over a sequence of user events, about
    which the whole-history properties (dense ids, append-only list) are
    proved. Each handler method is tied to the replay step it performs. */
module Todos {

  /** One todo item. `id` is unbounded: the 32-bit cast of the length is not
      modelled. */
  datatype Todo = Todo(id: int, text: string, description: string, completed: bool)
  {
    /** The item after `toggle_completed`: the completion flag is negated,
        the id, text and description are kept. */
    function Toggled(): (r: Todo)
      ensures r.completed == !completed
      ensures r.id == id && r.text == text && r.description == description
    {
      this.(completed := !completed)
    }
  }

  /** Toggling twice gives back the original record. */
  lemma ToggledTwice(t: Todo)
    ensures t.Toggled().Toggled() == t
    ensures t.Toggled() != t
  {
  }

  /** The store invariant: ids are exactly 1..N, in list order. */
  predicate DenseIds(todos: seq<Todo>)
  {
    forall k :: 0 <= k < |todos| ==> todos[k].id == k + 1
  }

  /** Under the invariant an id names at most one position. */
  lemma DenseIdsLocate(todos: seq<Todo>, i: nat, j: nat)
    requires DenseIds(todos)
    requires i < |todos| && j < |todos|
    ensures todos[i].id == todos[j].id <==> i == j
  {
  }

  /** The list after `add_todo` with the given draft values: every earlier
      item stays where it was, and one new, not completed item carrying the
      drafts and the id "old length + 1" is last. No draft value is refused. */
  function Appended(todos: seq<Todo>, name: string, description: string): (r: seq<Todo>)
    ensures |r| == |todos| + 1
    ensures r[..|todos|] == todos
    ensures r[|todos|].id == |todos| + 1 && !r[|todos|].completed
    ensures r[|todos|].text == name && r[|todos|].description == description
  {
    todos + [Todo(|todos| + 1, name, description, false)]
  }

  /** Appending keeps the ids dense. */
  lemma AppendedKeepsDense(todos: seq<Todo>, name: string, description: string)
    requires DenseIds(todos)
    ensures DenseIds(Appended(todos, name, description))
  {
  }

  /** Toggling one item keeps the ids dense. */
  lemma ToggledKeepsDense(todos: seq<Todo>, i: nat)
    requires DenseIds(todos)
    requires i < |todos|
    ensures DenseIds(todos[i := todos[i].Toggled()])
  {
  }

  /** A user event the App reacts to: a keystroke in the name input, a
      keystroke in the description input (each carrying the input's new
      value), or a click on "Add todo". */
  datatype Event = NameInput(value: string) | DescriptionInput(value: string) | AddClick

  /** The App's three signals: the list and the two drafts. */
  datatype AppState = AppState(todos: seq<Todo>, todoName: string, todoDescription: string)

  /** The state the App starts in: no todos, both drafts empty. */
  const Initial := AppState([], "", "")

  /** The handler of one event. An input event replaces its own draft and
      leaves the other draft and the list alone; a click commits both drafts
      through `add_todo` and then clears them. */
  function Step(s: AppState, e: Event): (r: AppState)
    ensures e.NameInput? ==> r.todoName == e.value && r.todoDescription == s.todoDescription
    ensures e.DescriptionInput? ==> r.todoDescription == e.value && r.todoName == s.todoName
    ensures !e.AddClick? ==> r.todos == s.todos
    ensures e.AddClick? ==> r.todos == Appended(s.todos, s.todoName, s.todoDescription)
    ensures e.AddClick? ==> r.todoName == "" && r.todoDescription == ""
  {
    match e
    case NameInput(v) => s.(todoName := v)
    case DescriptionInput(v) => s.(todoDescription := v)
    case AddClick => AppState(Appended(s.todos, s.todoName, s.todoDescription), "", "")
  }

  /** The state after the App has handled `events`, oldest first, starting
      from its initial signals. */
  function Run(events: seq<Event>): (r: AppState)
    ensures events == [] ==> r == Initial
    ensures events != [] && events[|events| - 1].AddClick? ==> r.todoName == "" && r.todoDescription == ""
    decreases |events|
  {
    if events == [] then Initial
    else Step(Run(events[..|events| - 1]), events[|events| - 1])
  }

  /** The number of "Add todo" clicks in `events`. */
  function Clicks(events: seq<Event>): nat
    decreases |events|
  {
    if events == [] then 0
    else Clicks(events[..|events| - 1]) + (if events[|events| - 1].AddClick? then 1 else 0)
  }

  /** Every event handler keeps the ids dense. */
  lemma StepKeepsDense(s: AppState, e: Event)
    requires DenseIds(s.todos)
    ensures DenseIds(Step(s, e).todos)
  {
    if e.AddClick? {
      AppendedKeepsDense(s.todos, s.todoName, s.todoDescription);
    }
  }

  /** Whatever the events, the ids of the list are exactly 1..N in order. */
  lemma {:induction false} RunDense(events: seq<Event>)
    ensures DenseIds(Run(events).todos)
    decreases |events|
  {
    if events != [] {
      RunDense(events[..|events| - 1]);
      StepKeepsDense(Run(events[..|events| - 1]), events[|events| - 1]);
    }
  }

  /** Every click adds exactly one todo, whatever the drafts hold, and
      nothing else adds one. */
  lemma {:induction false} RunLength(events: seq<Event>)
    ensures |Run(events).todos| == Clicks(events)
    decreases |events|
  {
    if events != [] {
      RunLength(events[..|events| - 1]);
    }
  }

  /** No todo is ever marked completed by the App's handlers. */
  lemma {:induction false} RunNothingCompleted(events: seq<Event>, k: nat)
    requires k < |Run(events).todos|
    ensures !Run(events).todos[k].completed
    decreases |events|
  {
    var before := events[..|events| - 1];
    var s := Run(before);
    if k < |s.todos| {
      RunNothingCompleted(before, k);
      if events[|events| - 1].AddClick? {
        var r := Appended(s.todos, s.todoName, s.todoDescription);
        assert r[k] == r[..|s.todos|][k];
      }
    }
  }

  /** The list is append-only: once a todo is in the list, later events keep
      it at the same position with the same values. */
  lemma {:induction false} RunAppendOnly(events: seq<Event>, more: seq<Event>)
    ensures Run(events).todos <= Run(events + more).todos
    decreases |more|
  {
    if more == [] {
      assert events + more == events;
    } else {
      var all := events + more;
      var shorter := more[..|more| - 1];
      assert all[..|all| - 1] == events + shorter;
      RunAppendOnly(events, shorter);
      var s := Run(events + shorter);
      if more[|more| - 1].AddClick? {
        assert s.todos <= Appended(s.todos, s.todoName, s.todoDescription);
      }
    }
  }

  /** The App: its three signals as fields, and its handlers as methods. */
  class TodoApp {
    var todos: seq<Todo>
    var todoName: string
    var todoDescription: string

    ghost predicate Valid()
      reads this
    {
      DenseIds(todos)
    }

    /** The signals as one value. */
    function State(): AppState
      reads this
    {
      AppState(todos, todoName, todoDescription)
    }

    /** The signals' initial values: an empty list and two empty drafts. */
    constructor ()
      ensures Valid()
      ensures todos == [] && todoName == "" && todoDescription == ""
      ensures State() == Initial
    {
      todos := [];
      todoName := "";
      todoDescription := "";
    }

    /** A keystroke in the name input: the name draft becomes `value`. */
    method SetName(value: string)
      requires Valid()
      modifies this
      ensures Valid()
      ensures todoName == value
      ensures todos == old(todos) && todoDescription == old(todoDescription)
      ensures State() == Step(old(State()), NameInput(value))
    {
      todoName := value;
    }

    /** A keystroke in the description input: the description draft becomes
        `value`. */
    method SetDescription(value: string)
      requires Valid()
      modifies this
      ensures Valid()
      ensures todoDescription == value
      ensures todos == old(todos) && todoName == old(todoName)
      ensures State() == Step(old(State()), DescriptionInput(value))
    {
      todoDescription := value;
    }

    /** `add_todo`: pushes a todo built from the current drafts. */
    method AddTodo()
      requires Valid()
      modifies this
      ensures Valid()
      ensures todos == Appended(old(todos), todoName, todoDescription)
      ensures todoName == old(todoName) && todoDescription == old(todoDescription)
    {
      AppendedKeepsDense(todos, todoName, todoDescription);
      var item := Todo(|todos| + 1, todoName, todoDescription, false);
      todos := todos + [item];
    }

    /** The "Add todo" click: commits the drafts, then clears both. */
    method Submit()
      requires Valid()
      modifies this
      ensures Valid()
      ensures todos == Appended(old(todos), old(todoName), old(todoDescription))
      ensures todoName == "" && todoDescription == ""
      ensures State() == Step(old(State()), AddClick)
    {
      AddTodo();
      todoName := "";
      todoDescription := "";
    }

    /** `toggle_completed` on the item at position `i` of the list. */
    method Toggle(i: nat)
      requires Valid()
      requires i < |todos|
      modifies this
      ensures Valid()
      ensures todos == old(todos)[i := old(todos)[i].Toggled()]
      ensures todoName == old(todoName) && todoDescription == old(todoDescription)
    {
      ToggledKeepsDense(todos, i);
      todos := todos[i := todos[i].(completed := !todos[i].completed)];
    }

    /** Routes one event to its handler, as the inputs' `oninput` and the
        button's `onclick` do. */
    method Handle(e: Event)
      requires Valid()
      modifies this
      ensures Valid()
      ensures State() == Step(old(State()), e)
    {
      match e
      case NameInput(v) => SetName(v);
      case DescriptionInput(v) => SetDescription(v);
      case AddClick => Submit();
    }
  }

  /** A fresh App fed `events` one after another, each handler running to
      completion before the next event: its signals are then `Run(events)`,
      so every property proved about `Run` holds of the App's state. */
  method Session(events: seq<Event>) returns (app: TodoApp)
    ensures fresh(app) && app.Valid()
    ensures app.State() == Run(events)
  {
    app := new TodoApp();
    var i := 0;
    while i < |events|
      invariant 0 <= i <= |events|
      invariant fresh(app) && app.Valid()
      invariant app.State() == Run(events[..i])
    {
      assert events[..i + 1][..i] == events[..i];
      app.Handle(events[i]);
      i := i + 1;
    }
    assert events[..|events|] == events;
  }
}
