/** The client-side resource store: one slice per resource (drivers, teams,
    circuits, races), each holding the fetched list, an optionally selected
    record, a loading flag and an error message. The four slices are the same
    state machine and differ only in their record type and in the default
    messages of a failed fetch, so they are one generic reducer `Step` and one
    generic class `Store`, parameterized by the record type and a `Resource`
    tag. The races slice adds a third fetch kind (module RacesSlice). */
module ResourceStore {
  import opened Optional
  import opened Entities

  /** Default message of a failed "fetch all" of a resource. */
  function ListFailure(r: Resource): (msg: string)
    ensures msg != ""
  {
    match r
    case Drivers => "Failed to fetch drivers"
    case Teams => "Failed to fetch teams"
    case Circuits => "Failed to fetch circuits"
    case Races => "Failed to fetch races"
  }

  /** Default message of a failed "fetch one by id" of a resource. */
  function ItemFailure(r: Resource): (msg: string)
    ensures msg != ""
  {
    match r
    case Drivers => "Failed to fetch driver"
    case Teams => "Failed to fetch team"
    case Circuits => "Failed to fetch circuit"
    case Races => "Failed to fetch race"
  }

  /** The state of one slice: the list, the selected record (`null` is
      `None`), the loading flag and the error message (`null` is `None`). */
  datatype State<T> = State(items: seq<T>, selected: Option<T>, loading: bool, error: Option<string>)

  function Initial<T>(): State<T>
  {
    State([], None, false, None)
  }

  /** The lifecycle actions of the two fetches, and the clear action. A
      rejected action carries the failure's message, which may be absent. */
  datatype Action<T> =
    | AllPending
    | AllFulfilled(payload: seq<T>)
    | AllRejected(message: Option<string>)
    | OnePending
    | OneFulfilled(item: T)
    | OneRejected(message: Option<string>)
    | ClearSelected

  /** `message || fallback`: an absent or empty message yields the fallback. */
  function ErrorText(message: Option<string>, fallback: string): (text: string)
    ensures fallback != "" ==> text != ""
    ensures text == fallback || (message.Some? && text == message.value)
    ensures message.Some? && message.value != "" ==> text == message.value
  {
    if message.Some? && message.value != "" then message.value else fallback
  }

  /** While a fetch is in flight no error is shown. */
  predicate Consistent<T>(s: State<T>)
  {
    s.loading ==> s.error == None
  }

  /** An error, when present, is a readable (non-empty) message. */
  predicate Readable<T>(s: State<T>)
  {
    s.error.Some? ==> s.error.value != ""
  }

  /** The case reducers of one slice. */
  function Step<T>(kind: Resource, s: State<T>, a: Action<T>): State<T>
  {
    match a
    case AllPending => s.(loading := true, error := None)
    case AllFulfilled(payload) => s.(loading := false, items := payload)
    case AllRejected(message) => s.(loading := false, error := Some(ErrorText(message, ListFailure(kind))))
    case OnePending => s.(loading := true, error := None)
    case OneFulfilled(item) => s.(loading := false, selected := Some(item))
    case OneRejected(message) => s.(loading := false, error := Some(ErrorText(message, ItemFailure(kind))))
    case ClearSelected => s.(selected := None)
  }

  /** The actions applied one after another, each as one atomic transition. */
  function Run<T>(kind: Resource, s: State<T>, actions: seq<Action<T>>): State<T>
    decreases |actions|
  {
    if actions == [] then s else Run(kind, Step(kind, s, actions[0]), actions[1..])
  }

  /** Every transition other than the clear action establishes consistency
      whatever the state before; every transition keeps both invariants, and
      a rejection always leaves a readable error. */
  lemma StepKeepsInvariants<T>(kind: Resource, s: State<T>, a: Action<T>)
    ensures !a.ClearSelected? ==> Consistent(Step(kind, s, a))
    ensures a.AllRejected? || a.OneRejected? ==> Step(kind, s, a).error.Some? && Readable(Step(kind, s, a))
    ensures Consistent(s) ==> Consistent(Step(kind, s, a))
    ensures Readable(s) ==> Readable(Step(kind, s, a))
  {
  }

  /** Both invariants survive any sequence of actions. */
  lemma {:induction false} RunKeepsInvariants<T>(kind: Resource, s: State<T>, actions: seq<Action<T>>)
    requires Consistent(s) && Readable(s)
    ensures Consistent(Run(kind, s, actions)) && Readable(Run(kind, s, actions))
    decreases |actions|
  {
    if actions != [] {
      StepKeepsInvariants(kind, s, actions[0]);
      RunKeepsInvariants(kind, Step(kind, s, actions[0]), actions[1..]);
    }
  }

  /** In every state reachable from the initial one, `loading` implies no
      error, and an error is never the empty string. */
  lemma ReachableInvariants<T>(kind: Resource, actions: seq<Action<T>>)
    ensures Consistent(Run(kind, Initial(), actions))
    ensures Readable(Run(kind, Initial(), actions))
  {
    RunKeepsInvariants(kind, Initial<T>(), actions);
  }

  /** Without a successful "fetch all" the list keeps its value. */
  lemma {:induction false} ListUntouched<T>(kind: Resource, s: State<T>, actions: seq<Action<T>>)
    requires forall j :: 0 <= j < |actions| ==> !actions[j].AllFulfilled?
    ensures Run(kind, s, actions).items == s.items
    decreases |actions|
  {
    if actions != [] {
      ListUntouched(kind, Step(kind, s, actions[0]), actions[1..]);
    }
  }

  /** The list is exactly the payload of the LAST successful "fetch all",
      whatever came after it and whatever the responses' order: no merge,
      last response wins. */
  lemma {:induction false} ListIsLastPayload<T>(kind: Resource, s: State<T>, actions: seq<Action<T>>, i: nat)
    requires i < |actions| && actions[i].AllFulfilled?
    requires forall j :: i < j < |actions| ==> !actions[j].AllFulfilled?
    ensures Run(kind, s, actions).items == actions[i].payload
    decreases |actions|
  {
    if i == 0 {
      ListUntouched(kind, Step(kind, s, actions[0]), actions[1..]);
    } else {
      ListIsLastPayload(kind, Step(kind, s, actions[0]), actions[1..], i - 1);
    }
  }

  /** Does the action write the selected slot? */
  predicate WritesSelected<T>(a: Action<T>)
  {
    a.OneFulfilled? || a.ClearSelected?
  }

  lemma {:induction false} SelectedUntouched<T>(kind: Resource, s: State<T>, actions: seq<Action<T>>)
    requires forall j :: 0 <= j < |actions| ==> !WritesSelected(actions[j])
    ensures Run(kind, s, actions).selected == s.selected
    decreases |actions|
  {
    if actions != [] {
      SelectedUntouched(kind, Step(kind, s, actions[0]), actions[1..]);
    }
  }

  /** The selected slot is decided by the last "fetch one" success or clear:
      the fetched record, or empty after a clear. */
  lemma {:induction false} SelectedIsLastWrite<T>(kind: Resource, s: State<T>, actions: seq<Action<T>>, i: nat)
    requires i < |actions| && WritesSelected(actions[i])
    requires forall j :: i < j < |actions| ==> !WritesSelected(actions[j])
    ensures Run(kind, s, actions).selected == if actions[i].OneFulfilled? then Some(actions[i].item) else None
    decreases |actions|
  {
    if i == 0 {
      SelectedUntouched(kind, Step(kind, s, actions[0]), actions[1..]);
    } else {
      SelectedIsLastWrite(kind, Step(kind, s, actions[0]), actions[1..], i - 1);
    }
  }

  /** Clearing twice is clearing once. */
  lemma ClearIdempotent<T>(kind: Resource, s: State<T>)
    ensures Step(kind, Step(kind, s, ClearSelected), ClearSelected) == Step(kind, s, ClearSelected)
  {
  }

  /** The default messages of the drivers slice. */
  lemma DriversMessages<T>(s: State<T>)
    ensures Step(Drivers, s, AllRejected(None)).error == Some("Failed to fetch drivers")
    ensures Step(Drivers, s, OneRejected(None)).error == Some("Failed to fetch driver")
    ensures Step(Drivers, s, AllRejected(Some(""))).error == Some("Failed to fetch drivers")
  {
  }

  /** The default messages of the teams slice. */
  lemma TeamsMessages<T>(s: State<T>)
    ensures Step(Teams, s, AllRejected(None)).error == Some("Failed to fetch teams")
    ensures Step(Teams, s, OneRejected(None)).error == Some("Failed to fetch team")
    ensures Step(Teams, s, OneRejected(Some(""))).error == Some("Failed to fetch team")
  {
  }

  /** The default messages of the circuits slice. */
  lemma CircuitsMessages<T>(s: State<T>)
    ensures Step(Circuits, s, AllRejected(None)).error == Some("Failed to fetch circuits")
    ensures Step(Circuits, s, OneRejected(None)).error == Some("Failed to fetch circuit")
    ensures Step(Circuits, s, AllRejected(Some(""))).error == Some("Failed to fetch circuits")
  {
  }

  /** One slice of the store, updated in place by its case reducers. */
  class Store<T> {
    const kind: Resource
    var items: seq<T>
    var selected: Option<T>
    var loading: bool
    var error: Option<string>

    /** The slice's current value, to relate the methods to `Step`. */
    function Snapshot(): State<T>
      reads this
    {
      State(items, selected, loading, error)
    }

    /** The slice invariant, held by every reachable state: while a fetch is
        in flight no error is shown, and an error is never empty. */
    predicate Valid()
      reads this
    {
      Consistent(Snapshot()) && Readable(Snapshot())
    }

    /** The initial state: empty list, nothing selected, idle, no error. */
    constructor (kind: Resource)
      ensures this.kind == kind && Snapshot() == Initial() && Valid()
      ensures items == [] && selected == None && !loading && error == None
    {
      this.kind := kind;
      items, selected, loading, error := [], None, false, None;
    }

    method FetchAllPending()
      requires Valid()
      modifies this
      ensures Valid()
      ensures Snapshot() == Step(kind, old(Snapshot()), AllPending)
      ensures loading && error == None
      ensures items == old(items) && selected == old(selected)
    {
      loading := true;
      error := None;
    }

    method FetchAllFulfilled(payload: seq<T>)
      requires Valid()
      modifies this
      ensures Valid()
      ensures Snapshot() == Step(kind, old(Snapshot()), AllFulfilled(payload))
      ensures !loading && items == payload
      ensures selected == old(selected) && error == old(error)
    {
      loading := false;
      items := payload;
    }

    method FetchAllRejected(message: Option<string>)
      requires Valid()
      modifies this
      ensures Valid()
      ensures Snapshot() == Step(kind, old(Snapshot()), AllRejected(message))
      ensures !loading && error.Some? && error.value != ""
      ensures error == Some(if message.Some? && message.value != "" then message.value else ListFailure(kind))
      ensures items == old(items) && selected == old(selected)
    {
      loading := false;
      error := Some(ErrorText(message, ListFailure(kind)));
    }

    method FetchOnePending()
      requires Valid()
      modifies this
      ensures Valid()
      ensures Snapshot() == Step(kind, old(Snapshot()), OnePending)
      ensures loading && error == None
      ensures items == old(items) && selected == old(selected)
    {
      loading := true;
      error := None;
    }

    method FetchOneFulfilled(item: T)
      requires Valid()
      modifies this
      ensures Valid()
      ensures Snapshot() == Step(kind, old(Snapshot()), OneFulfilled(item))
      ensures !loading && selected == Some(item)
      ensures items == old(items) && error == old(error)
    {
      loading := false;
      selected := Some(item);
    }

    method FetchOneRejected(message: Option<string>)
      requires Valid()
      modifies this
      ensures Valid()
      ensures Snapshot() == Step(kind, old(Snapshot()), OneRejected(message))
      ensures !loading && error.Some? && error.value != ""
      ensures error == Some(if message.Some? && message.value != "" then message.value else ItemFailure(kind))
      ensures items == old(items) && selected == old(selected)
    {
      loading := false;
      error := Some(ErrorText(message, ItemFailure(kind)));
    }

    method ClearSelection()
      requires Valid()
      modifies this
      ensures Valid()
      ensures Snapshot() == Step(kind, old(Snapshot()), ClearSelected)
      ensures selected == None
      ensures items == old(items) && loading == old(loading) && error == old(error)
    {
      selected := None;
    }
  }

  /** What a caller of the store can rely on from the contracts alone: the
      invariant holds after every dispatched action. */
  method Scenario<T>(kind: Resource, payload: seq<T>, item: T)
  {
    var store := new Store<T>(kind);
    store.FetchAllPending();
    assert Consistent(store.Snapshot());
    store.FetchAllRejected(None);
    assert store.error == Some(ListFailure(kind)) && store.items == [];
    store.FetchAllPending();
    assert store.error == None;
    store.FetchAllFulfilled(payload);
    store.FetchOneFulfilled(item);
    store.ClearSelection();
    assert store.Snapshot() == State(payload, None, false, None);
  }
}
