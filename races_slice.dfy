/** The races slice: the generic store over races, plus a third fetch kind,
    "fetch race results", whose success patches the `results` of the
    selected race in place and leaves everything else alone. */
module RacesSlice {
  import opened Optional
  import opened Entities
  import RS = ResourceStore

  /** Default message of a failed results fetch. */
  const ResultsFailure: string := "Failed to fetch race results"

  /** The actions of the races slice: the common ones, and the lifecycle of
      the results fetch. */
  datatype RaceAction =
    | Common(action: RS.Action<Race>)
    | ResultsPending
    | ResultsFulfilled(results: seq<RaceDriver>)
    | ResultsRejected(message: Option<string>)

  /** The case reducers of the races slice. */
  function RaceStep(s: RS.State<Race>, a: RaceAction): RS.State<Race>
  {
    match a
    case Common(b) => RS.Step(Races, s, b)
    case ResultsPending => s.(loading := true, error := None)
    case ResultsFulfilled(results) =>
      if s.selected.Some? then s.(loading := false, selected := Some(s.selected.value.(results := results)))
      else s.(loading := false)
    case ResultsRejected(message) => s.(loading := false, error := Some(RS.ErrorText(message, ResultsFailure)))
  }

  function RaceRun(s: RS.State<Race>, actions: seq<RaceAction>): RS.State<Race>
    decreases |actions|
  {
    if actions == [] then s else RaceRun(RaceStep(s, actions[0]), actions[1..])
  }

  /** A successful results fetch replaces exactly the selected race's results:
      every other field of that race, the list and the error stay; with
      nothing selected only the loading flag changes. */
  lemma ResultsPatchOnly(s: RS.State<Race>, results: seq<RaceDriver>)
    ensures RaceStep(s, ResultsFulfilled(results)).items == s.items
    ensures RaceStep(s, ResultsFulfilled(results)).error == s.error
    ensures !RaceStep(s, ResultsFulfilled(results)).loading
    ensures s.selected.None? ==> RaceStep(s, ResultsFulfilled(results)) == s.(loading := false)
    ensures s.selected.Some? ==>
      var r := RaceStep(s, ResultsFulfilled(results)).selected;
      && r.Some?
      && r.value.results == results
      && r.value.(results := s.selected.value.results) == s.selected.value
  {
  }

  /** The races slice keeps the same two invariants as every slice. */
  lemma RaceStepKeepsInvariants(s: RS.State<Race>, a: RaceAction)
    ensures !(a.Common? && a.action.ClearSelected?) ==> RS.Consistent(RaceStep(s, a))
    ensures RS.Consistent(s) ==> RS.Consistent(RaceStep(s, a))
    ensures RS.Readable(s) ==> RS.Readable(RaceStep(s, a))
  {
    if a.Common? {
      RS.StepKeepsInvariants(Races, s, a.action);
    }
  }

  /** Over any sequence of races actions from the initial state, `loading`
      implies no error and an error is never empty. */
  lemma {:induction false} RaceRunKeepsInvariants(s: RS.State<Race>, actions: seq<RaceAction>)
    requires RS.Consistent(s) && RS.Readable(s)
    ensures RS.Consistent(RaceRun(s, actions)) && RS.Readable(RaceRun(s, actions))
    decreases |actions|
  {
    if actions != [] {
      RaceStepKeepsInvariants(s, actions[0]);
      RaceRunKeepsInvariants(RaceStep(s, actions[0]), actions[1..]);
    }
  }

  lemma RaceReachableInvariants(actions: seq<RaceAction>)
    ensures RS.Consistent(RaceRun(RS.Initial(), actions))
    ensures RS.Readable(RaceRun(RS.Initial(), actions))
  {
    RaceRunKeepsInvariants(RS.Initial(), actions);
  }

  /** The default messages of the races slice. */
  lemma RacesMessages(s: RS.State<Race>)
    ensures RaceStep(s, Common(RS.AllRejected(None))).error == Some("Failed to fetch races")
    ensures RaceStep(s, Common(RS.OneRejected(None))).error == Some("Failed to fetch race")
    ensures RaceStep(s, ResultsRejected(None)).error == Some("Failed to fetch race results")
    ensures RaceStep(s, ResultsRejected(Some(""))).error == Some("Failed to fetch race results")
  {
  }

  /** `fetchRaceResults.pending` on the races store. */
  method FetchResultsPending(store: RS.Store<Race>)
    requires store.kind == Races && store.Valid()
    modifies store
    ensures store.Valid()
    ensures store.Snapshot() == RaceStep(old(store.Snapshot()), ResultsPending)
    ensures store.loading && store.error == None
    ensures store.items == old(store.items) && store.selected == old(store.selected)
  {
    store.loading := true;
    store.error := None;
  }

  /** `fetchRaceResults.fulfilled`: the nested field update guarded by the
      null check on the selected race. */
  method FetchResultsFulfilled(store: RS.Store<Race>, results: seq<RaceDriver>)
    requires store.kind == Races && store.Valid()
    modifies store
    ensures store.Valid()
    ensures store.Snapshot() == RaceStep(old(store.Snapshot()), ResultsFulfilled(results))
    ensures !store.loading && store.items == old(store.items) && store.error == old(store.error)
    ensures old(store.selected).None? ==> store.selected == None
    ensures old(store.selected).Some? ==> store.selected == Some(old(store.selected).value.(results := results))
  {
    store.loading := false;
    if store.selected.Some? {
      store.selected := Some(store.selected.value.(results := results));
    }
  }

  /** `fetchRaceResults.rejected` on the races store. */
  method FetchResultsRejected(store: RS.Store<Race>, message: Option<string>)
    requires store.kind == Races && store.Valid()
    modifies store
    ensures store.Valid()
    ensures store.Snapshot() == RaceStep(old(store.Snapshot()), ResultsRejected(message))
    ensures !store.loading && store.error.Some? && store.error.value != ""
    ensures store.error == Some(if message.Some? && message.value != "" then message.value else ResultsFailure)
    ensures store.items == old(store.items) && store.selected == old(store.selected)
  {
    store.loading := false;
    store.error := Some(RS.ErrorText(message, ResultsFailure));
  }
}
