/** The loop that runs the actions of one batch request. */
module CommandBatch {

  /** How one action ends. */
  datatype Outcome = Ok(result: string) | Err(error: string)

  datatype Entry = Completed(index: nat, result: string) | Failed(index: nat, error: string)

  datatype Reply = AllDone(results: seq<Entry>) | CutShort(error: string, results: seq<Entry>) | OutcomeUnknown

  /** The entry of an action: its place in the batch and how it ended. */
  predicate Reports(entry: Entry, index: nat, outcome: Outcome) {
    match outcome
    case Ok(result) => entry == Completed(index, result)
    case Err(error) => entry == Failed(index, error)
  }

  /** One entry for each of the first actions, in their order. */
  ghost predicate ReportsFirst(results: seq<Entry>, outcomes: seq<Outcome>, n: nat) {
    |results| == n <= |outcomes| && forall i :: 0 <= i < n ==> Reports(results[i], i, outcomes[i])
  }

  /** Action `i` is reached: nothing before it stopped the batch, and it is not cancelled. */
  predicate Runs(outcomes: seq<Outcome>, cancelled: seq<bool>, stopAsked: bool, readOnly: bool, i: nat)
    requires i < |outcomes| == |cancelled|
  {
    forall j :: 0 <= j <= i ==> !cancelled[j] && (j < i && (stopAsked || !readOnly) ==> outcomes[j].Ok?)
  }

  /** `outcomes[i]` is what action `i` would yield and `cancelled[i]` what the check before it
      sees. A batch stops on errors if it is told to, or if it does more than read. The actions
      executed are exactly those that are reached, in order; each has one entry; the reply says
      which of the three ends it was. */
  method RunBatch(outcomes: seq<Outcome>, cancelled: seq<bool>, stopAsked: bool, readOnly: bool)
    returns (reply: Reply, executed: nat)
    requires |outcomes| == |cancelled|
    ensures executed <= |outcomes|
    ensures forall i: nat :: i < |outcomes| ==> (i < executed <==> Runs(outcomes, cancelled, stopAsked, readOnly, i))
    ensures reply.AllDone? <==>
              executed == |outcomes| && (stopAsked || !readOnly ==> forall o :: o in outcomes ==> o.Ok?)
    ensures reply.CutShort? <==> (stopAsked || !readOnly) && executed > 0 && outcomes[executed - 1].Err?
    ensures reply.CutShort? ==> reply.error == outcomes[executed - 1].error
    ensures !reply.OutcomeUnknown? ==> ReportsFirst(reply.results, outcomes, executed)
  {
    var stopOnError := stopAsked || !readOnly;
    var results := [];
    executed := 0;
    while executed < |outcomes|
      invariant executed <= |outcomes| && ReportsFirst(results, outcomes, executed)
      invariant forall j :: 0 <= j < executed ==> !cancelled[j] && (stopOnError ==> outcomes[j].Ok?)
    {
      if cancelled[executed] { return OutcomeUnknown, executed; }
      var response := outcomes[executed];
      var entry := match response
        case Ok(result) => Completed(executed, result)
        case Err(error) => Failed(executed, error);
      results := results + [entry];
      executed := executed + 1;
      if response.Err? && stopOnError { return CutShort(response.error, results), executed; }
    }
    return AllDone(results), executed;
  }
}
