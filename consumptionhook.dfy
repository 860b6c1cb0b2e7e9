/**
 * The consumption-history hook: the records fetched with the hook's filter,
 * a loading flag and the last fetch error.
 */
module ConsumptionHook {
  import opened Wrappers
  import opened Types
  import ApiResources

  const FetchFailed: string := "Failed to fetch consumption"

  class ConsumptionState {
    const filter: Option<ConsumptionFilter>
    var consumption: seq<EquipmentConsumption>
    var loading: bool
    var error: Option<string>

    /** A fetch in flight has no error to show. */
    ghost predicate Valid()
      reads this
    {
      loading ==> error.None?
    }

    /** The hook's first render for a filter: no records, loading, no error. */
    constructor (filter: Option<ConsumptionFilter>)
      ensures this.filter == filter && consumption == [] && loading && error.None?
      ensures Valid()
    {
      this.filter := filter;
      consumption := [];
      loading := true;
      error := None;
    }

    /** The start of `fetchConsumption`: loading, error cleared, and the history requested with the filter as given. */
    method BeginFetch() returns (call: ApiResources.ListCall)
      modifies this
      ensures call == ApiResources.ConsumptionHistory(filter)
      ensures call.Endpoint() == ApiResources.WithQuery("/consumption", ApiResources.ConsumptionParams(filter))
      ensures loading && error.None? && consumption == old(consumption)
      ensures Valid()
    {
      loading := true;
      error := None;
      call := ApiResources.ConsumptionHistory(filter);
    }

    /** The fetch settles: the data replaces the list, or the error is recorded and the list kept. */
    method FinishFetch(outcome: Result<seq<EquipmentConsumption>, Thrown>)
      requires Valid()
      modifies this
      ensures !loading && Valid()
      ensures outcome.Ok? ==> consumption == outcome.value && error == old(error)
      ensures outcome.Err? ==> consumption == old(consumption) && error == Some(outcome.error.MessageOr(FetchFailed))
    {
      if outcome.Ok? {
        consumption := outcome.value;
      } else {
        error := Some(outcome.error.MessageOr(FetchFailed));
      }
      loading := false;
    }

    /** One whole `fetchConsumption` (also `refetch`), returning the request it made. */
    method Fetch(outcome: Result<seq<EquipmentConsumption>, Thrown>) returns (call: ApiResources.ListCall)
      modifies this
      ensures call == ApiResources.ConsumptionHistory(filter)
      ensures !loading && Valid()
      ensures outcome.Ok? ==> consumption == outcome.value && error.None?
      ensures outcome.Err? ==> consumption == old(consumption) && error == Some(outcome.error.MessageOr(FetchFailed))
    {
      call := BeginFetch();
      FinishFetch(outcome);
    }
  }
}
