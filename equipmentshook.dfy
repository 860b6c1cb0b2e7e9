/** The equipment-list hook: the fetched equipments, a loading flag and the last fetch error. */
module EquipmentsHook {
  import opened Wrappers
  import opened Types

  const FetchFailed: string := "Failed to fetch equipments"

  class EquipmentsState {
    var equipments: seq<Equipment>
    var loading: bool
    var error: Option<string>

    /** A fetch in flight has no error to show. */
    ghost predicate Valid()
      reads this
    {
      loading ==> error.None?
    }

    /** The hook's first render: no equipments, loading, no error. */
    constructor ()
      ensures equipments == [] && loading && error.None?
      ensures Valid()
    {
      equipments := [];
      loading := true;
      error := None;
    }

    /** The start of `fetchEquipments`: loading, and the previous error cleared. */
    method BeginFetch()
      modifies this
      ensures loading && error.None? && equipments == old(equipments)
      ensures Valid()
    {
      loading := true;
      error := None;
    }

    /** The fetch settles: the data replaces the list, or the error is recorded and the list kept. */
    method FinishFetch(outcome: Result<seq<Equipment>, Thrown>)
      requires Valid()
      modifies this
      ensures !loading && Valid()
      ensures outcome.Ok? ==> equipments == outcome.value && error == old(error)
      ensures outcome.Err? ==> equipments == old(equipments) && error == Some(outcome.error.MessageOr(FetchFailed))
    {
      if outcome.Ok? {
        equipments := outcome.value;
      } else {
        error := Some(outcome.error.MessageOr(FetchFailed));
      }
      loading := false;
    }

    /** One whole `fetchEquipments` (also `refetch`). */
    method Fetch(outcome: Result<seq<Equipment>, Thrown>)
      modifies this
      ensures !loading && Valid()
      ensures outcome.Ok? ==> equipments == outcome.value && error.None?
      ensures outcome.Err? ==> equipments == old(equipments) && error == Some(outcome.error.MessageOr(FetchFailed))
    {
      BeginFetch();
      FinishFetch(outcome);
    }
  }
}
