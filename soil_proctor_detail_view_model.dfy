/**
 * The detail side of the materials testing lab
 * (`SoilProctorDetailViewModel.kt`): the displayed record, a loading flag
 * and an error message, driven by a lookup of the sample records by id.
 */
module SoilProctorDetail {
  import opened Wrappers
  import opened SoilProctorModel

  /** The message shown when no record has the requested id. */
  function NotFoundMessage(proctorId: string): string {
    "Proctor not found with ID: " + proctorId
  }

  /**
   * `list.find { it.id == proctorId }`: the first record with that id, or
   * nothing when no record has it.
   */
  function FindById(proctors: seq<SoilProctor>, proctorId: string): (r: Option<SoilProctor>)
    ensures r.None? <==> forall i :: 0 <= i < |proctors| ==> proctors[i].id != proctorId
    ensures r.Some? ==> exists i :: 0 <= i < |proctors| && proctors[i] == r.value
                          && forall j :: 0 <= j < i ==> proctors[j].id != proctorId
    ensures r.Some? ==> r.value.id == proctorId
  {
    if proctors == [] then None
    else if proctors[0].id == proctorId then Some(proctors[0])
    else FindById(proctors[1..], proctorId)
  }

  /** The observable state of the view-model. */
  datatype DetailState = DetailState(proctor: Option<SoilProctor>, isLoading: bool, errorMessage: Option<string>)

  const InitialState := DetailState(None, false, None)

  /**
   * The state `loadProctor(proctorId)` leaves behind, from state `s`: the
   * loading flag is down; either the record with the requested id is shown
   * and there is no error, or the previous record is kept and the not-found
   * message is set.
   */
  function AfterLoad(s: DetailState, proctorId: string): (r: DetailState)
    ensures !r.isLoading
    ensures (exists p :: p in SampleData && p.id == proctorId) ==>
      && r.proctor.Some?
      && r.proctor.value in SampleData
      && r.proctor.value.id == proctorId
      && r.errorMessage == None
    ensures (forall p :: p in SampleData ==> p.id != proctorId) ==>
      && r.proctor == s.proctor
      && r.errorMessage == Some(NotFoundMessage(proctorId))
  {
    match FindById(SampleData, proctorId)
    case Some(p) => DetailState(Some(p), false, None)
    case None => DetailState(s.proctor, false, Some(NotFoundMessage(proctorId)))
  }

  /** The state `clearProctor()` leaves behind, from state `s`: no record, no error, the flag as it was. */
  function AfterClear(s: DetailState): (r: DetailState)
    ensures r.proctor == None && r.errorMessage == None && r.isLoading == s.isLoading
  {
    DetailState(None, s.isLoading, None)
  }

  /** Sample ids are distinct, so the record a load shows is the one with that id. */
  lemma LoadFindsTheRecord(s: DetailState, i: nat)
    requires i < |SampleData|
    ensures AfterLoad(s, SampleData[i].id) == DetailState(Some(SampleData[i]), false, None)
  {
    SampleIdsDistinct();
    var found := FindById(SampleData, SampleData[i].id);
    assert found.Some?;
    var j :| 0 <= j < |SampleData| && SampleData[j] == found.value
             && forall k :: 0 <= k < j ==> SampleData[k].id != SampleData[i].id;
    assert j == i;
  }

  /** Loading the same id twice leaves the same state as loading it once. */
  lemma LoadIdempotent(s: DetailState, proctorId: string)
    ensures AfterLoad(AfterLoad(s, proctorId), proctorId) == AfterLoad(s, proctorId)
  {
  }

  /** A loaded record always carries the id that was asked for. */
  lemma LoadedRecordHasRequestedId(s: DetailState, proctorId: string)
    requires AfterLoad(s, proctorId).errorMessage == None
    ensures AfterLoad(s, proctorId).proctor.Some? && AfterLoad(s, proctorId).proctor.value.id == proctorId
  {
  }

  /** The view-model: three observable fields, written by `loadProctor` and `clearProctor`. */
  class DetailViewModel {
    var proctor: Option<SoilProctor>
    var isLoading: bool
    var errorMessage: Option<string>

    function State(): DetailState
      reads this
    {
      DetailState(proctor, isLoading, errorMessage)
    }

    constructor ()
      ensures State() == InitialState
    {
      proctor := None;
      isLoading := false;
      errorMessage := None;
    }

    /** Raises the loading flag, clears the error, looks the id up, and lowers the flag. */
    method LoadProctor(proctorId: string)
      modifies this
      ensures State() == AfterLoad(old(State()), proctorId)
      ensures !isLoading
      ensures FindById(SampleData, proctorId).Some? ==>
                proctor == FindById(SampleData, proctorId) && errorMessage == None
      ensures FindById(SampleData, proctorId).None? ==>
                proctor == old(proctor) && errorMessage == Some(NotFoundMessage(proctorId))
    {
      isLoading := true;
      errorMessage := None;
      var foundProctor := FindById(SampleData, proctorId);
      if foundProctor.Some? {
        proctor := foundProctor;
      } else {
        errorMessage := Some(NotFoundMessage(proctorId));
      }
      isLoading := false;
    }

    method ClearProctor()
      modifies this
      ensures State() == AfterClear(old(State()))
      ensures proctor == None && errorMessage == None && isLoading == old(isLoading)
    {
      proctor := None;
      errorMessage := None;
    }
  }
}
