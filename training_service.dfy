/**
 * The training-session store: an array of sessions held in a field and
 * changed in place by `create` (push), `update` (index assignment) and
 * `delete` (splice). Unlike the other stores it stamps no date; the simulated
 * network delay is not modelled.
 */
module TrainingStore {
  import opened Text
  import opened Records

  const NotFound := "Training session not found"

  class TrainingService {
    var trainingSessions: seq<Record>

    ghost predicate Valid()
      reads this
    {
      WellKeyed(trainingSessions)
    }

    constructor (fixture: seq<Record>)
      requires WellKeyed(fixture)
      ensures Valid() && trainingSessions == fixture
    {
      trainingSessions := fixture;
    }

    /** A copy of every session, in table order. */
    method GetAll() returns (all: seq<Record>)
      ensures all == trainingSessions
    {
      all := trainingSessions;
    }

    /** The first session whose Id is `id`, or the "not found" error. */
    method GetById(id: int) returns (r: Result<Record>)
      ensures r.Ok? <==> exists k :: 0 <= k < |trainingSessions| && HasId(trainingSessions[k], id)
      ensures r.Ok? ==> r.value in trainingSessions && HasId(r.value, id)
      ensures r.Err? ==> r.message == NotFound
    {
      match FindIndex(trainingSessions, id)
      case None =>
        r := Err(NotFound);
      case Some(i) =>
        r := Ok(trainingSessions[i]);
    }

    /** Appends `{ Id: max Id + 1, ...data }`: the payload plus the assigned Id, nothing else. */
    method Create(data: Record) returns (created: Record)
      requires Valid() && "Id" !in data
      modifies this
      ensures Valid()
      ensures trainingSessions == old(trainingSessions) + [created]
      ensures created == Created(NextId(old(trainingSessions)), data, map[])
      ensures created.Keys == {"Id"} + data.Keys
      ensures created["Id"].Num? ==> forall k :: 0 <= k < |old(trainingSessions)| ==> !HasId(old(trainingSessions)[k], created["Id"].n)
    {
      var stamp: Record := map[];
      CreatedKeepsWellKeyed(trainingSessions, data, stamp);
      created := Created(NextId(trainingSessions), data, stamp);
      trainingSessions := trainingSessions + [created];
    }

    /** Overlays `data` on the session with Id `id`; every other session stays as it was. */
    method Update(id: int, data: Record) returns (r: Result<Record>)
      requires Valid() && "Id" !in data
      modifies this
      ensures Valid()
      ensures old(FindIndex(trainingSessions, id)).None? ==> trainingSessions == old(trainingSessions) && r == Err(NotFound)
      ensures old(FindIndex(trainingSessions, id)).Some? ==>
        var i := old(FindIndex(trainingSessions, id)).value;
        && trainingSessions == old(trainingSessions)[i := Merged(old(trainingSessions)[i], data, map[])]
        && r == Ok(trainingSessions[i])
    {
      match FindIndex(trainingSessions, id)
      case None =>
        r := Err(NotFound);
      case Some(i) =>
        MergedKeepsWellKeyed(trainingSessions, i, data, map[]);
        trainingSessions := trainingSessions[i := Merged(trainingSessions[i], data, map[])];
        r := Ok(trainingSessions[i]);
    }

    /** Splices out the session with Id `id`, keeping the others in order. */
    method Delete(id: int) returns (r: Result<bool>)
      requires Valid()
      modifies this
      ensures Valid()
      ensures old(FindIndex(trainingSessions, id)).None? ==> trainingSessions == old(trainingSessions) && r == Err(NotFound)
      ensures old(FindIndex(trainingSessions, id)).Some? ==>
        trainingSessions == RemoveAt(old(trainingSessions), old(FindIndex(trainingSessions, id)).value) && r == Ok(true)
    {
      match FindIndex(trainingSessions, id)
      case None =>
        r := Err(NotFound);
      case Some(i) =>
        RemoveAtKeepsWellKeyed(trainingSessions, i);
        trainingSessions := RemoveAt(trainingSessions, i);
        r := Ok(true);
    }
  }
}
