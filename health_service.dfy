/**
 * The health-record store: an array of health records held in a field and
 * changed in place by `create` (push), `update` (index assignment) and
 * `delete` (splice). Both writes stamp `lastUpdated` with the `now` parameter;
 * the simulated network delay is not modelled.
 */
module HealthStore {
  import opened Text
  import opened Records
  import Seqs

  const NotFound := "Health record not found"

  class HealthService {
    var healthRecords: seq<Record>

    ghost predicate Valid()
      reads this
    {
      WellKeyed(healthRecords)
    }

    constructor (fixture: seq<Record>)
      requires WellKeyed(fixture)
      ensures Valid() && healthRecords == fixture
    {
      healthRecords := fixture;
    }

    /** A copy of every health record, in table order. */
    method GetAll() returns (all: seq<Record>)
      ensures all == healthRecords
    {
      all := healthRecords;
    }

    /** The first health record whose Id is `id`, or the "not found" error. */
    method GetById(id: int) returns (r: Result<Record>)
      ensures r.Ok? <==> exists k :: 0 <= k < |healthRecords| && HasId(healthRecords[k], id)
      ensures r.Ok? ==> r.value in healthRecords && HasId(r.value, id)
      ensures r.Err? ==> r.message == NotFound
    {
      match FindIndex(healthRecords, id)
      case None =>
        r := Err(NotFound);
      case Some(i) =>
        r := Ok(healthRecords[i]);
    }

    /**
     * Appends `{ Id: max Id + 1, ...data, lastUpdated: now }`: the store always
     * sets `lastUpdated` itself, whatever the payload carries.
     */
    method Create(data: Record, now: string) returns (created: Record)
      requires Valid() && "Id" !in data
      modifies this
      ensures Valid()
      ensures healthRecords == old(healthRecords) + [created]
      ensures created == Created(NextId(old(healthRecords)), data, map["lastUpdated" := Text(now)])
      ensures "lastUpdated" in created && created["lastUpdated"] == Text(now)
      ensures created["Id"].Num? ==> forall k :: 0 <= k < |old(healthRecords)| ==> !HasId(old(healthRecords)[k], created["Id"].n)
    {
      var stamp := map["lastUpdated" := Text(now)];
      CreatedKeepsWellKeyed(healthRecords, data, stamp);
      created := Created(NextId(healthRecords), data, stamp);
      healthRecords := healthRecords + [created];
    }

    /** The records of one athlete, in table order, each as often as the table holds it. */
    method GetByAthleteId(athleteId: int) returns (found: seq<Record>)
      ensures forall x :: x in found <==> x in healthRecords && OfAthlete(x, athleteId)
      ensures Seqs.IsSubsequence(found, healthRecords)
      ensures forall x :: multiset(found)[x] == if OfAthlete(x, athleteId) then multiset(healthRecords)[x] else 0
    {
      var ofAthlete := x => OfAthlete(x, athleteId);
      found := Seqs.Filter(healthRecords, ofAthlete);
      Seqs.FilterIsSubsequence(healthRecords, ofAthlete);
      forall x
        ensures multiset(found)[x] == if OfAthlete(x, athleteId) then multiset(healthRecords)[x] else 0
      {
        Seqs.FilterMultiset(healthRecords, ofAthlete, x);
      }
    }

    /** Overlays `data` on the health record with Id `id` and re-stamps `lastUpdated`; every other health record stays as it was. */
    method Update(id: int, data: Record, now: string) returns (r: Result<Record>)
      requires Valid() && "Id" !in data
      modifies this
      ensures Valid()
      ensures old(FindIndex(healthRecords, id)).None? ==> healthRecords == old(healthRecords) && r == Err(NotFound)
      ensures old(FindIndex(healthRecords, id)).Some? ==>
        var i := old(FindIndex(healthRecords, id)).value;
        && healthRecords == old(healthRecords)[i := Merged(old(healthRecords)[i], data, map["lastUpdated" := Text(now)])]
        && r == Ok(healthRecords[i])
    {
      match FindIndex(healthRecords, id)
      case None =>
        r := Err(NotFound);
      case Some(i) =>
        var stamp := map["lastUpdated" := Text(now)];
        MergedKeepsWellKeyed(healthRecords, i, data, stamp);
        healthRecords := healthRecords[i := Merged(healthRecords[i], data, stamp)];
        r := Ok(healthRecords[i]);
    }

    /** Splices out the health record with Id `id`, keeping the others in order. */
    method Delete(id: int) returns (r: Result<bool>)
      requires Valid()
      modifies this
      ensures Valid()
      ensures old(FindIndex(healthRecords, id)).None? ==> healthRecords == old(healthRecords) && r == Err(NotFound)
      ensures old(FindIndex(healthRecords, id)).Some? ==>
        healthRecords == RemoveAt(old(healthRecords), old(FindIndex(healthRecords, id)).value) && r == Ok(true)
    {
      match FindIndex(healthRecords, id)
      case None =>
        r := Err(NotFound);
      case Some(i) =>
        RemoveAtKeepsWellKeyed(healthRecords, i);
        healthRecords := RemoveAt(healthRecords, i);
        r := Ok(true);
    }
  }
}
