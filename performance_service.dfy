/**
 * The performance-record store: an array of performance records held in a
 * field and changed in place by `create` (push), `update` (index assignment)
 * and `delete` (splice). Both writes stamp `lastUpdated` with the `now`
 * parameter; the simulated network delay is not modelled.
 */
module PerformanceStore {
  import opened Text
  import opened Records
  import Seqs

  const NotFound := "Performance record not found"

  class PerformanceService {
    var performance: seq<Record>

    ghost predicate Valid()
      reads this
    {
      WellKeyed(performance)
    }

    constructor (fixture: seq<Record>)
      requires WellKeyed(fixture)
      ensures Valid() && performance == fixture
    {
      performance := fixture;
    }

    /** A copy of every performance record, in table order. */
    method GetAll() returns (all: seq<Record>)
      ensures all == performance
    {
      all := performance;
    }

    /** The first performance record whose Id is `id`, or the "not found" error. */
    method GetById(id: int) returns (r: Result<Record>)
      ensures r.Ok? <==> exists k :: 0 <= k < |performance| && HasId(performance[k], id)
      ensures r.Ok? ==> r.value in performance && HasId(r.value, id)
      ensures r.Err? ==> r.message == NotFound
    {
      match FindIndex(performance, id)
      case None =>
        r := Err(NotFound);
      case Some(i) =>
        r := Ok(performance[i]);
    }

    /**
     * Appends `{ Id: max Id + 1, ...data, lastUpdated: now }`: the store always
     * sets `lastUpdated` itself, whatever the payload carries.
     */
    method Create(data: Record, now: string) returns (created: Record)
      requires Valid() && "Id" !in data
      modifies this
      ensures Valid()
      ensures performance == old(performance) + [created]
      ensures created == Created(NextId(old(performance)), data, map["lastUpdated" := Text(now)])
      ensures "lastUpdated" in created && created["lastUpdated"] == Text(now)
      ensures created["Id"].Num? ==> forall k :: 0 <= k < |old(performance)| ==> !HasId(old(performance)[k], created["Id"].n)
    {
      var stamp := map["lastUpdated" := Text(now)];
      CreatedKeepsWellKeyed(performance, data, stamp);
      created := Created(NextId(performance), data, stamp);
      performance := performance + [created];
    }

    /** The records of one athlete, in table order, each as often as the table holds it. */
    method GetByAthleteId(athleteId: int) returns (found: seq<Record>)
      ensures forall x :: x in found <==> x in performance && OfAthlete(x, athleteId)
      ensures Seqs.IsSubsequence(found, performance)
      ensures forall x :: multiset(found)[x] == if OfAthlete(x, athleteId) then multiset(performance)[x] else 0
    {
      var ofAthlete := x => OfAthlete(x, athleteId);
      found := Seqs.Filter(performance, ofAthlete);
      Seqs.FilterIsSubsequence(performance, ofAthlete);
      forall x
        ensures multiset(found)[x] == if OfAthlete(x, athleteId) then multiset(performance)[x] else 0
      {
        Seqs.FilterMultiset(performance, ofAthlete, x);
      }
    }

    /** Overlays `data` on the performance record with Id `id` and re-stamps `lastUpdated`; every other performance record stays as it was. */
    method Update(id: int, data: Record, now: string) returns (r: Result<Record>)
      requires Valid() && "Id" !in data
      modifies this
      ensures Valid()
      ensures old(FindIndex(performance, id)).None? ==> performance == old(performance) && r == Err(NotFound)
      ensures old(FindIndex(performance, id)).Some? ==>
        var i := old(FindIndex(performance, id)).value;
        && performance == old(performance)[i := Merged(old(performance)[i], data, map["lastUpdated" := Text(now)])]
        && r == Ok(performance[i])
    {
      match FindIndex(performance, id)
      case None =>
        r := Err(NotFound);
      case Some(i) =>
        var stamp := map["lastUpdated" := Text(now)];
        MergedKeepsWellKeyed(performance, i, data, stamp);
        performance := performance[i := Merged(performance[i], data, stamp)];
        r := Ok(performance[i]);
    }

    /** Splices out the performance record with Id `id`, keeping the others in order. */
    method Delete(id: int) returns (r: Result<bool>)
      requires Valid()
      modifies this
      ensures Valid()
      ensures old(FindIndex(performance, id)).None? ==> performance == old(performance) && r == Err(NotFound)
      ensures old(FindIndex(performance, id)).Some? ==>
        performance == RemoveAt(old(performance), old(FindIndex(performance, id)).value) && r == Ok(true)
    {
      match FindIndex(performance, id)
      case None =>
        r := Err(NotFound);
      case Some(i) =>
        RemoveAtKeepsWellKeyed(performance, i);
        performance := RemoveAt(performance, i);
        r := Ok(true);
    }
  }
}
