/**
 * The athlete store: an array of athlete objects held in a field and changed
 * in place by `create` (push), `update` (index assignment) and `delete`
 * (splice). The simulated network delay is not modelled; `new Date()` is the
 * `now` parameter; the id argument is the already-parsed number.
 */
module AthleteStore {
  import opened Text
  import opened Records

  const NotFound := "Athlete not found"

  class AthleteService {
    var athletes: seq<Record>

    ghost predicate Valid()
      reads this
    {
      WellKeyed(athletes)
    }

    constructor (fixture: seq<Record>)
      requires WellKeyed(fixture)
      ensures Valid() && athletes == fixture
    {
      athletes := fixture;
    }

    /** A copy of every athlete, in table order. */
    method GetAll() returns (all: seq<Record>)
      ensures all == athletes
    {
      all := athletes;
    }

    /** The first athlete whose Id is `id`, or the "not found" error. */
    method GetById(id: int) returns (r: Result<Record>)
      ensures r.Ok? <==> exists k :: 0 <= k < |athletes| && HasId(athletes[k], id)
      ensures r.Ok? ==> r.value in athletes && HasId(r.value, id)
      ensures r.Err? ==> r.message == NotFound
    {
      match FindIndex(athletes, id)
      case None =>
        r := Err(NotFound);
      case Some(i) =>
        r := Ok(athletes[i]);
    }

    /**
     * Appends `{ Id: max Id + 1, ...data, joinDate: now }`: the store always
     * sets `joinDate` itself, whatever the payload carries.
     */
    method Create(data: Record, now: string) returns (created: Record)
      requires Valid() && "Id" !in data
      modifies this
      ensures Valid()
      ensures athletes == old(athletes) + [created]
      ensures created == Created(NextId(old(athletes)), data, map["joinDate" := Text(now)])
      ensures "joinDate" in created && created["joinDate"] == Text(now)
      ensures created["Id"].Num? ==> forall k :: 0 <= k < |old(athletes)| ==> !HasId(old(athletes)[k], created["Id"].n)
    {
      var stamp := map["joinDate" := Text(now)];
      CreatedKeepsWellKeyed(athletes, data, stamp);
      created := Created(NextId(athletes), data, stamp);
      athletes := athletes + [created];
    }

    /** Overlays `data` on the athlete with Id `id`; every other athlete stays as it was. */
    method Update(id: int, data: Record) returns (r: Result<Record>)
      requires Valid() && "Id" !in data
      modifies this
      ensures Valid()
      ensures old(FindIndex(athletes, id)).None? ==> athletes == old(athletes) && r == Err(NotFound)
      ensures old(FindIndex(athletes, id)).Some? ==>
        var i := old(FindIndex(athletes, id)).value;
        && athletes == old(athletes)[i := Merged(old(athletes)[i], data, map[])]
        && r == Ok(athletes[i])
    {
      match FindIndex(athletes, id)
      case None =>
        r := Err(NotFound);
      case Some(i) =>
        MergedKeepsWellKeyed(athletes, i, data, map[]);
        athletes := athletes[i := Merged(athletes[i], data, map[])];
        r := Ok(athletes[i]);
    }

    /** Splices out the athlete with Id `id`, keeping the others in order. */
    method Delete(id: int) returns (r: Result<bool>)
      requires Valid()
      modifies this
      ensures Valid()
      ensures old(FindIndex(athletes, id)).None? ==> athletes == old(athletes) && r == Err(NotFound)
      ensures old(FindIndex(athletes, id)).Some? ==>
        athletes == RemoveAt(old(athletes), old(FindIndex(athletes, id)).value) && r == Ok(true)
    {
      match FindIndex(athletes, id)
      case None =>
        r := Err(NotFound);
      case Some(i) =>
        RemoveAtKeepsWellKeyed(athletes, i);
        athletes := RemoveAt(athletes, i);
        r := Ok(true);
    }
  }
}
