/**
 * The athletes page: the effect that narrows the roster by search term,
 * position and age range, the list updates the delete and save handlers
 * apply after a store call succeeds, and the distinct positions offered in
 * the position filter. An athlete is a `Records.Record`; a filter the user
 * has not set (`undefined` or the "All" option, both falsy) is "".
 */
module AthletesPage {
  import opened Text
  import opened Records
  import opened Seqs

  /** The `filters` state. */
  datatype Filters = Filters(position: string, ageRange: string)

  /** The search calls `toLowerCase` on these three fields, so they must hold strings. */
  predicate Searchable(a: Record) {
    && Get(a, "name").Some? && Get(a, "name").value.Text?
    && Get(a, "position").Some? && Get(a, "position").value.Text?
    && Get(a, "contactEmail").Some? && Get(a, "contactEmail").value.Text?
  }

  /** The search predicate: the lowercased term occurs in the lowercased name, position or email. */
  predicate MatchesSearch(a: Record, term: string) {
    var t := ToLower(term);
    TextIncludes(Get(a, "name"), t) || TextIncludes(Get(a, "position"), t) || TextIncludes(Get(a, "contactEmail"), t)
  }

  /** `athlete.position === filters.position` */
  predicate HasPosition(a: Record, position: string) {
    StrictEq(Get(a, "position"), Some(Text(position)))
  }

  /**
   * The `[min, max]` pair for an age range: `"31+"` gives `parseInt` of the
   * text and 100, anything else is split on `-` and each part goes through
   * `Number`. None stands for `NaN`, and for the `undefined` a range without
   * a `-` leaves as the maximum.
   */
  function AgeBounds(range: string): (Option<real>, Option<real>) {
    if Contains(range, "+") then
      (match ParseInt(range) case Some(n) => Some(n as real) case None => None, Some(100.0))
    else
      var parts := Split(range, '-');
      (ToNumber(parts[0]), if |parts| > 1 then ToNumber(parts[1]) else None)
  }

  /** `athlete.age >= min && athlete.age <= max`; any comparison with `NaN` is false. */
  predicate InAgeRange(a: Record, bounds: (Option<real>, Option<real>)) {
    var age := NumberValue(Get(a, "age"));
    age.Some? && bounds.0.Some? && bounds.1.Some? && bounds.0.value <= age.value <= bounds.1.value
  }

  /** Whether an athlete survives every filter that is set. */
  predicate Visible(a: Record, term: string, filters: Filters) {
    && (term != "" ==> MatchesSearch(a, term))
    && (filters.position != "" ==> HasPosition(a, filters.position))
    && (filters.ageRange != "" ==> InAgeRange(a, AgeBounds(filters.ageRange)))
  }

  /**
   * The filter effect: starts from the whole roster and narrows it by each
   * filter that is set, in the order search, position, age range.
   */
  method FilterAthletes(athletes: seq<Record>, term: string, filters: Filters) returns (filtered: seq<Record>)
    requires term != "" ==> forall a :: a in athletes ==> Searchable(a)
    ensures filtered == Filter(athletes, a => Visible(a, term, filters))
  {
    var search := a => term != "" ==> MatchesSearch(a, term);
    var position := a => filters.position != "" ==> HasPosition(a, filters.position);
    var bounds := AgeBounds(filters.ageRange);
    var age := a => filters.ageRange != "" ==> InAgeRange(a, bounds);
    ghost var searched := a => search(a) && position(a);
    ghost var visible := a => Visible(a, term, filters);
    filtered := athletes;
    if term != "" {
      var matches := a => MatchesSearch(a, term);
      filtered := Filter(filtered, matches);
      FilterExt(athletes, matches, search);
    } else {
      FilterAll(athletes, search);
    }
    ghost var afterSearch := filtered;
    if filters.position != "" {
      var hasPosition := a => HasPosition(a, filters.position);
      filtered := Filter(filtered, hasPosition);
      FilterExt(afterSearch, hasPosition, position);
    } else {
      FilterAll(afterSearch, position);
    }
    FilterFilter(athletes, search, position, searched);
    ghost var afterPosition := filtered;
    if filters.ageRange != "" {
      var min, max := bounds.0, bounds.1;
      var inRange := a => InAgeRange(a, (min, max));
      filtered := Filter(filtered, inRange);
      FilterExt(afterPosition, inRange, age);
    } else {
      FilterAll(afterPosition, age);
    }
    FilterFilter(athletes, searched, age, visible);
  }

  /** The filtered roster keeps the athletes it shows in roster order. */
  lemma FilteredIsSubsequence(athletes: seq<Record>, term: string, filters: Filters)
    ensures IsSubsequence(Filter(athletes, a => Visible(a, term, filters)), athletes)
  {
    FilterIsSubsequence(athletes, a => Visible(a, term, filters));
  }

  /** With no search term and no filter set, the whole roster is shown. */
  lemma NoFiltersShowAll(athletes: seq<Record>)
    ensures Filter(athletes, a => Visible(a, "", Filters("", ""))) == athletes
  {
    FilterAll(athletes, a => Visible(a, "", Filters("", "")));
  }

  /** The age ranges the filter bar offers are the inclusive ranges 16-20, 21-25, 26-30 and 31-100. */
  lemma OfferedAgeRanges()
    ensures AgeBounds("16-20") == (Some(16.0), Some(20.0))
    ensures AgeBounds("21-25") == (Some(21.0), Some(25.0))
    ensures AgeBounds("26-30") == (Some(26.0), Some(30.0))
    ensures AgeBounds("31+") == (Some(31.0), Some(100.0))
  {
    Range16To20();
    Range21To25();
    Range26To30();
    Range31Plus();
  }

  /** The `"16-20"` option. */
  lemma Range16To20()
    ensures AgeBounds("16-20") == (Some(16.0), Some(20.0))
  {
    assert AllDigits("16-20"[..2]) && AllDigits("16-20"[3..]);
    assert DigitsValue("16-20"[..2]) == 16 && DigitsValue("16-20"[3..]) == 20 by {
      TwoDigitsValue("16-20"[..2]);
      TwoDigitsValue("16-20"[3..]);
    }
    DashRange("16-20", 16, 20);
  }

  /** The `"21-25"` option. */
  lemma Range21To25()
    ensures AgeBounds("21-25") == (Some(21.0), Some(25.0))
  {
    assert AllDigits("21-25"[..2]) && AllDigits("21-25"[3..]);
    assert DigitsValue("21-25"[..2]) == 21 && DigitsValue("21-25"[3..]) == 25 by {
      TwoDigitsValue("21-25"[..2]);
      TwoDigitsValue("21-25"[3..]);
    }
    DashRange("21-25", 21, 25);
  }

  /** The `"26-30"` option. */
  lemma Range26To30()
    ensures AgeBounds("26-30") == (Some(26.0), Some(30.0))
  {
    assert AllDigits("26-30"[..2]) && AllDigits("26-30"[3..]);
    assert DigitsValue("26-30"[..2]) == 26 && DigitsValue("26-30"[3..]) == 30 by {
      TwoDigitsValue("26-30"[..2]);
      TwoDigitsValue("26-30"[3..]);
    }
    DashRange("26-30", 26, 30);
  }

  /** The `"31+"` option. */
  lemma Range31Plus()
    ensures AgeBounds("31+") == (Some(31.0), Some(100.0))
  {
    assert AllDigits("31+"[..2]);
    assert DigitsValue("31+"[..2]) == 31 by { TwoDigitsValue("31+"[..2]); }
    PlusRange("31+", 31);
  }

  /** A range `"ab-cd"` of two-digit numbers is bounded by the two numbers. */
  lemma DashRange(range: string, lo: nat, hi: nat)
    requires |range| == 5 && range[2] == '-' && AllDigits(range[..2]) && AllDigits(range[3..])
    requires DigitsValue(range[..2]) == lo && DigitsValue(range[3..]) == hi
    ensures AgeBounds(range) == (Some(lo as real), Some(hi as real))
  {
    assert range[0] == range[..2][0] && range[1] == range[..2][1];
    assert range[3] == range[3..][0] && range[4] == range[3..][1];
    assert '+' !in range;
    NotContainsByChar(range, ['+'], 0);
    SplitOnce(range, '-', 2);
    DigitsNumber(range[..2]);
    DigitsNumber(range[3..]);
  }

  /** A range `"ab+"` of a two-digit number runs from that number to 100. */
  lemma PlusRange(range: string, lo: nat)
    requires |range| == 3 && AllDigits(range[..2]) && range[2] == '+' && DigitsValue(range[..2]) == lo
    ensures AgeBounds(range) == (Some(lo as real), Some(100.0))
  {
    var d, plus := range[..2], range[2..];
    assert d + plus == range;
    ContainsAt(plus, ['+'], 0);
    ContainsAfterDigits(d, plus, ['+']);
    DigitsParse(d, plus);
  }

  /** `prev.filter(a => a.Id !== athlete.Id)`: the roster after a delete. */
  function RemoveAthlete(athletes: seq<Record>, id: Option<Value>): (r: seq<Record>)
    ensures forall a :: a in r <==> a in athletes && !StrictEq(Get(a, "Id"), id)
    ensures IsSubsequence(r, athletes)
  {
    FilterIsSubsequence(athletes, a => !StrictEq(Get(a, "Id"), id));
    Filter(athletes, a => !StrictEq(Get(a, "Id"), id))
  }

  /** `[...prev, newAthlete]`: the roster after an add. */
  function AppendAthlete(athletes: seq<Record>, added: Record): (r: seq<Record>)
    ensures |r| == |athletes| + 1 && r[..|athletes|] == athletes && r[|athletes|] == added
  {
    athletes + [added]
  }

  /** `prev.map(a => a.Id === id ? updated : a)`: the roster after an edit. */
  function ReplaceAthlete(athletes: seq<Record>, id: Option<Value>, updated: Record): (r: seq<Record>)
    ensures |r| == |athletes|
    ensures forall i :: 0 <= i < |athletes| ==> r[i] == if StrictEq(Get(athletes[i], "Id"), id) then updated else athletes[i]
  {
    seq(|athletes|, i requires 0 <= i < |athletes| => if StrictEq(Get(athletes[i], "Id"), id) then updated else athletes[i])
  }

  /** On a well-keyed roster, the record `findIndex` finds is the only one carrying that number Id. */
  lemma OnlyMatchIsFound(athletes: seq<Record>, id: int, i: nat)
    requires WellKeyed(athletes) && FindIndex(athletes, id) == Some(i)
    ensures forall k :: 0 <= k < |athletes| && k != i ==> !StrictEq(Get(athletes[k], "Id"), Some(Num(id)))
  {
    forall k | 0 <= k < |athletes| && k != i
      ensures !StrictEq(Get(athletes[k], "Id"), Some(Num(id)))
    {
      assert NumId(athletes[i]) == Some(id);
    }
  }

  /**
   * On a well-keyed roster, deleting by a number Id drops exactly the record
   * the store's `delete` splices out, keeping the rest in order.
   */
  lemma RemoveMatchesStore(athletes: seq<Record>, id: int, i: nat)
    requires WellKeyed(athletes) && FindIndex(athletes, id) == Some(i)
    ensures RemoveAthlete(athletes, Some(Num(id))) == RemoveAt(athletes, i)
  {
    OnlyMatchIsFound(athletes, id, i);
    FilterDropsOne(athletes, a => !StrictEq(Get(a, "Id"), Some(Num(id))), i);
  }

  /** Adding an athlete with a fresh number Id and then deleting it gives the roster back. */
  lemma AddThenRemove(athletes: seq<Record>, added: Record, id: int)
    requires Get(added, "Id") == Some(Num(id))
    requires forall a :: a in athletes ==> Get(a, "Id") != Some(Num(id))
    ensures RemoveAthlete(AppendAthlete(athletes, added), Some(Num(id))) == athletes
  {
    var keep := a => !StrictEq(Get(a, "Id"), Some(Num(id)));
    FilterConcat(athletes, [added], keep);
    FilterAll(athletes, keep);
  }

  /**
   * On a well-keyed roster, editing by a number Id writes the updated record
   * at exactly the position the store's `update` writes it.
   */
  lemma ReplaceMatchesStore(athletes: seq<Record>, id: int, i: nat, updated: Record)
    requires WellKeyed(athletes) && FindIndex(athletes, id) == Some(i)
    ensures ReplaceAthlete(athletes, Some(Num(id)), updated) == athletes[i := updated]
  {
    OnlyMatchIsFound(athletes, id, i);
  }

  /** `[...new Set(athletes.map(a => a.position))]`: every position on the roster, each once. */
  function PositionOptions(athletes: seq<Record>): (r: seq<Option<Value>>)
    ensures forall p :: p in r <==> exists a :: a in athletes && Get(a, "position") == p
    ensures forall i, j :: 0 <= i < j < |r| ==> r[i] != r[j]
  {
    var positions := seq(|athletes|, i requires 0 <= i < |athletes| => Get(athletes[i], "position"));
    assert forall a :: a in athletes ==> Get(a, "position") in positions by {
      forall a | a in athletes
        ensures Get(a, "position") in positions
      {
        var i :| 0 <= i < |athletes| && athletes[i] == a;
        assert positions[i] == Get(a, "position");
      }
    }
    Distinct(positions)
  }
}
