/** The dates of a run, each once and in order. */
module Dates {
  predicate Ascending(dates: seq<int>) {
    forall i, j :: 0 <= i < j < |dates| ==> dates[i] < dates[j]
  }

  lemma Inhabited(dates: set<int>)
    ensures dates == {} || exists d :: d in dates
  {
    if forall d :: d !in dates {
      assert dates == {};
    }
  }

  lemma {:induction false} HasEarliest(dates: set<int>) returns (first: int)
    requires dates != {}
    ensures first in dates && forall d :: d in dates ==> first <= d
    decreases |dates|
  {
    Inhabited(dates);
    var one :| one in dates;
    var rest := dates - {one};
    first := one;
    if rest != {} {
      var other := HasEarliest(rest);
      assert forall d :: d in dates ==> d == one || d in rest;
      first := if other < one then other else one;
    }
  }

  lemma NewDate(dates: seq<int>, i: nat)
    requires Ascending(dates) && i < |dates|
    ensures dates[i] !in dates[..i]
  {}

  ghost predicate Lists<D(!new)>(dates: seq<D>, all: set<D>) {
    forall d :: d in dates <==> d in all
  }

  method SortedDates(dates: set<int>) returns (sorted: seq<int>)
    ensures Ascending(sorted) && Lists(sorted, dates)
  {
    sorted := [];
    var rest := dates;
    while rest != {}
      invariant Ascending(sorted) && rest <= dates
      invariant forall d :: d in dates <==> d in sorted || d in rest
      invariant forall i, d :: 0 <= i < |sorted| && d in rest ==> sorted[i] < d
      decreases rest
    {
      ghost var earliest := HasEarliest(rest);
      var first :| first in rest && forall d :: d in rest ==> first <= d;
      sorted := sorted + [first];
      rest := rest - {first};
    }
  }

  /** `part` is `whole` at exactly the given dates. */
  ghost predicate PartOf<D(!new), V>(part: map<D, V>, whole: map<D, V>, dates: seq<D>) {
    && (forall d :: d in part <==> d in dates)
    && (forall d :: d in part ==> d in whole && part[d] == whole[d])
  }

  lemma PartGrows<D(!new), V>(part: map<D, V>, whole: map<D, V>, dates: seq<D>, i: nat, next: nat)
    requires i < |dates| && next == i + 1 && dates[i] in whole
    requires PartOf(part, whole, dates[..i])
    ensures dates[i] !in dates[..i] ==> dates[i] !in part
    ensures PartOf(part[dates[i] := whole[dates[i]]], whole, dates[..next])
  {
    assert dates[..next] == dates[..i] + [dates[i]];
  }

  lemma PartIsWhole<D(!new), V>(part: map<D, V>, whole: map<D, V>, dates: seq<D>)
    requires PartOf(part, whole, dates[..|dates|]) && Lists(dates, whole.Keys)
    ensures part == whole
  {
    assert dates[..|dates|] == dates;
    assert part.Keys == whole.Keys;
  }
}
