/** The selection logic of components/NeighborhoodSelector.tsx: toggling a
    neighbourhood in the local list, the "selected" mark of an option, the
    options offered for a city and the subtitle under the setting. */
module NeighborhoodSelector {
  import opened Wrappers
  import Seqs
  import Text
  import Locations

  /** One row of the bottom sheet (`{ label, value }`); both are the name. */
  datatype Choice = Choice(name: string, value: string)

  /** What a toggle produces: the new local list and, when the parent passed
      `onNeighborhoodsChange`, the list handed to it. */
  datatype ToggleOutcome = ToggleOutcome(selection: seq<string>, notified: Option<seq<string>>)

  const ClearValue: string := ""
  const SelectedSuffix: string := " sélectionné(s)"
  const EmptySubtitle: string := "Gérer vos quartiers préférés"

  /** `n => n !== value`. */
  function Other(value: string): string -> bool {
    (n: string) => n != value
  }

  predicate Distinct(s: seq<string>) {
    forall i, j :: 0 <= i < j < |s| ==> s[i] != s[j]
  }

  /** Dropping one name keeps every other name as often as it occurred. */
  lemma {:induction false} FilterOtherCounts(s: seq<string>, value: string)
    ensures multiset(Seqs.Filter(s, Other(value))) == multiset(s)[value := 0]
    decreases |s|
  {
    if |s| > 0 {
      FilterOtherCounts(s[1..], value);
      assert s == [s[0]] + s[1..];
      assert multiset(s) == multiset{s[0]} + multiset(s[1..]);
    }
  }

  /** `toggleNeighborhood(value)`: the empty value clears the list; a
      selected name is removed (every occurrence); any other name is
      appended at the end. */
  function Toggle(current: seq<string>, value: string): (r: seq<string>)
    ensures value == ClearValue ==> r == []
    ensures value != ClearValue && value in current ==>
      value !in r && Seqs.Subsequence(r, current)
      && forall x :: x in r <==> x in current && x != value
    ensures value != ClearValue && value in current ==> multiset(r) == multiset(current)[value := 0]
    ensures value != ClearValue && value !in current ==>
      |r| == |current| + 1 && r[..|current|] == current && r[|current|] == value
  {
    if value == ClearValue then []
    else if value in current then
      Seqs.FilterIsSubsequence(current, Other(value));
      FilterOtherCounts(current, value);
      Seqs.Filter(current, Other(value))
    else current + [value]
  }

  /** The whole handler: the parent's callback, when present, receives the
      same list the component stores. */
  function OnToggle(current: seq<string>, value: string, hasCallback: bool): (r: ToggleOutcome)
    ensures r.notified.Some? <==> hasCallback
    ensures r.notified.Some? ==> r.notified.value == r.selection
    ensures r.selection == Toggle(current, value)
  {
    var updated := Toggle(current, value);
    ToggleOutcome(updated, if hasCallback then Some(updated) else None)
  }

  /** The check mark of an option: `item.value !== '' && neighborhoods.includes(item.value)`. */
  predicate IsSelected(current: seq<string>, value: string) {
    value != ClearValue && value in current
  }

  /** Toggling a name flips its mark and leaves every other mark alone. */
  lemma ToggleFlipsOnlyItsMark(current: seq<string>, value: string, other: string)
    requires value != ClearValue
    ensures IsSelected(Toggle(current, value), value) == !IsSelected(current, value)
    ensures other != value ==> IsSelected(Toggle(current, value), other) == IsSelected(current, other)
  {
    if value !in current && other in current {
      var r := Toggle(current, value);
      var k :| 0 <= k < |current| && current[k] == other;
      assert r[k] == other;
    }
  }

  /** The clear value unmarks everything. */
  lemma ClearUnmarksAll(current: seq<string>, other: string)
    ensures !IsSelected(Toggle(current, ClearValue), other)
  {
  }

  /** Adding a name and then toggling it again gives back the original list. */
  lemma {:induction false} ToggleTwiceRestores(current: seq<string>, value: string)
    requires value != ClearValue && value !in current
    ensures Toggle(Toggle(current, value), value) == current
  {
    var added := current + [value];
    assert Toggle(current, value) == added;
    assert value in added;
    Seqs.FilterAppend(current, [value], Other(value));
    Seqs.FilterAll(current, Other(value));
    assert Seqs.Filter([value], Other(value)) == [];
  }

  /** Toggling never introduces a duplicate. */
  lemma ToggleKeepsDistinct(current: seq<string>, value: string)
    requires Distinct(current)
    ensures Distinct(Toggle(current, value))
  {
    if value != ClearValue && value in current {
      FilterKeepsDistinct(current, Other(value));
    }
  }

  lemma {:induction false} FilterKeepsDistinct(s: seq<string>, p: string -> bool)
    requires Distinct(s)
    ensures Distinct(Seqs.Filter(s, p))
    decreases |s|
  {
    if |s| > 0 {
      var rest := Seqs.Filter(s[1..], p);
      assert Distinct(s[1..]) by {
        forall i, j | 0 <= i < j < |s[1..]| ensures s[1..][i] != s[1..][j] {
          assert s[1..][i] == s[i + 1] && s[1..][j] == s[j + 1];
        }
      }
      FilterKeepsDistinct(s[1..], p);
      if p(s[0]) {
        assert s[0] !in s[1..];
        assert s[0] !in rest;
        var r := [s[0]] + rest;
        assert Seqs.Filter(s, p) == r;
        forall i, j | 0 <= i < j < |r| ensures r[i] != r[j] {
          if i == 0 {
            assert r[j] == rest[j - 1];
          } else {
            assert r[i] == rest[i - 1] && r[j] == rest[j - 1];
          }
        }
      }
    }
  }

  /** `neighborhoodOptions`: one choice per neighbourhood of the selected
      city, in table order; none for an unknown city. */
  function Options(cityId: string): (r: seq<Choice>)
    ensures Locations.FindCity(cityId).None? ==> r == []
    ensures Locations.FindCity(cityId).Some? ==>
      var ns := Locations.FindCity(cityId).value.neighborhoods;
      |r| == |ns| && forall i :: 0 <= i < |r| ==> r[i].name == ns[i] && r[i].value == ns[i]
  {
    match Locations.FindCity(cityId)
    case None => []
    case Some(city) =>
      (seq(|city.neighborhoods|, i requires 0 <= i < |city.neighborhoods| =>
        Choice(city.neighborhoods[i], city.neighborhoods[i])))
  }

  /** No option of any city carries the clear value, so pressing an option
      always toggles a name. */
  lemma OptionsNeverClear(cityId: string)
    ensures forall i :: 0 <= i < |Options(cityId)| ==> Options(cityId)[i].value != ClearValue
  {
    var c := Locations.FindCity(cityId);
    if c.Some? {
      var k :| 0 <= k < |Locations.CongoCities| && Locations.CongoCities[k] == c.value;
      NamesNonEmpty(k);
    }
  }

  /** Every neighbourhood name in the city table is non-empty. */
  lemma NamesNonEmpty(k: nat)
    requires k < |Locations.CongoCities|
    ensures forall j :: 0 <= j < |Locations.CongoCities[k].neighborhoods| ==>
      |Locations.CongoCities[k].neighborhoods[j]| > 0
  {
    var ns := Locations.CongoCities[k].neighborhoods;
    if k == 0 {
      assert ns == ["Centre-ville", "Poto-Poto", "Bacongo", "Makélékélé", "Moungali", "Ouenzé", "Talangaï", "Mfilou", "Djiri"];
    } else if k == 1 {
      assert ns == ["Centre-ville", "Tié-Tié", "Lumumba", "Vindoulou", "Mongo-Mpoukou", "Mpita", "Ngoyo", "Tchimbamba"];
    } else if k == 2 {
      assert ns == ["Centre-ville", "Ngot", "Moukoukoulou", "Bissenga"];
    } else if k == 3 {
      assert ns == ["Centre-ville", "Mouyondzi", "Loudima"];
    } else {
      assert ns == ["Centre-ville", "Makoua", "Boundji"];
    }
  }

  /** The subtitle: the count of selected names, or an invitation when
      nothing is selected. */
  function Subtitle(current: seq<string>): (r: string)
    ensures |current| > 0 ==> Text.StartsWith(r, Text.NatToString(|current|))
    ensures |current| > 0 ==> r[|Text.NatToString(|current|)|..] == SelectedSuffix
    ensures |current| == 0 ==> r == EmptySubtitle
  {
    if |current| > 0 then Text.NatToString(|current|) + SelectedSuffix
    else EmptySubtitle
  }

  /** A counted subtitle starts with a digit, the invitation does not. */
  lemma CountedSubtitleIsNotEmpty(s: seq<string>)
    ensures |s| > 0 ==> Subtitle(s) != EmptySubtitle
  {
    if |s| > 0 {
      assert Subtitle(s)[0] == Text.NatToString(|s|)[0];
      assert EmptySubtitle[0] == 'G';
    }
  }

  /** The subtitle tells the number of selected names exactly: two lists
      share a subtitle only when they have the same length. */
  lemma SubtitleDeterminesCount(a: seq<string>, b: seq<string>)
    requires Subtitle(a) == Subtitle(b)
    ensures |a| == |b|
  {
    if |a| > 0 && |b| > 0 {
      var sa := Text.NatToString(|a|);
      var sb := Text.NatToString(|b|);
      assert |sa| == |sb|;
      assert sa == Subtitle(a)[..|sa|];
      assert sb == Subtitle(b)[..|sb|];
      Text.NatToStringInjective(|a|, |b|);
    } else {
      CountedSubtitleIsNotEmpty(a);
      CountedSubtitleIsNotEmpty(b);
    }
  }
}
