/** The catalogue's filter sidebar: the category checkboxes' toggle, the
    price slider and organic switch, and the Apply and Reset buttons. */
module FilterSidebar {
  import Seqs

  /** `handleCategoryChange(category)`: a selected value is removed (every copy
      of it), an unselected one is appended at the end. */
  function Toggled(selected: seq<string>, value: string): (r: seq<string>)
    ensures value in selected ==> forall x :: x in r <==> x in selected && x != value
    ensures value in selected ==> Seqs.IsSubsequence(r, selected)
    ensures value !in selected ==> r == selected + [value]
  {
    if value in selected then
      Seqs.FilterIsSubsequence(selected, (x: string) => x != value);
      Seqs.Filter(selected, (x: string) => x != value)
    else selected + [value]
  }

  /** No value appears twice. */
  predicate NoDuplicates(s: seq<string>)
  {
    forall i, j :: 0 <= i < j < |s| ==> s[i] != s[j]
  }

  /** Filtering a list without duplicates yields one without duplicates. */
  lemma {:induction false} FilterKeepsNoDuplicates(s: seq<string>, keep: string -> bool)
    requires NoDuplicates(s)
    ensures NoDuplicates(Seqs.Filter(s, keep))
  {
    if s != [] {
      FilterKeepsNoDuplicates(s[1..], keep);
      var rest := Seqs.Filter(s[1..], keep);
      assert s[0] !in s[1..];
      if keep(s[0]) {
        var r := [s[0]] + rest;
        forall i, j | 0 <= i < j < |r| ensures r[i] != r[j] {
          if i == 0 {
            assert r[j] in rest;
          } else {
            assert r[i] == rest[i - 1] && r[j] == rest[j - 1];
          }
        }
      }
    }
  }

  /** A toggle never introduces a duplicate. */
  lemma ToggleKeepsNoDuplicates(selected: seq<string>, value: string)
    requires NoDuplicates(selected)
    ensures NoDuplicates(Toggled(selected, value))
  {
    if value in selected {
      FilterKeepsNoDuplicates(selected, (x: string) => x != value);
    }
  }

  /** The selection reached from `start` by a series of clicks. */
  function AfterToggles(start: seq<string>, clicks: seq<string>): seq<string>
    decreases |clicks|
  {
    if clicks == [] then start else AfterToggles(Toggled(start, clicks[0]), clicks[1..])
  }

  /** Starting from the empty selection, no series of clicks produces a duplicate. */
  lemma {:induction false} TogglesKeepNoDuplicates(start: seq<string>, clicks: seq<string>)
    requires NoDuplicates(start)
    ensures NoDuplicates(AfterToggles(start, clicks))
    decreases |clicks|
  {
    if clicks != [] {
      ToggleKeepsNoDuplicates(start, clicks[0]);
      TogglesKeepNoDuplicates(Toggled(start, clicks[0]), clicks[1..]);
    }
  }

  /** Clicking the same value twice restores which values are selected; when it
      was not selected the list itself comes back. */
  lemma DoubleToggleRestores(selected: seq<string>, value: string)
    ensures forall x :: x in Toggled(Toggled(selected, value), value) <==> x in selected
    ensures value !in selected ==> Toggled(Toggled(selected, value), value) == selected
  {
    if value !in selected {
      Seqs.FilterAppend(selected, value, (x: string) => x != value);
    }
  }

  /** What Apply hands to the page. */
  datatype Filters = Filters(priceRange: seq<int>, categories: seq<string>, organic: bool)

  /** The sidebar's state. */
  class FilterPanel {
    var priceRange: seq<int>
    var selectedCategories: seq<string>
    var organicOnly: bool

    /** The selection never holds a category twice. */
    predicate Valid()
      reads this
    {
      NoDuplicates(selectedCategories)
    }

    constructor ()
      ensures priceRange == [0, 50] && selectedCategories == [] && !organicOnly
      ensures Valid()
    {
      priceRange := [0, 50];
      selectedCategories := [];
      organicOnly := false;
    }

    method ToggleCategory(category: string)
      requires Valid()
      modifies this
      ensures selectedCategories == Toggled(old(selectedCategories), category)
      ensures priceRange == old(priceRange) && organicOnly == old(organicOnly)
      ensures Valid()
    {
      ToggleKeepsNoDuplicates(selectedCategories, category);
      selectedCategories := Toggled(selectedCategories, category);
    }

    /** The slider's `onValueChange`. */
    method SetPriceRange(value: seq<int>)
      modifies this
      ensures priceRange == value
      ensures selectedCategories == old(selectedCategories) && organicOnly == old(organicOnly)
    {
      priceRange := value;
    }

    method SetOrganicOnly(on: bool)
      modifies this
      ensures organicOnly == on
      ensures selectedCategories == old(selectedCategories) && priceRange == old(priceRange)
    {
      organicOnly := on;
    }

    /** `applyFilters`: the current values, passed on unchanged. */
    method Apply() returns (f: Filters)
      ensures f.priceRange == priceRange && f.categories == selectedCategories && f.organic == organicOnly
    {
      f := Filters(priceRange, selectedCategories, organicOnly);
    }

    /** `resetFilters`: back to the initial values; the page's `onReset` is
        `ProductsPage.Catalogue.HandleFilterReset`. */
    method Reset()
      modifies this
      ensures priceRange == [0, 50] && selectedCategories == [] && !organicOnly
      ensures Valid()
    {
      priceRange := [0, 50];
      selectedCategories := [];
      organicOnly := false;
    }
  }
}
