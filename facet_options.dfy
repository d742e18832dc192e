/**
 * The choices of the four sidebar select boxes: the sentinel "All" followed by
 * the distinct values of one column, with missing values dropped. The
 * distinct values come in the order of their first occurrence in the column.
 */
module FacetOptions {
  import opened Wrappers
  import opened Records
  import QueryBuilder

  /** No value occurs twice. */
  predicate NoDuplicates<T(==)>(s: seq<T>)
  {
    forall i, j :: 0 <= i < j < |s| ==> s[i] != s[j]
  }

  /** `select distinct`: each value once, at its first occurrence. */
  function SelectDistinct(column: seq<Option<string>>): (r: seq<Option<string>>)
    ensures forall x :: x in r <==> x in column
    ensures NoDuplicates(r)
  {
    if column == [] then []
    else
      var init := SelectDistinct(column[..|column| - 1]);
      var last := column[|column| - 1];
      assert forall x :: x in column <==> x in column[..|column| - 1] || x == last by {
        assert column == column[..|column| - 1] + [last];
      }
      if last in init then init else init + [last]
  }

  /** `dropna`: the present values, in order. */
  function DropNulls(column: seq<Option<string>>): (r: seq<string>)
    ensures forall v :: v in r <==> Some(v) in column
    ensures NoDuplicates(column) ==> NoDuplicates(r)
  {
    if column == [] then []
    else
      var rest := DropNulls(column[1..]);
      assert forall x :: x in column <==> x == column[0] || x in column[1..] by {
        assert column == [column[0]] + column[1..];
      }
      assert NoDuplicates(column) ==> NoDuplicates(column[1..]) by {
        if NoDuplicates(column) {
          forall i, j | 0 <= i < j < |column[1..]| ensures column[1..][i] != column[1..][j] {
            assert column[1..][i] == column[i + 1] && column[1..][j] == column[j + 1];
          }
        }
      }
      match column[0]
      case None => rest
      case Some(v) => [v] + rest
  }

  /**
   * The choices of one facet select box: `All` first, then every distinct
   * present value of the column exactly once.
   */
  function Options(column: seq<Option<string>>): (r: seq<string>)
    ensures |r| >= 1 && r[0] == QueryBuilder.All
    ensures forall v :: v in r[1..] <==> Some(v) in column
    ensures NoDuplicates(r[1..])
  {
    var values := DropNulls(SelectDistinct(column));
    assert ([QueryBuilder.All] + values)[1..] == values;
    [QueryBuilder.All] + values
  }

  function Cities(providers: seq<Provider>): seq<Option<string>>
  {
    seq(|providers|, i requires 0 <= i < |providers| => providers[i].city)
  }

  function ProviderTypes(providers: seq<Provider>): seq<Option<string>>
  {
    seq(|providers|, i requires 0 <= i < |providers| => providers[i].providerType)
  }

  function FoodTypes(listings: seq<FoodListing>): seq<Option<string>>
  {
    seq(|listings|, i requires 0 <= i < |listings| => listings[i].foodType)
  }

  function MealTypes(listings: seq<FoodListing>): seq<Option<string>>
  {
    seq(|listings|, i requires 0 <= i < |listings| => listings[i].mealType)
  }

  /** The initial choice of every select box is its first option. */
  function DefaultSelection(providers: seq<Provider>, listings: seq<FoodListing>): QueryBuilder.Selection
  {
    QueryBuilder.Selection(
      Options(Cities(providers))[0],
      Options(ProviderTypes(providers))[0],
      Options(FoodTypes(listings))[0],
      Options(MealTypes(listings))[0])
  }

  /** Before the user picks anything, none of the three queries filters. */
  lemma DefaultSelectionFiltersNothing(providers: seq<Provider>, listings: seq<FoodListing>)
    ensures QueryBuilder.ListingsRequest(DefaultSelection(providers, listings))
         == QueryBuilder.Request(QueryBuilder.ListingsBase, [])
    ensures QueryBuilder.ProviderRequest(DefaultSelection(providers, listings))
         == QueryBuilder.Request(QueryBuilder.ProviderBase, [])
    ensures QueryBuilder.ReceiverRequest(DefaultSelection(providers, listings))
         == QueryBuilder.Request(QueryBuilder.ReceiverBase, [])
  {
    var sel := DefaultSelection(providers, listings);
    assert sel == QueryBuilder.Selection(QueryBuilder.All, QueryBuilder.All, QueryBuilder.All, QueryBuilder.All);
    QueryBuilder.ListingsUnfiltered();
    QueryBuilder.BuildUnfiltered(QueryBuilder.ProviderBase, QueryBuilder.ProviderFilters(sel));
    QueryBuilder.BuildUnfiltered(QueryBuilder.ReceiverBase, QueryBuilder.ReceiverFilters(sel));
  }

  /**
   * A city chosen from its select box, when it is not the sentinel, is a city
   * some provider has; so is a chosen provider type.
   */
  lemma ChosenProviderFacetsOccur(providers: seq<Provider>, sel: QueryBuilder.Selection)
    requires sel.city in Options(Cities(providers))
    requires sel.providerType in Options(ProviderTypes(providers))
    ensures sel.city != QueryBuilder.All ==> exists i :: 0 <= i < |providers| && providers[i].city == Some(sel.city)
    ensures sel.providerType != QueryBuilder.All ==>
              exists i :: 0 <= i < |providers| && providers[i].providerType == Some(sel.providerType)
  {
    var cities := Options(Cities(providers));
    if sel.city != QueryBuilder.All {
      assert sel.city in cities[1..] by {
        assert cities == [cities[0]] + cities[1..];
      }
      var i :| 0 <= i < |providers| && Cities(providers)[i] == Some(sel.city);
    }
    var types := Options(ProviderTypes(providers));
    if sel.providerType != QueryBuilder.All {
      assert sel.providerType in types[1..] by {
        assert types == [types[0]] + types[1..];
      }
      var i :| 0 <= i < |providers| && ProviderTypes(providers)[i] == Some(sel.providerType);
    }
  }
}
