/**
 * The facet-filter query builders of the dashboard. Each starts from a base
 * query ending in `where 1=1` and, for every facet whose selected value is not
 * the sentinel "All", appends one `AND column = ?` clause and pushes the value
 * onto a positional parameter list; facets are consulted in a fixed order.
 */
module QueryBuilder {

  /** The first entry of every facet select box: "do not filter on this facet". */
  const All: string := "All"

  /** The four sidebar choices: city, provider type, food type, meal type. */
  datatype Selection = Selection(city: string, providerType: string, foodType: string, mealType: string)

  /** One optional equality filter: the clause appended when `value` is not `All`. */
  datatype Filter = Filter(clause: string, value: string)

  /** A query text together with the values bound to its `?` placeholders, in order. */
  datatype Request = Request(text: string, params: seq<string>)

  // The query texts, character for character. Long literals are written as a
  // concatenation of short pieces; the text is the same.

  const ListingsBase: string :=
    "\nselect f.Food_ID,"
    + "p.Name as provider_"
    + "name,p.City ,p.Type"
    + " as provider_type,"
    + "f.Food_Type,"
    + "f.Meal_Type,"
    + "f.Quantity,"
    + "f.Expiry_Date From "
    + "food_listings as f "
    + "join providers as p"
    + " on f.Provider_ID ="
    + " p.Provider_ID "
    + "where 1=1 "
  const ListingsCityClause: string := " AND p.City = ?"
  const ListingsTypeClause: string := " AND p.Type =?"
  const ListingsFoodTypeClause: string := " AND f.Food_Type =?"
  const ListingsMealTypeClause: string := " AND f.Meal_Type = ?"

  const ProviderBase: string :=
    " select Name, City "
    + ", Type, Contact "
    + "from providers "
    + "where 1=1"
  const ContactCityClause: string := " AND City = ?"
  const ProviderTypeClause: string := " AND Type =?"

  const ReceiverBase: string :=
    " select Name, City "
    + ", Contact "
    + "from receivers "
    + "where 1=1"

  /** The number of `?` placeholders in a query text. */
  function Placeholders(s: string): nat
  {
    if s == [] then 0 else (if s[0] == '?' then 1 else 0) + Placeholders(s[1..])
  }

  lemma {:induction false} PlaceholdersAppend(a: string, b: string)
    ensures Placeholders(a + b) == Placeholders(a) + Placeholders(b)
  {
    if a != [] {
      assert (a + b)[1..] == a[1..] + b;
      PlaceholdersAppend(a[1..], b);
    } else {
      assert a + b == b;
    }
  }

  /** A text has no placeholder exactly when it contains no `?`. */
  lemma {:induction false} PlaceholdersZero(s: string)
    ensures Placeholders(s) == 0 <==> '?' !in s
  {
    if s != [] {
      PlaceholdersZero(s[1..]);
      assert s == [s[0]] + s[1..];
    }
  }

  /** The shape of every appended clause: `?`-free text closed by one `?`. */
  predicate EndsInOnePlaceholder(clause: string)
  {
    |clause| > 0 && clause[|clause| - 1] == '?' && '?' !in clause[..|clause| - 1]
  }

  lemma OnePlaceholder(clause: string)
    requires EndsInOnePlaceholder(clause)
    ensures Placeholders(clause) == 1
  {
    var n := |clause|;
    assert clause == clause[..n - 1] + [clause[n - 1]];
    PlaceholdersAppend(clause[..n - 1], [clause[n - 1]]);
    PlaceholdersZero(clause[..n - 1]);
  }

  /** The values of `values` other than the sentinel, in their original order. */
  function NonAll(values: seq<string>): (r: seq<string>)
    ensures |r| <= |values|
    ensures forall v :: v in r ==> v in values && v != All
  {
    if values == [] then []
    else
      var last := values[|values| - 1];
      NonAll(values[..|values| - 1]) + (if last == All then [] else [last])
  }

  /** The number of kept values is the number of non-sentinel entries. */
  lemma {:induction false} NonAllCount(values: seq<string>)
    ensures |NonAll(values)| == |values| - multiset(values)[All]
  {
    if values != [] {
      var init := values[..|values| - 1];
      assert values == init + [values[|values| - 1]];
      NonAllCount(init);
    }
  }

  /** The values of a list of filters, in order. */
  function Values(filters: seq<Filter>): (r: seq<string>)
    ensures |r| == |filters|
    ensures forall i :: 0 <= i < |filters| ==> r[i] == filters[i].value
  {
    seq(|filters|, i requires 0 <= i < |filters| => filters[i].value)
  }

  /** One step of a builder: apply a single filter to the request built so far. */
  function Step(prev: Request, f: Filter): Request
  {
    if f.value == All then prev else Request(prev.text + f.clause, prev.params + [f.value])
  }

  /**
   * The general builder: apply the filters in order to the base query,
   * appending the clause and the value of each one whose value is not `All`.
   */
  function Build(base: string, filters: seq<Filter>): Request
  {
    if filters == [] then Request(base, [])
    else Step(Build(base, filters[..|filters| - 1]), filters[|filters| - 1])
  }

  /** Building a prefix one filter longer is one more step. */
  lemma BuildPrefixStep(base: string, filters: seq<Filter>, k: nat)
    requires k < |filters|
    ensures Build(base, filters[..k + 1]) == Step(Build(base, filters[..k]), filters[k])
  {
    assert filters[..k + 1][..k] == filters[..k];
  }

  /** The parameters are exactly the non-sentinel values, in filter order. */
  lemma {:induction false} BuildParams(base: string, filters: seq<Filter>)
    ensures Build(base, filters).params == NonAll(Values(filters))
  {
    if filters != [] {
      var init := filters[..|filters| - 1];
      BuildParams(base, init);
      assert Values(filters)[..|filters| - 1] == Values(init);
    }
  }

  /** One parameter per non-sentinel value. */
  lemma BuildParamCount(base: string, filters: seq<Filter>)
    ensures |Build(base, filters).params| == |filters| - multiset(Values(filters))[All]
  {
    BuildParams(base, filters);
    NonAllCount(Values(filters));
  }

  /** The base query is a prefix of the built query. */
  lemma {:induction false} BuildExtendsBase(base: string, filters: seq<Filter>)
    ensures base <= Build(base, filters).text
  {
    if filters != [] {
      BuildExtendsBase(base, filters[..|filters| - 1]);
    }
  }

  /** With every value the sentinel, nothing is appended and nothing is bound. */
  lemma {:induction false} BuildUnfiltered(base: string, filters: seq<Filter>)
    requires forall i :: 0 <= i < |filters| ==> filters[i].value == All
    ensures Build(base, filters) == Request(base, [])
  {
    if filters != [] {
      BuildUnfiltered(base, filters[..|filters| - 1]);
    }
  }

  /**
   * When the base has no placeholder and every clause ends in exactly one,
   * the built query has exactly one placeholder per bound parameter.
   */
  lemma {:induction false} BuildPlaceholders(base: string, filters: seq<Filter>)
    requires '?' !in base
    requires forall i :: 0 <= i < |filters| ==> EndsInOnePlaceholder(filters[i].clause)
    ensures Placeholders(Build(base, filters).text) == |Build(base, filters).params|
  {
    if filters == [] {
      PlaceholdersZero(base);
    } else {
      var init := filters[..|filters| - 1];
      BuildPlaceholders(base, init);
      var f := filters[|filters| - 1];
      if f.value != All {
        PlaceholdersAppend(Build(base, init).text, f.clause);
        OnePlaceholder(f.clause);
      }
    }
  }

  /** Every clause of the three builders ends in its single placeholder. */
  lemma ClausesEndInOnePlaceholder()
    ensures EndsInOnePlaceholder(ListingsCityClause)
    ensures EndsInOnePlaceholder(ListingsTypeClause)
    ensures EndsInOnePlaceholder(ListingsFoodTypeClause)
    ensures EndsInOnePlaceholder(ListingsMealTypeClause)
    ensures EndsInOnePlaceholder(ContactCityClause)
    ensures EndsInOnePlaceholder(ProviderTypeClause)
  {
    assert ListingsCityClause[..|ListingsCityClause| - 1] == " AND p.City = ";
    assert ListingsTypeClause[..|ListingsTypeClause| - 1] == " AND p.Type =";
    assert ListingsFoodTypeClause[..|ListingsFoodTypeClause| - 1] == " AND f.Food_Type =";
    assert ListingsMealTypeClause[..|ListingsMealTypeClause| - 1] == " AND f.Meal_Type = ";
    assert ContactCityClause[..|ContactCityClause| - 1] == " AND City = ";
    assert ProviderTypeClause[..|ProviderTypeClause| - 1] == " AND Type =";
  }

  // The pieces of the filtered-listings base query, a few at a time.
  lemma ListingsBasePieces1()
    ensures '?' !in "\nselect f.Food_ID,"
    ensures '?' !in "p.Name as provider_"
    ensures '?' !in "name,p.City ,p.Type"
  {
  }

  lemma ListingsBasePieces2()
    ensures '?' !in " as provider_type,"
    ensures '?' !in "f.Food_Type,"
    ensures '?' !in "f.Meal_Type,"
    ensures '?' !in "f.Quantity,"
  {
  }

  lemma ListingsBasePieces3()
    ensures '?' !in "f.Expiry_Date From "
    ensures '?' !in "food_listings as f "
    ensures '?' !in "join providers as p"
  {
  }

  lemma ListingsBasePieces4()
    ensures '?' !in " on f.Provider_ID ="
    ensures '?' !in " p.Provider_ID "
    ensures '?' !in "where 1=1 "
  {
  }

  /** The filtered-listings base query has no placeholder. */
  lemma ListingsBaseHasNoPlaceholder()
    ensures '?' !in ListingsBase
  {
    ListingsBasePieces1();
    ListingsBasePieces2();
    ListingsBasePieces3();
    ListingsBasePieces4();
  }

  /** The provider-contact base query has no placeholder. */
  lemma ProviderBaseHasNoPlaceholder()
    ensures '?' !in ProviderBase
  {
    assert '?' !in " select Name, City ";
    assert '?' !in ", Type, Contact ";
    assert '?' !in "from providers ";
    assert '?' !in "where 1=1";
  }

  /** The receiver-contact base query has no placeholder. */
  lemma ReceiverBaseHasNoPlaceholder()
    ensures '?' !in ReceiverBase
  {
    assert '?' !in " select Name, City ";
    assert '?' !in ", Contact ";
    assert '?' !in "from receivers ";
    assert '?' !in "where 1=1";
  }

  /** The filters of the filtered-listings query, in the order they are applied. */
  function ListingsFilters(sel: Selection): seq<Filter>
  {
    [ Filter(ListingsCityClause, sel.city),
      Filter(ListingsTypeClause, sel.providerType),
      Filter(ListingsFoodTypeClause, sel.foodType),
      Filter(ListingsMealTypeClause, sel.mealType) ]
  }

  /** The provider-contact query consults only the city and provider-type facets. */
  function ProviderFilters(sel: Selection): seq<Filter>
  {
    [ Filter(ContactCityClause, sel.city),
      Filter(ProviderTypeClause, sel.providerType) ]
  }

  /** The receiver-contact query consults only the city facet. */
  function ReceiverFilters(sel: Selection): seq<Filter>
  {
    [ Filter(ContactCityClause, sel.city) ]
  }

  /** The filtered-listings request the sidebar choices produce. */
  function ListingsRequest(sel: Selection): Request
  {
    Build(ListingsBase, ListingsFilters(sel))
  }

  /** The provider-contact request the sidebar choices produce. */
  function ProviderRequest(sel: Selection): Request
  {
    Build(ProviderBase, ProviderFilters(sel))
  }

  /** The receiver-contact request the sidebar choices produce. */
  function ReceiverRequest(sel: Selection): Request
  {
    Build(ReceiverBase, ReceiverFilters(sel))
  }

  /**
   * Filtered listings: the parameters are the non-"All" facet values in the
   * order city, provider type, food type, meal type, one per such facet.
   */
  lemma ListingsRequestParams(sel: Selection)
    ensures ListingsRequest(sel).params == NonAll([sel.city, sel.providerType, sel.foodType, sel.mealType])
    ensures |ListingsRequest(sel).params| == 4 - multiset([sel.city, sel.providerType, sel.foodType, sel.mealType])[All]
  {
    var fs := ListingsFilters(sel);
    assert Values(fs) == [sel.city, sel.providerType, sel.foodType, sel.mealType];
    BuildParams(ListingsBase, fs);
    BuildParamCount(ListingsBase, fs);
  }

  /**
   * Filtered listings: the query extends the base text and holds exactly one
   * placeholder per parameter.
   */
  lemma ListingsRequestPlaceholders(sel: Selection)
    ensures ListingsBase <= ListingsRequest(sel).text
    ensures Placeholders(ListingsRequest(sel).text) == |ListingsRequest(sel).params|
  {
    var fs := ListingsFilters(sel);
    BuildExtendsBase(ListingsBase, fs);
    ListingsBaseHasNoPlaceholder();
    ClausesEndInOnePlaceholder();
    BuildPlaceholders(ListingsBase, fs);
  }

  /** With all four facets at "All", the query is the base text and nothing is bound. */
  lemma ListingsUnfiltered()
    ensures ListingsRequest(Selection(All, All, All, All)) == Request(ListingsBase, [])
  {
    BuildUnfiltered(ListingsBase, ListingsFilters(Selection(All, All, All, All)));
  }

  /**
   * Provider contacts: at most two parameters, the non-"All" values among
   * city and provider type, with one placeholder per parameter.
   */
  lemma ProviderRequestShape(sel: Selection)
    ensures ProviderRequest(sel).params == NonAll([sel.city, sel.providerType])
    ensures |ProviderRequest(sel).params| == 2 - multiset([sel.city, sel.providerType])[All]
    ensures |ProviderRequest(sel).params| <= 2
    ensures ProviderBase <= ProviderRequest(sel).text
    ensures Placeholders(ProviderRequest(sel).text) == |ProviderRequest(sel).params|
  {
    var fs := ProviderFilters(sel);
    assert Values(fs) == [sel.city, sel.providerType];
    BuildParams(ProviderBase, fs);
    BuildParamCount(ProviderBase, fs);
    BuildExtendsBase(ProviderBase, fs);
    ProviderBaseHasNoPlaceholder();
    ClausesEndInOnePlaceholder();
    BuildPlaceholders(ProviderBase, fs);
  }

  /** The provider-contact query does not depend on the food and meal facets. */
  lemma ProviderRequestIgnoresFoodFacets(a: Selection, b: Selection)
    requires a.city == b.city && a.providerType == b.providerType
    ensures ProviderRequest(a) == ProviderRequest(b)
  {
    assert ProviderFilters(a) == ProviderFilters(b);
  }

  /**
   * Receiver contacts: at most one parameter, the city when it is not "All",
   * with one placeholder per parameter.
   */
  lemma ReceiverRequestShape(sel: Selection)
    ensures ReceiverRequest(sel).params == (if sel.city == All then [] else [sel.city])
    ensures ReceiverBase <= ReceiverRequest(sel).text
    ensures Placeholders(ReceiverRequest(sel).text) == |ReceiverRequest(sel).params|
  {
    var fs := ReceiverFilters(sel);
    BuildPrefixStep(ReceiverBase, fs, 0);
    assert fs[..1] == fs;
    BuildExtendsBase(ReceiverBase, fs);
    ReceiverBaseHasNoPlaceholder();
    ClausesEndInOnePlaceholder();
    BuildPlaceholders(ReceiverBase, fs);
  }

  /** The receiver-contact query depends on the city facet alone. */
  lemma ReceiverRequestIgnoresOtherFacets(a: Selection, b: Selection)
    requires a.city == b.city
    ensures ReceiverRequest(a) == ReceiverRequest(b)
  {
    assert ReceiverFilters(a) == ReceiverFilters(b);
  }

  /** Grows the filtered-listings query clause by clause. */
  method ListingsQuery(sel: Selection) returns (query: string, params: seq<string>)
    ensures Request(query, params) == ListingsRequest(sel)
    ensures params == NonAll([sel.city, sel.providerType, sel.foodType, sel.mealType])
    ensures Placeholders(query) == |params|
  {
    ghost var fs := ListingsFilters(sel);
    query, params := ListingsBase, [];
    if sel.city != All {
      query := query + ListingsCityClause;
      params := params + [sel.city];
    }
    BuildPrefixStep(ListingsBase, fs, 0);
    if sel.providerType != All {
      query := query + ListingsTypeClause;
      params := params + [sel.providerType];
    }
    BuildPrefixStep(ListingsBase, fs, 1);
    if sel.foodType != All {
      query := query + ListingsFoodTypeClause;
      params := params + [sel.foodType];
    }
    BuildPrefixStep(ListingsBase, fs, 2);
    if sel.mealType != All {
      query := query + ListingsMealTypeClause;
      params := params + [sel.mealType];
    }
    BuildPrefixStep(ListingsBase, fs, 3);
    assert fs[..4] == fs;
    ListingsRequestParams(sel);
    ListingsRequestPlaceholders(sel);
  }

  /** Grows the provider-contact query clause by clause. */
  method ProviderQuery(sel: Selection) returns (query: string, params: seq<string>)
    ensures Request(query, params) == ProviderRequest(sel)
    ensures params == NonAll([sel.city, sel.providerType])
    ensures Placeholders(query) == |params|
  {
    ghost var fs := ProviderFilters(sel);
    query, params := ProviderBase, [];
    if sel.city != All {
      query := query + ContactCityClause;
      params := params + [sel.city];
    }
    BuildPrefixStep(ProviderBase, fs, 0);
    if sel.providerType != All {
      query := query + ProviderTypeClause;
      params := params + [sel.providerType];
    }
    BuildPrefixStep(ProviderBase, fs, 1);
    assert fs[..2] == fs;
    ProviderRequestShape(sel);
  }

  /** Grows the receiver-contact query. */
  method ReceiverQuery(sel: Selection) returns (query: string, params: seq<string>)
    ensures Request(query, params) == ReceiverRequest(sel)
    ensures params == (if sel.city == All then [] else [sel.city])
    ensures Placeholders(query) == |params|
  {
    ghost var fs := ReceiverFilters(sel);
    query, params := ReceiverBase, [];
    if sel.city != All {
      query := query + ContactCityClause;
      params := params + [sel.city];
    }
    BuildPrefixStep(ReceiverBase, fs, 0);
    assert fs[..1] == fs;
    ReceiverRequestShape(sel);
  }
}
