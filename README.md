# Food waste management dashboard: query builders, bootstrap and listing editor

The dashboard is a single Streamlit page over a SQLite store. It has four
relations: providers, receivers, food listings and claims. This project models
the page's small amount of real logic:

- **Facet-filter query builders** (`query_builder.dfy`, module `QueryBuilder`).
  There are three: filtered listings, provider contacts and receiver contacts.
  Each starts from a fixed base query that ends in `where 1=1`. For each facet
  whose selected value is not the sentinel `"All"`, it appends one
  `AND column = ?` clause and pushes the value onto a positional parameter list.
  The facets are visited in a fixed order. `Build` is the general builder over a
  list of (clause, value) filters. The methods `ListingsQuery`, `ProviderQuery`
  and `ReceiverQuery` grow the string and the parameter list step by step, as
  the page does, and are proved equal to `Build`. The query texts are copied
  character for character. Long literals are written as a `+` of short pieces
  so that the verifier can inspect them.
- **Facet option lists** (`facet_options.dfy`, module `FacetOptions`). Each list
  is `"All"` followed by the values of one column (`select distinct`), with
  missing values dropped (`dropna`).
- **Bootstrap** (`store.dfy`, module `Store`). The store is the class
  `Database`, with one field per relation; `None` means the relation is absent.
  If `providers` is absent, all four relations are replaced by the CSV contents.
  Otherwise nothing changes.
- **`food_listings` record editor** (`listings.dfy`, module `Listings`, and the
  `Database` methods). It has three statements: insert one row, update
  Quantity/Expiry_Date where Food_ID matches, and delete where Food_ID matches.
  It also has the update panel's lookup of the first matching row.

The CSV files and the existing store contents are parameters: `CsvData` and
the `Database` constructor's argument. Shared record types are in `records.dfy`;
`Option` is in `wrappers.dfy`.

Three behaviours of the code that the model reproduces:

- The loader checks only whether `providers` exists, not whether the store is
  empty.
- `to_sql` creates no key, so inserting an existing Food_ID duplicates it
  rather than failing.
- `food_listings` also has `Provider_Type` and `Location` columns; canned
  reports 3, 18 and 21 read them. The insert supplies neither, so they become
  NULL.

## Model

| member | source | states |
|---|---|---|
| `QueryBuilder.ListingsQuery` | app.py:52-69 | Appending clauses one by one yields `Build` of the base query and the four listings filters. The parameters are the non-"All" values in the order city, provider type, food type, meal type. The query has one `?` per parameter. |
| `QueryBuilder.ProviderQuery` | app.py:83-92 | The same, for the provider-contact query with the city and provider-type filters. |
| `QueryBuilder.ReceiverQuery` | app.py:107-113 | The same, for the receiver-contact query with the city filter only. The parameter list is empty or holds just the city. |
| `QueryBuilder.NonAll` | app.py:57-69 | The values the `!= "All"` guards keep, in order. Each kept value is an input value other than "All", and there are no more of them than inputs. The exact count is proved in `NonAllCount`. |
| `QueryBuilder.Step` | app.py:58-60 | Definition of one guarded step: append the clause and push the value unless the value is "All". Its properties are proved through `Build` in `BuildParams`, `BuildExtendsBase` and `BuildPlaceholders`, and `BuildPrefixStep` ties it to the methods' if-chains. |
| `QueryBuilder.Build` | app.py:55-69 | Definition of the general builder: the base text and an empty parameter list, passed through `Step` for each filter in order. Its properties are proved in `BuildParams`, `BuildParamCount`, `BuildExtendsBase`, `BuildUnfiltered` and `BuildPlaceholders`. |
| `QueryBuilder.ListingsRequest` | app.py:52-69 | Definition: `Build` over the listings base text with the city, provider-type, food-type and meal-type filters. Its properties are proved in `ListingsRequestParams`, `ListingsRequestPlaceholders` and `ListingsUnfiltered`; `ListingsQuery` is proved equal to it. |
| `QueryBuilder.ProviderRequest` | app.py:83-92 | Definition: `Build` over the provider-contact base text with the city and provider-type filters. Its properties are proved in `ProviderRequestShape` and `ProviderRequestIgnoresFoodFacets`; `ProviderQuery` is proved equal to it. |
| `QueryBuilder.ReceiverRequest` | app.py:107-113 | Definition: `Build` over the receiver-contact base text with the city filter. Its properties are proved in `ReceiverRequestShape` and `ReceiverRequestIgnoresOtherFacets`; `ReceiverQuery` is proved equal to it. |
| `QueryBuilder.BuildParams` | app.py:55-69 | The general builder's parameters are exactly the non-sentinel filter values, in filter order. |
| `QueryBuilder.NonAllCount` | app.py:58-69 | The number of kept values is the number of entries minus the number of "All" entries. |
| `QueryBuilder.BuildParamCount` | app.py:58-69 | The builder binds one parameter per filter whose value is not "All". |
| `QueryBuilder.BuildExtendsBase` | app.py:53-69 | The base query is always a prefix of the built query. |
| `QueryBuilder.BuildUnfiltered` | app.py:52-69 | If every filter value is "All", the request is the base text with no parameters. |
| `QueryBuilder.BuildPlaceholders` | app.py:53-69 | If the base has no `?` and each clause ends in its only `?`, the built query has as many placeholders as parameters. |
| `QueryBuilder.ClausesEndInOnePlaceholder` | app.py:59-112 | Each of the six appended clauses is `?`-free text closed by one `?`. |
| `QueryBuilder.ListingsBaseHasNoPlaceholder` | app.py:52-53 | The filtered-listings base query contains no `?`. |
| `QueryBuilder.ProviderBaseHasNoPlaceholder` | app.py:83 | The provider-contact base query contains no `?`. |
| `QueryBuilder.ReceiverBaseHasNoPlaceholder` | app.py:107 | The receiver-contact base query contains no `?`. |
| `QueryBuilder.ListingsRequestParams` | app.py:58-69 | Listings parameters are the non-"All" facets in the fixed order. Their count is 4 minus the number of "All" facets. |
| `QueryBuilder.ListingsRequestPlaceholders` | app.py:53-69 | The listings query extends its base text and has exactly one placeholder per parameter. |
| `QueryBuilder.ListingsUnfiltered` | app.py:52-69 | With all four facets "All", the listings query is the base text and the parameter list is empty. |
| `QueryBuilder.ProviderRequestShape` | app.py:83-92 | Provider parameters are the non-"All" values among city and provider type, at most 2. There is one placeholder per parameter, after the base text. |
| `QueryBuilder.ProviderRequestIgnoresFoodFacets` | app.py:87-92 | The provider-contact query does not depend on the food-type or meal-type facet. |
| `QueryBuilder.ReceiverRequestShape` | app.py:107-113 | The receiver parameters are `[city]` when city is not "All", else empty. There is one placeholder per parameter, after the base text. |
| `QueryBuilder.ReceiverRequestIgnoresOtherFacets` | app.py:111-113 | The receiver-contact query depends on the city facet alone. |
| `FacetOptions.SelectDistinct` | app.py:38-41 | A value is in the `select distinct` result exactly when it is in the column, and no value appears twice. |
| `FacetOptions.DropNulls` | app.py:38-41 | The kept values are exactly the non-NULL entries. If the input has no repeats, neither does the output. |
| `FacetOptions.Options` | app.py:38-41 | The option list starts with "All". After that comes every distinct non-NULL value of the column, each exactly once. |
| `FacetOptions.DefaultSelection` | app.py:44-47 | Definition: each select box starts on the first entry of its option list. `DefaultSelectionFiltersNothing` proves this choice filters nothing. |
| `FacetOptions.DefaultSelectionFiltersNothing` | app.py:38-47 | Each select box's initial choice is its first option, so all three queries start unfiltered. |
| `FacetOptions.ChosenProviderFacetsOccur` | app.py:38-45 | A chosen city or provider type other than "All" occurs in some provider row. |
| `Listings.FoodIds` | app.py:274 | The Food_ID column: one id per row, in row order. |
| `Listings.Matching` | app.py:277-294 | The rows a `Food_ID = id` test selects, in row order, as the panel's mask at line 277 and the `where Food_ID = ?` at lines 282 and 294 use it. A row is kept exactly when it is in the relation and has the id, and there are no more of them than rows. |
| `Listings.NewListing` | app.py:257-259 | Definition of the inserted row: the seven submitted fields as given, with Provider_Type and Location NULL. Its use is proved in `CreateAddsOneRow`, `CreateFreshId` and `CreatePreservesWellFormed`. |
| `Listings.Updated` | app.py:282 | Only Quantity and Expiry_Date change, and only on rows whose Food_ID is the chosen id. Those rows take the new values. All other rows and fields are unchanged, and the row count stays the same. |
| `Listings.Deleted` | app.py:294 | The remaining rows are exactly the rows whose Food_ID differs from the id. The count drops by the number of matching rows. |
| `Listings.PanelRow` | app.py:274-277 | The update panel finds a row exactly when the id is in the Food_ID list. That row is the first one with the id; with no row, `.iloc[0]` fails. |
| `Listings.OfferedIdHasRow` | app.py:274-277 | Every id the update panel offers has a row to show. |
| `Listings.CreateAddsOneRow` | app.py:257-259 | After the insert, the inserted id has exactly one more row, the submitted one, and every other id keeps its rows. |
| `Listings.CreateFreshId` | app.py:257-259 | Inserting under an id not yet present makes the submitted row the only row with that id. |
| `Listings.CreatePreservesWellFormed` | app.py:247-259 | With the form's minimums (Provider_ID, Quantity and Food_ID at least 1), the insert keeps ids and quantities positive. |
| `Listings.UpdateMissingIsNoOp` | app.py:282 | Updating an id with no row leaves the relation unchanged. |
| `Listings.UpdateKeepsIds` | app.py:282 | An update never changes the Food_ID column. |
| `Listings.UpdateThenRead` | app.py:282 | Afterwards the id has as many rows as before, each with the new quantity and expiry date. |
| `Listings.UpdateIdempotent` | app.py:282 | Repeating the same update changes nothing further. |
| `Listings.UpdatePreservesWellFormed` | app.py:278-282 | With the panel's quantity minimum of 1, an update keeps ids and quantities positive. |
| `Listings.DeleteThenRead` | app.py:294 | After the delete, no row has the id. |
| `Listings.DeleteKeepsOthers` | app.py:294 | Every other id keeps the same rows, in the same order and number. |
| `Listings.DeleteMissingIsNoOp` | app.py:294 | Deleting an id with no row leaves the relation unchanged. |
| `Listings.DeleteIdempotent` | app.py:294 | Repeating the same delete changes nothing further. |
| `Listings.DeletedAppend` | app.py:294 | Deleting from a concatenation deletes from each part. |
| `Listings.CreateThenDeleteRestores` | app.py:257-294 | Inserting under an id not yet present and then deleting that id gives back exactly the original relation. |
| `Listings.DeletePreservesWellFormed` | app.py:294 | A delete keeps ids and quantities positive. |
| `Store.Bootstrapped` | app.py:15-30 | Definition of the bootstrap decision: the store as it is when `providers` exists, otherwise all four relations from the files. Its properties are proved in `BootstrapKeepsExisting`, `BootstrapLoadsAll`, `BootstrapEstablishesProviders` and `BootstrapIdempotent`; `Database.Bootstrap` is proved to follow it. |
| `Store.BootstrapKeepsExisting` | app.py:15-19 | If `providers` is present, the store is left unchanged, even when other relations are missing. |
| `Store.BootstrapLoadsAll` | app.py:19-30 | If `providers` is absent, all four relations are set to the CSV contents, replacing whatever was there. |
| `Store.BootstrapEstablishesProviders` | app.py:19-30 | After the bootstrap, `providers` exists. |
| `Store.BootstrapIdempotent` | app.py:15-30 | A second bootstrap, even with different files, changes nothing. |
| `Store.Database.constructor` | app.py:9 | Opening the store exposes its existing contents. |
| `Store.Database.Bootstrap` | app.py:15-30 | The new contents are `Bootstrapped` applied to the old contents and the files. |
| `Store.Database.CreateListing` | app.py:247-260 | Requires the form minimums. Appends the submitted row; fails without change if `food_listings` is absent. Touches nothing else. |
| `Store.Database.UpdateListing` | app.py:278-283 | Applies `Updated` to `food_listings`; fails without change if it is absent. Touches nothing else. |
| `Store.Database.DeleteListing` | app.py:294-295 | Applies `Deleted` to `food_listings`; fails without change if it is absent. Touches nothing else. |

## Left out

- The Streamlit widgets, layout, tabs, info/success/warning messages and the
  CSV download buttons. These are presentation.
- The matplotlib charts. These are rendering.
- The report catalog: 24 canned questions mapped to fixed SQL texts, and the
  selected report's lookup and execution. The lookup is a plain dictionary
  index with no logic of its own. Executing the reports is SQL evaluation inside
  SQLite (GROUP BY, aggregates, subqueries, `DATE('now')` against the clock).
  Some templates are internally inconsistent, for example the alias
  `Expired_Food_Coun` against `ORDER BY Expired_Food_Count`. They would fail in
  the store, and nothing in the model depends on them.
- Executing the built queries: the join and the row filtering SQLite performs.
  The model stops at the query text and the parameter list handed to the store.
  So "every returned row matches the selected facet" is not stated.
- The demand estimate (a floating-point mean over a grouped count).
- Connecting, committing, `read_sql`, `read_csv`, `to_sql` and `to_csv`. These
  are file and database I/O. The CSV contents are the `CsvData` parameter. Each
  editor method changes the store at once, which stands for the immediate
  commit.
- Relations of the SQLite file other than the four named ones, and store errors
  other than a missing `food_listings` relation: a missing column, type
  affinity, SQLite's own placeholder/parameter count check.
- The update panel's number and date widgets pre-filled from the stored row.
  Streamlit's rejection of a stored quantity below 1 and `pd.to_datetime`
  parsing are not modelled; the expiry date is kept as stored text.
- `FacetOptions.SelectDistinct`: the first-occurrence order of the distinct
  values is what the definition computes, but the contract does not state it.
  SQLite does not promise an order for `select distinct`.
- A column value spelled exactly `All` cannot be chosen as a filter. It
  coincides with the sentinel, so selecting it filters nothing. The model
  reproduces this and states no contract about it.
- `Listings.OfferedIdHasRow`: Food_ID, Provider_ID and Quantity are typed
  as plain integers. The model therefore assumes the loaded data has no NULL
  in these columns. With a NULL Food_ID, pandas reads the column as floats with
  NaN. The panel then offers NaN (app.py:274), the mask selects no row, and
  `.iloc[0]` (app.py:277) fails. The lemma holds only under that assumption.
