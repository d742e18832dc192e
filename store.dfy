/**
 * The relational store the dashboard opens at start-up: the four named
 * relations, each present or absent, the bootstrap that fills them from the
 * CSV files when `providers` is missing, and the record editor's statements
 * on `food_listings`, each of which writes to the store at once.
 */
module Store {
  import opened Wrappers
  import opened Records
  import opened Listings

  /** The contents of the four relations; `None` is a relation the store does not have. */
  datatype Tables = Tables(
    providers: Option<seq<Provider>>,
    receivers: Option<seq<Receiver>>,
    foodListings: Option<seq<FoodListing>>,
    claims: Option<seq<Claim>>)

  /** What the four CSV files hold: providers, receivers, food listings, claims. */
  datatype CsvData = CsvData(
    providers: seq<Provider>,
    receivers: seq<Receiver>,
    foodListings: seq<FoodListing>,
    claims: seq<Claim>)

  /** The store after the bootstrap: loaded from the files only when `providers` is absent. */
  function Bootstrapped(t: Tables, csv: CsvData): Tables
  {
    if t.providers.Some? then t
    else Tables(Some(csv.providers), Some(csv.receivers), Some(csv.foodListings), Some(csv.claims))
  }

  /** A store that has `providers` is left exactly as it is, whatever else it lacks. */
  lemma BootstrapKeepsExisting(t: Tables, csv: CsvData)
    requires t.providers.Some?
    ensures Bootstrapped(t, csv) == t
  {
  }

  /** A store without `providers` gets all four relations from the files, replacing any it had. */
  lemma BootstrapLoadsAll(t: Tables, csv: CsvData)
    requires t.providers.None?
    ensures Bootstrapped(t, csv).providers == Some(csv.providers)
    ensures Bootstrapped(t, csv).receivers == Some(csv.receivers)
    ensures Bootstrapped(t, csv).foodListings == Some(csv.foodListings)
    ensures Bootstrapped(t, csv).claims == Some(csv.claims)
  {
  }

  /** After the bootstrap the store has `providers`. */
  lemma BootstrapEstablishesProviders(t: Tables, csv: CsvData)
    ensures Bootstrapped(t, csv).providers.Some?
  {
  }

  /** A second bootstrap, even with other files, changes nothing. */
  lemma BootstrapIdempotent(t: Tables, first: CsvData, second: CsvData)
    ensures Bootstrapped(Bootstrapped(t, first), second) == Bootstrapped(t, first)
  {
    BootstrapEstablishesProviders(t, first);
    BootstrapKeepsExisting(Bootstrapped(t, first), second);
  }

  /** The store behind the single connection the page holds. */
  class Database {
    var providers: Option<seq<Provider>>
    var receivers: Option<seq<Receiver>>
    var foodListings: Option<seq<FoodListing>>
    var claims: Option<seq<Claim>>

    /** The current contents of the four relations. */
    function Snapshot(): Tables
      reads this
    {
      Tables(providers, receivers, foodListings, claims)
    }

    /** Open the store with whatever it already holds. */
    constructor (initial: Tables)
      ensures Snapshot() == initial
    {
      providers := initial.providers;
      receivers := initial.receivers;
      foodListings := initial.foodListings;
      claims := initial.claims;
    }

    /** Load the four CSV files into the store unless `providers` already exists. */
    method Bootstrap(csv: CsvData)
      modifies this
      ensures Snapshot() == Bootstrapped(old(Snapshot()), csv)
    {
      if providers.None? {
        providers := Some(csv.providers);
        receivers := Some(csv.receivers);
        foodListings := Some(csv.foodListings);
        claims := Some(csv.claims);
      }
    }

    /**
     * Insert the row the create form submits. Without a `food_listings`
     * relation the statement fails and the store is unchanged.
     */
    method CreateListing(providerId: int, foodType: string, mealType: string, quantity: int,
                         expiryDate: string, foodName: string, foodId: int) returns (ok: bool)
      requires providerId >= 1 && quantity >= 1 && foodId >= 1
      modifies this`foodListings
      ensures ok == old(foodListings).Some?
      ensures foodListings == if ok
        then Some(old(foodListings).value + [NewListing(providerId, foodType, mealType, quantity, expiryDate, foodName, foodId)])
        else old(foodListings)
    {
      ok := foodListings.Some?;
      if ok {
        var row := NewListing(providerId, foodType, mealType, quantity, expiryDate, foodName, foodId);
        foodListings := Some(foodListings.value + [row]);
      }
    }

    /**
     * Set Quantity and Expiry_Date on the rows whose Food_ID is `id`.
     * Without a `food_listings` relation the statement fails and the store is
     * unchanged.
     */
    method UpdateListing(id: int, newQuantity: int, newExpiry: string) returns (ok: bool)
      requires newQuantity >= 1
      modifies this`foodListings
      ensures ok == old(foodListings).Some?
      ensures foodListings == if ok
        then Some(Updated(old(foodListings).value, id, newQuantity, newExpiry))
        else old(foodListings)
    {
      ok := foodListings.Some?;
      if ok {
        foodListings := Some(Updated(foodListings.value, id, newQuantity, newExpiry));
      }
    }

    /**
     * Remove the rows whose Food_ID is `id`. Without a `food_listings`
     * relation the statement fails and the store is unchanged.
     */
    method DeleteListing(id: int) returns (ok: bool)
      modifies this`foodListings
      ensures ok == old(foodListings).Some?
      ensures foodListings == if ok then Some(Deleted(old(foodListings).value, id)) else old(foodListings)
    {
      ok := foodListings.Some?;
      if ok {
        foodListings := Some(Deleted(foodListings.value, id));
      }
    }
  }
}
