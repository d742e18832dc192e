/**
 * The four relations of the food-donation store, one record type per row.
 * Columns that pandas may read as missing (and that `dropna` then drops) are
 * `Option`s; a `None` is a SQL NULL.
 */
module Records {
  import opened Wrappers

  /** A row of `providers`. */
  datatype Provider = Provider(
    providerId: int,
    name: string,
    providerType: Option<string>,
    city: Option<string>,
    contact: string)

  /** A row of `receivers`. */
  datatype Receiver = Receiver(
    receiverId: int,
    name: string,
    city: Option<string>,
    contact: string)

  /** A row of `claims`: a receiver's claim on one food listing. */
  datatype Claim = Claim(
    claimId: int,
    foodId: int,
    receiverId: int,
    status: string)

  /**
   * A row of `food_listings`. The expiry date is kept as the text the store
   * holds: ISO `YYYY-MM-DD` for rows the editor writes, whatever the file had
   * for loaded rows. `providerType` and `location` are columns of the loaded
   * data that the editor's insert does not supply.
   */
  datatype FoodListing = FoodListing(
    foodId: int,
    foodName: string,
    quantity: int,
    expiryDate: string,
    providerId: int,
    providerType: Option<string>,
    location: Option<string>,
    foodType: Option<string>,
    mealType: Option<string>)
}
