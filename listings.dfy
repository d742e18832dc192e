/**
 * What the record editor's three statements do to the `food_listings`
 * relation, seen as the sequence of its rows: an INSERT of one row, an UPDATE
 * of Quantity and Expiry_Date on the rows with a given Food_ID, and a DELETE
 * of the rows with a given Food_ID. The relation has no key, so several rows
 * may share a Food_ID.
 */
module Listings {
  import opened Wrappers
  import opened Records

  /** The Food_ID column, in row order: the choices of the update and delete panels. */
  function FoodIds(rows: seq<FoodListing>): (ids: seq<int>)
    ensures |ids| == |rows|
    ensures forall i :: 0 <= i < |rows| ==> ids[i] == rows[i].foodId
  {
    seq(|rows|, i requires 0 <= i < |rows| => rows[i].foodId)
  }

  /** The rows whose Food_ID is `id`, in row order (`where Food_ID = id`). */
  function Matching(rows: seq<FoodListing>, id: int): (r: seq<FoodListing>)
    ensures forall x :: x in r <==> x in rows && x.foodId == id
    ensures |r| <= |rows|
  {
    if rows == [] then []
    else (if rows[0].foodId == id then [rows[0]] else []) + Matching(rows[1..], id)
  }

  /**
   * The row the create form inserts. The seven submitted fields are stored
   * as given; the Provider_Type and Location columns are not supplied and
   * become NULL.
   */
  function NewListing(providerId: int, foodType: string, mealType: string, quantity: int,
                      expiryDate: string, foodName: string, foodId: int): FoodListing
  {
    FoodListing(foodId, foodName, quantity, expiryDate, providerId, None, None, Some(foodType), Some(mealType))
  }

  /** The relation after `update ... SET Quantity = q, Expiry_Date = e where Food_ID = id`. */
  function Updated(rows: seq<FoodListing>, id: int, quantity: int, expiryDate: string): (r: seq<FoodListing>)
    ensures |r| == |rows|
    ensures forall i :: 0 <= i < |rows| ==>
              r[i].(quantity := rows[i].quantity, expiryDate := rows[i].expiryDate) == rows[i]
    ensures forall i :: 0 <= i < |rows| && rows[i].foodId == id ==>
              r[i].quantity == quantity && r[i].expiryDate == expiryDate
    ensures forall i :: 0 <= i < |rows| && rows[i].foodId != id ==> r[i] == rows[i]
  {
    seq(|rows|, i requires 0 <= i < |rows| =>
      if rows[i].foodId == id then rows[i].(quantity := quantity, expiryDate := expiryDate) else rows[i])
  }

  /** The relation after `Delete from food_listings where Food_ID = id`. */
  function Deleted(rows: seq<FoodListing>, id: int): (r: seq<FoodListing>)
    ensures forall x :: x in r <==> x in rows && x.foodId != id
    ensures |r| + |Matching(rows, id)| == |rows|
  {
    if rows == [] then []
    else (if rows[0].foodId == id then [] else [rows[0]]) + Deleted(rows[1..], id)
  }

  /**
   * The row the update panel shows for a chosen id: the first row with that
   * Food_ID, or `None` when there is none, where `.iloc[0]` fails.
   */
  function PanelRow(rows: seq<FoodListing>, id: int): (r: Option<FoodListing>)
    ensures r.Some? <==> id in FoodIds(rows)
    ensures r.Some? ==> r.value.foodId == id && r.value == Matching(rows, id)[0]
  {
    if rows == [] then None
    else if rows[0].foodId == id then Some(rows[0])
    else
      assert FoodIds(rows) == [rows[0].foodId] + FoodIds(rows[1..]);
      PanelRow(rows[1..], id)
  }

  /** Every id offered by the update panel has a row to show. */
  lemma OfferedIdHasRow(rows: seq<FoodListing>, k: nat)
    requires k < |rows|
    ensures PanelRow(rows, FoodIds(rows)[k]).Some?
  {
  }

  /** The invariant the editor's input minimums keep: positive ids and quantities. */
  predicate WellFormed(rows: seq<FoodListing>)
  {
    forall i :: 0 <= i < |rows| ==> rows[i].foodId >= 1 && rows[i].providerId >= 1 && rows[i].quantity >= 1
  }

  /** `Matching` distributes over concatenation. */
  lemma {:induction false} MatchingAppend(a: seq<FoodListing>, b: seq<FoodListing>, id: int)
    ensures Matching(a + b, id) == Matching(a, id) + Matching(b, id)
  {
    if a == [] {
      assert a + b == b;
    } else {
      assert (a + b)[1..] == a[1..] + b;
      MatchingAppend(a[1..], b, id);
    }
  }

  /** An id absent from the Food_ID column selects no row. */
  lemma {:induction false} NoMatchWithoutId(rows: seq<FoodListing>, id: int)
    requires id !in FoodIds(rows)
    ensures Matching(rows, id) == []
  {
    if rows != [] {
      assert FoodIds(rows)[0] == rows[0].foodId;
      assert FoodIds(rows[1..]) == FoodIds(rows)[1..];
      NoMatchWithoutId(rows[1..], id);
    }
  }

  // ---- Create ----

  /**
   * After the insert the relation holds one more row with the submitted id,
   * that row carries the submitted values, and the rows of every other id
   * are as before.
   */
  lemma CreateAddsOneRow(rows: seq<FoodListing>, row: FoodListing, id: int)
    ensures Matching(rows + [row], id)
         == if row.foodId == id then Matching(rows, id) + [row] else Matching(rows, id)
  {
    MatchingAppend(rows, [row], id);
  }

  /** Inserting under a fresh id makes that id's rows exactly the new row. */
  lemma CreateFreshId(rows: seq<FoodListing>, row: FoodListing)
    requires row.foodId !in FoodIds(rows)
    ensures Matching(rows + [row], row.foodId) == [row]
  {
    CreateAddsOneRow(rows, row, row.foodId);
  }

  /** A row submitted through the create form keeps the relation well formed. */
  lemma CreatePreservesWellFormed(rows: seq<FoodListing>, providerId: int, foodType: string, mealType: string,
                                  quantity: int, expiryDate: string, foodName: string, foodId: int)
    requires WellFormed(rows)
    requires providerId >= 1 && quantity >= 1 && foodId >= 1
    ensures WellFormed(rows + [NewListing(providerId, foodType, mealType, quantity, expiryDate, foodName, foodId)])
  {
  }

  // ---- Update ----

  /** An id with no row leaves the relation as it was. */
  lemma UpdateMissingIsNoOp(rows: seq<FoodListing>, id: int, quantity: int, expiryDate: string)
    requires id !in FoodIds(rows)
    ensures Updated(rows, id, quantity, expiryDate) == rows
  {
    var r := Updated(rows, id, quantity, expiryDate);
    forall i | 0 <= i < |rows| ensures r[i] == rows[i] {
      assert FoodIds(rows)[i] == rows[i].foodId;
    }
  }

  /** Update never changes which ids the relation holds, nor their order. */
  lemma UpdateKeepsIds(rows: seq<FoodListing>, id: int, quantity: int, expiryDate: string)
    ensures FoodIds(Updated(rows, id, quantity, expiryDate)) == FoodIds(rows)
  {
  }

  /** Reading back the updated id shows the new quantity and expiry on every one of its rows. */
  lemma {:induction false} UpdateThenRead(rows: seq<FoodListing>, id: int, quantity: int, expiryDate: string)
    ensures |Matching(Updated(rows, id, quantity, expiryDate), id)| == |Matching(rows, id)|
    ensures forall x :: x in Matching(Updated(rows, id, quantity, expiryDate), id) ==>
              x.quantity == quantity && x.expiryDate == expiryDate
  {
    if rows != [] {
      UpdateThenRead(rows[1..], id, quantity, expiryDate);
      assert Updated(rows, id, quantity, expiryDate)[1..] == Updated(rows[1..], id, quantity, expiryDate);
    }
  }

  /** Repeating an update changes nothing more. */
  lemma UpdateIdempotent(rows: seq<FoodListing>, id: int, quantity: int, expiryDate: string)
    ensures Updated(Updated(rows, id, quantity, expiryDate), id, quantity, expiryDate)
         == Updated(rows, id, quantity, expiryDate)
  {
  }

  /** An update from the panel keeps the relation well formed. */
  lemma UpdatePreservesWellFormed(rows: seq<FoodListing>, id: int, quantity: int, expiryDate: string)
    requires WellFormed(rows) && quantity >= 1
    ensures WellFormed(Updated(rows, id, quantity, expiryDate))
  {
  }

  // ---- Delete ----

  /** After the delete no row carries the id. */
  lemma DeleteThenRead(rows: seq<FoodListing>, id: int)
    ensures id !in FoodIds(Deleted(rows, id))
    ensures Matching(Deleted(rows, id), id) == []
  {
    var r := Deleted(rows, id);
    forall i | 0 <= i < |r| ensures FoodIds(r)[i] != id {
      assert r[i] in r;
    }
    NoMatchWithoutId(r, id);
  }

  /** The rows of every other id survive the delete unchanged, in order and number. */
  lemma {:induction false} DeleteKeepsOthers(rows: seq<FoodListing>, id: int, other: int)
    requires other != id
    ensures Matching(Deleted(rows, id), other) == Matching(rows, other)
  {
    if rows != [] {
      DeleteKeepsOthers(rows[1..], id, other);
      var head := if rows[0].foodId == id then [] else [rows[0]];
      MatchingAppend(head, Deleted(rows[1..], id), other);
    }
  }

  /** An id with no row leaves the relation as it was. */
  lemma {:induction false} DeleteMissingIsNoOp(rows: seq<FoodListing>, id: int)
    requires id !in FoodIds(rows)
    ensures Deleted(rows, id) == rows
  {
    if rows != [] {
      assert FoodIds(rows)[0] == rows[0].foodId;
      assert FoodIds(rows[1..]) == FoodIds(rows)[1..];
      DeleteMissingIsNoOp(rows[1..], id);
      assert rows == [rows[0]] + rows[1..];
    }
  }

  /** Repeating a delete changes nothing more. */
  lemma DeleteIdempotent(rows: seq<FoodListing>, id: int)
    ensures Deleted(Deleted(rows, id), id) == Deleted(rows, id)
  {
    DeleteThenRead(rows, id);
    DeleteMissingIsNoOp(Deleted(rows, id), id);
  }

  /** `Deleted` distributes over concatenation. */
  lemma {:induction false} DeletedAppend(a: seq<FoodListing>, b: seq<FoodListing>, id: int)
    ensures Deleted(a + b, id) == Deleted(a, id) + Deleted(b, id)
  {
    if a == [] {
      assert a + b == b;
    } else {
      assert (a + b)[1..] == a[1..] + b;
      DeletedAppend(a[1..], b, id);
    }
  }

  /**
   * Inserting a listing under an id the relation does not hold and then
   * deleting that id gives back exactly the relation as it was before.
   */
  lemma CreateThenDeleteRestores(rows: seq<FoodListing>, row: FoodListing)
    requires row.foodId !in FoodIds(rows)
    ensures Deleted(rows + [row], row.foodId) == rows
  {
    DeletedAppend(rows, [row], row.foodId);
    DeleteMissingIsNoOp(rows, row.foodId);
  }

  /** Deleting keeps the relation well formed. */
  lemma DeletePreservesWellFormed(rows: seq<FoodListing>, id: int)
    requires WellFormed(rows)
    ensures WellFormed(Deleted(rows, id))
  {
    var r := Deleted(rows, id);
    forall i | 0 <= i < |r| ensures r[i].foodId >= 1 && r[i].providerId >= 1 && r[i].quantity >= 1 {
      assert r[i] in rows;
    }
  }
}
