/** The registry mutators of the application state: creating a product or an
    operation (prepended, newest first), adding a warehouse (appended, always
    INTERNAL), and the manual stock adjustment that overwrites stock and
    location of every product with a given id. */
module Registry {
  import opened Types
  import opened Seqs
  import StockEngine

  /** `handleAddProduct`: the new product goes in front; nothing is checked,
      not even that its id or SKU is new. */
  function AddProduct(s: AppState, p: Product): (r: AppState)
    ensures |r.products| == |s.products| + 1
    ensures r.products[0] == p && r.products[1..] == s.products
    ensures r.operations == s.operations && r.locations == s.locations
  {
    s.(products := [p] + s.products)
  }

  /** `handleCreateOperation`: the new operation goes in front, so it is the
      newest one any view shows first. */
  function CreateOperation(s: AppState, op: Operation): (r: AppState)
    ensures |r.operations| == |s.operations| + 1
    ensures r.operations[0] == op && r.operations[1..] == s.operations
    ensures r.products == s.products && r.locations == s.locations
  {
    s.(operations := [op] + s.operations)
  }

  /** `handleAddLocation`: a new INTERNAL location with the given id (a
      timestamp in the source) and name is appended. */
  function AddLocation(s: AppState, id: string, name: string): (r: AppState)
    ensures |r.locations| == |s.locations| + 1
    ensures r.locations[..|s.locations|] == s.locations
    ensures r.locations[|s.locations|] == Location(id, name, LocationKind.Internal)
    ensures r.products == s.products && r.operations == s.operations
  {
    s.(locations := s.locations + [Location(id, name, LocationKind.Internal)])
  }

  /** `handleStockAdjustment`: every product whose id matches gets the new
      stock and location and keeps every other field; all other products,
      the operations and the locations are untouched. */
  function AdjustStock(s: AppState, productId: string, newStock: int, newLocationId: string): (r: AppState)
    ensures |r.products| == |s.products|
    ensures forall i :: 0 <= i < |s.products| && s.products[i].id == productId ==>
              && SameRecord(s.products[i], r.products[i])
              && r.products[i].stock == newStock
              && r.products[i].locationId == newLocationId
    ensures forall i :: 0 <= i < |s.products| && s.products[i].id != productId ==> r.products[i] == s.products[i]
    ensures r.operations == s.operations && r.locations == s.locations
  {
    var products := seq(|s.products|, i requires 0 <= i < |s.products| =>
      var p := s.products[i];
      if p.id == productId then p.(stock := newStock, locationId := newLocationId) else p);
    s.(products := products)
  }

  /** Adjusting twice with the same values is adjusting once; the previous
      values are lost after the first. */
  lemma AdjustStockIdempotent(s: AppState, productId: string, newStock: int, newLocationId: string)
    ensures AdjustStock(AdjustStock(s, productId, newStock, newLocationId), productId, newStock, newLocationId)
            == AdjustStock(s, productId, newStock, newLocationId)
  {
  }

  /** Adding a warehouse never reclassifies a location id already in the
      registry (the first location with an id decides), and makes a fresh id
      internal. */
  lemma AddLocationClassification(s: AppState, id: string, name: string, x: string)
    ensures (exists i :: 0 <= i < |s.locations| && s.locations[i].id == x) ==>
              StockEngine.LocationIsInternal(AddLocation(s, id, name).locations, x)
                == StockEngine.LocationIsInternal(s.locations, x)
    ensures (forall i :: 0 <= i < |s.locations| ==> s.locations[i].id != id) ==>
              StockEngine.LocationIsInternal(AddLocation(s, id, name).locations, id)
  {
    var locs, locs' := s.locations, AddLocation(s, id, name).locations;
    var f := (l: Location) => l.id == x;
    var first := FirstIndex(locs, f);
    if first.Some? {
      var k := first.value;
      assert locs'[k] == locs[k];
      assert forall j :: 0 <= j < k ==> locs'[j] == locs[j];
      assert FirstIndex(locs', f) == first;
    }
    if forall i :: 0 <= i < |locs| ==> locs[i].id != id {
      var n := |locs|;
      assert locs'[n].id == id && locs'[n].kind == LocationKind.Internal;
      assert forall j :: 0 <= j < n ==> locs'[j].id != id by {
        forall j | 0 <= j < n ensures locs'[j].id != id {
          assert locs'[j] == locs[j];
        }
      }
    }
  }

  /** Creating an operation and then validating it by its id reaches the new
      operation (it stands first), applies its lines to the products and marks
      it DONE. */
  lemma CreateThenValidate(s: AppState, op: Operation)
    requires op.status != Done
    ensures StockEngine.Validate(CreateOperation(s, op), op.id).operations
            == [op.(status := Done)] + s.operations
    ensures StockEngine.Validate(CreateOperation(s, op), op.id).products
            == StockEngine.ApplyLines(s.products, op.lines, StockEngine.MovementOf(s.locations, op), op.destLocationId)
  {
    var c := CreateOperation(s, op);
    assert StockEngine.OperationIndex(c.operations, op.id) == Some(0);
    assert c.operations[0 := op.(status := Done)] == [op.(status := Done)] + s.operations;
  }
}
