/** The registry the application starts with: six locations, five products
    and three operations, and what validating each seed operation does. */
module Seed {
  import opened Types
  import opened Seqs
  import opened StockEngine
  import Dashboard
  import AdjustmentsView
  import OperationsView
  import Conservation

  /** The categories the product form offers. */
  const ProductCategories: seq<string> := ["Hardware", "Raw Material", "Consumable", "Furniture", "Accessories"]

  const SeedLocations: seq<Location> := [
    Location("loc_vendor", "Vendors", Vendor),
    Location("loc_customer", "Customers", Customer),
    Location("loc_wh_stock", "WH/Stock", LocationKind.Internal),
    Location("loc_wh_pack", "WH/Packing Zone", LocationKind.Internal),
    Location("loc_wh_input", "WH/Input", LocationKind.Internal),
    Location("loc_loss", "Inventory Loss", InventoryLoss)
  ]

  const SeedProducts: seq<Product> := [
    Product("p1", "Steel Rods 10mm", "ST-1001", "Raw Material", "Units", 150, "loc_wh_stock", 12.5),
    Product("p2", "Office Chair", "FURN-001", "Furniture", "Units", 45, "loc_wh_stock", 85.0),
    Product("p3", "Bolt M4", "HDW-022", "Hardware", "Box", 500, "loc_wh_stock", 0.5),
    Product("p4", "Red Paint", "PNT-RED", "Consumable", "Liters", 20, "loc_wh_stock", 18.0),
    Product("p5", "Laptop Stand", "ACC-LAP", "Accessories", "Units", 0, "loc_wh_stock", 25.0)
  ]

  const SeedOperations: seq<Operation> := [
    Operation("op1", Receipt, "WH/IN/0001", "loc_vendor", "loc_wh_stock", Done, "2023-10-25",
              [OperationLine("p1", "Steel Rods 10mm", 50)]),
    Operation("op2", Delivery, "WH/OUT/0001", "loc_wh_stock", "loc_customer", Ready, "2023-10-26",
              [OperationLine("p2", "Office Chair", 5)]),
    Operation("op3", OperationType.Internal, "WH/INT/0001", "loc_wh_stock", "loc_wh_pack", Draft, "2023-10-27",
              [OperationLine("p3", "Bolt M4", 100)])
  ]

  const SeedState: AppState := AppState(SeedProducts, SeedOperations, SeedLocations)

  /** Six locations with distinct ids. */
  lemma SeedLocationIds()
    ensures |SeedLocations| == 6
    ensures forall i, j :: 0 <= i < j < |SeedLocations| ==> SeedLocations[i].id != SeedLocations[j].id
  {
  }

  /** Exactly three seed locations are warehouses. */
  lemma SeedWarehouseCount()
    ensures |AdjustmentsView.InternalLocations(SeedLocations)| == 3
  {
    assert (set i: nat | i < |SeedLocations| && SeedLocations[i].kind == LocationKind.Internal) == {2, 3, 4};
  }

  /** How the seed registry classifies each of its location ids. */
  lemma SeedClassification()
    ensures LocationIsInternal(SeedLocations, "loc_wh_stock")
    ensures LocationIsInternal(SeedLocations, "loc_wh_pack")
    ensures LocationIsInternal(SeedLocations, "loc_wh_input")
    ensures !LocationIsInternal(SeedLocations, "loc_vendor")
    ensures !LocationIsInternal(SeedLocations, "loc_customer")
    ensures !LocationIsInternal(SeedLocations, "loc_loss")
  {
    StockIsInternal();
    PackIsInternal();
    InputIsInternal();
    VendorIsExternal();
    CustomerIsExternal();
    LossIsExternal();
  }

  // One classification per lemma keeps each proof to a single lookup.
  lemma StockIsInternal() ensures LocationIsInternal(SeedLocations, "loc_wh_stock") { Classified(SeedLocations, 2); }
  lemma PackIsInternal() ensures LocationIsInternal(SeedLocations, "loc_wh_pack") { Classified(SeedLocations, 3); }
  lemma InputIsInternal() ensures LocationIsInternal(SeedLocations, "loc_wh_input") { Classified(SeedLocations, 4); }
  lemma VendorIsExternal() ensures !LocationIsInternal(SeedLocations, "loc_vendor") { Classified(SeedLocations, 0); }
  lemma CustomerIsExternal() ensures !LocationIsInternal(SeedLocations, "loc_customer") { Classified(SeedLocations, 1); }
  lemma LossIsExternal() ensures !LocationIsInternal(SeedLocations, "loc_loss") { Classified(SeedLocations, 5); }

  /** A location whose id no earlier location carries is classified by its
      own kind. */
  lemma Classified(locs: seq<Location>, i: nat)
    requires i < |locs|
    requires forall j :: 0 <= j < i ==> locs[j].id != locs[i].id
    ensures LocationIsInternal(locs, locs[i].id) <==> locs[i].kind == LocationKind.Internal
  {
    if LocationIsInternal(locs, locs[i].id) {
      var w :| 0 <= w < |locs| && locs[w].id == locs[i].id && locs[w].kind == LocationKind.Internal
               && forall j :: 0 <= j < w ==> locs[j].id != locs[i].id;
      assert w == i;
    }
  }

  /** Five products with distinct ids, all in the main warehouse, each in one
      of the offered categories. */
  lemma SeedProductFacts()
    ensures |SeedProducts| == 5
    ensures forall i, j :: 0 <= i < j < |SeedProducts| ==> SeedProducts[i].id != SeedProducts[j].id
    ensures forall i :: 0 <= i < |SeedProducts| ==> SeedProducts[i].locationId == "loc_wh_stock"
    ensures forall i :: 0 <= i < |SeedProducts| ==> SeedProducts[i].category in ProductCategories
  {
  }

  /** The main warehouse card counts all five products. */
  lemma SeedStoredAtMain()
    ensures AdjustmentsView.ProductsStoredAt(SeedProducts, "loc_wh_stock") == 5
  {
    SeedProductFacts();
    var f := AdjustmentsView.StoredAt("loc_wh_stock");
    assert forall i :: 0 <= i < |SeedProducts| ==> f(SeedProducts[i]);
    assert Filter(SeedProducts, f) == SeedProducts;
  }

  /** A product whose id no earlier product carries is the one its id
      resolves to. */
  lemma ProductFound(ps: seq<Product>, i: nat)
    requires i < |ps|
    requires forall j :: 0 <= j < i ==> ps[j].id != ps[i].id
    ensures ProductIndex(ps, ps[i].id) == Some(i)
  {
  }

  /** The same for operations. */
  lemma OperationFound(ops: seq<Operation>, i: nat)
    requires i < |ops|
    requires forall j :: 0 <= j < i ==> ops[j].id != ops[i].id
    ensures OperationIndex(ops, ops[i].id) == Some(i)
  {
  }

  /** Every seed operation's source and destination is a seed location. */
  lemma SeedOperationLocations()
    ensures SeedOperations[0].sourceLocationId == SeedLocations[0].id && SeedOperations[0].destLocationId == SeedLocations[2].id
    ensures SeedOperations[1].sourceLocationId == SeedLocations[2].id && SeedOperations[1].destLocationId == SeedLocations[1].id
    ensures SeedOperations[2].sourceLocationId == SeedLocations[2].id && SeedOperations[2].destLocationId == SeedLocations[3].id
    ensures forall k :: 0 <= k < |SeedOperations| ==>
              (exists j :: 0 <= j < |SeedLocations| && SeedLocations[j].id == SeedOperations[k].sourceLocationId)
              && (exists j :: 0 <= j < |SeedLocations| && SeedLocations[j].id == SeedOperations[k].destLocationId)
  {
    assert |SeedOperations| == 3;
    forall k | 0 <= k < 3
      ensures (exists j :: 0 <= j < |SeedLocations| && SeedLocations[j].id == SeedOperations[k].sourceLocationId)
              && (exists j :: 0 <= j < |SeedLocations| && SeedLocations[j].id == SeedOperations[k].destLocationId)
    {
      var src := if k == 0 then 0 else 2;
      var dst := if k == 0 then 2 else if k == 1 then 1 else 3;
      assert SeedLocations[src].id == SeedOperations[k].sourceLocationId;
      assert SeedLocations[dst].id == SeedOperations[k].destLocationId;
    }
  }

  // Each seed id resolves to its own record, one lookup per lemma.
  lemma P1Found() ensures ProductIndex(SeedProducts, "p1") == Some(0) { ProductFound(SeedProducts, 0); }
  lemma P2Found() ensures ProductIndex(SeedProducts, "p2") == Some(1) { ProductFound(SeedProducts, 1); }
  lemma P3Found() ensures ProductIndex(SeedProducts, "p3") == Some(2) { ProductFound(SeedProducts, 2); }
  lemma Op1Found() ensures OperationIndex(SeedOperations, "op1") == Some(0) { OperationFound(SeedOperations, 0); }
  lemma Op2Found() ensures OperationIndex(SeedOperations, "op2") == Some(1) { OperationFound(SeedOperations, 1); }
  lemma Op3Found() ensures OperationIndex(SeedOperations, "op3") == Some(2) { OperationFound(SeedOperations, 2); }

  /** op1 is DONE, op2 READY, op3 DRAFT, and each has one line, whose
      product is the seed product at the same position; the source and the
      destination of each are ids of seed locations (which are distinct, so
      each id names exactly one location). */
  lemma SeedOperationLines()
    ensures SeedOperations[0].status == Done && SeedOperations[1].status == Ready && SeedOperations[2].status == Draft
    ensures |SeedOperations[0].lines| == 1 && ProductIndex(SeedProducts, SeedOperations[0].lines[0].productId) == Some(0)
    ensures |SeedOperations[1].lines| == 1 && ProductIndex(SeedProducts, SeedOperations[1].lines[0].productId) == Some(1)
    ensures |SeedOperations[2].lines| == 1 && ProductIndex(SeedProducts, SeedOperations[2].lines[0].productId) == Some(2)
    ensures SeedOperations[0].sourceLocationId == SeedLocations[0].id && SeedOperations[0].destLocationId == SeedLocations[2].id
    ensures SeedOperations[1].sourceLocationId == SeedLocations[2].id && SeedOperations[1].destLocationId == SeedLocations[1].id
    ensures SeedOperations[2].sourceLocationId == SeedLocations[2].id && SeedOperations[2].destLocationId == SeedLocations[3].id
    ensures forall k :: 0 <= k < |SeedOperations| ==>
              (exists j :: 0 <= j < |SeedLocations| && SeedLocations[j].id == SeedOperations[k].sourceLocationId)
              && (exists j :: 0 <= j < |SeedLocations| && SeedLocations[j].id == SeedOperations[k].destLocationId)
  {
    SeedOperationLocations();
    P1Found();
    P2Found();
    P3Found();
  }

  /** The locations of op1, op2 and op3 make a receipt, a delivery and a
      relocation. */
  lemma SeedMovements()
    ensures MovementOf(SeedLocations, SeedOperations[0]) == Incoming
    ensures MovementOf(SeedLocations, SeedOperations[1]) == Outgoing
    ensures MovementOf(SeedLocations, SeedOperations[2]) == Relocation
  {
    Op1IsIncoming();
    Op2IsOutgoing();
    Op3IsRelocation();
  }

  lemma Op1IsIncoming() ensures MovementOf(SeedLocations, SeedOperations[0]) == Incoming
  {
    VendorIsExternal();
    StockIsInternal();
  }

  lemma Op2IsOutgoing() ensures MovementOf(SeedLocations, SeedOperations[1]) == Outgoing
  {
    StockIsInternal();
    CustomerIsExternal();
  }

  lemma Op3IsRelocation() ensures MovementOf(SeedLocations, SeedOperations[2]) == Relocation
  {
    StockIsInternal();
    PackIsInternal();
  }

  /** 715 items in stock: 150 + 45 + 500 + 20 + 0. */
  lemma SeedTotalStock()
    ensures Dashboard.TotalStock(SeedProducts) == 715
  {
    var ps := SeedProducts;
    assert Dashboard.TotalStock(ps[..1]) == 150 by { assert ps[..1][..0] == []; }
    assert Dashboard.TotalStock(ps[..2]) == 195 by { assert ps[..2][..1] == ps[..1]; }
    assert Dashboard.TotalStock(ps[..3]) == 695 by { assert ps[..3][..2] == ps[..2]; }
    assert Dashboard.TotalStock(ps[..4]) == 715 by { assert ps[..4][..3] == ps[..3]; }
    assert ps[..5] == ps;
  }

  /** One low-stock alert (the laptop stand at 0); no pending receipt, one
      pending delivery (op2), no READY internal transfer. */
  lemma SeedCounts()
    ensures Dashboard.LowStockCount(SeedProducts) == 1
    ensures Dashboard.PendingReceipts(SeedOperations) == 0
    ensures Dashboard.PendingDeliveries(SeedOperations) == 1
    ensures Dashboard.ReadyInternalCount(SeedOperations) == 0
  {
    SeedLowStock();
    SeedPendingReceipts();
    SeedPendingDeliveries();
    SeedReadyInternal();
  }

  lemma SeedLowStock() ensures Dashboard.LowStockCount(SeedProducts) == 1
  {
    assert (set i: nat | i < |SeedProducts| && SeedProducts[i].stock < 10) == {4};
  }

  lemma SeedPendingReceipts() ensures Dashboard.PendingReceipts(SeedOperations) == 0
  {
    assert (set i: nat | i < |SeedOperations| && SeedOperations[i].opType == Receipt
                         && SeedOperations[i].status in {Draft, Ready}) == {};
  }

  lemma SeedPendingDeliveries() ensures Dashboard.PendingDeliveries(SeedOperations) == 1
  {
    assert (set i: nat | i < |SeedOperations| && SeedOperations[i].opType == Delivery
                         && SeedOperations[i].status in {Draft, Ready}) == {1};
  }

  lemma SeedReadyInternal() ensures Dashboard.ReadyInternalCount(SeedOperations) == 0
  {
    assert (set i: nat | i < |SeedOperations| && SeedOperations[i].opType == OperationType.Internal
                         && SeedOperations[i].status == Ready) == {};
  }

  /** Validating op1, already DONE, changes nothing. */
  lemma ValidateSeedOp1()
    ensures Validate(SeedState, "op1") == SeedState
  {
    Op1Found();
  }

  /** A single line on product `i`, which is the one its id resolves to. */
  lemma SingleLine(ps: seq<Product>, line: OperationLine, m: Movement, dest: string, i: nat)
    requires i < |ps| && ProductIndex(ps, line.productId) == Some(i)
    ensures ApplyLines(ps, [line], m, dest) == ps[i := Move(ps[i], m, line.quantity, dest)]
  {
    assert [line][1..] == [];
  }

  /** Validating a not-yet-DONE operation with a single line on product `i`
      rewrites that product alone and marks the operation DONE. */
  lemma ValidateSingleLine(s: AppState, opId: string, k: nat, i: nat)
    requires Validatable(s, opId, k) && |s.operations[k].lines| == 1
    requires i < |s.products| && ProductIndex(s.products, s.operations[k].lines[0].productId) == Some(i)
    ensures Validate(s, opId).products
            == s.products[i := Move(s.products[i], MovementOf(s.locations, s.operations[k]),
                                    s.operations[k].lines[0].quantity, s.operations[k].destLocationId)]
    ensures Validate(s, opId).operations == s.operations[k := s.operations[k].(status := Done)]
  {
    var op := s.operations[k];
    SingleLine(s.products, op.lines[0], MovementOf(s.locations, op), op.destLocationId, i);
    assert op.lines == [op.lines[0]];
  }

  /** op2 is the READY delivery of its single line on the office chair. */
  lemma Op2Facts()
    ensures Validatable(SeedState, "op2", 1)
    ensures |SeedOperations[1].lines| == 1 && ProductIndex(SeedProducts, SeedOperations[1].lines[0].productId) == Some(1)
    ensures MovementOf(SeedLocations, SeedOperations[1]) == Outgoing
  {
    Op2Found();
    P2Found();
    Op2IsOutgoing();
  }

  /** op3 is the DRAFT relocation of its single line on the bolts. */
  lemma Op3Facts()
    ensures Validatable(SeedState, "op3", 2)
    ensures |SeedOperations[2].lines| == 1 && ProductIndex(SeedProducts, SeedOperations[2].lines[0].productId) == Some(2)
    ensures MovementOf(SeedLocations, SeedOperations[2]) == Relocation
  {
    Op3Found();
    P3Found();
    Op3IsRelocation();
  }

  /** Validating op2 delivers 5 office chairs: 45 become 40, still in the main
      warehouse; the other products are unchanged and op2 is DONE. */
  lemma ValidateSeedOp2()
    ensures Validate(SeedState, "op2").products == SeedProducts[1 := SeedProducts[1].(stock := 40)]
    ensures Validate(SeedState, "op2").operations == SeedOperations[1 := SeedOperations[1].(status := Done)]
  {
    Op2Facts();
    ValidateSingleLine(SeedState, "op2", 1, 1);
  }

  /** Validating op3 moves the bolts to the packing zone, keeps their 500
      units, and marks op3 DONE although it was a DRAFT. */
  lemma ValidateSeedOp3()
    ensures Validate(SeedState, "op3").products == SeedProducts[2 := SeedProducts[2].(locationId := "loc_wh_pack")]
    ensures Validate(SeedState, "op3").operations[2].status == Done
  {
    Op3Facts();
    ValidateSingleLine(SeedState, "op3", 2, 2);
  }

  /** After validating op2 the dashboard shows 710 items and no pending
      delivery. */
  lemma SeedDashboardAfterOp2()
    ensures Dashboard.TotalStock(Validate(SeedState, "op2").products) == 710
    ensures Dashboard.PendingDeliveries(Validate(SeedState, "op2").operations) == 0
  {
    ValidateSeedOp2();
    SeedTotalStock();
    SeedCounts();
    Dashboard.TotalStockUpdate(SeedProducts, 1, SeedProducts[1].(stock := 40));
    Op2Found();
    Conservation.ValidatePendingDeliveries(SeedState, "op2", 1);
  }

  /** A receipt of 20 steel rods into the packing zone: 150 become 170 and the
      rods now sit in the packing zone. */
  lemma ReceiptIntoPackingZone(op: Operation)
    requires op.sourceLocationId == "loc_vendor" && op.destLocationId == "loc_wh_pack"
    requires op.lines == [OperationLine("p1", "Steel Rods 10mm", 20)]
    ensures ApplyLines(SeedProducts, op.lines, MovementOf(SeedLocations, op), op.destLocationId)
            == SeedProducts[0 := SeedProducts[0].(stock := 170, locationId := "loc_wh_pack")]
  {
    VendorIsExternal();
    PackIsInternal();
    P1Found();
    SingleLine(SeedProducts, op.lines[0], Incoming, op.destLocationId, 0);
  }

  /** With the form's default locations, a receipt brings stock in, a
      delivery takes it out and an internal transfer relocates, on the seed
      registry. */
  lemma DefaultsClassify(op: Operation)
    requires op.sourceLocationId == OperationsView.DefaultSource(op.opType)
    requires op.destLocationId == OperationsView.DefaultDest(op.opType)
    ensures op.opType == Receipt ==> MovementOf(SeedLocations, op) == Incoming
    ensures op.opType == Delivery ==> MovementOf(SeedLocations, op) == Outgoing
    ensures op.opType == OperationType.Internal ==> MovementOf(SeedLocations, op) == Relocation
  {
    StockIsInternal();
    VendorIsExternal();
    CustomerIsExternal();
  }
}
