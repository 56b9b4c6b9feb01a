/** How the state mutators move the dashboard figures: the stock a validation
    adds or removes, the pending counts it settles, and the effect of adding
    a product, an operation or a manual adjustment. */
module Conservation {
  import opened Types
  import opened Seqs
  import opened StockEngine
  import Registry
  import Dashboard

  /** The change in stock one line of `qty` units causes under movement `m`:
      whatever the product and the destination, the line moves its stock by
      exactly this much. */
  function StockDelta(m: Movement, qty: int): (d: int)
    ensures forall p: Product, dest: string :: Move(p, m, qty, dest).stock == p.stock + d
  {
    match m
    case Incoming => qty
    case Outgoing => -qty
    case Relocation => 0
    case NoMove => 0
  }

  /** Total quantity of the lines whose product id names some product of
      `ps`; the other lines are skipped by validation. */
  function KnownQuantity(ps: seq<Product>, lines: seq<OperationLine>): int
    decreases |lines|
  {
    if |lines| == 0 then 0
    else (if ProductIndex(ps, lines[0].productId).Some? then lines[0].quantity else 0)
         + KnownQuantity(ps, lines[1..])
  }

  /** Lines naming no product contribute nothing to the known quantity. */
  lemma {:induction false} KnownQuantityUnknown(ps: seq<Product>, lines: seq<OperationLine>)
    requires forall k :: 0 <= k < |lines| ==> ProductIndex(ps, lines[k].productId).None?
    ensures KnownQuantity(ps, lines) == 0
    decreases |lines|
  {
    if |lines| > 0 {
      assert forall k :: 0 <= k < |lines| - 1 ==> lines[1..][k] == lines[k + 1];
      KnownQuantityUnknown(ps, lines[1..]);
    }
  }

  /** The known quantity depends on the products only through their ids. */
  lemma {:induction false} KnownQuantityByIds(a: seq<Product>, b: seq<Product>, lines: seq<OperationLine>)
    requires |a| == |b|
    requires forall i :: 0 <= i < |a| ==> a[i].id == b[i].id
    ensures KnownQuantity(a, lines) == KnownQuantity(b, lines)
    decreases |lines|
  {
    if |lines| > 0 {
      ProductIndexByIds(a, b, lines[0].productId);
      KnownQuantityByIds(a, b, lines[1..]);
    }
  }

  /** One line changes the total stock by its delta when its product exists. */
  lemma ApplyLineTotal(ps: seq<Product>, line: OperationLine, m: Movement, dest: string)
    ensures Dashboard.TotalStock(ApplyLine(ps, line, m, dest))
            == Dashboard.TotalStock(ps)
               + (if ProductIndex(ps, line.productId).Some? then StockDelta(m, line.quantity) else 0)
  {
    match ProductIndex(ps, line.productId)
    case None =>
    case Some(i) =>
      Dashboard.TotalStockUpdate(ps, i, Move(ps[i], m, line.quantity, dest));
  }

  /** Conservation for the whole fold: the total stock moves by the delta of
      the summed quantity of the lines that name an existing product. */
  lemma {:induction false} ApplyLinesTotal(ps: seq<Product>, lines: seq<OperationLine>, m: Movement, dest: string)
    ensures Dashboard.TotalStock(ApplyLines(ps, lines, m, dest))
            == Dashboard.TotalStock(ps) + StockDelta(m, KnownQuantity(ps, lines))
    decreases |lines|
  {
    if |lines| > 0 {
      var ps1 := ApplyLine(ps, lines[0], m, dest);
      ApplyLineTotal(ps, lines[0], m, dest);
      ApplyLinesTotal(ps1, lines[1..], m, dest);
      KnownQuantityByIds(ps1, ps, lines[1..]);
    }
  }

  /** Validation adds the known quantity to the total stock when it moves
      goods from an external location into an internal one, removes it when
      it moves them from an internal location to an external one, and keeps
      the total otherwise. The rule follows the locations, not the
      operation's type; lines naming no product add nothing. */
  lemma ValidateTotalStock(s: AppState, opId: string, k: nat)
    requires Validatable(s, opId, k)
    ensures Dashboard.TotalStock(Validate(s, opId).products)
            == Dashboard.TotalStock(s.products)
               + StockDelta(MovementOf(s.locations, s.operations[k]), KnownQuantity(s.products, s.operations[k].lines))
  {
    var op := s.operations[k];
    ApplyLinesTotal(s.products, op.lines, MovementOf(s.locations, op), op.destLocationId);
  }

  /** An operation whose lines all name missing products leaves the total
      stock as it was. */
  lemma ValidateUnknownProductsKeepTotal(s: AppState, opId: string, k: nat)
    requires Validatable(s, opId, k)
    requires forall j :: 0 <= j < |s.operations[k].lines| ==>
               ProductIndex(s.products, s.operations[k].lines[j].productId).None?
    ensures Dashboard.TotalStock(Validate(s, opId).products) == Dashboard.TotalStock(s.products)
  {
    ValidateTotalStock(s, opId, k);
    KnownQuantityUnknown(s.products, s.operations[k].lines);
  }

  /** Validating a pending receipt settles it: the pending-receipt count drops
      by one exactly when the operation was a pending receipt, and otherwise
      stays. */
  lemma ValidatePendingReceipts(s: AppState, opId: string, k: nat)
    requires Validatable(s, opId, k)
    ensures Dashboard.PendingReceipts(Validate(s, opId).operations)
            == Dashboard.PendingReceipts(s.operations) - (if Dashboard.IsPendingReceipt(s.operations[k]) then 1 else 0)
  {
    var ops, op := s.operations, s.operations[k];
    var done := op.(status := Done);
    assert Validate(s, opId).operations == ops[k := done];
    FilterCount(ops, Dashboard.IsPendingReceipt);
    FilterCount(ops[k := done], Dashboard.IsPendingReceipt);
    PositionsUpdate(ops, k, done, Dashboard.IsPendingReceipt);
    if Dashboard.IsPendingReceipt(op) {
      assert k in Positions(ops, Dashboard.IsPendingReceipt);
    }
  }

  /** The same for deliveries. */
  lemma ValidatePendingDeliveries(s: AppState, opId: string, k: nat)
    requires Validatable(s, opId, k)
    ensures Dashboard.PendingDeliveries(Validate(s, opId).operations)
            == Dashboard.PendingDeliveries(s.operations) - (if Dashboard.IsPendingDelivery(s.operations[k]) then 1 else 0)
  {
    var ops, op := s.operations, s.operations[k];
    var done := op.(status := Done);
    assert Validate(s, opId).operations == ops[k := done];
    FilterCount(ops, Dashboard.IsPendingDelivery);
    FilterCount(ops[k := done], Dashboard.IsPendingDelivery);
    PositionsUpdate(ops, k, done, Dashboard.IsPendingDelivery);
    if Dashboard.IsPendingDelivery(op) {
      assert k in Positions(ops, Dashboard.IsPendingDelivery);
    }
  }

  /** Creating an operation raises the pending-receipt count by one exactly
      when it is an open receipt, and the pending-delivery count likewise. */
  lemma CreateOperationPending(s: AppState, op: Operation)
    ensures Dashboard.PendingReceipts(Registry.CreateOperation(s, op).operations)
            == Dashboard.PendingReceipts(s.operations) + (if Dashboard.IsPendingReceipt(op) then 1 else 0)
    ensures Dashboard.PendingDeliveries(Registry.CreateOperation(s, op).operations)
            == Dashboard.PendingDeliveries(s.operations) + (if Dashboard.IsPendingDelivery(op) then 1 else 0)
  {
    FilterCons(op, s.operations, Dashboard.IsPendingReceipt);
    FilterCons(op, s.operations, Dashboard.IsPendingDelivery);
  }

  /** A new operation is the first of the recent moves. */
  lemma CreateOperationIsRecent(s: AppState, op: Operation)
    ensures |Dashboard.RecentMoves(Registry.CreateOperation(s, op).operations)| > 0
    ensures Dashboard.RecentMoves(Registry.CreateOperation(s, op).operations)[0] == op
  {
  }

  /** Adding a product adds its stock to the total and counts it as a
      low-stock alert when its stock is below the threshold. */
  lemma AddProductFigures(s: AppState, p: Product)
    ensures Dashboard.TotalStock(Registry.AddProduct(s, p).products) == Dashboard.TotalStock(s.products) + p.stock
    ensures Dashboard.LowStockCount(Registry.AddProduct(s, p).products)
            == Dashboard.LowStockCount(s.products) + (if p.stock < Dashboard.LowStockThreshold then 1 else 0)
  {
    Dashboard.TotalStockConcat([p], s.products);
    assert [p][..0] == [];
    FilterCons(p, s.products, Dashboard.IsLowStock);
  }

  /** When exactly one product carries the id, a manual adjustment changes the
      total stock by the difference between the new and the old stock. */
  lemma AdjustStockTotal(s: AppState, productId: string, newStock: int, newLocationId: string, i: nat)
    requires i < |s.products| && s.products[i].id == productId
    requires forall j :: 0 <= j < |s.products| && j != i ==> s.products[j].id != productId
    ensures Dashboard.TotalStock(Registry.AdjustStock(s, productId, newStock, newLocationId).products)
            == Dashboard.TotalStock(s.products) - s.products[i].stock + newStock
  {
    var q := s.products[i].(stock := newStock, locationId := newLocationId);
    assert Registry.AdjustStock(s, productId, newStock, newLocationId).products == s.products[i := q];
    Dashboard.TotalStockUpdate(s.products, i, q);
  }
}
