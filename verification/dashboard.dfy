/** The figures the dashboard derives from the state: total stock, low-stock
    alerts, pending receipts and deliveries, READY internal transfers, stock
    grouped by category, and the most recent moves. */
module Dashboard {
  import opened Types
  import opened Seqs

  /** Below this stock a product raises a low-stock alert. */
  const LowStockThreshold: int := 10

  /** How many moves the dashboard lists. */
  const RecentMovesShown: nat := 5

  /** The stock of all products added up from the left, starting at zero. */
  function TotalStock(ps: seq<Product>): int
    decreases |ps|
  {
    if |ps| == 0 then 0 else TotalStock(ps[..|ps| - 1]) + ps[|ps| - 1].stock
  }

  /** With no negative stock the total is not negative either. */
  lemma {:induction false} TotalStockNonNegative(ps: seq<Product>)
    requires forall i :: 0 <= i < |ps| ==> ps[i].stock >= 0
    ensures TotalStock(ps) >= 0
    decreases |ps|
  {
    if |ps| > 0 {
      TotalStockNonNegative(ps[..|ps| - 1]);
    }
  }

  /** The order of summation does not matter: the total is also the first
      product's stock plus the total of the rest. */
  lemma TotalStockFromFront(ps: seq<Product>)
    requires |ps| > 0
    ensures TotalStock(ps) == ps[0].stock + TotalStock(ps[1..])
  {
    assert ps == [ps[0]] + ps[1..];
    TotalStockConcat([ps[0]], ps[1..]);
    assert [ps[0]][..0] == [];
  }

  /** Totals of a concatenation add up. */
  lemma {:induction false} TotalStockConcat(a: seq<Product>, b: seq<Product>)
    ensures TotalStock(a + b) == TotalStock(a) + TotalStock(b)
    decreases |b|
  {
    if |b| == 0 {
      assert a + b == a;
    } else {
      assert (a + b)[..|a + b| - 1] == a + b[..|b| - 1];
      TotalStockConcat(a, b[..|b| - 1]);
    }
  }

  /** Rewriting one product changes the total by exactly its change in stock. */
  lemma {:induction false} TotalStockUpdate(ps: seq<Product>, i: nat, q: Product)
    requires i < |ps|
    ensures TotalStock(ps[i := q]) == TotalStock(ps) - ps[i].stock + q.stock
    decreases |ps|
  {
    var n := |ps| - 1;
    if i < n {
      assert ps[i := q][..n] == ps[..n][i := q];
      TotalStockUpdate(ps[..n], i, q);
    } else {
      assert ps[i := q][..n] == ps[..n];
    }
  }

  predicate IsLowStock(p: Product)
  {
    p.stock < LowStockThreshold
  }

  /** Number of products whose stock is below 10; negative stock counts. */
  function LowStockCount(ps: seq<Product>): (n: nat)
    ensures n == |set i: nat | i < |ps| && ps[i].stock < 10|
  {
    FilterCount(ps, IsLowStock);
    assert Positions(ps, IsLowStock) == set i: nat | i < |ps| && ps[i].stock < 10;
    |Filter(ps, IsLowStock)|
  }

  predicate IsPendingReceipt(o: Operation)
  {
    o.opType == Receipt && IsOpen(o.status)
  }

  predicate IsPendingDelivery(o: Operation)
  {
    o.opType == Delivery && IsOpen(o.status)
  }

  predicate IsReadyInternal(o: Operation)
  {
    o.opType == OperationType.Internal && o.status == Ready
  }

  /** Number of receipts neither DONE nor CANCELLED; DRAFT ones count. */
  function PendingReceipts(ops: seq<Operation>): (n: nat)
    ensures n == |set i: nat | i < |ops| && ops[i].opType == Receipt && ops[i].status in {Draft, Ready}|
  {
    FilterCount(ops, IsPendingReceipt);
    assert Positions(ops, IsPendingReceipt)
        == set i: nat | i < |ops| && ops[i].opType == Receipt && ops[i].status in {Draft, Ready};
    |Filter(ops, IsPendingReceipt)|
  }

  /** Number of deliveries neither DONE nor CANCELLED; DRAFT ones count. */
  function PendingDeliveries(ops: seq<Operation>): (n: nat)
    ensures n == |set i: nat | i < |ops| && ops[i].opType == Delivery && ops[i].status in {Draft, Ready}|
  {
    FilterCount(ops, IsPendingDelivery);
    assert Positions(ops, IsPendingDelivery)
        == set i: nat | i < |ops| && ops[i].opType == Delivery && ops[i].status in {Draft, Ready};
    |Filter(ops, IsPendingDelivery)|
  }

  /** The "Internal" slice of the overview: internal transfers whose status is
      exactly READY; DRAFT ones do not count, unlike the pending figures. */
  function ReadyInternalCount(ops: seq<Operation>): (n: nat)
    ensures n == |set i: nat | i < |ops| && ops[i].opType == OperationType.Internal && ops[i].status == Ready|
  {
    FilterCount(ops, IsReadyInternal);
    assert Positions(ops, IsReadyInternal)
        == set i: nat | i < |ops| && ops[i].opType == OperationType.Internal && ops[i].status == Ready;
    |Filter(ops, IsReadyInternal)|
  }

  /** The recent moves: the first five operations in registry order,
      or all of them when there are fewer. */
  function RecentMoves(ops: seq<Operation>): (r: seq<Operation>)
    ensures |r| == if |ops| < RecentMovesShown then |ops| else RecentMovesShown
    ensures forall i :: 0 <= i < |r| ==> r[i] == ops[i]
  {
    if |ops| < RecentMovesShown then ops else ops[..RecentMovesShown]
  }

  /** One bar of the "Stock by Category" chart. */
  datatype CategoryTotal = CategoryTotal(name: string, value: int)

  /** Sum of the stock of the products in category `c`. */
  function StockIn(ps: seq<Product>, c: string): int
    decreases |ps|
  {
    if |ps| == 0 then 0
    else StockIn(ps[..|ps| - 1], c) + (if ps[|ps| - 1].category == c then ps[|ps| - 1].stock else 0)
  }

  /** Sum of the values of the chart entries. */
  function SumValues(es: seq<CategoryTotal>): int
    decreases |es|
  {
    if |es| == 0 then 0 else SumValues(es[..|es| - 1]) + es[|es| - 1].value
  }

  /** Position of the first product in category `c`, or `|ps|` when none is. */
  function FirstOccurrence(ps: seq<Product>, c: string): nat
  {
    match FirstIndex(ps, (p: Product) => p.category == c)
    case None => |ps|
    case Some(i) => i
  }

  /** Some chart entry is named `c`. */
  predicate HasEntry(es: seq<CategoryTotal>, c: string)
  {
    exists k :: 0 <= k < |es| && es[k].name == c
  }

  /** Some product is in category `c`. */
  predicate HasCategory(ps: seq<Product>, c: string)
  {
    exists i :: 0 <= i < |ps| && ps[i].category == c
  }

  /** The category of the product at position `i`. */
  function CategoryOf(ps: seq<Product>, i: nat): string
    requires i < |ps|
  {
    ps[i].category
  }

  /** Every entry names a category some product has, and every product's
      category has an entry. (The second half is phrased through
      `CategoryOf` so that the witnesses of the two existentials do not
      feed each other.) */
  predicate Covers(ps: seq<Product>, es: seq<CategoryTotal>)
  {
    && (forall k :: 0 <= k < |es| ==> HasCategory(ps, es[k].name))
    && (forall i :: 0 <= i < |ps| ==> HasEntry(es, CategoryOf(ps, i)))
  }

  /** No category has two entries. */
  predicate Distinct(es: seq<CategoryTotal>)
  {
    forall k, l :: 0 <= k < l < |es| ==> es[k].name != es[l].name
  }

  /** Each entry holds the stock of its category. */
  predicate Valued(ps: seq<Product>, es: seq<CategoryTotal>)
  {
    forall k :: 0 <= k < |es| ==> es[k].value == StockIn(ps, es[k].name)
  }

  /** Entries appear in the order their categories first occur. */
  predicate Ordered(ps: seq<Product>, es: seq<CategoryTotal>)
  {
    forall k, l :: 0 <= k < l < |es| ==> FirstOccurrence(ps, es[k].name) < FirstOccurrence(ps, es[l].name)
  }

  /** `es` is the grouping of `ps` by category: one entry per distinct
      category, ordered by first occurrence, each holding its category's
      stock. */
  predicate GroupsByCategory(ps: seq<Product>, es: seq<CategoryTotal>)
  {
    Covers(ps, es) && Distinct(es) && Valued(ps, es) && Ordered(ps, es)
  }

  /** Position of the first entry named `c`: the `find` on the accumulator. */
  function EntryIndex(es: seq<CategoryTotal>, c: string): (r: Option<nat>)
    ensures r.Some? ==> r.value < |es| && es[r.value].name == c
    ensures r.None? <==> !HasEntry(es, c)
  {
    FirstIndex(es, (e: CategoryTotal) => e.name == c)
  }

  /** One step of the `reduce` building the chart data: add the product's
      stock to the entry for its category, or append a new entry. */
  function AddToCategory(es: seq<CategoryTotal>, p: Product): seq<CategoryTotal>
  {
    match EntryIndex(es, p.category)
    case Some(k) => es[k := es[k].(value := es[k].value + p.stock)]
    case None => es + [CategoryTotal(p.category, p.stock)]
  }

  /** `categoryData`: the products grouped by category, the bars adding up
      to the total stock. */
  function CategoryData(ps: seq<Product>): (r: seq<CategoryTotal>)
    ensures GroupsByCategory(ps, r)
    ensures SumValues(r) == TotalStock(ps)
    decreases |ps|
  {
    if |ps| == 0 then []
    else
      var init, p := ps[..|ps| - 1], ps[|ps| - 1];
      var acc := CategoryData(init);
      AddToCategoryGroups(init, p, acc);
      assert ps == init + [p];
      AddToCategory(acc, p)
  }

  /** Folding one more product into a grouping of the others yields a
      grouping of all, with the sum following the total. */
  lemma AddToCategoryGroups(ps: seq<Product>, p: Product, es: seq<CategoryTotal>)
    requires GroupsByCategory(ps, es)
    requires SumValues(es) == TotalStock(ps)
    ensures GroupsByCategory(ps + [p], AddToCategory(es, p))
    ensures SumValues(AddToCategory(es, p)) == TotalStock(ps + [p])
  {
    var r := AddToCategory(es, p);
    AddToCategoryShape(es, p);
    var found := EntryIndex(es, p.category);
    if found.Some? {
      AddExisting(ps, p, es, found.value, r);
    } else {
      AddNew(ps, p, es, r);
    }
  }

  /** The appended product's category has an entry, at position `k`: only
      that entry's value grows. */
  lemma AddExisting(ps: seq<Product>, p: Product, es: seq<CategoryTotal>, k: nat, r: seq<CategoryTotal>)
    requires GroupsByCategory(ps, es) && SumValues(es) == TotalStock(ps)
    requires k < |es| && es[k].name == p.category
    requires r == es[k := es[k].(value := es[k].value + p.stock)]
    ensures GroupsByCategory(ps + [p], r)
    ensures SumValues(r) == TotalStock(ps + [p])
  {
    ExistingDistinct(es, k, es[k].value + p.stock);
    ExistingCovers(ps, p, es, k);
    ExistingValued(ps, p, es, k);
    ExistingOrdered(ps, p, es, k);
    ExistingSum(ps, p, es, k);
  }

  lemma ExistingSum(ps: seq<Product>, p: Product, es: seq<CategoryTotal>, k: nat)
    requires SumValues(es) == TotalStock(ps) && k < |es|
    ensures SumValues(es[k := es[k].(value := es[k].value + p.stock)]) == TotalStock(ps + [p])
  {
    SumValuesUpdate(es, k, p.stock);
    AppendIndex(ps, p);
  }

  /** The appended product's category has no entry yet: a new last entry
      holds its stock. */
  lemma AddNew(ps: seq<Product>, p: Product, es: seq<CategoryTotal>, r: seq<CategoryTotal>)
    requires GroupsByCategory(ps, es) && SumValues(es) == TotalStock(ps)
    requires !HasEntry(es, p.category)
    requires r == es + [CategoryTotal(p.category, p.stock)]
    ensures GroupsByCategory(ps + [p], r)
    ensures SumValues(r) == TotalStock(ps + [p])
  {
    NewCovers(ps, p, es);
    NewValued(ps, p, es);
    NewOrdered(ps, p, es);
    NewSum(ps, p, es);
  }

  lemma NewSum(ps: seq<Product>, p: Product, es: seq<CategoryTotal>)
    requires SumValues(es) == TotalStock(ps)
    ensures SumValues(es + [CategoryTotal(p.category, p.stock)]) == TotalStock(ps + [p])
  {
    var r := es + [CategoryTotal(p.category, p.stock)];
    assert r[..|r| - 1] == es;
    assert (ps + [p])[..|ps|] == ps;
  }

  /** The two shapes one step of the fold can take. */
  lemma AddToCategoryShape(es: seq<CategoryTotal>, p: Product)
    ensures EntryIndex(es, p.category).Some? ==>
              var k := EntryIndex(es, p.category).value;
              AddToCategory(es, p) == es[k := es[k].(value := es[k].value + p.stock)]
    ensures EntryIndex(es, p.category).None? ==>
              AddToCategory(es, p) == es + [CategoryTotal(p.category, p.stock)]
  {
  }

  /** Products before the last one of `ps + [p]` are those of `ps`. */
  lemma AppendIndex(ps: seq<Product>, p: Product)
    ensures (ps + [p])[..|ps|] == ps && (ps + [p])[|ps|] == p
    ensures forall i :: 0 <= i < |ps| ==> (ps + [p])[i] == ps[i]
  {
  }

  /** Appending a product adds its stock to its own category only. */
  lemma StockInAppend(ps: seq<Product>, p: Product, c: string)
    ensures StockIn(ps + [p], c) == StockIn(ps, c) + (if p.category == c then p.stock else 0)
  {
    AppendIndex(ps, p);
  }

  /** Appending a product keeps every category and adds its own. */
  lemma HasCategoryAppend(ps: seq<Product>, p: Product, c: string)
    ensures HasCategory(ps + [p], c) <==> HasCategory(ps, c) || c == p.category
  {
    AppendIndex(ps, p);
    if HasCategory(ps, c) {
      var i :| 0 <= i < |ps| && ps[i].category == c;
      assert (ps + [p])[i].category == c;
    }
    if HasCategory(ps + [p], c) && c != p.category {
      var i :| 0 <= i < |ps| + 1 && (ps + [p])[i].category == c;
      assert ps[i].category == c;
    }
  }

  lemma ExistingCovers(ps: seq<Product>, p: Product, es: seq<CategoryTotal>, k: nat)
    requires Covers(ps, es) && k < |es| && es[k].name == p.category
    ensures Covers(ps + [p], es[k := es[k].(value := es[k].value + p.stock)])
  {
    var ps', r := ps + [p], es[k := es[k].(value := es[k].value + p.stock)];
    AppendIndex(ps, p);
    forall j | 0 <= j < |r| ensures HasCategory(ps', r[j].name) {
      HasCategoryAppend(ps, p, r[j].name);
    }
    forall i | 0 <= i < |ps'| ensures HasEntry(r, CategoryOf(ps', i)) {
      var x := ps'[i].category;
      if i < |ps| {
        assert HasEntry(es, CategoryOf(ps, i));
        var j :| 0 <= j < |es| && es[j].name == x;
        assert r[j].name == x;
      } else {
        assert r[k].name == x;
      }
    }
  }

  lemma ExistingDistinct(es: seq<CategoryTotal>, k: nat, v: int)
    requires Distinct(es) && k < |es|
    ensures Distinct(es[k := es[k].(value := v)])
  {
    var r := es[k := es[k].(value := v)];
    assert forall j :: 0 <= j < |r| ==> r[j].name == es[j].name;
  }

  lemma ExistingValued(ps: seq<Product>, p: Product, es: seq<CategoryTotal>, k: nat)
    requires Valued(ps, es) && Distinct(es) && k < |es| && es[k].name == p.category
    ensures Valued(ps + [p], es[k := es[k].(value := es[k].value + p.stock)])
  {
    var r := es[k := es[k].(value := es[k].value + p.stock)];
    forall j | 0 <= j < |r| ensures r[j].value == StockIn(ps + [p], r[j].name) {
      StockInAppend(ps, p, r[j].name);
    }
  }

  lemma ExistingOrdered(ps: seq<Product>, p: Product, es: seq<CategoryTotal>, k: nat)
    requires Ordered(ps, es) && Covers(ps, es) && k < |es| && es[k].name == p.category
    ensures Ordered(ps + [p], es[k := es[k].(value := es[k].value + p.stock)])
  {
    var r := es[k := es[k].(value := es[k].value + p.stock)];
    forall j, l | 0 <= j < l < |r|
      ensures FirstOccurrence(ps + [p], r[j].name) < FirstOccurrence(ps + [p], r[l].name)
    {
      FirstOccurrenceKept(ps, p, es[j].name);
      FirstOccurrenceKept(ps, p, es[l].name);
    }
  }

  lemma NewCovers(ps: seq<Product>, p: Product, es: seq<CategoryTotal>)
    requires Covers(ps, es)
    ensures Covers(ps + [p], es + [CategoryTotal(p.category, p.stock)])
  {
    var ps', r := ps + [p], es + [CategoryTotal(p.category, p.stock)];
    AppendIndex(ps, p);
    forall j | 0 <= j < |r| ensures HasCategory(ps', r[j].name) {
      HasCategoryAppend(ps, p, r[j].name);
      if j < |es| {
        assert r[j] == es[j];
      }
    }
    forall i | 0 <= i < |ps'| ensures HasEntry(r, CategoryOf(ps', i)) {
      var x := ps'[i].category;
      if i < |ps| {
        assert HasEntry(es, CategoryOf(ps, i));
        var j :| 0 <= j < |es| && es[j].name == x;
        assert r[j].name == x;
      } else {
        assert r[|es|].name == x;
      }
    }
  }

  /** A category with no entry in a covering grouping has no product. */
  lemma NoEntryNoCategory(ps: seq<Product>, es: seq<CategoryTotal>, c: string)
    requires Covers(ps, es) && !HasEntry(es, c)
    ensures !HasCategory(ps, c)
  {
    forall i | 0 <= i < |ps| ensures ps[i].category != c {
      assert HasEntry(es, CategoryOf(ps, i));
    }
  }

  lemma NewValued(ps: seq<Product>, p: Product, es: seq<CategoryTotal>)
    requires Valued(ps, es) && Covers(ps, es) && !HasEntry(es, p.category)
    ensures Valued(ps + [p], es + [CategoryTotal(p.category, p.stock)])
  {
    var r := es + [CategoryTotal(p.category, p.stock)];
    NoEntryNoCategory(ps, es, p.category);
    StockInAbsent(ps, p.category);
    forall j | 0 <= j < |r| ensures r[j].value == StockIn(ps + [p], r[j].name) {
      StockInAppend(ps, p, r[j].name);
      if j < |es| {
        assert r[j] == es[j];
      }
    }
  }

  lemma NewOrdered(ps: seq<Product>, p: Product, es: seq<CategoryTotal>)
    requires Ordered(ps, es) && Covers(ps, es) && !HasEntry(es, p.category)
    ensures Ordered(ps + [p], es + [CategoryTotal(p.category, p.stock)])
  {
    var r := es + [CategoryTotal(p.category, p.stock)];
    NoEntryNoCategory(ps, es, p.category);
    FirstOccurrenceNew(ps, p);
    forall j, l | 0 <= j < l < |r|
      ensures FirstOccurrence(ps + [p], r[j].name) < FirstOccurrence(ps + [p], r[l].name)
    {
      assert r[j] == es[j];
      FirstOccurrenceKept(ps, p, es[j].name);
      if l < |es| {
        assert r[l] == es[l];
        FirstOccurrenceKept(ps, p, es[l].name);
      }
    }
  }

  /** A category that already occurs keeps its first occurrence when a
      product is appended. */
  lemma FirstOccurrenceKept(ps: seq<Product>, p: Product, c: string)
    requires HasCategory(ps, c)
    ensures FirstOccurrence(ps + [p], c) == FirstOccurrence(ps, c) < |ps|
  {
    var f := (q: Product) => q.category == c;
    var i :| 0 <= i < |ps| && ps[i].category == c;
    assert f(ps[i]);
    FirstIndexAppend(ps, p, f);
  }

  /** A category first seen in the appended product occurs first there. */
  lemma FirstOccurrenceNew(ps: seq<Product>, p: Product)
    requires !HasCategory(ps, p.category)
    ensures FirstOccurrence(ps + [p], p.category) == |ps|
  {
    var f := (q: Product) => q.category == p.category;
    FirstIndexAppend(ps, p, f);
  }

  /** A category no product has holds no stock. */
  lemma {:induction false} StockInAbsent(ps: seq<Product>, c: string)
    requires !HasCategory(ps, c)
    ensures StockIn(ps, c) == 0
    decreases |ps|
  {
    if |ps| > 0 {
      var n := |ps| - 1;
      assert forall i :: 0 <= i < n ==> ps[..n][i] == ps[i];
      StockInAbsent(ps[..n], c);
    }
  }

  /** Raising one entry's value raises the sum by the same amount. */
  lemma {:induction false} SumValuesUpdate(es: seq<CategoryTotal>, k: nat, x: int)
    requires k < |es|
    ensures SumValues(es[k := es[k].(value := es[k].value + x)]) == SumValues(es) + x
    decreases |es|
  {
    var n := |es| - 1;
    var es' := es[k := es[k].(value := es[k].value + x)];
    if k < n {
      assert es'[..n] == es[..n][k := es[..n][k].(value := es[..n][k].value + x)];
      SumValuesUpdate(es[..n], k, x);
    } else {
      assert es'[..n] == es[..n];
    }
  }
}
