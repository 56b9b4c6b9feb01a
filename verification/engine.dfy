/** The stock-mutation engine: validating an operation folds its lines over the
    product registry, applying one of four rules chosen from whether the
    operation's source and destination are internal, and marks it DONE. */
module StockEngine {
  import opened Types
  import opened Seqs

  /** The four mutually exclusive rules of validation. */
  datatype Movement =
    | Incoming    // external source, internal destination: goods arrive
    | Outgoing    // internal source, external destination: goods leave
    | Relocation  // internal to internal: goods move, quantity unchanged
    | NoMove      // external to external: nothing the model tracks

  /** Picks the rule from the internal/external classification of both ends. */
  function Classify(srcInternal: bool, dstInternal: bool): (m: Movement)
    ensures m.Incoming? <==> !srcInternal && dstInternal
    ensures m.Outgoing? <==> srcInternal && !dstInternal
    ensures m.Relocation? <==> srcInternal && dstInternal
    ensures m.NoMove? <==> !srcInternal && !dstInternal
  {
    if !srcInternal && dstInternal then Incoming
    else if srcInternal && !dstInternal then Outgoing
    else if srcInternal && dstInternal then Relocation
    else NoMove
  }

  /** Position of the first product with the given id (`findIndex`). */
  function ProductIndex(ps: seq<Product>, id: string): (r: Option<nat>)
    ensures r.Some? ==> r.value < |ps| && ps[r.value].id == id
    ensures r.Some? ==> forall j :: 0 <= j < r.value ==> ps[j].id != id
    ensures r.None? <==> forall j :: 0 <= j < |ps| ==> ps[j].id != id
  {
    FirstIndex(ps, (p: Product) => p.id == id)
  }

  /** Two product sequences with the same ids in the same places resolve
      every id to the same position. */
  lemma ProductIndexByIds(a: seq<Product>, b: seq<Product>, id: string)
    requires |a| == |b|
    requires forall i :: 0 <= i < |a| ==> a[i].id == b[i].id
    ensures ProductIndex(a, id) == ProductIndex(b, id)
  {
    FirstIndexAgrees(a, b, (p: Product) => p.id == id);
  }

  /** Position of the first operation with the given id (`findIndex`). */
  function OperationIndex(ops: seq<Operation>, id: string): (r: Option<nat>)
    ensures r.Some? ==> r.value < |ops| && ops[r.value].id == id
    ensures r.Some? ==> forall j :: 0 <= j < r.value ==> ops[j].id != id
    ensures r.None? <==> forall j :: 0 <= j < |ops| ==> ops[j].id != id
  {
    FirstIndex(ops, (o: Operation) => o.id == id)
  }

  /** Whether a location id is internal: the first location with that id
      decides by its kind, and an unknown id counts as external. */
  function LocationIsInternal(locs: seq<Location>, id: string): (b: bool)
    ensures b <==> exists i :: 0 <= i < |locs| && locs[i].id == id && locs[i].kind == LocationKind.Internal
                               && forall j :: 0 <= j < i ==> locs[j].id != id
    ensures (forall i :: 0 <= i < |locs| ==> locs[i].id != id) ==> !b
  {
    match FirstIndex(locs, (l: Location) => l.id == id)
    case None => false
    case Some(i) => locs[i].kind == LocationKind.Internal
  }

  /** The rule an operation's validation applies, read off the registry. */
  function MovementOf(locs: seq<Location>, op: Operation): (m: Movement)
    ensures m.Incoming? <==> !LocationIsInternal(locs, op.sourceLocationId) && LocationIsInternal(locs, op.destLocationId)
    ensures m.Outgoing? <==> LocationIsInternal(locs, op.sourceLocationId) && !LocationIsInternal(locs, op.destLocationId)
    ensures m.Relocation? <==> LocationIsInternal(locs, op.sourceLocationId) && LocationIsInternal(locs, op.destLocationId)
    ensures (forall i :: 0 <= i < |locs| ==> locs[i].id != op.sourceLocationId) ==> m.Incoming? || m.NoMove?
    ensures (forall i :: 0 <= i < |locs| ==> locs[i].id != op.destLocationId) ==> m.Outgoing? || m.NoMove?
  {
    Classify(LocationIsInternal(locs, op.sourceLocationId), LocationIsInternal(locs, op.destLocationId))
  }

  /** The effect of one line of `qty` units on one product record. */
  function Move(p: Product, m: Movement, qty: int, dest: string): (q: Product)
    ensures SameRecord(p, q)
  {
    match m
    case Incoming => p.(stock := p.stock + qty, locationId := dest)
    case Outgoing => p.(stock := p.stock - qty)
    case Relocation => p.(locationId := dest)
    case NoMove => p
  }

  /** Applying two lines to the same product is applying their summed
      quantity once: lines accumulate rather than overwrite. */
  lemma MoveAccumulates(p: Product, m: Movement, a: int, b: int, dest: string)
    ensures Move(Move(p, m, a, dest), m, b, dest) == Move(p, m, a + b, dest)
  {
  }

  /** One step of the `forEach` over the lines: the first product with the
      line's id is rewritten, and a line naming no product is skipped. */
  function ApplyLine(ps: seq<Product>, line: OperationLine, m: Movement, dest: string): (r: seq<Product>)
    ensures |r| == |ps|
    ensures forall i :: 0 <= i < |ps| ==> SameRecord(ps[i], r[i])
  {
    match ProductIndex(ps, line.productId)
    case None => ps
    case Some(i) => ps[i := Move(ps[i], m, line.quantity, dest)]
  }

  /** The whole `forEach`, lines taken in order against one working copy. */
  function ApplyLines(ps: seq<Product>, lines: seq<OperationLine>, m: Movement, dest: string): (r: seq<Product>)
    ensures |r| == |ps|
    ensures forall i :: 0 <= i < |ps| ==> SameRecord(ps[i], r[i])
    decreases |lines|
  {
    if |lines| == 0 then ps
    else ApplyLines(ApplyLine(ps, lines[0], m, dest), lines[1..], m, dest)
  }

  /** Some line of the operation names product id `pid`. */
  predicate Mentions(lines: seq<OperationLine>, pid: string)
  {
    exists k :: 0 <= k < |lines| && lines[k].productId == pid
  }

  /** Total quantity of the lines naming product id `pid`. */
  function QuantityFor(lines: seq<OperationLine>, pid: string): int
    decreases |lines|
  {
    if |lines| == 0 then 0
    else (if lines[0].productId == pid then lines[0].quantity else 0) + QuantityFor(lines[1..], pid)
  }

  /** Product `i` is touched by the lines: some line names its id and it is the
      first record carrying that id (the one `findIndex` reaches). */
  predicate Affected(ps: seq<Product>, i: nat, lines: seq<OperationLine>)
    requires i < |ps|
  {
    ProductIndex(ps, ps[i].id) == Some(i) && Mentions(lines, ps[i].id)
  }

  /** The reference outcome for product `i`, stated without the fold: an
      affected product receives all of its lines at once. */
  function Settled(ps: seq<Product>, i: nat, lines: seq<OperationLine>, m: Movement, dest: string): Product
    requires i < |ps|
  {
    if Affected(ps, i, lines) then Move(ps[i], m, QuantityFor(lines, ps[i].id), dest) else ps[i]
  }

  /** A product no line names receives quantity zero from the lines. */
  lemma {:induction false} QuantityForUnmentioned(lines: seq<OperationLine>, pid: string)
    requires !Mentions(lines, pid)
    ensures QuantityFor(lines, pid) == 0
    decreases |lines|
  {
    if |lines| > 0 {
      assert !Mentions(lines[1..], pid) by {
        forall k | 0 <= k < |lines[1..]| ensures lines[1..][k].productId != pid {
          assert lines[1..][k] == lines[k + 1];
        }
      }
      QuantityForUnmentioned(lines[1..], pid);
    }
  }

  /** Mentioning splits over the first line and the rest. */
  lemma MentionsCons(lines: seq<OperationLine>, pid: string)
    requires |lines| > 0
    ensures Mentions(lines, pid) <==> lines[0].productId == pid || Mentions(lines[1..], pid)
  {
    if Mentions(lines[1..], pid) {
      var k :| 0 <= k < |lines[1..]| && lines[1..][k].productId == pid;
      assert lines[k + 1].productId == pid;
    }
    if Mentions(lines, pid) && lines[0].productId != pid {
      var k :| 0 <= k < |lines| && lines[k].productId == pid;
      assert lines[1..][k - 1].productId == pid;
    }
  }

  /** Applying the first line and settling the rest is settling all lines. */
  lemma SettledStep(ps: seq<Product>, lines: seq<OperationLine>, m: Movement, dest: string, i: nat)
    requires |lines| > 0 && i < |ps|
    ensures Settled(ApplyLine(ps, lines[0], m, dest), i, lines[1..], m, dest) == Settled(ps, i, lines, m, dest)
  {
    var l, rest := lines[0], lines[1..];
    var ps1 := ApplyLine(ps, l, m, dest);
    var id := ps[i].id;
    ProductIndexByIds(ps1, ps, id);
    MentionsCons(lines, id);
    if ProductIndex(ps, id) == Some(i) && l.productId == id {
      assert ps1[i] == Move(ps[i], m, l.quantity, dest);
      if Mentions(rest, id) {
        MoveAccumulates(ps[i], m, l.quantity, QuantityFor(rest, id), dest);
      } else {
        QuantityForUnmentioned(rest, id);
      }
    } else {
      assert ps1[i] == ps[i];
    }
  }

  /** The fold over the lines agrees, product by product, with the reference
      outcome: several lines on one product accumulate, lines naming no
      product are skipped, and every other product is left as it was. */
  lemma {:induction false} ApplyLinesSettles(ps: seq<Product>, lines: seq<OperationLine>, m: Movement, dest: string)
    ensures forall i :: 0 <= i < |ps| ==> ApplyLines(ps, lines, m, dest)[i] == Settled(ps, i, lines, m, dest)
    decreases |lines|
  {
    if |lines| == 0 {
      forall i | 0 <= i < |ps| ensures ApplyLines(ps, lines, m, dest)[i] == Settled(ps, i, lines, m, dest) {
        assert !Mentions(lines, ps[i].id);
      }
    } else {
      var ps1 := ApplyLine(ps, lines[0], m, dest);
      ApplyLinesSettles(ps1, lines[1..], m, dest);
      forall i | 0 <= i < |ps| ensures ApplyLines(ps, lines, m, dest)[i] == Settled(ps, i, lines, m, dest) {
        SettledStep(ps, lines, m, dest, i);
      }
    }
  }

  /** Validating operation `opId` (`handleValidateOperation`): an unknown id or
      an operation already DONE leaves the state as it is; otherwise the lines
      are applied to the products and the operation, and only it, becomes
      DONE, whatever its previous status. */
  function Validate(s: AppState, opId: string): (r: AppState)
    ensures r.locations == s.locations
    ensures |r.products| == |s.products|
    ensures forall i :: 0 <= i < |s.products| ==> SameRecord(s.products[i], r.products[i])
    ensures |r.operations| == |s.operations|
    ensures forall j :: 0 <= j < |s.operations| ==>
              r.operations[j] == s.operations[j] || r.operations[j] == s.operations[j].(status := Done)
    ensures forall j :: 0 <= j < |s.operations| && s.operations[j].id != opId ==> r.operations[j] == s.operations[j]
    ensures (forall j :: 0 <= j < |s.operations| ==> s.operations[j].id != opId) ==> r == s
  {
    match OperationIndex(s.operations, opId)
    case None => s
    case Some(k) =>
      var op := s.operations[k];
      if op.status == Done then s
      else
        var products := ApplyLines(s.products, op.lines, MovementOf(s.locations, op), op.destLocationId);
        AppState(products, s.operations[k := op.(status := Done)], s.locations)
  }

  /** Operation `k` is the one `opId` designates and is not yet DONE. */
  predicate Validatable(s: AppState, opId: string, k: nat)
  {
    OperationIndex(s.operations, opId) == Some(k) && s.operations[k].status != Done
  }

  /** Validating an operation that is already DONE changes nothing. */
  lemma ValidateDoneIsNoOp(s: AppState, opId: string, k: nat)
    requires OperationIndex(s.operations, opId) == Some(k)
    requires s.operations[k].status == Done
    ensures Validate(s, opId) == s
  {
  }

  /** After validation the designated operation is DONE (even when it was DRAFT
      or CANCELLED), keeps every other field, and keeps its place. */
  lemma ValidateMarksDone(s: AppState, opId: string, k: nat)
    requires Validatable(s, opId, k)
    ensures Validate(s, opId).operations[k] == s.operations[k].(status := Done)
    ensures Validate(s, opId).operations == s.operations[k := s.operations[k].(status := Done)]
  {
  }

  /** Validation is idempotent: a second validation of the same id is a no-op. */
  lemma ValidateIdempotent(s: AppState, opId: string)
    ensures Validate(Validate(s, opId), opId) == Validate(s, opId)
  {
    var r := Validate(s, opId);
    match OperationIndex(s.operations, opId)
    case None =>
    case Some(k) =>
      if s.operations[k].status != Done {
        FirstIndexAgrees(s.operations, r.operations, (o: Operation) => o.id == opId);
        assert OperationIndex(r.operations, opId) == Some(k);
        assert r.operations[k].status == Done;
      }
  }

  /** Products after validation, product by product, against the reference
      outcome. */
  lemma ValidateSettles(s: AppState, opId: string, k: nat)
    requires Validatable(s, opId, k)
    ensures forall i :: 0 <= i < |s.products| ==>
              Validate(s, opId).products[i]
                == Settled(s.products, i, s.operations[k].lines, MovementOf(s.locations, s.operations[k]),
                           s.operations[k].destLocationId)
  {
    var op := s.operations[k];
    ApplyLinesSettles(s.products, op.lines, MovementOf(s.locations, op), op.destLocationId);
  }

  /** External source, internal destination: each affected product gains the
      summed quantity of its lines and moves to the destination. */
  lemma ValidateIncoming(s: AppState, opId: string, k: nat)
    requires Validatable(s, opId, k)
    requires MovementOf(s.locations, s.operations[k]) == Incoming
    ensures forall i :: 0 <= i < |s.products| && Affected(s.products, i, s.operations[k].lines) ==>
              && Validate(s, opId).products[i].stock
                   == s.products[i].stock + QuantityFor(s.operations[k].lines, s.products[i].id)
              && Validate(s, opId).products[i].locationId == s.operations[k].destLocationId
    ensures forall i :: 0 <= i < |s.products| && !Affected(s.products, i, s.operations[k].lines) ==>
              Validate(s, opId).products[i] == s.products[i]
  {
    ValidateSettles(s, opId, k);
  }

  /** Internal source, external destination: each affected product loses the
      summed quantity of its lines, with no floor, and stays where it is. */
  lemma ValidateOutgoing(s: AppState, opId: string, k: nat)
    requires Validatable(s, opId, k)
    requires MovementOf(s.locations, s.operations[k]) == Outgoing
    ensures forall i :: 0 <= i < |s.products| && Affected(s.products, i, s.operations[k].lines) ==>
              && Validate(s, opId).products[i].stock
                   == s.products[i].stock - QuantityFor(s.operations[k].lines, s.products[i].id)
              && Validate(s, opId).products[i].locationId == s.products[i].locationId
    ensures forall i :: 0 <= i < |s.products| && !Affected(s.products, i, s.operations[k].lines) ==>
              Validate(s, opId).products[i] == s.products[i]
  {
    ValidateSettles(s, opId, k);
  }

  /** Internal to internal: each affected product keeps its stock and moves to
      the destination. */
  lemma ValidateRelocation(s: AppState, opId: string, k: nat)
    requires Validatable(s, opId, k)
    requires MovementOf(s.locations, s.operations[k]) == Relocation
    ensures forall i :: 0 <= i < |s.products| && Affected(s.products, i, s.operations[k].lines) ==>
              && Validate(s, opId).products[i].stock == s.products[i].stock
              && Validate(s, opId).products[i].locationId == s.operations[k].destLocationId
    ensures forall i :: 0 <= i < |s.products| && !Affected(s.products, i, s.operations[k].lines) ==>
              Validate(s, opId).products[i] == s.products[i]
  {
    ValidateSettles(s, opId, k);
  }

  /** External to external: the products are untouched (the operation is still
      marked DONE). */
  lemma ValidateNoMove(s: AppState, opId: string, k: nat)
    requires Validatable(s, opId, k)
    requires MovementOf(s.locations, s.operations[k]) == NoMove
    ensures Validate(s, opId).products == s.products
  {
    ValidateSettles(s, opId, k);
  }

  /** Adding a line whose product id names no product leaves the outcome of
      the fold unchanged, wherever the line stands. */
  lemma UnknownLineIgnored(ps: seq<Product>, before: seq<OperationLine>, l: OperationLine,
                           after: seq<OperationLine>, m: Movement, dest: string)
    requires ProductIndex(ps, l.productId).None?
    ensures ApplyLines(ps, before + [l] + after, m, dest) == ApplyLines(ps, before + after, m, dest)
  {
    var withL, withoutL := before + [l] + after, before + after;
    ApplyLinesSettles(ps, withL, m, dest);
    ApplyLinesSettles(ps, withoutL, m, dest);
    forall i | 0 <= i < |ps|
      ensures Settled(ps, i, withL, m, dest) == Settled(ps, i, withoutL, m, dest)
    {
      UnknownLineSettles(ps, before, l, after, m, dest, i);
    }
  }

  /** The per-product step of `UnknownLineIgnored`. */
  lemma UnknownLineSettles(ps: seq<Product>, before: seq<OperationLine>, l: OperationLine,
                           after: seq<OperationLine>, m: Movement, dest: string, i: nat)
    requires i < |ps| && l.productId != ps[i].id
    ensures Settled(ps, i, before + [l] + after, m, dest) == Settled(ps, i, before + after, m, dest)
  {
    var id := ps[i].id;
    assert before + [l] + after == (before + [l]) + after;
    QuantityForConcat(before + [l], after, id);
    QuantityForConcat(before, [l], id);
    QuantityForConcat(before, after, id);
    assert QuantityFor([l], id) == 0 by {
      assert [l][1..] == [];
    }
    MentionsConcat(before + [l], after, id);
    MentionsConcat(before, [l], id);
    MentionsConcat(before, after, id);
  }

  /** A concatenation of line lists mentions exactly what either part does. */
  lemma MentionsConcat(a: seq<OperationLine>, b: seq<OperationLine>, pid: string)
    ensures Mentions(a + b, pid) <==> Mentions(a, pid) || Mentions(b, pid)
  {
    if Mentions(a + b, pid) {
      var k :| 0 <= k < |a + b| && (a + b)[k].productId == pid;
      if k >= |a| {
        assert b[k - |a|].productId == pid;
      } else {
        assert a[k].productId == pid;
      }
    }
    if Mentions(b, pid) {
      var k :| 0 <= k < |b| && b[k].productId == pid;
      assert (a + b)[k + |a|].productId == pid;
    }
    if Mentions(a, pid) {
      var k :| 0 <= k < |a| && a[k].productId == pid;
      assert (a + b)[k].productId == pid;
    }
  }

  /** Quantities of a concatenation of line lists add up. */
  lemma {:induction false} QuantityForConcat(a: seq<OperationLine>, b: seq<OperationLine>, pid: string)
    ensures QuantityFor(a + b, pid) == QuantityFor(a, pid) + QuantityFor(b, pid)
    decreases |a|
  {
    if |a| == 0 {
      assert a + b == b;
    } else {
      assert (a + b)[1..] == a[1..] + b;
      QuantityForConcat(a[1..], b, pid);
    }
  }
}
