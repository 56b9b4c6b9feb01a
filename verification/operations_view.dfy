/** The rules of the operations list (receipts, deliveries and internal
    transfers): which operations a view shows, the defaults of the creation
    form, the operation a submission builds, and when validation is offered. */
module OperationsView {
  import opened Types
  import opened Seqs
  import opened StockEngine
  import Registry

  /** The test a view applies: the operation is of the view's type. */
  function OfType(t: OperationType): Operation -> bool
  {
    (o: Operation) => o.opType == t
  }

  /** `filteredOps`: the operations of the view's type, in registry order. */
  function FilterByType(ops: seq<Operation>, t: OperationType): (r: seq<Operation>)
    ensures forall i :: 0 <= i < |r| ==> r[i] in ops && r[i].opType == t
    ensures forall i :: 0 <= i < |ops| && ops[i].opType == t ==> ops[i] in r
    ensures |r| == |set i: nat | i < |ops| && ops[i].opType == t|
  {
    var f := OfType(t);
    FilterCount(ops, f);
    assert Positions(ops, f) == set i: nat | i < |ops| && ops[i].opType == t;
    Filter(ops, f)
  }

  /** A newly created operation heads the list of its own view and leaves the
      other views as they were. */
  lemma CreatedOperationHeadsView(s: AppState, op: Operation, t: OperationType)
    ensures op.opType == t ==> FilterByType(Registry.CreateOperation(s, op).operations, t)
                                 == [op] + FilterByType(s.operations, t)
    ensures op.opType != t ==> FilterByType(Registry.CreateOperation(s, op).operations, t)
                                 == FilterByType(s.operations, t)
  {
    var f := OfType(t);
    var ops := Registry.CreateOperation(s, op).operations;
    assert ops == [op] + s.operations;
    FilterConcat([op], s.operations, f);
    FilterSingleton(op, f);
    assert FilterByType(ops, t) == Filter(ops, f);
    assert FilterByType(s.operations, t) == Filter(s.operations, f);
  }

  /** Default source of the creation form: vendors for a receipt, the main
      stock otherwise. */
  function DefaultSource(t: OperationType): (id: string)
    ensures id == "loc_vendor" <==> t == Receipt
    ensures id != "loc_vendor" ==> id == "loc_wh_stock"
  {
    if t == Receipt then "loc_vendor" else "loc_wh_stock"
  }

  /** Default destination: customers for a delivery, the main stock
      otherwise. */
  function DefaultDest(t: OperationType): (id: string)
    ensures id == "loc_customer" <==> t == Delivery
    ensures id != "loc_customer" ==> id == "loc_wh_stock"
  {
    if t == Delivery then "loc_customer" else "loc_wh_stock"
  }

  /** The prefix of a new operation's reference. */
  function ReferencePrefix(t: OperationType): (p: string)
    ensures p == "WH/IN/" <==> t == Receipt
    ensures p == "WH/OUT/" <==> t == Delivery
    ensures p == "WH/INT/" <==> t == OperationType.Internal || t == Adjustment
  {
    match t
    case Receipt => "WH/IN/"
    case Delivery => "WH/OUT/"
    case _ => "WH/INT/"
  }

  /** The last `n` characters, or all of them when fewer; `n` is positive
      (the reference keeps the last four digits of the clock). */
  function LastChars(s: string, n: nat): (r: string)
    requires n > 0
    ensures |r| == if |s| < n then |s| else n
    ensures s == s[..|s| - |r|] + r
  {
    if |s| < n then s else s[|s| - n..]
  }

  /** The state of the creation form. */
  datatype OpForm = OpForm(sourceId: string, destId: string, selectedProduct: string, qty: int, modalOpen: bool)

  /** The form as the view first shows it. */
  function InitialForm(t: OperationType): (form: OpForm)
    ensures form.sourceId == DefaultSource(t) && form.destId == DefaultDest(t)
    ensures form.selectedProduct == "" && form.qty == 1 && !form.modalOpen
    ensures forall ps, newId, stamp, today :: Submit(form, t, ps, newId, stamp, today).created.None?
  {
    OpForm(DefaultSource(t), DefaultDest(t), "", 1, false)
  }

  /** The name a new line records: that of the first product with the id,
      or 'Unknown' when there is none or its name is empty. */
  function LineName(ps: seq<Product>, productId: string): (name: string)
    ensures (forall i :: 0 <= i < |ps| ==> ps[i].id != productId) ==> name == "Unknown"
    ensures forall i :: 0 <= i < |ps| && ps[i].id == productId && (forall j :: 0 <= j < i ==> ps[j].id != productId) ==>
              name == if ps[i].name == "" then "Unknown" else ps[i].name
  {
    match ProductIndex(ps, productId)
    case None => "Unknown"
    case Some(i) => if ps[i].name == "" then "Unknown" else ps[i].name
  }

  /** What a submission yields: the form afterwards and, perhaps, the new
      operation handed to the registry. */
  datatype Submission = Submission(form: OpForm, created: Option<Operation>)

  /** `handleSubmit`: with a product selected, builds a READY operation of
      the view's type with one line and resets the line fields and closes the
      form; with none selected, does nothing. `newId`, `stamp` (the digits of
      the clock) and `today` stand for the values the source reads from the
      clock. */
  function Submit(form: OpForm, t: OperationType, ps: seq<Product>, newId: string, stamp: string, today: string): (r: Submission)
    ensures r.created.None? <==> form.selectedProduct == ""
    ensures r.created.None? ==> r.form == form
    ensures r.created.Some? ==>
              var op := r.created.value;
              && op.id == newId && op.opType == t && op.status == Ready && op.date == today
              && op.sourceLocationId == form.sourceId && op.destLocationId == form.destId
              && |op.lines| == 1
              && op.lines[0].productId == form.selectedProduct
              && op.lines[0].quantity == form.qty
              && op.lines[0].productName == LineName(ps, form.selectedProduct)
              && ReferencePrefix(t) <= op.reference
              && |op.reference| <= |ReferencePrefix(t)| + 4
    ensures r.created.Some? ==>
              r.form == form.(selectedProduct := "", qty := 1, modalOpen := false)
  {
    if form.selectedProduct == "" then Submission(form, None)
    else
      var line := OperationLine(form.selectedProduct, LineName(ps, form.selectedProduct), form.qty);
      var reference := ReferencePrefix(t) + LastChars(stamp, 4);
      var op := Operation(newId, t, reference, form.sourceId, form.destId, Ready, today, [line]);
      Submission(form.(selectedProduct := "", qty := 1, modalOpen := false), Some(op))
  }

  /** A submission keeps the chosen locations for the next operation. */
  lemma SubmitKeepsLocations(form: OpForm, t: OperationType, ps: seq<Product>, newId: string, stamp: string, today: string)
    ensures Submit(form, t, ps, newId, stamp, today).form.sourceId == form.sourceId
    ensures Submit(form, t, ps, newId, stamp, today).form.destId == form.destId
  {
  }

  /** Submitting from the reset form does nothing: a second click creates no
      duplicate. */
  lemma SubmitTwiceCreatesOnce(form: OpForm, t: OperationType, ps: seq<Product>, newId: string, stamp: string, today: string)
    ensures Submit(Submit(form, t, ps, newId, stamp, today).form, t, ps, newId, stamp, today).created.None?
  {
  }

  /** The validate button is shown for operations neither DONE nor
      CANCELLED. */
  function CanValidate(status: OperationStatus): (b: bool)
    ensures b <==> status == Draft || status == Ready
  {
    IsOpen(status)
  }

  /** Pressing validate on an operation the view offers it for reaches that
      operation (the first with its id) and hides the button afterwards. */
  lemma ValidateHidesButton(s: AppState, k: nat)
    requires k < |s.operations|
    requires OperationIndex(s.operations, s.operations[k].id) == Some(k)
    requires CanValidate(s.operations[k].status)
    ensures Validate(s, s.operations[k].id).operations[k] == s.operations[k].(status := Done)
    ensures !CanValidate(Validate(s, s.operations[k].id).operations[k].status)
  {
    ValidateMarksDone(s, s.operations[k].id, k);
  }

  /** A submitted operation, once created and validated, is applied to the
      products and then shows no validate button. */
  lemma SubmitCreateValidate(s: AppState, form: OpForm, t: OperationType, newId: string, stamp: string, today: string)
    requires form.selectedProduct != ""
    ensures var op := Submit(form, t, s.products, newId, stamp, today).created.value;
            var s' := Validate(Registry.CreateOperation(s, op), newId);
            && s'.operations == [op.(status := Done)] + s.operations
            && s'.products == ApplyLines(s.products, op.lines, MovementOf(s.locations, op), op.destLocationId)
            && !CanValidate(s'.operations[0].status)
  {
    var op := Submit(form, t, s.products, newId, stamp, today).created.value;
    Registry.CreateThenValidate(s, op);
  }
}
