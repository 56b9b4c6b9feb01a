/** The adjustments view: the warehouse cards (internal locations and the
    number of products stored at each), the warehouse-creation form, and the
    stock editor that issues manual adjustments. */
module AdjustmentsView {
  import opened Types
  import opened Seqs
  import opened Text
  import Registry

  predicate IsInternalLocation(l: Location)
  {
    l.kind == LocationKind.Internal
  }

  /** `internalLocations`: the INTERNAL locations, in registry order. */
  function InternalLocations(locs: seq<Location>): (r: seq<Location>)
    ensures forall i :: 0 <= i < |r| ==> r[i] in locs && r[i].kind == LocationKind.Internal
    ensures forall i :: 0 <= i < |locs| && locs[i].kind == LocationKind.Internal ==> locs[i] in r
    ensures |r| == |set i: nat | i < |locs| && locs[i].kind == LocationKind.Internal|
  {
    FilterCount(locs, IsInternalLocation);
    assert Positions(locs, IsInternalLocation) == set i: nat | i < |locs| && locs[i].kind == LocationKind.Internal;
    Filter(locs, IsInternalLocation)
  }

  /** A warehouse added to the registry shows up as the last card. */
  lemma AddLocationShowsCard(s: AppState, id: string, name: string)
    ensures InternalLocations(Registry.AddLocation(s, id, name).locations)
            == InternalLocations(s.locations) + [Location(id, name, LocationKind.Internal)]
  {
    var l := Location(id, name, LocationKind.Internal);
    FilterConcat(s.locations, [l], IsInternalLocation);
    assert [l][..0] == [];
  }

  /** The test a warehouse card applies: the product sits at the card's
      location. */
  function StoredAt(locId: string): Product -> bool
  {
    (p: Product) => p.locationId == locId
  }

  /** The "Products Stored" figure of a card: how many products name the
      location as theirs. */
  function ProductsStoredAt(ps: seq<Product>, locId: string): (n: nat)
    ensures n == |set i: nat | i < |ps| && ps[i].locationId == locId|
  {
    FilterCount(ps, StoredAt(locId));
    assert Positions(ps, StoredAt(locId)) == set i: nat | i < |ps| && ps[i].locationId == locId;
    |Filter(ps, StoredAt(locId))|
  }

  /** Adjusting the only product with an id moves it between cards: the old
      location counts one fewer, the new one one more, and the others keep
      their count. */
  lemma AdjustMovesBetweenCards(s: AppState, productId: string, newStock: int, newLocationId: string, i: nat, locId: string)
    requires i < |s.products| && s.products[i].id == productId
    requires forall j :: 0 <= j < |s.products| && j != i ==> s.products[j].id != productId
    ensures ProductsStoredAt(Registry.AdjustStock(s, productId, newStock, newLocationId).products, locId)
            == ProductsStoredAt(s.products, locId)
               - (if s.products[i].locationId == locId then 1 else 0)
               + (if newLocationId == locId then 1 else 0)
  {
    var ps := s.products;
    var q := ps[i].(stock := newStock, locationId := newLocationId);
    assert Registry.AdjustStock(s, productId, newStock, newLocationId).products == ps[i := q];
    var f := StoredAt(locId);
    FilterCount(ps, f);
    FilterCount(ps[i := q], f);
    PositionsUpdate(ps, i, q, f);
    if f(ps[i]) {
      assert i in Positions(ps, f);
    }
  }

  /** The label of a product's location in the adjustments table: the name
      of the first location with the id, or the id itself when there is none
      or its name is empty. */
  function LocationLabel(locs: seq<Location>, locId: string): (shown: string)
    ensures (forall i :: 0 <= i < |locs| ==> locs[i].id != locId) ==> shown == locId
    ensures forall i :: 0 <= i < |locs| && locs[i].id == locId && (forall j :: 0 <= j < i ==> locs[j].id != locId) ==>
              shown == if locs[i].name == "" then locId else locs[i].name
  {
    match FirstIndex(locs, (l: Location) => l.id == locId)
    case None => locId
    case Some(i) => if locs[i].name == "" then locId else locs[i].name
  }

  /** The warehouse-creation dialog: the typed name and whether it is open. */
  datatype WarehouseForm = WarehouseForm(name: string, modalOpen: bool)

  /** What a submission of the dialog yields: the dialog afterwards and,
      perhaps, the name handed to the registry. */
  datatype WarehouseSubmission = WarehouseSubmission(form: WarehouseForm, emitted: Option<string>)

  /** `handleCreateWarehouse`: a name that is not blank once trimmed is
      passed on as typed, untrimmed; the field is cleared and the dialog
      closed. A blank name does nothing. */
  function CreateWarehouse(form: WarehouseForm): (r: WarehouseSubmission)
    ensures r.emitted.Some? <==> exists i :: 0 <= i < |form.name| && !IsSpace(form.name[i])
    ensures r.emitted.Some? ==> r.emitted.value == form.name && r.form == WarehouseForm("", false)
    ensures r.emitted.None? ==> r.form == form
  {
    TrimEmptyIff(form.name);
    if Trim(form.name) != "" then WarehouseSubmission(WarehouseForm("", false), Some(form.name))
    else WarehouseSubmission(form, None)
  }

  /** The stock editor: the product being edited (if any) and the values in
      its two inputs. */
  datatype Editor = Editor(editing: Option<string>, stock: int, location: string)

  /** A manual adjustment handed to the registry. */
  datatype StockEdit = StockEdit(productId: string, newStock: int, newLocationId: string)

  /** `startEdit`: the editor takes the product's id, stock and location. */
  function StartEdit(ed: Editor, p: Product): (r: Editor)
    ensures r.editing == Some(p.id) && r.stock == p.stock && r.location == p.locationId
  {
    Editor(Some(p.id), p.stock, p.locationId)
  }

  /** The Cancel button: nothing is edited any more. */
  function CancelEdit(ed: Editor): (r: Editor)
    ensures r.editing.None? && r.stock == ed.stock && r.location == ed.location
  {
    ed.(editing := None)
  }

  /** What saving yields: the editor afterwards and, perhaps, an adjustment. */
  datatype Save = Save(editor: Editor, adjustment: Option<StockEdit>)

  /** `saveEdit`: a product being edited (a non-empty id, since the empty
      string is falsy) yields an adjustment with the editor's values, after
      which nothing is edited; otherwise nothing happens. */
  function SaveEdit(ed: Editor): (r: Save)
    ensures r.adjustment.Some? <==> ed.editing.Some? && ed.editing.value != ""
    ensures r.adjustment.Some? ==>
              r.adjustment.value == StockEdit(ed.editing.value, ed.stock, ed.location)
              && r.editor.editing.None?
    ensures r.adjustment.None? ==> r.editor == ed
  {
    match ed.editing
    case Some(id) =>
      if id != "" then Save(ed.(editing := None), Some(StockEdit(id, ed.stock, ed.location)))
      else Save(ed, None)
    case None => Save(ed, None)
  }

  /** Saving twice issues one adjustment. */
  lemma SaveTwiceAdjustsOnce(ed: Editor)
    ensures SaveEdit(SaveEdit(ed).editor).adjustment.None?
  {
  }

  /** Applying an adjustment to the registry. */
  function Apply(s: AppState, a: StockEdit): AppState
  {
    Registry.AdjustStock(s, a.productId, a.newStock, a.newLocationId)
  }

  /** Opening the editor on a product and applying it untouched changes
      nothing, when no other product shares the id. */
  lemma EditUntouchedIsNoOp(s: AppState, ed: Editor, i: nat)
    requires i < |s.products| && s.products[i].id != ""
    requires forall j :: 0 <= j < |s.products| && j != i ==> s.products[j].id != s.products[i].id
    ensures SaveEdit(StartEdit(ed, s.products[i])).adjustment.Some?
    ensures Apply(s, SaveEdit(StartEdit(ed, s.products[i])).adjustment.value) == s
  {
    var p := s.products[i];
    var r := Registry.AdjustStock(s, p.id, p.stock, p.locationId);
    assert r.products == s.products;
  }

  /** Editing, then saving, leaves the edited product with exactly the
      editor's stock and location and every other field as before. */
  lemma EditThenSave(s: AppState, ed: Editor, i: nat, stock: int, location: string)
    requires i < |s.products| && s.products[i].id != ""
    ensures var a := SaveEdit(StartEdit(ed, s.products[i]).(stock := stock, location := location)).adjustment;
            && a.Some?
            && Apply(s, a.value).products[i]
                 == s.products[i].(stock := stock, locationId := location)
  {
  }
}
