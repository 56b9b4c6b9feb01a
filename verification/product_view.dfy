/** The product-creation form of the product list: its initial values, the
    guard on submission and the reset that follows. */
module ProductView {
  import opened Types
  import opened Seqs

  /** The fields of the creation form, all of them set from the start. */
  datatype ProductForm = ProductForm(
    name: string, sku: string, category: string, uom: string,
    stock: int, price: real, locationId: string)

  /** The form as first shown and as reset after a creation. */
  const InitialProductForm: ProductForm :=
    ProductForm("", "", "", "Units", 0, 0.0, "loc_wh_stock")

  /** What a submission yields: the form, whether the dialog stays open, and
      perhaps the product handed to the registry. */
  datatype ProductSubmission = ProductSubmission(form: ProductForm, modalOpen: bool, created: Option<Product>)

  /** `handleSubmit`: with a name and a SKU, the form's fields plus the fresh
      id `newId` make the new product, the dialog closes and the form is
      reset; otherwise nothing changes. */
  function SubmitProduct(form: ProductForm, modalOpen: bool, newId: string): (r: ProductSubmission)
    ensures r.created.Some? <==> form.name != "" && form.sku != ""
    ensures r.created.None? ==> r.form == form && r.modalOpen == modalOpen
    ensures r.created.Some? ==>
              var p := r.created.value;
              && p.id == newId && p.name == form.name && p.sku == form.sku
              && p.category == form.category && p.uom == form.uom && p.stock == form.stock
              && p.price == form.price && p.locationId == form.locationId
    ensures r.created.Some? ==> r.form == InitialProductForm && !r.modalOpen
  {
    if form.name != "" && form.sku != "" then
      var p := Product(newId, form.name, form.sku, form.category, form.uom, form.stock, form.locationId, form.price);
      ProductSubmission(InitialProductForm, false, Some(p))
    else
      ProductSubmission(form, modalOpen, None)
  }

  /** The form starts blank, with one unit of measure, zero stock and price
      and the main warehouse preselected, and as such it creates nothing. */
  lemma InitialProductFormValues(modalOpen: bool, newId: string)
    ensures InitialProductForm.name == "" && InitialProductForm.sku == "" && InitialProductForm.category == ""
    ensures InitialProductForm.uom == "Units" && InitialProductForm.stock == 0 && InitialProductForm.price == 0.0
    ensures InitialProductForm.locationId == "loc_wh_stock"
    ensures SubmitProduct(InitialProductForm, modalOpen, newId).created.None?
    ensures SubmitProduct(InitialProductForm, modalOpen, newId).modalOpen == modalOpen
  {
  }

  /** The reset form cannot be submitted as it is: a second click creates no
      duplicate product. */
  lemma ResetFormIsInert(form: ProductForm, modalOpen: bool, id1: string, id2: string)
    ensures var r := SubmitProduct(form, modalOpen, id1);
            r.created.Some? ==> SubmitProduct(r.form, r.modalOpen, id2).created.None?
  {
  }

  /** Filling in only a name, or only a SKU, never creates a product. */
  lemma NameAndSkuRequired(form: ProductForm, modalOpen: bool, newId: string)
    ensures form.name == "" ==> SubmitProduct(form, modalOpen, newId).created.None?
    ensures form.sku == "" ==> SubmitProduct(form, modalOpen, newId).created.None?
  {
  }
}
