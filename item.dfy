/** An order line of app/models/item.rb and its declared validations. Money
    is integer cents: unit_price is a decimal column of scale 2. */
module Items {
  import opened Json

  /** An order line: its product id, quantity and unit price in cents; an
      attribute left unset is None (Ruby's nil). */
  datatype Item = Item(produtoId: Option<int>, quantity: Option<int>, unitPrice: Option<int>)

  /** The attributes a validation error can be recorded against. */
  datatype ItemAttr = ProdutoId | Quantity | UnitPrice

  /** The attributes whose declared validation fails: produto_id must be
      present; quantity present and greater than 0; unit_price present and
      greater than 0. */
  function Errors(item: Item): (errs: set<ItemAttr>)
    ensures ProdutoId in errs <==> item.produtoId.None?
    ensures Quantity in errs <==> item.quantity.None? || item.quantity.value <= 0
    ensures UnitPrice in errs <==> item.unitPrice.None? || item.unitPrice.value <= 0
  {
    (if item.produtoId.None? then {ProdutoId} else {})
    + (if item.quantity.None? || item.quantity.value <= 0 then {Quantity} else {})
    + (if item.unitPrice.None? || item.unitPrice.value <= 0 then {UnitPrice} else {})
  }

  /** `valid?`: no validation error. */
  predicate IsValid(item: Item) {
    Errors(item) == {}
  }

  /** A valid item has a product, a positive quantity and a positive price. */
  lemma ValidationRules(item: Item)
    ensures IsValid(item) <==>
      item.produtoId.Some? && item.quantity.Some? && item.quantity.value > 0
      && item.unitPrice.Some? && item.unitPrice.value > 0
  {
  }
}
