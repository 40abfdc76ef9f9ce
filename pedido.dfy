/** An order of app/models/pedido.rb: its validations and the
    before-validation hook that recomputes the total from the lines. Money is
    integer cents, so sums are exact. */
module Pedidos {
  import opened Json
  import Items

  /** The statuses an order may have. */
  const Statuses: set<string> := {"pending", "confirmed", "shipped", "delivered", "cancelled"}

  /** The characters of Ruby's `[[:space:]]` on a Unicode string. */
  predicate IsSpace(c: char) {
    || '\U{9}' <= c <= '\U{D}'
    || c == ' ' || c == '\U{85}' || c == '\U{A0}' || c == '\U{1680}'
    || '\U{2000}' <= c <= '\U{200A}'
    || c == '\U{2028}' || c == '\U{2029}' || c == '\U{202F}' || c == '\U{205F}' || c == '\U{3000}'
  }

  /** `blank?`: nil, empty, or only whitespace. */
  predicate IsBlank(s: Option<string>): (blank: bool)
    ensures s.None? || s == Some("") ==> blank
    ensures s.Some? ==> (blank <==> forall c :: c in s.value ==> IsSpace(c))
  {
    s.None? || forall i :: 0 <= i < |s.value| ==> IsSpace(s.value[i])
  }

  /** The attributes a validation error can be recorded against. */
  datatype PedidoAttr = CustomerName | TotalAmount | Status

  /** What one line adds to the total, a nil field counting as 0. */
  function LineTotal(item: Items.Item): (amount: int)
    ensures item.quantity.None? || item.unitPrice.None? ==> amount == 0
    ensures Items.IsValid(item) ==> amount > 0
  {
    item.quantity.GetOr(0) * item.unitPrice.GetOr(0)
  }

  /** `itens.sum { |item| ... }`, in cents. */
  function Total(items: seq<Items.Item>): (t: int)
    ensures items == [] ==> t == 0
    ensures (forall i :: 0 <= i < |items| ==> LineTotal(items[i]) >= 0) ==> t >= 0
  {
    if items == [] then 0
    else LineTotal(items[0]) + Total(items[1..])
  }

  /** The attributes whose declared validation fails: customer_name must not
      be blank; total_amount present and greater than 0; status present and
      one of Statuses. */
  function Errors(customerName: Option<string>, totalAmount: Option<int>, status: Option<string>): (errs: set<PedidoAttr>)
    ensures CustomerName in errs <==> IsBlank(customerName)
    ensures TotalAmount in errs <==> totalAmount.None? || totalAmount.value <= 0
    ensures Status in errs <==> status.None? || status.value !in Statuses
  {
    (if IsBlank(customerName) then {CustomerName} else {})
    + (if totalAmount.None? || totalAmount.value <= 0 then {TotalAmount} else {})
    + (if status.None? || status.value !in Statuses then {Status} else {})
  }

  class Pedido {
    var customerName: Option<string>
    var totalAmount: Option<int>
    var status: Option<string>
    var itens: seq<Items.Item>

    constructor (customerName: Option<string>, totalAmount: Option<int>, status: Option<string>, itens: seq<Items.Item>)
      ensures this.customerName == customerName && this.totalAmount == totalAmount
      ensures this.status == status && this.itens == itens
    {
      this.customerName, this.totalAmount := customerName, totalAmount;
      this.status, this.itens := status, itens;
    }

    /** calculate_total_amount: with any lines, the total becomes their sum;
        with none it is left as it was. Nothing else changes. */
    method CalculateTotalAmount()
      modifies this
      ensures customerName == old(customerName) && status == old(status) && itens == old(itens)
      ensures totalAmount == if |itens| > 0 then Some(Total(itens)) else old(totalAmount)
    {
      if |itens| > 0 {
        totalAmount := Some(Total(itens));
      }
    }

    /** `valid?`: the before-validation hook runs first, so the total that
        is checked is the recomputed one. */
    method Validate() returns (valid: bool)
      modifies this
      ensures customerName == old(customerName) && status == old(status) && itens == old(itens)
      ensures totalAmount == if |itens| > 0 then Some(Total(itens)) else old(totalAmount)
      ensures valid <==> Errors(customerName, totalAmount, status) == {}
    {
      CalculateTotalAmount();
      valid := Errors(customerName, totalAmount, status) == {};
    }
  }

  /** An order is valid exactly when its name is not blank, its total is
      positive and its status is allowed. */
  lemma ValidationRules(customerName: Option<string>, totalAmount: Option<int>, status: Option<string>)
    ensures Errors(customerName, totalAmount, status) == {} <==>
      !IsBlank(customerName) && totalAmount.Some? && totalAmount.value > 0
      && status.Some? && status.value in Statuses
  {
  }

  /** The total of two runs of lines is the sum of their totals. */
  lemma {:induction false} TotalConcat(a: seq<Items.Item>, b: seq<Items.Item>)
    ensures Total(a + b) == Total(a) + Total(b)
  {
    if a == [] {
      assert a + b == b;
    } else {
      assert (a + b)[0] == a[0];
      assert (a + b)[1..] == a[1..] + b;
      TotalConcat(a[1..], b);
    }
  }

  /** Appending a line raises the total by exactly that line's amount. */
  lemma TotalAppend(items: seq<Items.Item>, item: Items.Item)
    ensures Total(items + [item]) == Total(items) + LineTotal(item)
  {
    TotalConcat(items, [item]);
    assert [item][1..] == [];
  }

  /** Taking line j out of a run lowers the total by that line's amount. */
  lemma TotalRemove(b: seq<Items.Item>, j: nat)
    requires j < |b|
    ensures Total(b) == LineTotal(b[j]) + Total(b[..j] + b[j + 1..])
  {
    assert b == b[..j] + b[j..];
    assert b[j..][0] == b[j] && b[j..][1..] == b[j + 1..];
    TotalConcat(b[..j], b[j..]);
    TotalConcat(b[..j], b[j + 1..]);
  }

  /** Taking line j out of a run takes exactly one copy of it out of the
      run's multiset. */
  lemma MultisetRemove(b: seq<Items.Item>, j: nat)
    requires j < |b|
    ensures multiset(b) == multiset{b[j]} + multiset(b[..j] + b[j + 1..])
  {
    assert b == b[..j] + b[j..] && b[j..] == [b[j]] + b[j + 1..];
  }

  /** The order of the lines does not matter: any permutation has the same
      total. */
  lemma {:induction false} TotalPermutation(a: seq<Items.Item>, b: seq<Items.Item>)
    requires multiset(a) == multiset(b)
    ensures Total(a) == Total(b)
  {
    if a == [] {
      assert |b| == |multiset(b)| == 0;
    } else {
      assert a[0] in multiset(b);
      var j :| 0 <= j < |b| && b[j] == a[0];
      var rest := b[..j] + b[j + 1..];
      assert multiset(rest) == multiset(a[1..]) by {
        MultisetRemove(b, j);
        assert a == [a[0]] + a[1..];
        forall x ensures multiset(rest)[x] == multiset(a[1..])[x] {
          assert multiset(a)[x] == multiset{a[0]}[x] + multiset(a[1..])[x];
        }
      }
      TotalPermutation(a[1..], rest);
      TotalRemove(b, j);
    }
  }

  /** Non-empty lines that are all valid add up to a positive total, so the
      order passes the total_amount check after the hook has run. */
  lemma {:induction false} ValidItemsPositiveTotal(items: seq<Items.Item>)
    requires |items| > 0
    requires forall i :: 0 <= i < |items| ==> Items.IsValid(items[i])
    ensures Total(items) > 0
  {
    if |items| > 1 {
      ValidItemsPositiveTotal(items[1..]);
    }
  }

  /** After the hook, an order whose lines are all valid has no
      total_amount error, whatever total it carried before. */
  lemma ValidItemsPassTotalCheck(customerName: Option<string>, status: Option<string>, items: seq<Items.Item>)
    requires |items| > 0
    requires forall i :: 0 <= i < |items| ==> Items.IsValid(items[i])
    ensures TotalAmount !in Errors(customerName, Some(Total(items)), status)
  {
    ValidItemsPositiveTotal(items);
  }

  /** The order of the create request: two units at 99.99 total 199.98. */
  lemma TotalExample()
    ensures Total([Items.Item(Some(1), Some(2), Some(9999))]) == 19998
  {
  }

  /** The rejected create request: a blank name, no lines (so no total) and
      an unknown status fail all three rules. */
  lemma RejectedOrderExample()
    ensures Errors(Some(""), None, Some("invalid_status")) == {CustomerName, TotalAmount, Status}
  {
  }
}
