/** The invoice draft editor (src/pages/InvoiceCreate.tsx): a customer,
    two dates, a list of line items and the derived subtotal, VAT and
    total. */
module InvoiceCreate {
  import opened Wrappers
  import opened Seqs
  import opened Types

  datatype LineItem = LineItem(id: string, description: string, quantity: int, price: real)

  /** `updateItem`'s `field` and `value` arguments, one constructor per key
      of the item record. */
  datatype ItemField =
    | IdField(id: string)
    | DescriptionField(description: string)
    | QuantityField(quantity: int)
    | PriceField(price: real)

  /** The row `addItem` appends and a new draft starts with. */
  function BlankItem(id: string): LineItem {
    LineItem(id, "", 1, 0.0)
  }

  /** The default due date is thirty days after the invoice date. */
  const DUE_AFTER_MS: int := 30 * DAY_MS

  /** VAT at 20%. */
  const VAT_RATE: real := 0.2

  function WithField(item: LineItem, field: ItemField): LineItem {
    match field
    case IdField(v) => item.(id := v)
    case DescriptionField(v) => item.(description := v)
    case QuantityField(v) => item.(quantity := v)
    case PriceField(v) => item.(price := v)
  }

  function FieldSetter(field: ItemField): LineItem -> LineItem {
    (it: LineItem) => WithField(it, field)
  }

  function ItemIs(id: string): LineItem -> bool {
    (it: LineItem) => it.id == id
  }

  function ItemIsNot(id: string): LineItem -> bool {
    (it: LineItem) => it.id != id
  }

  /** `items.filter(item => item.id !== id)`. */
  function WithoutItem(items: seq<LineItem>, id: string): (r: seq<LineItem>)
    ensures |r| <= |items|
    ensures forall i :: 0 <= i < |r| ==> r[i].id != id && r[i] in items
  {
    Filter(ItemIsNot(id), items)
  }

  /** `items.map(item => item.id === id ? {...item, [field]: value} : item)`. */
  function UpdateById(items: seq<LineItem>, id: string, field: ItemField): (r: seq<LineItem>)
    ensures |r| == |items|
    ensures forall i :: 0 <= i < |items| ==>
              r[i] == if items[i].id == id then WithField(items[i], field) else items[i]
  {
    MapWherePointwise(ItemIs(id), FieldSetter(field), items);
    MapWhere(ItemIs(id), FieldSetter(field), items)
  }

  // ---------------------------------------------------------------------
  // Subtotal, VAT and total
  // ---------------------------------------------------------------------

  function LineAmount(item: LineItem): real {
    item.quantity as real * item.price
  }

  /** `items.reduce((sum, item) => sum + item.quantity * item.price, 0)`. */
  function Subtotal(items: seq<LineItem>): (r: real)
    ensures (forall i :: 0 <= i < |items| ==> LineAmount(items[i]) >= 0.0) ==> r >= 0.0
    decreases |items|
  {
    if items == [] then 0.0 else LineAmount(items[0]) + Subtotal(items[1..])
  }

  /** VAT on the subtotal: a fifth of it. */
  function Tax(items: seq<LineItem>): (r: real)
    ensures r == Subtotal(items) / 5.0
  {
    Subtotal(items) * VAT_RATE
  }

  /** The total is the subtotal with 20% VAT added: 1.2 times the
      subtotal, and the subtotal is what remains when the VAT is taken off. */
  function Total(items: seq<LineItem>): (r: real)
    ensures r == Subtotal(items) * 1.2
    ensures r - Tax(items) == Subtotal(items)
  {
    Subtotal(items) + Tax(items)
  }

  /** Appending a row adds its amount to the subtotal. */
  lemma {:induction false} SubtotalAppend(items: seq<LineItem>, item: LineItem)
    ensures Subtotal(items + [item]) == Subtotal(items) + LineAmount(item)
    decreases |items|
  {
    if items != [] {
      assert (items + [item])[1..] == items[1..] + [item];
      SubtotalAppend(items[1..], item);
    } else {
      assert [] + [item] == [item];
    }
  }

  /** Rows priced at zero contribute nothing. */
  lemma {:induction false} SubtotalOfZeroPrices(items: seq<LineItem>)
    requires forall i :: 0 <= i < |items| ==> items[i].price == 0.0
    ensures Subtotal(items) == 0.0
    decreases |items|
  {
    if items != [] {
      SubtotalOfZeroPrices(items[1..]);
    }
  }

  /** With non-negative quantities and prices the subtotal is non-negative. */
  lemma {:induction false} SubtotalNonNegative(items: seq<LineItem>)
    requires forall i :: 0 <= i < |items| ==> items[i].quantity >= 0 && items[i].price >= 0.0
    ensures Subtotal(items) >= 0.0
    decreases |items|
  {
    if items != [] {
      SubtotalNonNegative(items[1..]);
      assert LineAmount(items[0]) >= 0.0 by {
        MulNonNegative(items[0].quantity as real, items[0].price);
      }
    }
  }

  lemma MulNonNegative(a: real, b: real)
    requires a >= 0.0 && b >= 0.0
    ensures a * b >= 0.0
  {
  }

  /** Removing the rows with an id takes exactly their amounts off the
      subtotal. */
  lemma {:induction false} SubtotalSplitsById(items: seq<LineItem>, id: string)
    ensures Subtotal(WithoutItem(items, id)) + Subtotal(Filter(ItemIs(id), items)) == Subtotal(items)
    decreases |items|
  {
    if items != [] {
      SubtotalSplitsById(items[1..], id);
      var rest := items[1..];
      if items[0].id == id {
        assert Filter(ItemIs(id), items) == [items[0]] + Filter(ItemIs(id), rest);
        assert ([items[0]] + Filter(ItemIs(id), rest))[1..] == Filter(ItemIs(id), rest);
      } else {
        assert WithoutItem(items, id) == [items[0]] + WithoutItem(rest, id);
        assert ([items[0]] + WithoutItem(rest, id))[1..] == WithoutItem(rest, id);
      }
    }
  }

  /** Two units at 100.00 and one at 50.00: subtotal 250.00, VAT 50.00,
      total 300.00. */
  lemma TwoLineExample()
    ensures var items := [LineItem("1", "Design", 2, 100.0), LineItem("2", "Hosting", 1, 50.0)];
            Subtotal(items) == 250.0 && Tax(items) == 50.0 && Total(items) == 300.0
  {
    var items := [LineItem("1", "Design", 2, 100.0), LineItem("2", "Hosting", 1, 50.0)];
    assert items[1..][1..] == [];
  }

  // ---------------------------------------------------------------------
  // Submission rules
  // ---------------------------------------------------------------------

  /** A row the submit check refuses: no description, or a quantity or
      price that is not positive. */
  predicate InvalidItem(item: LineItem): (r: bool)
    ensures !r ==> item.description != "" && LineAmount(item) > 0.0
  {
    item.description == "" || item.quantity <= 0 || item.price <= 0.0
  }

  /** A draft that passes the item check has a positive subtotal and total. */
  lemma {:induction false} AcceptedItemsHavePositiveTotal(items: seq<LineItem>)
    requires |items| >= 1
    requires forall i :: 0 <= i < |items| ==> !InvalidItem(items[i])
    ensures Subtotal(items) > 0.0 && Total(items) > 0.0
    decreases |items|
  {
    if |items| > 1 {
      AcceptedItemsHavePositiveTotal(items[1..]);
    } else {
      assert items[1..] == [];
    }
  }

  /** `items.some(item => !item.description || item.quantity <= 0 || item.price <= 0)`. */
  method HasInvalidItem(items: seq<LineItem>) returns (found: bool)
    ensures found <==> exists i :: 0 <= i < |items| && InvalidItem(items[i])
  {
    found := false;
    var k := 0;
    while k < |items| && !found
      invariant 0 <= k <= |items|
      invariant found <==> exists i :: 0 <= i < k && InvalidItem(items[i])
      decreases |items| - k
    {
      found := InvalidItem(items[k]);
      k := k + 1;
    }
  }

  predicate UniqueIds(items: seq<LineItem>) {
    forall i, j :: 0 <= i < j < |items| ==> items[i].id != items[j].id
  }

  /** With distinct ids, removing one id drops at most one row. */
  lemma {:induction false} RemoveDropsAtMostOne(items: seq<LineItem>, id: string)
    requires UniqueIds(items)
    ensures |WithoutItem(items, id)| >= |items| - 1
    decreases |items|
  {
    if items != [] {
      var rest := items[1..];
      assert UniqueIds(rest) by {
        forall i, j | 0 <= i < j < |rest| ensures rest[i].id != rest[j].id {
          assert rest[i] == items[i + 1] && rest[j] == items[j + 1];
        }
      }
      if items[0].id == id {
        forall i | 0 <= i < |rest| ensures ItemIsNot(id)(rest[i]) {
          assert rest[i] == items[i + 1];
        }
        FilterKeepsAll(ItemIsNot(id), rest);
      } else {
        RemoveDropsAtMostOne(rest, id);
      }
    }
  }

  datatype SubmitOutcome = MissingCustomer | InvalidItems | Accepted

  // ---------------------------------------------------------------------
  // The draft's state
  // ---------------------------------------------------------------------

  class InvoiceDraft {
    var isSubmitting: bool
    var customer: string
    var invoiceDate: Option<int>
    var dueDate: Option<int>
    var items: seq<LineItem>
    var notes: string

    /** A new draft at time `now`: no customer, one blank row with id "1",
        dated today and due in thirty days. */
    constructor (now: int)
      ensures !isSubmitting && customer == "" && notes == ""
      ensures invoiceDate == Some(now) && dueDate == Some(now + DUE_AFTER_MS)
      ensures items == [BlankItem("1")]
      ensures Subtotal(items) == 0.0
    {
      isSubmitting := false;
      customer := "";
      invoiceDate := Some(now);
      dueDate := Some(now + DUE_AFTER_MS);
      items := [BlankItem("1")];
      notes := "";
    }

    method SetCustomer(id: string)
      modifies this`customer
      ensures customer == id
    {
      customer := id;
    }

    /** Appends a blank row with the given fresh id; earlier rows and the
        subtotal stay as they were. */
    method AddItem(freshId: string)
      modifies this`items
      ensures items == old(items) + [BlankItem(freshId)]
      ensures Subtotal(items) == Subtotal(old(items))
    {
      SubtotalAppend(items, BlankItem(freshId));
      items := items + [BlankItem(freshId)];
    }

    /** Removes the rows with the id when there is more than one row;
        otherwise refuses and leaves the list unchanged. */
    method RemoveItem(id: string) returns (removed: bool)
      modifies this`items
      ensures removed <==> |old(items)| > 1
      ensures items == if removed then WithoutItem(old(items), id) else old(items)
      ensures IsSubsequence(items, old(items))
      ensures forall it :: it in items <==> it in old(items) && (removed ==> it.id != id)
      ensures Subtotal(items) + (if removed then Subtotal(Filter(ItemIs(id), old(items))) else 0.0) ==
              Subtotal(old(items))
      ensures |old(items)| >= 1 && UniqueIds(old(items)) ==> |items| >= 1
    {
      if |items| > 1 {
        FilterIsSubsequence(ItemIsNot(id), items);
        FilterMembership(ItemIsNot(id), items);
        SubtotalSplitsById(items, id);
        if UniqueIds(items) {
          RemoveDropsAtMostOne(items, id);
        }
        items := WithoutItem(items, id);
        removed := true;
      } else {
        SubsequenceReflexive(items);
        removed := false;
      }
    }

    /** Sets one field of the rows with the id; length, order and every
        other row stay as they were. */
    method UpdateItem(id: string, field: ItemField)
      modifies this`items
      ensures items == UpdateById(old(items), id, field)
      ensures |items| == |old(items)|
      ensures forall i :: 0 <= i < |items| ==>
                items[i] == if old(items)[i].id == id then WithField(old(items)[i], field) else old(items)[i]
    {
      MapWherePointwise(ItemIs(id), FieldSetter(field), items);
      items := UpdateById(items, id, field);
    }

    /** The submit handler: a missing customer is reported before the rows
        are looked at; either refusal leaves `isSubmitting` false, and an
        accepted draft stays submitting until the simulated request ends. */
    method HandleSubmit() returns (outcome: SubmitOutcome)
      modifies this`isSubmitting
      ensures outcome == MissingCustomer <==> customer == ""
      ensures outcome == Accepted <==>
                customer != "" && forall i :: 0 <= i < |items| ==> !InvalidItem(items[i])
      ensures customer != "" ==>
                (outcome == InvalidItems <==> exists i :: 0 <= i < |items| && InvalidItem(items[i]))
      ensures isSubmitting <==> outcome == Accepted
      ensures outcome == Accepted && |items| >= 1 ==> Total(items) > 0.0
    {
      isSubmitting := true;
      if customer == "" {
        isSubmitting := false;
        return MissingCustomer;
      }
      var rows := items;
      var bad := HasInvalidItem(rows);
      if bad {
        isSubmitting := false;
        assert rows == items;
        return InvalidItems;
      }
      if |items| >= 1 {
        AcceptedItemsHavePositiveTotal(items);
      }
      outcome := Accepted;
    }

    /** The end of the simulated request: submitting stops and the page
        moves to the dashboard. */
    method FinishSubmit() returns (target: string)
      modifies this`isSubmitting
      ensures !isSubmitting && target == "/dashboard"
    {
      isSubmitting := false;
      target := "/dashboard";
    }
  }
}
