/**
 * The invoice creation form: its list of line items with the four edit operations,
 * the buyer-type switch that forces the buyer STRN, and the two tax summaries the
 * form computes (a flat 18% one, and the per-item one it actually displays).
 * Money is exact `real` arithmetic; display formatting is not modelled.
 */
module Invoice {
  import opened Wrappers
  import opened Seqs

  /** One row of the line-item table. `taxPercent` is absent until an HS code
      auto-fill attaches one. */
  datatype InvoiceItem = InvoiceItem(
    id: string,
    description: string,
    hsCode: string,
    quantity: real,
    unit: string,
    rate: real,
    taxPercent: Option<real>)

  /** An entry of the form's built-in product catalog. */
  datatype CatalogProduct = CatalogProduct(
    hsCode: string,
    name: string,
    unit: string,
    defaultRate: real,
    taxPercent: real)

  /** The five products the form offers in its HS code drop-down. */
  const MockCatalog: seq<CatalogProduct> := [
    CatalogProduct("5205.1100", "Cotton Yarn 20/1 Carded", "KG", 485.50, 18.0),
    CatalogProduct("5208.1100", "Grey Fabric 60x60/90x88", "MTR", 145.00, 18.0),
    CatalogProduct("6109.1000", "Mens Cotton T-Shirt (White)", "PCS", 850.00, 18.0),
    CatalogProduct("3907.6100", "Polyester Staple Fiber", "KG", 320.00, 18.0),
    CatalogProduct("2710.1900", "Industrial Grade Lubricant X1", "LTR", 650.00, 18.0)
  ]

  /** The fixed STRN reserved for unregistered buyers. */
  const UnregisteredStrn: string := "9999997"

  /** The rate the flat summary applies, and the fallback of the per-item one. */
  const StandardTaxPercent: real := 18.0

  /** A new, empty row. */
  function BlankItem(id: string): InvoiceItem
  {
    InvoiceItem(id, "", "", 0.0, "PCS", 0.0, None)
  }

  /** The STRN the form puts in place when the buyer type is chosen: the sentinel exactly
      for an unregistered buyer, and an empty box otherwise. */
  function StrnForBuyerType(buyerType: string): (strn: string)
    ensures strn == UnregisteredStrn <==> buyerType == "Unregistered"
    ensures buyerType != "Unregistered" ==> strn == ""
  {
    if buyerType == "Unregistered" then UnregisteredStrn else ""
  }

  // ---------------------------------------------------------------------------
  // Editing one item
  // ---------------------------------------------------------------------------

  /** A change of one field of a row, as the table's inputs request it. */
  datatype ItemEdit =
    | EditDescription(description: string)
    | EditHsCode(hsCode: string)
    | EditQuantity(quantity: real)
    | EditUnit(unit: string)
    | EditRate(rate: real)

  /** `products.find(p => p.hs_code === code)`: the first catalog entry with that code. */
  function FindProduct(catalog: seq<CatalogProduct>, code: string): (r: Option<CatalogProduct>)
    ensures r.None? <==> forall k :: 0 <= k < |catalog| ==> catalog[k].hsCode != code
    ensures r.Some? ==> exists k :: 0 <= k < |catalog| && catalog[k] == r.value && FirstWithCode(catalog, code, k)
  {
    if catalog == [] then None
    else if catalog[0].hsCode == code then
      assert FirstWithCode(catalog, code, 0);
      Some(catalog[0])
    else
      var r := FindProduct(catalog[1..], code);
      if r.Some? then
        var k :| 0 <= k < |catalog[1..]| && catalog[1..][k] == r.value && FirstWithCode(catalog[1..], code, k);
        assert FirstWithCode(catalog, code, k + 1);
        r
      else
        r
  }

  /** Position `k` holds the first catalog entry whose code is `code`. */
  predicate FirstWithCode(catalog: seq<CatalogProduct>, code: string, k: int)
  {
    0 <= k < |catalog| && catalog[k].hsCode == code &&
    forall j :: 0 <= j < k ==> catalog[j].hsCode != code
  }

  /** The row after one edit: the field is set, and choosing an HS code that the
      catalog knows overwrites description, unit, rate and tax percent from it. */
  function ApplyEdit(item: InvoiceItem, edit: ItemEdit, catalog: seq<CatalogProduct>): (r: InvoiceItem)
    ensures r.id == item.id
    ensures edit.EditDescription? ==> r == item.(description := edit.description)
    ensures edit.EditQuantity? ==> r == item.(quantity := edit.quantity)
    ensures edit.EditUnit? ==> r == item.(unit := edit.unit)
    ensures edit.EditRate? ==> r == item.(rate := edit.rate)
    ensures !edit.EditHsCode? ==> r.hsCode == item.hsCode && r.taxPercent == item.taxPercent
    ensures !edit.EditQuantity? ==> r.quantity == item.quantity
    ensures edit.EditHsCode? ==> r.hsCode == edit.hsCode
  {
    match edit
    case EditDescription(d) => item.(description := d)
    case EditQuantity(q) => item.(quantity := q)
    case EditUnit(u) => item.(unit := u)
    case EditRate(x) => item.(rate := x)
    case EditHsCode(code) =>
      var updated := item.(hsCode := code);
      match FindProduct(catalog, code)
      case None => updated
      case Some(p) =>
        updated.(description := p.name, unit := p.unit, rate := p.defaultRate, taxPercent := Some(p.taxPercent))
  }

  /** Choosing a code the catalog knows copies the first matching product into the row;
      only the id and quantity of the row survive. */
  lemma AutoFillFromCatalog(item: InvoiceItem, code: string, catalog: seq<CatalogProduct>, k: nat)
    requires FirstWithCode(catalog, code, k)
    ensures ApplyEdit(item, EditHsCode(code), catalog) ==
      InvoiceItem(item.id, catalog[k].name, code, item.quantity, catalog[k].unit,
                  catalog[k].defaultRate, Some(catalog[k].taxPercent))
  {
  }

  /** Choosing a code the catalog does not know (the empty choice included) changes the
      code only: an earlier description, unit, rate or tax percent is kept. */
  lemma UnknownCodeKeepsFields(item: InvoiceItem, code: string, catalog: seq<CatalogProduct>)
    requires forall k :: 0 <= k < |catalog| ==> catalog[k].hsCode != code
    ensures ApplyEdit(item, EditHsCode(code), catalog) == item.(hsCode := code)
  {
  }

  /** The mock catalog has no entry for the empty "Select HS Code" choice, and its entry
      for "5205.1100" is the cotton yarn at 485.50 per KG, taxed at 18%. */
  lemma MockCatalogLookups()
    ensures FindProduct(MockCatalog, "") == None
    ensures FindProduct(MockCatalog, "5205.1100") ==
      Some(CatalogProduct("5205.1100", "Cotton Yarn 20/1 Carded", "KG", 485.50, 18.0))
  {
  }

  // ---------------------------------------------------------------------------
  // The list operations
  // ---------------------------------------------------------------------------

  /** `items.map(...)`: the rows whose id is `id` receive the edit; the others are kept. */
  function UpdateItems(items: seq<InvoiceItem>, id: string, edit: ItemEdit, catalog: seq<CatalogProduct>): (r: seq<InvoiceItem>)
    ensures |r| == |items|
    ensures forall i :: 0 <= i < |items| ==>
      r[i] == if items[i].id == id then ApplyEdit(items[i], edit, catalog) else items[i]
    ensures forall i :: 0 <= i < |items| ==> r[i].id == items[i].id
  {
    if items == [] then []
    else
      [if items[0].id == id then ApplyEdit(items[0], edit, catalog) else items[0]]
      + UpdateItems(items[1..], id, edit, catalog)
  }

  /** A row's id: the key by which the list operations pick rows. */
  function ItemId(item: InvoiceItem): string
  {
    item.id
  }

  /** `items.filter(item => item.id !== id)`: every row with that id goes, the rest stay in order. */
  function RemoveWithId(items: seq<InvoiceItem>, id: string): (r: seq<InvoiceItem>)
    ensures forall x :: x in r <==> x in items && x.id != id
    ensures IsSubsequence(r, items)
    ensures |r| == |items| - CountKey(items, ItemId, id)
  {
    if items == [] then []
    else if items[0].id == id then RemoveWithId(items[1..], id)
    else [items[0]] + RemoveWithId(items[1..], id)
  }

  /** Removing by id keeps row ids distinct. */
  lemma {:induction false} RemovePreservesUniqueIds(items: seq<InvoiceItem>, id: string)
    requires DistinctKeys(items, ItemId)
    ensures DistinctKeys(RemoveWithId(items, id), ItemId)
  {
    if items != [] {
      DistinctKeysTail(items, ItemId);
      RemovePreservesUniqueIds(items[1..], id);
      if items[0].id != id {
        var rest := RemoveWithId(items[1..], id);
        forall i | 0 <= i < |rest| ensures ItemId(rest[i]) != ItemId(items[0]) {
          assert rest[i] in rest;
          var k :| 0 <= k < |items[1..]| && items[1..][k] == rest[i];
          assert items[k + 1] == rest[i];
        }
        DistinctKeysCons(items[0], rest, ItemId);
      }
    }
  }

  /** `removeItem`: a list of one row is left alone; otherwise every row with the id is removed. */
  function GuardedRemove(items: seq<InvoiceItem>, id: string): (r: seq<InvoiceItem>)
    ensures |items| <= 1 ==> r == items
    ensures |items| > 1 ==> r == RemoveWithId(items, id)
    ensures IsSubsequence(r, items) && |r| <= |items|
  {
    if |items| > 1 then
      SubsequenceLength(RemoveWithId(items, id), items);
      RemoveWithId(items, id)
    else
      assert IsSubsequence(items, items) by { SubsequenceOfSelf(items); }
      items
  }

  /** Every sequence is a sub-sequence of itself. */
  lemma {:induction false} SubsequenceOfSelf(items: seq<InvoiceItem>)
    ensures IsSubsequence(items, items)
  {
    if items != [] {
      SubsequenceOfSelf(items[1..]);
    }
  }

  /** With unique ids and more than one row, removing an id that is present shortens the
      list by exactly one, so the list never becomes empty. */
  lemma RemoveItemDropsOne(items: seq<InvoiceItem>, id: string)
    requires DistinctKeys(items, ItemId) && |items| > 1
    requires exists i :: 0 <= i < |items| && items[i].id == id
    ensures |GuardedRemove(items, id)| == |items| - 1
  {
    DistinctKeyCountsOnce(items, ItemId, id);
  }

  /** The guard counts rows, not distinct ids: two rows that share an id are both removed,
      and the list becomes empty. */
  lemma SharedIdEmptiesList()
    ensures var a := BlankItem("7");
            GuardedRemove([a, a.(description := "b")], "7") == []
  {
  }

  // ---------------------------------------------------------------------------
  // The money: line amounts, subtotal and the two tax summaries
  // ---------------------------------------------------------------------------

  /** A row with no negative quantity or rate. */
  predicate NonNegativeLine(item: InvoiceItem)
  {
    item.quantity >= 0.0 && item.rate >= 0.0
  }

  /** Every row has a non-negative quantity and rate. */
  predicate NonNegativeLines(items: seq<InvoiceItem>)
  {
    forall i :: 0 <= i < |items| ==> NonNegativeLine(items[i])
  }

  /** A row with no negative quantity, rate or tax percent. */
  predicate NonNegativeItem(item: InvoiceItem)
  {
    NonNegativeLine(item) && (item.taxPercent.Some? ==> item.taxPercent.value >= 0.0)
  }

  /** Every row is non-negative, its tax percent included. */
  predicate NonNegativeItems(items: seq<InvoiceItem>)
  {
    forall i :: 0 <= i < |items| ==> NonNegativeItem(items[i])
  }

  /** `calculateLineAmount`: quantity times rate, so a row with no quantity or no rate
      adds nothing. */
  function LineAmount(item: InvoiceItem): (a: real)
    ensures item.quantity == 0.0 || item.rate == 0.0 ==> a == 0.0
    ensures NonNegativeLine(item) ==> a >= 0.0
  {
    item.quantity * item.rate
  }

  /** `calculateSubtotal`: the left fold `reduce((sum, item) => sum + amount, 0)`. */
  function Subtotal(items: seq<InvoiceItem>): (s: real)
    ensures NonNegativeLines(items) ==> s >= 0.0
  {
    if items == [] then 0.0 else Subtotal(items[..|items| - 1]) + LineAmount(items[|items| - 1])
  }

  /** `calculateTax`: a flat 18% of the subtotal, whatever the items' own percents; it is
      never more than the subtotal itself. */
  function FlatTax(items: seq<InvoiceItem>): (t: real)
    ensures NonNegativeLines(items) ==> 0.0 <= t <= Subtotal(items)
  {
    Subtotal(items) * 0.18
  }

  /** `calculateTotal`: the subtotal plus the flat tax, 118% of the subtotal. */
  function FlatTotal(items: seq<InvoiceItem>): (t: real)
    ensures t == Subtotal(items) * 1.18
  {
    Subtotal(items) + FlatTax(items)
  }

  /** `item.taxPercent || 18`: an absent or zero percent falls back to 18, so the
      displayed summary can never tax a row at zero. */
  function EffectiveTaxPercent(item: InvoiceItem): (p: real)
    ensures p != 0.0
    ensures item.taxPercent.Some? && item.taxPercent.value != 0.0 ==> p == item.taxPercent.value
    ensures item.taxPercent.None? || item.taxPercent == Some(0.0) ==> p == StandardTaxPercent
  {
    match item.taxPercent
    case None => StandardTaxPercent
    case Some(p) => if p == 0.0 then StandardTaxPercent else p
  }

  /** One row's share of the displayed sales tax. */
  function LineTax(item: InvoiceItem): (t: real)
    ensures NonNegativeItem(item) ==> t >= 0.0
  {
    LineAmount(item) * EffectiveTaxPercent(item) / 100.0
  }

  /** The "Sales Tax (Mixed)" figure: the left fold of the rows' line taxes. */
  function DisplayedTax(items: seq<InvoiceItem>): (t: real)
    ensures NonNegativeItems(items) ==> t >= 0.0
  {
    if items == [] then 0.0 else DisplayedTax(items[..|items| - 1]) + LineTax(items[|items| - 1])
  }

  /** The "Total Invoice Value" figure: the subtotal plus the displayed tax, never below
      the subtotal. */
  function DisplayedTotal(items: seq<InvoiceItem>): (t: real)
    ensures NonNegativeItems(items) ==> t >= Subtotal(items)
  {
    Subtotal(items) + DisplayedTax(items)
  }

  /** The subtotal of a concatenation is the sum of the subtotals; an empty list sums to 0. */
  lemma {:induction false} SubtotalAppend(a: seq<InvoiceItem>, b: seq<InvoiceItem>)
    ensures Subtotal([]) == 0.0
    ensures Subtotal(a + b) == Subtotal(a) + Subtotal(b)
    decreases |b|
  {
    if b != [] {
      var b' := b[..|b| - 1];
      assert (a + b)[..|a + b| - 1] == a + b';
      SubtotalAppend(a, b');
    } else {
      assert a + b == a;
    }
  }

  /** The same for the displayed tax. */
  lemma {:induction false} DisplayedTaxAppend(a: seq<InvoiceItem>, b: seq<InvoiceItem>)
    ensures DisplayedTax(a + b) == DisplayedTax(a) + DisplayedTax(b)
    decreases |b|
  {
    if b != [] {
      var b' := b[..|b| - 1];
      assert (a + b)[..|a + b| - 1] == a + b';
      DisplayedTaxAppend(a, b');
    } else {
      assert a + b == a;
    }
  }

  /** Every row is taxed at the standard 18% by the displayed summary. */
  predicate AllStandardRated(items: seq<InvoiceItem>)
  {
    forall i :: 0 <= i < |items| ==> EffectiveTaxPercent(items[i]) == StandardTaxPercent
  }

  /** When every row's effective percent is 18 the two summaries agree: the displayed tax
      and total equal `calculateTax` and `calculateTotal`. */
  lemma {:induction false} StandardRatedSummariesAgree(items: seq<InvoiceItem>)
    requires AllStandardRated(items)
    ensures DisplayedTax(items) == FlatTax(items)
    ensures DisplayedTotal(items) == FlatTotal(items)
  {
    if items != [] {
      var front := items[..|items| - 1];
      assert AllStandardRated(front) by {
        forall i | 0 <= i < |front| ensures EffectiveTaxPercent(front[i]) == StandardTaxPercent {
          assert front[i] == items[i];
        }
      }
      StandardRatedSummariesAgree(front);
      assert EffectiveTaxPercent(items[|items| - 1]) == StandardTaxPercent;
    }
  }

  /** The two summaries disagree as soon as a row carries another percent: one row of
      100 at 5% shows 5 of tax, while `calculateTax` gives 18. */
  lemma SummariesDisagree()
    ensures var item := InvoiceItem("1", "", "", 1.0, "PCS", 100.0, Some(5.0));
            DisplayedTax([item]) == 5.0 && FlatTax([item]) == 18.0
  {
  }

  /** Appending a blank row changes neither summary. */
  lemma BlankItemKeepsTotals(items: seq<InvoiceItem>, id: string)
    ensures Subtotal(items + [BlankItem(id)]) == Subtotal(items)
    ensures DisplayedTax(items + [BlankItem(id)]) == DisplayedTax(items)
  {
  }

  /** Every catalog entry is taxed at 18%. */
  predicate CatalogAllStandard(catalog: seq<CatalogProduct>)
  {
    forall k :: 0 <= k < |catalog| ==> catalog[k].taxPercent == StandardTaxPercent
  }

  /** Editing rows against a catalog whose entries are all at 18% keeps every row at 18%. */
  lemma UpdateKeepsStandardRated(items: seq<InvoiceItem>, id: string, edit: ItemEdit, catalog: seq<CatalogProduct>)
    requires AllStandardRated(items) && CatalogAllStandard(catalog)
    ensures AllStandardRated(UpdateItems(items, id, edit, catalog))
  {
  }

  // ---------------------------------------------------------------------------
  // The form's state
  // ---------------------------------------------------------------------------

  /** The state slots of the form that its handlers replace. */
  class InvoiceEditor {
    var items: seq<InvoiceItem>
    var buyerType: string
    var buyerStrn: string

    /** What every handler keeps: at least one row, distinct row ids, every row at 18%
        (the mock catalog offers nothing else), and the sentinel STRN for an
        unregistered buyer. */
    ghost predicate Valid()
      reads this
    {
      && |items| > 0
      && DistinctKeys(items, ItemId)
      && AllStandardRated(items)
      && (buyerType == "Unregistered" ==> buyerStrn == UnregisteredStrn)
    }

    /** The form as it opens: one blank row with id "1", a registered buyer, no STRN. */
    constructor ()
      ensures Valid()
      ensures items == [BlankItem("1")]
      ensures buyerType == "Registered" && buyerStrn == ""
    {
      items := [BlankItem("1")];
      buyerType := "Registered";
      buyerStrn := "";
    }

    /** `handleBuyerTypeChange`: the new STRN depends on the chosen type only, so choosing
        the same type again changes nothing. */
    method SetBuyerType(t: string)
      requires Valid()
      modifies this
      ensures Valid()
      ensures buyerType == t && buyerStrn == StrnForBuyerType(t)
      ensures items == old(items)
    {
      buyerType := t;
      buyerStrn := StrnForBuyerType(t);
    }

    /** The STRN input: it is disabled for an unregistered buyer, so typing reaches the
        state only for other buyer types. */
    method EditBuyerStrn(s: string)
      requires Valid()
      modifies this
      ensures Valid()
      ensures buyerStrn == if buyerType == "Unregistered" then old(buyerStrn) else s
      ensures buyerType == old(buyerType) && items == old(items)
    {
      if buyerType != "Unregistered" {
        buyerStrn := s;
      }
    }

    /** `addItem`: one blank row at the end; `newId` stands for the timestamp the form uses. */
    method AddItem(newId: string)
      requires Valid()
      requires forall i :: 0 <= i < |items| ==> items[i].id != newId
      modifies this
      ensures Valid()
      ensures items == old(items) + [BlankItem(newId)]
      ensures Subtotal(items) == Subtotal(old(items))
      ensures DisplayedTax(items) == DisplayedTax(old(items))
      ensures buyerType == old(buyerType) && buyerStrn == old(buyerStrn)
    {
      BlankItemKeepsTotals(items, newId);
      items := items + [BlankItem(newId)];
      assert AllStandardRated(items) by {
        forall i | 0 <= i < |items| ensures EffectiveTaxPercent(items[i]) == StandardTaxPercent {
          if i < |items| - 1 { assert items[i] == old(items)[i]; }
        }
      }
    }

    /** `removeItem`: refused while only one row is left. */
    method RemoveItem(id: string)
      requires Valid()
      modifies this
      ensures Valid()
      ensures items == GuardedRemove(old(items), id)
      ensures old(|items|) > 1 && (exists i :: 0 <= i < old(|items|) && old(items[i].id) == id) ==>
                |items| == old(|items|) - 1
      ensures buyerType == old(buyerType) && buyerStrn == old(buyerStrn)
    {
      var before := items;
      if |items| > 1 {
        RemovePreservesUniqueIds(items, id);
        DistinctKeyCountsOnce(items, ItemId, id);
        if exists i :: 0 <= i < |before| && before[i].id == id {
          RemoveItemDropsOne(before, id);
        }
      }
      items := GuardedRemove(items, id);
      assert |items| > 0 by {
        if |before| > 1 {
          assert CountKey(before, ItemId, id) <= 1;
        }
      }
      assert AllStandardRated(items) by {
        forall i | 0 <= i < |items| ensures EffectiveTaxPercent(items[i]) == StandardTaxPercent {
          assert items[i] in before;
        }
      }
    }

    /** `updateItem`: the rows with the id receive the edit, against the mock catalog. */
    method UpdateItem(id: string, edit: ItemEdit)
      requires Valid()
      modifies this
      ensures Valid()
      ensures items == UpdateItems(old(items), id, edit, MockCatalog)
      ensures buyerType == old(buyerType) && buyerStrn == old(buyerStrn)
    {
      UpdateKeepsStandardRated(items, id, edit, MockCatalog);
      items := UpdateItems(items, id, edit, MockCatalog);
    }

    /** The "Sales Tax (Mixed)" figure the form shows: on every reachable state it is the
        flat 18% of `calculateTax`. */
    function ShownSalesTax(): (t: real)
      reads this
      requires Valid()
      ensures t == FlatTax(items)
    {
      StandardRatedSummariesAgree(items);
      DisplayedTax(items)
    }

    /** The "Total Invoice Value" figure the form shows: on every reachable state it is
        `calculateTotal`. */
    function ShownTotal(): (t: real)
      reads this
      requires Valid()
      ensures t == FlatTotal(items)
    {
      StandardRatedSummariesAgree(items);
      DisplayedTotal(items)
    }
  }
}
