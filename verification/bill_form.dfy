/** The bill-editing handlers of the invoice form. The form's state is the
    bill record it edits and the map of expanded sections; every handler
    replaces the bill record with an edited copy, which `BillState` models
    as reassigning its `billData` field. */
module BillForm {
  import opened JsString
  import opened BillUtils

  /** The bill record the form edits. `companyLogo` is the logo's URL or
      data URL. The three totals are stored and refreshed by the totals
      effect. */
  datatype Bill = Bill(
    companyName: string,
    companyAddress: string,
    companyPhone: string,
    companyEmail: string,
    companyGST: string,
    billNumber: string,
    billDate: string,
    dueDate: string,
    customerName: string,
    customerAddress: string,
    customerPhone: string,
    customerGST: string,
    items: seq<Item>,
    signature: string,
    companyLogo: string,
    showLogo: bool,
    includeGST: bool,
    subtotal: real,
    totalGST: real,
    total: real)

  /** The scalar fields `updateField` writes: every text field and the two
      switches. The item list and the totals have handlers of their own. */
  datatype FieldName =
    | CompanyName | CompanyAddress | CompanyPhone | CompanyEmail | CompanyGST
    | BillNumber | BillDate | DueDate
    | CustomerName | CustomerAddress | CustomerPhone | CustomerGST
    | Signature | CompanyLogo | ShowLogo | IncludeGST

  datatype Value = Text(text: string) | Flag(flag: bool)

  predicate IsSwitch(f: FieldName) {
    f == ShowLogo || f == IncludeGST
  }

  /** A value of the kind the field holds: a boolean for the two switches,
      a string for the rest. */
  predicate Fits(f: FieldName, v: Value) {
    IsSwitch(f) <==> v.Flag?
  }

  /** `billData[field]` */
  function Get(b: Bill, f: FieldName): (v: Value)
    ensures Fits(f, v)
  {
    match f
    case CompanyName => Text(b.companyName)
    case CompanyAddress => Text(b.companyAddress)
    case CompanyPhone => Text(b.companyPhone)
    case CompanyEmail => Text(b.companyEmail)
    case CompanyGST => Text(b.companyGST)
    case BillNumber => Text(b.billNumber)
    case BillDate => Text(b.billDate)
    case DueDate => Text(b.dueDate)
    case CustomerName => Text(b.customerName)
    case CustomerAddress => Text(b.customerAddress)
    case CustomerPhone => Text(b.customerPhone)
    case CustomerGST => Text(b.customerGST)
    case Signature => Text(b.signature)
    case CompanyLogo => Text(b.companyLogo)
    case ShowLogo => Flag(b.showLogo)
    case IncludeGST => Flag(b.includeGST)
  }

  /** `{ ...b, [field]: value }`: the named field takes the value, every
      other field, the items and the totals keep theirs. */
  function SetField(b: Bill, f: FieldName, v: Value): (r: Bill)
    requires Fits(f, v)
    ensures Get(r, f) == v
    ensures r.items == b.items
    ensures r.subtotal == b.subtotal && r.totalGST == b.totalGST && r.total == b.total
  {
    match f
    case CompanyName => b.(companyName := v.text)
    case CompanyAddress => b.(companyAddress := v.text)
    case CompanyPhone => b.(companyPhone := v.text)
    case CompanyEmail => b.(companyEmail := v.text)
    case CompanyGST => b.(companyGST := v.text)
    case BillNumber => b.(billNumber := v.text)
    case BillDate => b.(billDate := v.text)
    case DueDate => b.(dueDate := v.text)
    case CustomerName => b.(customerName := v.text)
    case CustomerAddress => b.(customerAddress := v.text)
    case CustomerPhone => b.(customerPhone := v.text)
    case CustomerGST => b.(customerGST := v.text)
    case Signature => b.(signature := v.text)
    case CompanyLogo => b.(companyLogo := v.text)
    case ShowLogo => b.(showLogo := v.flag)
    case IncludeGST => b.(includeGST := v.flag)
  }

  /** Every other scalar field keeps its value. */
  lemma SetFieldKeepsOthers(b: Bill, f: FieldName, v: Value, g: FieldName)
    requires Fits(f, v) && g != f
    ensures Get(SetField(b, f, v), g) == Get(b, g)
  {
  }

  /** Writing back the value a field already holds changes nothing. */
  lemma SetFieldSame(b: Bill, f: FieldName)
    ensures SetField(b, f, Get(b, f)) == b
  {
  }

  /** A second write to the same field overrides the first. */
  lemma SetFieldOverride(b: Bill, f: FieldName, v: Value, w: Value)
    requires Fits(f, v) && Fits(f, w)
    ensures SetField(SetField(b, f, v), f, w) == SetField(b, f, w)
  {
  }

  // ---------------------------------------------------------------------
  // Items

  /** An edit `updateItem` applies: the description as typed, or a number
      already passed through `parseFloat(...) || 0`. */
  datatype ItemEdit =
    | SetDescription(description: string)
    | SetQuantity(quantity: real)
    | SetRate(rate: real)
    | SetGstPercentage(gstPercentage: real)

  /** The edits after which `updateItem` recomputes the item's amount. */
  predicate IsAmountEdit(e: ItemEdit) {
    !e.SetDescription?
  }

  /** `{ ...item, [field]: value }`: the edited field takes the value and
      every other field, the stored amount included, keeps its own. */
  function WithEdit(item: Item, e: ItemEdit): (r: Item)
    ensures r.id == item.id && r.amount == item.amount
    ensures r.description == if e.SetDescription? then e.description else item.description
    ensures r.quantity == if e.SetQuantity? then Some(e.quantity) else item.quantity
    ensures r.rate == if e.SetRate? then Some(e.rate) else item.rate
    ensures r.gstPercentage == if e.SetGstPercentage? then Some(e.gstPercentage) else item.gstPercentage
  {
    match e
    case SetDescription(d) => item.(description := d)
    case SetQuantity(q) => item.(quantity := Some(q))
    case SetRate(r) => item.(rate := Some(r))
    case SetGstPercentage(g) => item.(gstPercentage := Some(g))
  }

  /** The item `updateItem` leaves at the edited index: the edited field
      takes the value and the others keep theirs; the amount is recomputed
      from the edited numbers after a numeric edit and kept after a
      description edit. */
  function EditedItem(item: Item, e: ItemEdit, includeGST: bool): (r: Item)
    ensures r.id == item.id
    ensures r.description == if e.SetDescription? then e.description else item.description
    ensures r.quantity == if e.SetQuantity? then Some(e.quantity) else item.quantity
    ensures r.rate == if e.SetRate? then Some(e.rate) else item.rate
    ensures r.gstPercentage == if e.SetGstPercentage? then Some(e.gstPercentage) else item.gstPercentage
    ensures IsAmountEdit(e) ==> r.amount == ItemAmountOf(r, includeGST).totalAmount
    ensures !IsAmountEdit(e) ==> r.amount == item.amount
  {
    var edited := WithEdit(item, e);
    if IsAmountEdit(e) then edited.(amount := ItemAmountOf(edited, includeGST).totalAmount) else edited
  }

  /** The item `addItem` appends. */
  function DefaultItem(id: int): (r: Item)
    ensures r.id == id && r.description == ""
    ensures r.quantity == Some(1.0) && r.rate == Some(0.0) && r.gstPercentage == Some(18.0)
    ensures r.amount == 0.0
  {
    Item(id, "", Some(1.0), Some(0.0), Some(18.0), 0.0)
  }

  /** `items.filter((_, i) => i !== index)`: drops the item at `index` when
      there is one and keeps the rest in order. */
  function RemoveAt(items: seq<Item>, index: int): (r: seq<Item>)
    ensures 0 <= index < |items| ==> |r| == |items| - 1
    ensures 0 <= index < |items| ==> forall i :: 0 <= i < index ==> r[i] == items[i]
    ensures 0 <= index < |items| ==> forall i :: index <= i < |r| ==> r[i] == items[i + 1]
    ensures !(0 <= index < |items|) ==> r == items
  {
    if 0 <= index < |items| then items[..index] + items[index + 1..] else items
  }

  /** A default item's amount is its computed total under either flag
      (1 × 0 is 0). */
  lemma DefaultItemCurrent(id: int, includeGST: bool)
    ensures DefaultItem(id).amount == ItemAmountOf(DefaultItem(id), includeGST).totalAmount
  {
  }

  /** With the flag fixed, editing an item keeps every stored amount equal
      to its computed total. */
  lemma EditKeepsAmountsCurrent(items: seq<Item>, index: nat, e: ItemEdit, includeGST: bool)
    requires index < |items| && AmountsCurrent(items, includeGST)
    ensures AmountsCurrent(items[index := EditedItem(items[index], e, includeGST)], includeGST)
  {
    var r := items[index := EditedItem(items[index], e, includeGST)];
    forall i | 0 <= i < |r| ensures r[i].amount == ItemAmountOf(r[i], includeGST).totalAmount {
      if i == index && !IsAmountEdit(e) {
        assert ItemAmountOf(r[i], includeGST) == ItemAmountOf(items[i], includeGST);
      }
    }
  }

  /** Appending a default item keeps every stored amount current. */
  lemma AddKeepsAmountsCurrent(items: seq<Item>, includeGST: bool)
    requires AmountsCurrent(items, includeGST)
    ensures AmountsCurrent(items + [DefaultItem(|items| + 1)], includeGST)
  {
    DefaultItemCurrent(|items| + 1, includeGST);
  }

  /** Removing an item keeps every stored amount current. */
  lemma RemoveKeepsAmountsCurrent(items: seq<Item>, index: int, includeGST: bool)
    requires AmountsCurrent(items, includeGST)
    ensures AmountsCurrent(RemoveAt(items, index), includeGST)
  {
    var r := RemoveAt(items, index);
    if 0 <= index < |items| {
      forall i | 0 <= i < |r| ensures r[i].amount == ItemAmountOf(r[i], includeGST).totalAmount {
        if i >= index {
          assert r[i] == items[i + 1];
        }
      }
    }
  }

  /** Toggling `includeGST` alone does not keep the stored amounts current:
      a 1 × 100 item at 18% stored without GST is stale once GST is on. */
  lemma GstToggleLeavesAmountsStale(b: Bill)
    requires b.items == [Item(1, "", Some(1.0), Some(100.0), Some(18.0), 100.0)] && !b.includeGST
    ensures AmountsCurrent(b.items, b.includeGST)
    ensures var t := SetField(b, IncludeGST, Flag(true));
      t.includeGST && !AmountsCurrent(t.items, t.includeGST)
  {
    assert ItemAmountOf(b.items[0], true).totalAmount == 118.0;
  }

  /** Item ids are not unique: removing the first of two items and adding
      one gives two items with id 2. */
  lemma IdsCanRepeat()
    ensures var kept := RemoveAt([DefaultItem(1), DefaultItem(2)], 0);
      var items := kept + [DefaultItem(|kept| + 1)];
      |items| == 2 && items[0].id == items[1].id == 2
  {
    var kept := RemoveAt([DefaultItem(1), DefaultItem(2)], 0);
    assert kept == [DefaultItem(2)];
  }

  // ---------------------------------------------------------------------
  // Validation

  /** `items.some((item) => item.description?.trim())`: some item's
      description is not empty once trimmed. */
  function SomeDescribed(items: seq<Item>): (r: bool)
    ensures r <==> exists i :: 0 <= i < |items| && Trim(items[i].description) != ""
  {
    if items == [] then false
    else
      assert forall i :: 1 <= i < |items| ==> items[i] == items[1..][i - 1];
      Trim(items[0].description) != "" || SomeDescribed(items[1..])
  }

  /** A description is non-empty after `trim()` exactly when it has a
      character that is not whitespace. */
  lemma SomeDescribedIff(items: seq<Item>)
    ensures SomeDescribed(items) <==> exists i :: 0 <= i < |items| && HasText(items[i].description)
  {
    forall i | 0 <= i < |items|
      ensures Trim(items[i].description) != "" <==> HasText(items[i].description)
    {
      TrimEmptyIff(items[i].description);
    }
  }

  /** `validateForm`, the preview gate: the form may be previewed exactly
      when the company name and the customer name each have a character
      that is not whitespace and some item's description does too. */
  function ValidateForm(b: Bill): (ok: bool)
    ensures ok <==>
      && HasText(b.companyName)
      && HasText(b.customerName)
      && exists i :: 0 <= i < |b.items| && HasText(b.items[i].description)
  {
    TrimEmptyIff(b.companyName);
    TrimEmptyIff(b.customerName);
    SomeDescribedIff(b.items);
    Trim(b.companyName) != "" && Trim(b.customerName) != "" && SomeDescribed(b.items)
  }

  // ---------------------------------------------------------------------
  // Sections

  /** `{ ...prev, [section]: !prev[section] }`; a section never seen reads
      as `undefined`, so its first toggle sets it to true. */
  function Toggled(sections: map<string, bool>, section: string): (r: map<string, bool>)
    ensures r.Keys == sections.Keys + {section}
    ensures section in sections ==> r[section] == !sections[section]
    ensures section !in sections ==> r[section]
    ensures forall s :: s in sections && s != section ==> r[s] == sections[s]
  {
    sections[section := !(section in sections && sections[section])]
  }

  /** Toggling a known section twice restores the map; an unknown section
      ends up present and collapsed. */
  lemma ToggleTwice(sections: map<string, bool>, section: string)
    ensures section in sections ==> Toggled(Toggled(sections, section), section) == sections
    ensures section !in sections ==> Toggled(Toggled(sections, section), section) == sections[section := false]
  {
  }

  // ---------------------------------------------------------------------
  // The form's state

  class BillState {
    var billData: Bill
    var expandedSections: map<string, bool>

    /** The form opens with the company and customer sections expanded and
        the settings collapsed. */
    constructor(billData: Bill)
      ensures this.billData == billData
      ensures expandedSections == map["company" := true, "customer" := true, "settings" := false]
    {
      this.billData := billData;
      expandedSections := map["company" := true, "customer" := true, "settings" := false];
    }

    /** The totals effect: the three totals become `calculateBillTotals` of
        the items under the flag; nothing else changes. */
    method RecomputeTotals()
      modifies this
      ensures var t := BillTotals(old(billData.items), old(billData.includeGST));
        billData == old(billData).(subtotal := t.subtotal, totalGST := t.totalGST, total := t.total)
      ensures billData.total == billData.subtotal + billData.totalGST
      ensures AmountsCurrent(billData.items, billData.includeGST) ==> billData.total == SumAmounts(billData.items)
      ensures expandedSections == old(expandedSections)
    {
      var totals := CalculateBillTotals(billData.items, billData.includeGST);
      billData := billData.(subtotal := totals.subtotal, totalGST := totals.totalGST, total := totals.total);
      if AmountsCurrent(billData.items, billData.includeGST) {
        TotalIsSumOfAmounts(billData.items, billData.includeGST);
      }
    }

    method ToggleSection(section: string)
      modifies this
      ensures expandedSections == Toggled(old(expandedSections), section)
      ensures billData == old(billData)
    {
      expandedSections := Toggled(expandedSections, section);
    }

    method UpdateField(f: FieldName, v: Value)
      requires Fits(f, v)
      modifies this
      ensures billData == SetField(old(billData), f, v)
      ensures expandedSections == old(expandedSections)
    {
      billData := SetField(billData, f, v);
    }

    /** `updateItem`: copies the list, overwrites the item at `index` with
        the edited field, then recomputes its amount after a numeric edit. */
    method UpdateItem(index: nat, e: ItemEdit)
      requires index < |billData.items|
      modifies this
      ensures billData == old(billData).(items := old(billData.items)[index := EditedItem(old(billData.items)[index], e, old(billData.includeGST))])
      ensures AmountsCurrent(old(billData.items), billData.includeGST) ==> AmountsCurrent(billData.items, billData.includeGST)
      ensures expandedSections == old(expandedSections)
    {
      var newItems := billData.items;
      newItems := newItems[index := WithEdit(newItems[index], e)];
      if IsAmountEdit(e) {
        var amounts := ItemAmountOf(newItems[index], billData.includeGST);
        newItems := newItems[index := newItems[index].(amount := amounts.totalAmount)];
      }
      if AmountsCurrent(billData.items, billData.includeGST) {
        EditKeepsAmountsCurrent(billData.items, index, e, billData.includeGST);
      }
      billData := billData.(items := newItems);
    }

    /** `addItem`: appends a default item numbered one past the length. */
    method AddItem()
      modifies this
      ensures billData == old(billData).(items := old(billData.items) + [DefaultItem(|old(billData.items)| + 1)])
      ensures AmountsCurrent(old(billData.items), billData.includeGST) ==> AmountsCurrent(billData.items, billData.includeGST)
      ensures expandedSections == old(expandedSections)
    {
      if AmountsCurrent(billData.items, billData.includeGST) {
        AddKeepsAmountsCurrent(billData.items, billData.includeGST);
      }
      billData := billData.(items := billData.items + [DefaultItem(|billData.items| + 1)]);
    }

    /** `removeItem`: removes the item at `index` unless it is the only one
        left, so the list never becomes empty through removal. */
    method RemoveItem(index: int)
      modifies this
      ensures billData == old(billData).(items := if |old(billData.items)| > 1 then RemoveAt(old(billData.items), index) else old(billData.items))
      ensures |old(billData.items)| >= 1 ==> |billData.items| >= 1
      ensures AmountsCurrent(old(billData.items), billData.includeGST) ==> AmountsCurrent(billData.items, billData.includeGST)
      ensures expandedSections == old(expandedSections)
    {
      if |billData.items| > 1 {
        if AmountsCurrent(billData.items, billData.includeGST) {
          RemoveKeepsAmountsCurrent(billData.items, index, billData.includeGST);
        }
        billData := billData.(items := RemoveAt(billData.items, index));
      }
    }
  }
}
