/** The application shell: the initial bill, the switch between the form
    and the preview, and starting a new bill that keeps the company's
    details. The fresh bill number and the date come from the clock and
    the random source, so they are parameters here. */
module App {
  import opened JsString
  import opened BillUtils
  import opened BillForm

  /** The bundled default logo's URL (the bundler chooses the actual path;
      only its identity matters here). */
  const DefaultLogo: string := "a-logo.png"

  /** `createInitialBillData`, given the generated bill number and today's
      date. */
  function CreateInitialBillData(billNumber: string, billDate: string): (b: Bill)
    ensures b.items == [DefaultItem(1)]
    ensures b.billNumber == billNumber && b.billDate == billDate
    ensures b.companyLogo == DefaultLogo && b.showLogo && !b.includeGST
    ensures forall f :: !IsSwitch(f) && f != BillNumber && f != BillDate && f != CompanyLogo ==> Get(b, f) == Text("")
    ensures b.subtotal == 0.0 && b.totalGST == 0.0 && b.total == 0.0
  {
    Bill(
      companyName := "", companyAddress := "", companyPhone := "", companyEmail := "", companyGST := "",
      billNumber := billNumber, billDate := billDate, dueDate := "",
      customerName := "", customerAddress := "", customerPhone := "", customerGST := "",
      items := [DefaultItem(1)],
      signature := "",
      companyLogo := DefaultLogo, showLogo := true,
      includeGST := false,
      subtotal := 0.0, totalGST := 0.0, total := 0.0)
  }

  /** The initial bill is consistent: its stored totals are what the
      totals effect computes, its item's amount is current, and it cannot be
      previewed until names and a description are filled in. */
  lemma InitialBillConsistent(billNumber: string, billDate: string)
    ensures var b := CreateInitialBillData(billNumber, billDate);
      && Totals(b.subtotal, b.totalGST, b.total) == BillTotals(b.items, b.includeGST)
      && AmountsCurrent(b.items, b.includeGST)
      && !ValidateForm(b)
  {
    var b := CreateInitialBillData(billNumber, billDate);
    SingleTotals(DefaultItem(1), false);
    TotalsWithoutGst(b.items);
    DefaultItemCurrent(1, false);
    assert !HasText(b.companyName);
  }

  /** The fields a new bill takes over from the previous one. */
  predicate IsKept(f: FieldName) {
    || f == CompanyName || f == CompanyAddress || f == CompanyPhone || f == CompanyEmail
    || f == CompanyGST || f == CompanyLogo || f == ShowLogo || f == IncludeGST
  }

  /** The record `handleGenerateNewBill` stores: a fresh initial bill with
      the previous bill's company details, logo and switches. */
  function NewBill(prev: Bill, billNumber: string, billDate: string): (b: Bill)
    ensures b.items == [DefaultItem(1)]
    ensures b.subtotal == 0.0 && b.totalGST == 0.0 && b.total == 0.0
  {
    CreateInitialBillData(billNumber, billDate).(
      companyName := prev.companyName,
      companyAddress := prev.companyAddress,
      companyPhone := prev.companyPhone,
      companyEmail := prev.companyEmail,
      companyGST := prev.companyGST,
      companyLogo := prev.companyLogo,
      showLogo := prev.showLogo,
      includeGST := prev.includeGST)
  }

  /** Field by field: a kept field has the previous bill's value, every
      other field the fresh initial value (empty customer fields, signature
      and due date, the new number and date). */
  lemma NewBillField(prev: Bill, billNumber: string, billDate: string, f: FieldName)
    ensures Get(NewBill(prev, billNumber, billDate), f) ==
      if IsKept(f) then Get(prev, f) else Get(CreateInitialBillData(billNumber, billDate), f)
  {
  }

  /** Whatever the kept GST switch, the new bill's totals are what the
      totals effect computes and its single item's amount is current. */
  lemma NewBillConsistent(prev: Bill, billNumber: string, billDate: string)
    ensures var b := NewBill(prev, billNumber, billDate);
      && Totals(b.subtotal, b.totalGST, b.total) == BillTotals(b.items, b.includeGST)
      && AmountsCurrent(b.items, b.includeGST)
  {
    var b := NewBill(prev, billNumber, billDate);
    SingleTotals(DefaultItem(1), b.includeGST);
    SubtotalIsSumOfProducts(b.items, b.includeGST);
    DefaultItemCurrent(1, b.includeGST);
    assert [DefaultItem(1)][..0] == [];
  }

  class AppState {
    var billData: Bill
    var currentView: string

    /** The app opens on the form with the initial bill. */
    constructor(billNumber: string, billDate: string)
      ensures billData == CreateInitialBillData(billNumber, billDate)
      ensures currentView == "form"
    {
      billData := CreateInitialBillData(billNumber, billDate);
      currentView := "form";
    }

    method HandleViewChange(view: string)
      modifies this
      ensures currentView == view
      ensures billData == old(billData)
    {
      currentView := view;
    }

    /** Replaces the bill by a new one keeping the company's details, then
        returns to the form. */
    method HandleGenerateNewBill(billNumber: string, billDate: string)
      modifies this
      ensures billData == NewBill(old(billData), billNumber, billDate)
      ensures currentView == "form"
    {
      billData := NewBill(billData, billNumber, billDate);
      HandleViewChange("form");
    }
  }
}
