/**
 * The document model held by `UblBuilder`: header fields, parties, the
 * invoice lines and the totals recomputed from them on every `add_line`.
 */
module Builder {
  import opened Wrappers
  import opened Constants
  import opened Numbers
  import opened Lines

  /** A supplier or customer as `add_supplier` / `add_customer` record it; nil fields are None. */
  datatype Party = Party(
    name: string,
    country: string,
    vatId: Option<string>,
    address: Option<string>,
    city: Option<string>,
    postalCode: Option<string>)

  /** The PDF attachment as the serializer uses it: its base64 content and its file name. */
  datatype Pdf = Pdf(content: string, filename: string)

  /** The builder's fields at one moment: everything the `build_*` methods read. Dates are day numbers. */
  datatype Doc = Doc(
    ublBe: bool,
    invoiceNr: Option<string>,
    issueDate: int,
    dueDate: int,
    currency: string,
    supplier: Option<Party>,
    customer: Option<Party>,
    lines: seq<Line>,
    taxTotal: int,
    legalMonetaryTotal: int,
    pdffile: Option<Pdf>)
  {
    /** The totals `calculate_totals` leaves behind. */
    predicate TotalsAgree() {
      taxTotal == SumTax(lines) && legalMonetaryTotal == SumExtension(lines) + taxTotal
    }
  }

  class UblBuilder {
    /** Belgian (UBL.BE) mode, fixed at construction. */
    const ublBe: bool
    var invoiceNr: Option<string>
    var issueDate: int
    var dueDate: int
    var currency: string
    var supplier: Option<Party>
    var customer: Option<Party>
    var invoiceLines: seq<Line>
    var taxTotal: int
    var legalMonetaryTotal: int
    var pdffile: Option<Pdf>

    function Snapshot(): Doc
      reads this
    {
      Doc(ublBe, invoiceNr, issueDate, dueDate, currency, supplier, customer,
          invoiceLines, taxTotal, legalMonetaryTotal, pdffile)
    }

    /** The state that only `add_line` has changed since construction: numbered, derived lines and matching totals. */
    ghost predicate Valid()
      reads this
    {
      WellFormed(invoiceLines) && Snapshot().TotalsAgree()
    }

    /** `initialize(extension = nil)`, with `Date.today` given as `today`. */
    constructor (today: int, extension: Option<string> := None)
      ensures ublBe <==> extension == Some(UBL_BE)
      ensures issueDate == today && dueDate == today + 30
      ensures currency == "EUR"
      ensures invoiceLines == [] && taxTotal == 0 && legalMonetaryTotal == 0
      ensures invoiceNr == None && supplier == None && customer == None && pdffile == None
      ensures Valid()
    {
      ublBe := extension == Some(UBL_BE);
      issueDate := today;
      dueDate := today + 30;
      currency := "EUR";
      invoiceLines := [];
      taxTotal := 0;
      legalMonetaryTotal := 0;
      invoiceNr := None;
      supplier := None;
      customer := None;
      pdffile := None;
    }

    method AddSupplier(name: string, country: string, vatId: Option<string> := None, address: Option<string> := None,
                       city: Option<string> := None, postalCode: Option<string> := None) returns (p: Party)
      modifies this`supplier
      ensures p == Party(name, country, vatId, address, city, postalCode)
      ensures supplier == Some(p)
    {
      p := Party(name, country, vatId, address, city, postalCode);
      supplier := Some(p);
    }

    method AddCustomer(name: string, country: string, vatId: Option<string> := None, address: Option<string> := None,
                       city: Option<string> := None, postalCode: Option<string> := None) returns (p: Party)
      modifies this`customer
      ensures p == Party(name, country, vatId, address, city, postalCode)
      ensures customer == Some(p)
    {
      p := Party(name, country, vatId, address, city, postalCode);
      customer := Some(p);
    }

    /**
     * `add_line`: appends one line numbered after the existing ones, then
     * recomputes the totals; returns the new legal monetary total, as the
     * Ruby method returns the value of its last assignment.
     */
    method AddLine(name: string, quantity: real, unitPrice: real, taxRate: real := 21.0, unit: string := "ZZ")
      returns (total: int)
      modifies this`invoiceLines, this`taxTotal, this`legalMonetaryTotal
      ensures |invoiceLines| == |old(invoiceLines)| + 1
      ensures invoiceLines[..|old(invoiceLines)|] == old(invoiceLines)
      ensures var l := invoiceLines[|old(invoiceLines)|];
        && l.id == NatToString(|old(invoiceLines)| + 1)
        && l.name == name && l.quantity == quantity && l.unit == unit
        && l.unitPrice == unitPrice && l.taxRate == taxRate
        && l.lineExtensionAmount == LineExtension(quantity, unitPrice)
        && l.taxAmount == LineTax(l.lineExtensionAmount, taxRate)
      ensures taxTotal == SumTax(invoiceLines)
      ensures legalMonetaryTotal == SumExtension(invoiceLines) + taxTotal
      ensures total == legalMonetaryTotal
      ensures old(Valid()) ==> Valid()
    {
      var line := NewLine(|invoiceLines| + 1, name, quantity, unitPrice, taxRate, unit);
      if WellFormed(invoiceLines) {
        WellFormedAppend(invoiceLines, name, quantity, unitPrice, taxRate, unit);
      }
      invoiceLines := invoiceLines + [line];
      total := CalculateTotals();
    }

    /** `calculate_totals`: both totals from all lines. */
    method CalculateTotals() returns (total: int)
      modifies this`taxTotal, this`legalMonetaryTotal
      ensures taxTotal == SumTax(invoiceLines)
      ensures legalMonetaryTotal == SumExtension(invoiceLines) + taxTotal
      ensures total == legalMonetaryTotal
    {
      var lineExtension := SumExtension(invoiceLines);
      taxTotal := SumTax(invoiceLines);
      legalMonetaryTotal := lineExtension + taxTotal;
      total := legalMonetaryTotal;
    }
  }

  /**
   * The two-line invoice of the test suite: 10 x 100.00 and 1 x 500.00, both
   * at 21%, leave a tax total of 315.00 and a legal monetary total of 1815.00.
   */
  method SumScenario(today: int) returns (taxTotal: int, total: int)
    ensures taxTotal == 31500 && total == 181500
  {
    var b := new UblBuilder(today);
    var _ := b.AddLine("Consulting", 10.0, 100.0, 21.0);
    total := b.AddLine("Software License", 1.0, 500.0, 21.0);
    taxTotal := b.taxTotal;
    RoundCentsExact(100000);
    RoundCentsExact(21000);
    RoundCentsExact(50000);
    RoundCentsExact(10500);
    var ls := b.invoiceLines;
    assert ls[..1][..0] == [] && ls[..1] == [ls[0]];
  }
}
