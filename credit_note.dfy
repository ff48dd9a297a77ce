/**
 * The stand-alone `Ubl::CreditNote` file: a builder whose constructor
 * argument must be given (it may still be nil), and a `build` with the same
 * step sequence as `CreditNote#build` in the main file.
 */
module CreditNoteFile {
  import opened Wrappers
  import opened Xml
  import opened Constants
  import opened Builder
  import opened Serializer
  import opened Ubl

  /** `initialize(ubl_be)`: the argument has no default and is passed on as the builder's extension. */
  method New(today: int, ublBe: Option<string>) returns (b: UblBuilder)
    ensures fresh(b)
    ensures b.ublBe <==> ublBe == Some(UBL_BE)
    ensures b.Snapshot() == Doc(ublBe == Some(UBL_BE), None, today, today + 30, "EUR", None, None, [], 0, 0, None)
    ensures b.Valid()
  {
    b := new UblBuilder(today, ublBe);
  }

  /**
   * `build`: the header with `CreditNoteTypeCode 381`, the references with the
   * "CreditNote" description, then parties, TaxTotal, LegalMonetaryTotal and
   * the lines, under a `CreditNote` root in the CreditNote-2 namespace. It is
   * the same tree the main file's credit note builds.
   */
  method Build(b: UblBuilder, render: Render) returns (r: Result<Node, BuildError>)
    ensures r == CreditNoteTree(b.Snapshot(), render)
    ensures r.Success? ==>
      && r.value.name == "CreditNote"
      && r.value.attrs[0] == Attr("xmlns", CREDIT_NOTE_NS)
      && r.value.children[5] == Leaf("cbc:CreditNoteTypeCode", "381")
      && Ordered(r.value.children)
  {
    var d := b.Snapshot();
    var t := CreditNoteType();
    var xml := Header(d, [t.typeCode], render);
    xml := xml + DocumentReferences(d, "CreditNote");
    var supplier := PartyBlock(d.supplier, AccountingSupplierParty);
    if supplier.Failure? {
      return Failure(supplier.error);
    }
    xml := xml + supplier.value;
    var customer := PartyBlock(d.customer, AccountingCustomerParty);
    if customer.Failure? {
      return Failure(customer.error);
    }
    xml := xml + customer.value;
    xml := EmitTaxTotal(d, xml, render);
    xml := xml + MonetaryTotal(d);
    xml := EmitInvoiceLines(d, xml, render);
    r := Success(Element("CreditNote", t.attrs, xml));
    CreditNoteNamespaces();
    DocumentsOrdered(d, render);
    TypeCodePlacement(d, t, render);
  }
}
