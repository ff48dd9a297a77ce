/**
 * The `build_*` methods of `UblBuilder`: each appends a fixed sequence of
 * elements to the document being built. Here each returns the elements it
 * appends, read from a snapshot of the builder's fields. The two that loop
 * (over the tax groups and over the lines) also have a method form that
 * appends step by step, as the source does.
 */
module Serializer {
  import opened Wrappers
  import opened Xml
  import opened Constants
  import opened Numbers
  import opened Lines
  import opened TaxCategory
  import opened Builder

  /**
   * Text conversions the model leaves abstract: Ruby's `to_s` of a quantity
   * or a percentage (Integer or Float), and `Date#to_s` of a day number.
   */
  datatype Render = Render(number: real -> string, date: int -> string)

  const INVOICE_NS := "urn:oasis:names:specification:ubl:schema:xsd:Invoice-2"
  const CAC_NS := "urn:oasis:names:specification:ubl:schema:xsd:CommonAggregateComponents-2"
  const CBC_NS := "urn:oasis:names:specification:ubl:schema:xsd:CommonBasicComponents-2"

  /** `namespaces`: the root attributes, in this order. */
  function Namespaces(): seq<Attr> {
    [Attr("xmlns", INVOICE_NS), Attr("xmlns:cac", CAC_NS), Attr("xmlns:cbc", CBC_NS)]
  }

  /** An element whose content may be nil; nil content leaves the element empty. */
  function OptLeaf(name: string, text: Option<string>): Node {
    Element(name, [], if text.Some? then [Text(text.value)] else [])
  }

  /** A monetary amount: `currencyID` attribute and the `%.2f` text. */
  function Amount(name: string, currency: string, cents: int): Node {
    Element(name, [Attr("currencyID", currency)], [Text(FormatCents(cents))])
  }

  // ---- build_header ----

  /** `build_header`; `typeCode` is what the caller's block yields between DueDate and DocumentCurrencyCode. */
  function Header(d: Doc, typeCode: seq<Node>, render: Render): seq<Node> {
    [ Leaf("cbc:CustomizationID", if d.ublBe then CUSTOMIZATION_UBL_BE else CUSTOMIZATION_ID),
      Leaf("cbc:ProfileID", PROFILE_ID),
      OptLeaf("cbc:ID", d.invoiceNr),
      Leaf("cbc:IssueDate", render.date(d.issueDate)),
      Leaf("cbc:DueDate", render.date(d.dueDate)) ]
    + typeCode
    + [ Leaf("cbc:DocumentCurrencyCode", d.currency),
        Elem("cac:OrderReference", [OptLeaf("cbc:ID", d.invoiceNr)]) ]
  }

  /**
   * The header's elements in order, around the yielded nodes; the closing
   * OrderReference repeats the invoice number, and only CustomizationID
   * depends on the mode.
   */
  lemma HeaderShape(d: Doc, typeCode: seq<Node>, render: Render)
    ensures var h := Header(d, typeCode, render);
      && |h| == 7 + |typeCode|
      && Names(h) == ["cbc:CustomizationID", "cbc:ProfileID", "cbc:ID", "cbc:IssueDate", "cbc:DueDate"] + Names(typeCode)
                     + ["cbc:DocumentCurrencyCode", "cac:OrderReference"]
      && h[0] == Leaf("cbc:CustomizationID", if d.ublBe then CUSTOMIZATION_UBL_BE else CUSTOMIZATION_ID)
      && h[1] == Leaf("cbc:ProfileID", PROFILE_ID)
      && h[2] == OptLeaf("cbc:ID", d.invoiceNr)
      && h[3] == Leaf("cbc:IssueDate", render.date(d.issueDate))
      && h[4] == Leaf("cbc:DueDate", render.date(d.dueDate))
      && h[5..5 + |typeCode|] == typeCode
      && h[5 + |typeCode|] == Leaf("cbc:DocumentCurrencyCode", d.currency)
      && h[6 + |typeCode|] == Elem("cac:OrderReference", [h[2]])
      && Header(d.(ublBe := !d.ublBe), typeCode, render)[1..] == h[1..]
  {
    var h := Header(d, typeCode, render);
    var pre := h[..5];
    var post := h[5 + |typeCode|..];
    assert h == pre + typeCode + post;
    NamesAppend(pre, typeCode);
    NamesAppend(pre + typeCode, post);
    assert Names(pre) == ["cbc:CustomizationID", "cbc:ProfileID", "cbc:ID", "cbc:IssueDate", "cbc:DueDate"];
    assert Names(post) == ["cbc:DocumentCurrencyCode", "cac:OrderReference"];
  }

  // ---- build_document_reference ----

  function UblBeReference(description: string): Node {
    Elem("cac:AdditionalDocumentReference", [Leaf("cbc:ID", "UBL.BE"), Leaf("cbc:DocumentDescription", description)])
  }

  function PdfReference(invoiceNr: Option<string>, pdf: Pdf): Node {
    Elem("cac:AdditionalDocumentReference", [
      OptLeaf("cbc:ID", invoiceNr),
      Leaf("cbc:DocumentDescription", "PDF"),
      Elem("cac:Attachment", [
        Element("cbc:EmbeddedDocumentBinaryObject",
                [Attr("mimeCode", "application/pdf"), Attr("filename", pdf.filename)],
                [Text(pdf.content)])])])
  }

  /** `build_document_reference`: the UBL.BE reference in Belgian mode, then the PDF reference if a PDF is set. */
  function DocumentReferences(d: Doc, description: string): seq<Node> {
    (if d.ublBe then [UblBeReference(description)] else [])
    + (if d.pdffile.Some? then [PdfReference(d.invoiceNr, d.pdffile.value)] else [])
  }

  /** Belgian mode adds exactly one reference, in front of the PDF one. */
  lemma DocumentReferencesModes(d: Doc, description: string)
    ensures DocumentReferences(d.(ublBe := true), description)
         == [UblBeReference(description)] + DocumentReferences(d.(ublBe := false), description)
    ensures |DocumentReferences(d, description)| == (if d.ublBe then 1 else 0) + (if d.pdffile.Some? then 1 else 0)
  {
  }

  // ---- build_party ----

  predicate IsAsciiLetter(c: char) {
    'A' <= c <= 'Z' || 'a' <= c <= 'z'
  }

  /**
   * `gsub(/^[A-Za-z]+/, "")`. In a Ruby regexp `^` matches at the start of
   * every line, so a run of letters is removed at the start of the string and
   * after each newline; `atLineStart` says whether the scan is at such a place.
   */
  function StripLeadingLetters(s: string, atLineStart: bool): string {
    if s == [] then []
    else if atLineStart && IsAsciiLetter(s[0]) then StripLeadingLetters(s[1..], true)
    else [s[0]] + StripLeadingLetters(s[1..], s[0] == '\n')
  }

  /** The EndpointID text of a VAT id. */
  function EndpointId(vatId: string): string {
    StripLeadingLetters(vatId, true)
  }

  /** The length of the longest prefix of ASCII letters. */
  function LetterPrefixLength(s: string): (k: nat)
    ensures k <= |s|
    ensures forall i :: 0 <= i < k ==> IsAsciiLetter(s[i])
    ensures k < |s| ==> !IsAsciiLetter(s[k])
  {
    if s != [] && IsAsciiLetter(s[0]) then 1 + LetterPrefixLength(s[1..]) else 0
  }

  lemma {:induction false} StripNotAtLineStart(s: string)
    requires '\n' !in s
    ensures StripLeadingLetters(s, false) == s
  {
    if s != [] {
      assert '\n' !in s[1..];
      StripNotAtLineStart(s[1..]);
    }
  }

  /** On a one-line VAT id, the EndpointID is the id with its maximal prefix of letters dropped. */
  lemma {:induction false} EndpointIdDropsLetterPrefix(vatId: string)
    requires '\n' !in vatId
    ensures EndpointId(vatId) == vatId[LetterPrefixLength(vatId)..]
  {
    if vatId != [] {
      assert '\n' !in vatId[1..];
      if IsAsciiLetter(vatId[0]) {
        EndpointIdDropsLetterPrefix(vatId[1..]);
      } else {
        StripNotAtLineStart(vatId[1..]);
      }
    }
  }

  lemma EndpointIdExample()
    ensures EndpointId("BE0123456749") == "0123456749"
  {
    var v := "BE0123456749";
    EndpointIdDropsLetterPrefix(v);
    assert LetterPrefixLength(v[2..]) == 0;
    assert LetterPrefixLength(v[1..]) == 1;
    assert LetterPrefixLength(v) == 2;
  }

  /** The two `party_type` values the builds pass to `build_party`. */
  datatype PartyRole = AccountingSupplierParty | AccountingCustomerParty

  /** The element `build_party` opens for a role: `cac:` followed by the `party_type` name. */
  function PartyTag(role: PartyRole): string {
    match role
    case AccountingSupplierParty => "cac:AccountingSupplierParty"
    case AccountingCustomerParty => "cac:AccountingCustomerParty"
  }

  /** The `NoMethodError` raised when a party without a VAT id is serialized (`gsub` on nil). */
  datatype BuildError = MissingVatId(role: PartyRole)

  function PostalAddress(p: Party): seq<Node> {
    if p.address.None? then []
    else
      [Elem("cac:PostalAddress",
          (if p.address.Some? then [Leaf("cbc:StreetName", p.address.value)] else [])
        + (if p.city.Some? then [Leaf("cbc:CityName", p.city.value)] else [])
        + (if p.postalCode.Some? then [Leaf("cbc:PostalZone", p.postalCode.value)] else [])
        + [Elem("cac:Country", [Leaf("cbc:IdentificationCode", p.country)])])]
  }

  function PartyTaxScheme(p: Party): seq<Node> {
    if p.vatId.None? then []
    else [Elem("cac:PartyTaxScheme", [Leaf("cbc:CompanyID", p.vatId.value), Elem("cac:TaxScheme", [Leaf("cbc:ID", "VAT")])])]
  }

  /** `build_party`: nothing for a nil party; a failure when the party has no VAT id. */
  function PartyBlock(party: Option<Party>, role: PartyRole): Result<seq<Node>, BuildError> {
    match party
    case None => Success([])
    case Some(p) =>
      if p.vatId.None? then Failure(MissingVatId(role))
      else
        Success([Elem(PartyTag(role), [Elem("cac:Party",
            [Element("cbc:EndpointID", [Attr("schemeID", "0208")], [Text(EndpointId(p.vatId.value))])]
          + PostalAddress(p)
          + PartyTaxScheme(p)
          + [Elem("cac:PartyLegalEntity", [Leaf("cbc:RegistrationName", p.name)])])])])
  }

  /**
   * Which party elements appear, and in which order, given which fields are
   * set; EndpointID carries the VAT id without its letter prefix, CompanyID
   * the whole VAT id.
   */
  lemma PartyShape(party: Option<Party>, role: PartyRole)
    ensures party.None? ==> PartyBlock(party, role) == Success([])
    ensures party.Some? && party.value.vatId.None? ==> PartyBlock(party, role) == Failure(MissingVatId(role))
    ensures party.Some? && party.value.vatId.Some? ==>
      var p := party.value;
      var r := PartyBlock(party, role);
      && r.Success? && |r.value| == 1 && r.value[0].name == PartyTag(role)
      && |r.value[0].children| == 1
      && var inner := r.value[0].children[0].children;
      && Names(inner) == ["cbc:EndpointID"] + (if p.address.Some? then ["cac:PostalAddress"] else []) + ["cac:PartyTaxScheme", "cac:PartyLegalEntity"]
      && inner[0] == Element("cbc:EndpointID", [Attr("schemeID", "0208")], [Text(EndpointId(p.vatId.value))])
      && (p.address.Some? ==> inner[1] == PostalAddress(p)[0])
      && inner[|inner| - 2] == Elem("cac:PartyTaxScheme", [Leaf("cbc:CompanyID", p.vatId.value), Elem("cac:TaxScheme", [Leaf("cbc:ID", "VAT")])])
      && inner[|inner| - 1] == Elem("cac:PartyLegalEntity", [Leaf("cbc:RegistrationName", p.name)])
  {
  }

  /** Inside PostalAddress, CityName and PostalZone appear only if set, and Country always closes it. */
  lemma PostalAddressShape(p: Party)
    ensures |PostalAddress(p)| == if p.address.Some? then 1 else 0
    ensures p.address.Some? ==>
      Names(PostalAddress(p)[0].children)
      == ["cbc:StreetName"] + (if p.city.Some? then ["cbc:CityName"] else [])
         + (if p.postalCode.Some? then ["cbc:PostalZone"] else []) + ["cac:Country"]
  {
  }

  // ---- tax categories, build_tax_total ----

  function VatScheme(): Node {
    Elem("cac:TaxScheme", [Leaf("cbc:ID", "VAT")])
  }

  /** Children of a TaxCategory or ClassifiedTaxCategory; the Name is Belgian-only. */
  function CategoryChildren(rate: real, ublBe: bool, render: Render): seq<Node> {
    [Leaf("cbc:ID", CategoryId(Num(rate)))]
    + (if ublBe then [Leaf("cbc:Name", CategoryName(Num(rate)))] else [])
    + [Leaf("cbc:Percent", render.number(rate)), VatScheme()]
  }

  /** Belgian mode inserts the category Name right after the ID and changes nothing else. */
  lemma CategoryChildrenModes(rate: real, render: Render)
    ensures var std := CategoryChildren(rate, false, render);
      CategoryChildren(rate, true, render) == std[..1] + [Leaf("cbc:Name", CategoryName(Num(rate)))] + std[1..]
  {
  }

  function SubtotalElement(g: TaxGroup, d: Doc, render: Render): Node {
    Elem("cac:TaxSubtotal", [
      Amount("cbc:TaxableAmount", d.currency, SumExtension(g.lines)),
      Amount("cbc:TaxAmount", d.currency, SumTax(g.lines)),
      Elem("cac:TaxCategory", CategoryChildren(g.rate, d.ublBe, render))])
  }

  /** In Belgian mode a subtotal differs only by the Name inserted after its category ID. */
  lemma SubtotalModes(g: TaxGroup, d: Doc, render: Render)
    ensures var be, std := SubtotalElement(g, d.(ublBe := true), render), SubtotalElement(g, d.(ublBe := false), render);
      && |std.children| == 3
      && be == Elem("cac:TaxSubtotal", std.children[..2] + [Elem("cac:TaxCategory",
                 std.children[2].children[..1] + [Leaf("cbc:Name", CategoryName(Num(g.rate)))] + std.children[2].children[1..])])
  {
    CategoryChildrenModes(g.rate, render);
  }

  function SubtotalElements(gs: seq<TaxGroup>, d: Doc, render: Render): (r: seq<Node>)
    ensures |r| == |gs|
  {
    if gs == [] then [] else SubtotalElements(gs[..|gs| - 1], d, render) + [SubtotalElement(gs[|gs| - 1], d, render)]
  }

  lemma {:induction false} SubtotalElementsAt(gs: seq<TaxGroup>, d: Doc, render: Render, i: nat)
    requires i < |gs|
    ensures SubtotalElements(gs, d, render)[i] == SubtotalElement(gs[i], d, render)
  {
    if i < |gs| - 1 {
      SubtotalElementsAt(gs[..|gs| - 1], d, render, i);
    }
  }

  lemma SubtotalElementsSnoc(gs: seq<TaxGroup>, d: Doc, render: Render, i: nat)
    requires i < |gs|
    ensures SubtotalElements(gs[..i + 1], d, render) == SubtotalElements(gs[..i], d, render) + [SubtotalElement(gs[i], d, render)]
  {
    assert gs[..i + 1][..i] == gs[..i];
  }

  /** `build_tax_total`: nothing without lines; else the total and one subtotal per tax group. */
  function TaxTotal(d: Doc, render: Render): seq<Node> {
    if d.lines == [] then []
    else [Elem("cac:TaxTotal", [Amount("cbc:TaxAmount", d.currency, d.taxTotal)] + SubtotalElements(GroupByRate(d.lines), d, render))]
  }

  /** The subtotals of `build_tax_total`, appended one group at a time as the source's loop does. */
  method EmitSubtotals(groups: seq<TaxGroup>, d: Doc, render: Render) returns (children: seq<Node>)
    ensures children == SubtotalElements(groups, d, render)
  {
    children := [];
    var i := 0;
    while i < |groups|
      invariant 0 <= i <= |groups|
      invariant children == SubtotalElements(groups[..i], d, render)
    {
      SubtotalElementsSnoc(groups, d, render, i);
      children := children + [SubtotalElement(groups[i], d, render)];
      i := i + 1;
    }
    assert groups[..i] == groups;
  }

  /** `build_tax_total`. */
  method EmitTaxTotal(d: Doc, xml: seq<Node>, render: Render) returns (out: seq<Node>)
    ensures out == xml + TaxTotal(d, render)
  {
    if d.lines == [] {
      return xml;
    }
    var subtotals := EmitSubtotals(GroupByRate(d.lines), d, render);
    out := xml + [Elem("cac:TaxTotal", [Amount("cbc:TaxAmount", d.currency, d.taxTotal)] + subtotals)];
  }

  /**
   * TaxTotal is absent exactly when there are no lines; otherwise it holds the
   * tax total and then one TaxSubtotal per distinct rate, in first-seen order,
   * each carrying the sums of the lines of that rate.
   */
  lemma TaxTotalSpec(d: Doc, render: Render)
    ensures TaxTotal(d, render) == [] <==> d.lines == []
    ensures d.lines != [] ==>
      var rates := FirstSeen(Rates(d.lines));
      var t := TaxTotal(d, render);
      && |t| == 1 && t[0].name == "cac:TaxTotal"
      && |t[0].children| == 1 + |rates|
      && t[0].children[0] == Amount("cbc:TaxAmount", d.currency, d.taxTotal)
      && forall i :: 0 <= i < |rates| ==>
           t[0].children[1 + i] == SubtotalElement(TaxGroup(rates[i], WithRate(d.lines, rates[i])), d, render)
  {
    if d.lines != [] {
      TaxTotalShape(d, render);
      var rates := FirstSeen(Rates(d.lines));
      forall i | 0 <= i < |rates|
        ensures TaxTotal(d, render)[0].children[1 + i] == SubtotalElement(TaxGroup(rates[i], WithRate(d.lines, rates[i])), d, render)
      {
        TaxSubtotalAt(d, render, i);
      }
    }
  }

  lemma TaxTotalShape(d: Doc, render: Render)
    requires d.lines != []
    ensures var t := TaxTotal(d, render);
      && |t| == 1 && t[0].name == "cac:TaxTotal"
      && |t[0].children| == 1 + |FirstSeen(Rates(d.lines))|
      && t[0].children[0] == Amount("cbc:TaxAmount", d.currency, d.taxTotal)
  {
    GroupByRateSpec(d.lines);
    assert |GroupByRate(d.lines)| == |GroupRates(GroupByRate(d.lines))|;
  }

  lemma TaxSubtotalAt(d: Doc, render: Render, i: nat)
    requires d.lines != [] && i < |FirstSeen(Rates(d.lines))|
    ensures |TaxTotal(d, render)| == 1 && |TaxTotal(d, render)[0].children| == 1 + |FirstSeen(Rates(d.lines))|
    ensures var rate := FirstSeen(Rates(d.lines))[i];
      TaxTotal(d, render)[0].children[1 + i] == SubtotalElement(TaxGroup(rate, WithRate(d.lines, rate)), d, render)
  {
    TaxTotalShape(d, render);
    var gs := GroupByRate(d.lines);
    var subtotals := SubtotalElements(gs, d, render);
    TaxTotalUnfold(d, render);
    GroupAt(d.lines, i);
    SubtotalElementsAt(gs, d, render, i);
    ChildAt(Amount("cbc:TaxAmount", d.currency, d.taxTotal), subtotals, i);
  }

  lemma TaxTotalUnfold(d: Doc, render: Render)
    requires d.lines != []
    ensures TaxTotal(d, render)
         == [Elem("cac:TaxTotal", [Amount("cbc:TaxAmount", d.currency, d.taxTotal)] + SubtotalElements(GroupByRate(d.lines), d, render))]
  {
  }

  lemma ChildAt(first: Node, rest: seq<Node>, i: nat)
    requires i < |rest|
    ensures |[first] + rest| == 1 + |rest| && ([first] + rest)[1 + i] == rest[i]
  {
  }

  /**
   * Belgian mode keeps the TaxTotal's presence, its total and its number of
   * subtotals; subtotal i is the same group's subtotal in either mode, so
   * `SubtotalModes` gives the only change.
   */
  lemma TaxTotalModes(d: Doc, render: Render)
    ensures |TaxTotal(d.(ublBe := true), render)| == |TaxTotal(d.(ublBe := false), render)|
    ensures d.lines != [] ==>
      var be, std, gs := TaxTotal(d.(ublBe := true), render)[0], TaxTotal(d.(ublBe := false), render)[0], GroupByRate(d.lines);
      && be.name == std.name == "cac:TaxTotal"
      && |be.children| == |std.children| == 1 + |gs|
      && be.children[0] == std.children[0]
      && forall i :: 0 <= i < |gs| ==>
           be.children[1 + i] == SubtotalElement(gs[i], d.(ublBe := true), render)
           && std.children[1 + i] == SubtotalElement(gs[i], d.(ublBe := false), render)
  {
    if d.lines != [] {
      var dt, df := d.(ublBe := true), d.(ublBe := false);
      var gs := GroupByRate(d.lines);
      var first := Amount("cbc:TaxAmount", d.currency, d.taxTotal);
      var st, sf := SubtotalElements(gs, dt, render), SubtotalElements(gs, df, render);
      TaxTotalUnfold(dt, render);
      TaxTotalUnfold(df, render);
      forall i | 0 <= i < |gs|
        ensures ([first] + st)[1 + i] == SubtotalElement(gs[i], dt, render)
        ensures ([first] + sf)[1 + i] == SubtotalElement(gs[i], df, render)
      {
        SubtotalElementsAt(gs, dt, render, i);
        SubtotalElementsAt(gs, df, render, i);
        ChildAt(first, st, i);
        ChildAt(first, sf, i);
      }
    }
  }

  /** With the totals `calculate_totals` leaves, the subtotals' tax amounts and taxable amounts add up to the document's. */
  lemma SubtotalsAddUp(d: Doc)
    requires d.TotalsAgree()
    ensures TotalTax(GroupByRate(d.lines)) == d.taxTotal
    ensures TotalExtension(GroupByRate(d.lines)) + d.taxTotal == d.legalMonetaryTotal
  {
    GroupTotals(d.lines);
  }

  // ---- build_monetary_total ----

  /** `build_monetary_total`: nothing without lines. */
  function MonetaryTotal(d: Doc): seq<Node> {
    if d.lines == [] then []
    else
      var lineExtension := SumExtension(d.lines);
      [Elem("cac:LegalMonetaryTotal", [
        Amount("cbc:LineExtensionAmount", d.currency, lineExtension),
        Amount("cbc:TaxExclusiveAmount", d.currency, lineExtension),
        Amount("cbc:TaxInclusiveAmount", d.currency, d.legalMonetaryTotal),
        Amount("cbc:PayableAmount", d.currency, d.legalMonetaryTotal)])]
  }

  /**
   * LegalMonetaryTotal is absent exactly when there are no lines; otherwise the
   * tax-exclusive amount is the line extension sum and the tax-inclusive and
   * payable amounts are that sum plus the tax total.
   */
  lemma MonetaryTotalSpec(d: Doc)
    requires d.TotalsAgree()
    ensures MonetaryTotal(d) == [] <==> d.lines == []
    ensures d.lines != [] ==>
      var s, t := SumExtension(d.lines), SumTax(d.lines);
      MonetaryTotal(d) == [Elem("cac:LegalMonetaryTotal", [
        Amount("cbc:LineExtensionAmount", d.currency, s),
        Amount("cbc:TaxExclusiveAmount", d.currency, s),
        Amount("cbc:TaxInclusiveAmount", d.currency, s + t),
        Amount("cbc:PayableAmount", d.currency, s + t)])]
  {
  }

  /** The monetary total does not depend on the mode. */
  lemma MonetaryTotalModes(d: Doc)
    ensures MonetaryTotal(d.(ublBe := true)) == MonetaryTotal(d.(ublBe := false)) == MonetaryTotal(d)
  {
  }

  /**
   * A builder in a valid state has distinct line ids, and its subtotals and
   * sums add up to the totals it holds, so the properties above about
   * documents with agreeing totals apply to it.
   */
  lemma LiveBuilder(b: UblBuilder)
    requires b.Valid()
    ensures b.Snapshot().TotalsAgree() && WellFormed(b.invoiceLines)
    ensures forall i, j :: 0 <= i < j < |b.invoiceLines| ==> b.invoiceLines[i].id != b.invoiceLines[j].id
    ensures TotalTax(GroupByRate(b.invoiceLines)) == b.taxTotal
    ensures TotalExtension(GroupByRate(b.invoiceLines)) + b.taxTotal == b.legalMonetaryTotal
  {
    forall i, j | 0 <= i < j < |b.invoiceLines|
      ensures b.invoiceLines[i].id != b.invoiceLines[j].id
    {
      IdsDistinct(b.invoiceLines, i, j);
    }
    SubtotalsAddUp(b.Snapshot());
  }

  // ---- build_invoice_lines ----

  /** The per-line TaxTotal of Belgian mode: the tax amount as `Float#to_s` prints it, not `%.2f`. */
  function LineTaxTotal(l: Line, currency: string): Node {
    Elem("cac:TaxTotal", [Element("cbc:TaxAmount", [Attr("currencyID", currency)], [Text(FloatText(l.taxAmount))])])
  }

  function InvoiceLineElement(l: Line, d: Doc, render: Render): (e: Node)
    ensures e.Element? && |e.children| == if d.ublBe then 6 else 5
  {
    Elem("cac:InvoiceLine",
        [ Leaf("cbc:ID", l.id),
          Element("cbc:InvoicedQuantity", [Attr("unitCode", l.unit)], [Text(render.number(l.quantity))]),
          Amount("cbc:LineExtensionAmount", d.currency, l.lineExtensionAmount) ]
      + (if d.ublBe then [LineTaxTotal(l, d.currency)] else [])
      + [ Elem("cac:Item", [Leaf("cbc:Name", l.name), Elem("cac:ClassifiedTaxCategory", CategoryChildren(l.taxRate, d.ublBe, render))]),
          Elem("cac:Price", [Amount("cbc:PriceAmount", d.currency, RoundCents(l.unitPrice))]) ])
  }

  function InvoiceLineElements(ls: seq<Line>, d: Doc, render: Render): (r: seq<Node>)
    ensures |r| == |ls|
  {
    if ls == [] then [] else InvoiceLineElements(ls[..|ls| - 1], d, render) + [InvoiceLineElement(ls[|ls| - 1], d, render)]
  }

  /** Element i of the InvoiceLine section is the element of line i. */
  lemma {:induction false} InvoiceLineElementsAt(ls: seq<Line>, d: Doc, render: Render, i: nat)
    requires i < |ls|
    ensures InvoiceLineElements(ls, d, render)[i] == InvoiceLineElement(ls[i], d, render)
  {
    if i < |ls| - 1 {
      InvoiceLineElementsAt(ls[..|ls| - 1], d, render, i);
    }
  }

  lemma InvoiceLineElementsSnoc(ls: seq<Line>, d: Doc, render: Render, i: nat)
    requires i < |ls|
    ensures InvoiceLineElements(ls[..i + 1], d, render) == InvoiceLineElements(ls[..i], d, render) + [InvoiceLineElement(ls[i], d, render)]
  {
    assert ls[..i + 1][..i] == ls[..i];
  }

  /** `build_invoice_lines`: one InvoiceLine per line, in insertion order. */
  function InvoiceLines(d: Doc, render: Render): seq<Node> {
    InvoiceLineElements(d.lines, d, render)
  }

  /** `build_invoice_lines`, appending one element per line as the source's loop does. */
  method EmitInvoiceLines(d: Doc, xml: seq<Node>, render: Render) returns (out: seq<Node>)
    ensures out == xml + InvoiceLines(d, render)
  {
    var ls := d.lines;
    var elements := [];
    var i := 0;
    while i < |ls|
      invariant 0 <= i <= |ls|
      invariant elements == InvoiceLineElements(ls[..i], d, render)
    {
      InvoiceLineElementsSnoc(ls, d, render, i);
      elements := elements + [InvoiceLineElement(ls[i], d, render)];
      i := i + 1;
    }
    assert ls[..i] == ls;
    out := xml + elements;
  }

  /**
   * The children of a line's InvoiceLine are ID, quantity, extension amount,
   * the Belgian-only TaxTotal, Item and Price, in that order.
   */
  lemma InvoiceLineSpec(l: Line, d: Doc, render: Render)
    ensures var e := InvoiceLineElement(l, d, render);
      && e.name == "cac:InvoiceLine"
      && Names(e.children) == ["cbc:ID", "cbc:InvoicedQuantity", "cbc:LineExtensionAmount"]
                              + (if d.ublBe then ["cac:TaxTotal"] else []) + ["cac:Item", "cac:Price"]
      && e.children[0] == Leaf("cbc:ID", l.id)
      && e.children[2] == Amount("cbc:LineExtensionAmount", d.currency, l.lineExtensionAmount)
      && (d.ublBe ==> e.children[3] == LineTaxTotal(l, d.currency))
  {
  }

  /**
   * Belgian mode leaves the InvoiceLine section the same length and order.
   * Each line keeps its ID, quantity, amount, item name and price; it gains
   * the per-line TaxTotal, and its ClassifiedTaxCategory gains the Name after
   * the ID.
   */
  lemma InvoiceLinesModes(d: Doc, render: Render, i: nat)
    requires i < |d.lines|
    ensures |InvoiceLines(d.(ublBe := true), render)| == |InvoiceLines(d.(ublBe := false), render)|
    ensures InvoiceLines(d.(ublBe := true), render)[i] == InvoiceLineElement(d.lines[i], d.(ublBe := true), render)
    ensures InvoiceLines(d.(ublBe := false), render)[i] == InvoiceLineElement(d.lines[i], d.(ublBe := false), render)
    ensures var be, std := InvoiceLineElement(d.lines[i], d.(ublBe := true), render), InvoiceLineElement(d.lines[i], d.(ublBe := false), render);
      && be.children[..3] == std.children[..3]
      && be.children[3] == LineTaxTotal(d.lines[i], d.currency)
      && be.children[5] == std.children[4]
      && |std.children[3].children| == 2
      && be.children[4] == Elem("cac:Item", [std.children[3].children[0], Elem("cac:ClassifiedTaxCategory",
           std.children[3].children[1].children[..1] + [Leaf("cbc:Name", CategoryName(Num(d.lines[i].taxRate)))]
           + std.children[3].children[1].children[1..])])
  {
    InvoiceLineElementsAt(d.lines, d.(ublBe := true), render, i);
    InvoiceLineElementsAt(d.lines, d.(ublBe := false), render, i);
    CategoryChildrenModes(d.lines[i].taxRate, render);
  }
}
