/**
 * `Invoice#build` and `CreditNote#build`: a root element whose children are
 * the seven sections the `build_*` methods append, in a fixed order. The two
 * document kinds differ in the root, its default namespace, the type-code
 * element the header yields to, and the document-reference description.
 */
module Ubl {
  import opened Wrappers
  import opened Xml
  import opened Builder
  import opened Serializer
  import opened Constants

  const CREDIT_NOTE_NS := "urn:oasis:names:specification:ubl:schema:xsd:CreditNote-2"

  /** What distinguishes one document kind from another. */
  datatype DocType = DocType(root: string, attrs: seq<Attr>, typeCode: Node, description: string)

  /** The keys of an attribute list, in order. */
  function Keys(attrs: seq<Attr>): (ks: seq<string>)
    ensures |ks| == |attrs|
  {
    if attrs == [] then [] else [attrs[0].key] + Keys(attrs[1..])
  }

  predicate DistinctKeys(attrs: seq<Attr>) {
    forall i, j :: 0 <= i < j < |attrs| ==> attrs[i].key != attrs[j].key
  }

  /** `Hash#merge` of one pair: an existing key keeps its place and takes the new value; a new key goes last. */
  function Merge(attrs: seq<Attr>, a: Attr): seq<Attr> {
    if attrs == [] then [a]
    else if attrs[0].key == a.key then [a] + attrs[1..]
    else [attrs[0]] + Merge(attrs[1..], a)
  }

  lemma {:induction false} MergeReplaces(attrs: seq<Attr>, a: Attr, i: nat)
    requires DistinctKeys(attrs)
    requires i < |attrs| && attrs[i].key == a.key
    ensures Merge(attrs, a) == attrs[..i] + [a] + attrs[i + 1..]
  {
    if i > 0 {
      assert attrs[0].key != a.key;
      MergeReplaces(attrs[1..], a, i - 1);
      assert attrs[1..][..i - 1] == attrs[1..i];
      assert attrs[..i] == [attrs[0]] + attrs[1..i];
      assert attrs[1..][i..] == attrs[i + 1..];
    }
  }

  lemma {:induction false} MergeAppends(attrs: seq<Attr>, a: Attr)
    requires forall i :: 0 <= i < |attrs| ==> attrs[i].key != a.key
    ensures Merge(attrs, a) == attrs + [a]
  {
    if attrs != [] {
      MergeAppends(attrs[1..], a);
    }
  }

  function InvoiceType(): DocType {
    DocType("Invoice", Namespaces(), Leaf("cbc:InvoiceTypeCode", "380"), "CommercialInvoice")
  }

  function CreditNoteType(): DocType {
    DocType("CreditNote", Merge(Namespaces(), Attr("xmlns", CREDIT_NOTE_NS)), Leaf("cbc:CreditNoteTypeCode", "381"), "CreditNote")
  }

  /** The credit note overrides the default namespace in place and keeps the cac and cbc prefixes. */
  lemma CreditNoteNamespaces()
    ensures CreditNoteType().attrs == [Attr("xmlns", CREDIT_NOTE_NS)] + Namespaces()[1..]
    ensures Keys(CreditNoteType().attrs) == Keys(Namespaces()) == ["xmlns", "xmlns:cac", "xmlns:cbc"]
  {
    MergeReplaces(Namespaces(), Attr("xmlns", CREDIT_NOTE_NS), 0);
  }

  /** A party serialises, or the build fails, by `build_party`. */
  predicate PartyBuildable(p: Option<Party>) {
    p.None? || p.value.vatId.Some?
  }

  /**
   * The whole build: header (with the type code), document references,
   * supplier, customer, TaxTotal, LegalMonetaryTotal, InvoiceLines. The first
   * party that cannot be serialised aborts the build.
   */
  function Tree(d: Doc, t: DocType, render: Render): Result<Node, BuildError> {
    var supplier := PartyBlock(d.supplier, AccountingSupplierParty);
    var customer := PartyBlock(d.customer, AccountingCustomerParty);
    if supplier.Failure? then Failure(supplier.error)
    else if customer.Failure? then Failure(customer.error)
    else
      Success(Element(t.root, t.attrs,
          Header(d, [t.typeCode], render)
        + DocumentReferences(d, t.description)
        + supplier.value
        + customer.value
        + TaxTotal(d, render)
        + MonetaryTotal(d)
        + InvoiceLines(d, render)))
  }

  function InvoiceTree(d: Doc, render: Render): Result<Node, BuildError> {
    Tree(d, InvoiceType(), render)
  }

  function CreditNoteTree(d: Doc, render: Render): Result<Node, BuildError> {
    Tree(d, CreditNoteType(), render)
  }

  /** The build succeeds exactly when each party is absent or has a VAT id; the supplier's error comes first. */
  lemma BuildSucceeds(d: Doc, t: DocType, render: Render)
    ensures Tree(d, t, render).Success? <==> PartyBuildable(d.supplier) && PartyBuildable(d.customer)
    ensures !PartyBuildable(d.supplier) ==> Tree(d, t, render) == Failure(MissingVatId(AccountingSupplierParty))
    ensures PartyBuildable(d.supplier) && !PartyBuildable(d.customer) ==>
      Tree(d, t, render) == Failure(MissingVatId(AccountingCustomerParty))
  {
  }

  // ---- section order ----

  /** The section a top-level child belongs to: 0 header, 1 references, 2 supplier, 3 customer, 4 tax total, 5 monetary total, 6 lines. */
  function Rank(n: Node): nat {
    var name := NameOf(n);
    if name == "cac:AdditionalDocumentReference" then 1
    else if name == "cac:AccountingSupplierParty" then 2
    else if name == "cac:AccountingCustomerParty" then 3
    else if name == "cac:TaxTotal" then 4
    else if name == "cac:LegalMonetaryTotal" then 5
    else if name == "cac:InvoiceLine" then 6
    else 0
  }

  predicate Ordered(ns: seq<Node>) {
    forall i, j :: 0 <= i < j < |ns| ==> Rank(ns[i]) <= Rank(ns[j])
  }

  predicate AllRank(ns: seq<Node>, k: nat) {
    forall i :: 0 <= i < |ns| ==> Rank(ns[i]) == k
  }

  predicate RankAtMost(ns: seq<Node>, k: nat) {
    forall i :: 0 <= i < |ns| ==> Rank(ns[i]) <= k
  }

  lemma OrderedAppend(xs: seq<Node>, ys: seq<Node>, k: nat)
    requires Ordered(xs) && RankAtMost(xs, k) && AllRank(ys, k)
    ensures Ordered(xs + ys) && RankAtMost(xs + ys, k)
  {
    var zs := xs + ys;
    forall i, j | 0 <= i < j < |zs|
      ensures Rank(zs[i]) <= Rank(zs[j])
    {
      if j < |xs| {
        assert zs[i] == xs[i] && zs[j] == xs[j];
      } else if i < |xs| {
        assert zs[i] == xs[i] && zs[j] == ys[j - |xs|];
      } else {
        assert zs[i] == ys[i - |xs|] && zs[j] == ys[j - |xs|];
      }
    }
  }

  lemma PartyRank(party: Option<Party>, role: PartyRole)
    requires PartyBlock(party, role).Success?
    ensures AllRank(PartyBlock(party, role).value, if role.AccountingSupplierParty? then 2 else 3)
  {
    assert "cac:AccountingCustomerParty"[14] != "cac:AccountingSupplierParty"[14];
  }

  lemma InvoiceLinesRank(d: Doc, render: Render)
    ensures AllRank(InvoiceLines(d, render), 6)
  {
    forall i | 0 <= i < |d.lines|
      ensures Rank(InvoiceLines(d, render)[i]) == 6
    {
      InvoiceLineElementsAt(d.lines, d, render, i);
    }
  }

  lemma HeaderRank(d: Doc, typeCode: Node, render: Render)
    requires Rank(typeCode) == 0
    ensures AllRank(Header(d, [typeCode], render), 0)
  {
  }

  lemma DocumentReferencesRank(d: Doc, description: string)
    ensures AllRank(DocumentReferences(d, description), 1)
  {
  }

  lemma TaxTotalRank(d: Doc, render: Render)
    ensures AllRank(TaxTotal(d, render), 4)
  {
  }

  lemma MonetaryTotalRank(d: Doc)
    ensures AllRank(MonetaryTotal(d), 5)
  {
  }

  /** The children of a successful build, section by section. */
  lemma TreeChildren(d: Doc, t: DocType, render: Render)
    requires Tree(d, t, render).Success?
    ensures PartyBlock(d.supplier, AccountingSupplierParty).Success?
    ensures PartyBlock(d.customer, AccountingCustomerParty).Success?
    ensures Tree(d, t, render).value == Element(t.root, t.attrs,
          Header(d, [t.typeCode], render)
        + DocumentReferences(d, t.description)
        + PartyBlock(d.supplier, AccountingSupplierParty).value
        + PartyBlock(d.customer, AccountingCustomerParty).value
        + TaxTotal(d, render)
        + MonetaryTotal(d)
        + InvoiceLines(d, render))
  {
  }

  /** Seven blocks, each of a single rank, in increasing rank order, are ordered once joined. */
  lemma SectionsJoinOrdered(h: seq<Node>, r: seq<Node>, s: seq<Node>, c: seq<Node>, tt: seq<Node>, mt: seq<Node>, il: seq<Node>)
    requires AllRank(h, 0) && AllRank(r, 1) && AllRank(s, 2) && AllRank(c, 3)
    requires AllRank(tt, 4) && AllRank(mt, 5) && AllRank(il, 6)
    ensures Ordered(h + r + s + c + tt + mt + il)
  {
    assert Ordered(h) && RankAtMost(h, 1);
    OrderedAppend(h, r, 1);
    OrderedAppend(h + r, s, 2);
    OrderedAppend(h + r + s, c, 3);
    OrderedAppend(h + r + s + c, tt, 4);
    OrderedAppend(h + r + s + c + tt, mt, 5);
    OrderedAppend(h + r + s + c + tt + mt, il, 6);
  }

  /** Every successful build lists its sections in the fixed order, whatever is present or absent. */
  lemma TreeOrdered(d: Doc, t: DocType, render: Render)
    requires Rank(t.typeCode) == 0
    requires Tree(d, t, render).Success?
    ensures Ordered(Tree(d, t, render).value.children)
  {
    TreeChildren(d, t, render);
    HeaderRank(d, t.typeCode, render);
    DocumentReferencesRank(d, t.description);
    PartyRank(d.supplier, AccountingSupplierParty);
    PartyRank(d.customer, AccountingCustomerParty);
    TaxTotalRank(d, render);
    MonetaryTotalRank(d);
    InvoiceLinesRank(d, render);
    SectionsJoinOrdered(Header(d, [t.typeCode], render), DocumentReferences(d, t.description),
      PartyBlock(d.supplier, AccountingSupplierParty).value, PartyBlock(d.customer, AccountingCustomerParty).value,
      TaxTotal(d, render), MonetaryTotal(d), InvoiceLines(d, render));
  }

  /** Both document kinds list their sections in the fixed order. */
  lemma DocumentsOrdered(d: Doc, render: Render)
    ensures InvoiceTree(d, render).Success? ==> Ordered(InvoiceTree(d, render).value.children)
    ensures CreditNoteTree(d, render).Success? ==> Ordered(CreditNoteTree(d, render).value.children)
  {
    if InvoiceTree(d, render).Success? {
      TreeOrdered(d, InvoiceType(), render);
    }
    if CreditNoteTree(d, render).Success? {
      TreeOrdered(d, CreditNoteType(), render);
    }
  }

  /** The type code is the sixth child, between DueDate and DocumentCurrencyCode. */
  lemma TypeCodePlacement(d: Doc, t: DocType, render: Render)
    requires Tree(d, t, render).Success?
    ensures var c := Tree(d, t, render).value.children;
      && |c| >= 8
      && NameOf(c[4]) == "cbc:DueDate"
      && c[5] == t.typeCode
      && NameOf(c[6]) == "cbc:DocumentCurrencyCode"
  {
  }

  lemma HeaderTypeCodeOnly(d: Doc, a: Node, b: Node, render: Render)
    ensures |Header(d, [a], render)| == |Header(d, [b], render)| == 8
    ensures Header(d, [a], render)[5] == a
    ensures forall i :: 0 <= i < 8 && i != 5 ==> Header(d, [a], render)[i] == Header(d, [b], render)[i]
  {
  }

  lemma DocumentReferencesDescriptionOnly(d: Doc, x: string, y: string)
    ensures |DocumentReferences(d, x)| == |DocumentReferences(d, y)|
    ensures d.ublBe ==> DocumentReferences(d, x)[0] == UblBeReference(x)
    ensures forall i :: 0 <= i < |DocumentReferences(d, x)| && !(d.ublBe && i == 0) ==>
      DocumentReferences(d, x)[i] == DocumentReferences(d, y)[i]
  {
  }

  /** Joining a header and references that differ only at header position 5 and reference 0 to common sections. */
  lemma JoinDiffer(h1: seq<Node>, h2: seq<Node>, r1: seq<Node>, r2: seq<Node>,
                   s: seq<Node>, c: seq<Node>, tt: seq<Node>, mt: seq<Node>, il: seq<Node>, be: bool)
    requires |h1| == |h2| == 8 && |r1| == |r2|
    requires forall i :: 0 <= i < 8 && i != 5 ==> h1[i] == h2[i]
    requires forall i :: 0 <= i < |r1| && !(be && i == 0) ==> r1[i] == r2[i]
    ensures var c1, c2 := h1 + r1 + s + c + tt + mt + il, h2 + r2 + s + c + tt + mt + il;
      && |c1| == |c2|
      && c1[5] == h1[5]
      && (|r1| > 0 ==> c1[8] == r1[0])
      && forall i :: 0 <= i < |c1| && i != 5 && !(be && i == 8) ==> c1[i] == c2[i]
  {
    var rest := s + c + tt + mt + il;
    var c1, c2 := h1 + r1 + s + c + tt + mt + il, h2 + r2 + s + c + tt + mt + il;
    assert c1 == h1 + r1 + rest;
    assert c2 == h2 + r2 + rest;
    forall i | 0 <= i < |c1| && i != 5 && !(be && i == 8)
      ensures c1[i] == c2[i]
    {
      if i < 8 {
        assert c1[i] == h1[i] && c2[i] == h2[i];
      } else if i < 8 + |r1| {
        assert c1[i] == r1[i - 8] && c2[i] == r2[i - 8];
      } else {
        assert c1[i] == rest[i - 8 - |r1|] && c2[i] == rest[i - 8 - |r2|];
      }
    }
  }

  /** Two document kinds built from the same fields differ only in root, attributes, type code and the UBL.BE description. */
  lemma TreeKindsDiffer(d: Doc, t1: DocType, t2: DocType, render: Render)
    ensures Tree(d, t1, render).Success? <==> Tree(d, t2, render).Success?
    ensures Tree(d, t1, render).Failure? ==> Tree(d, t1, render) == Tree(d, t2, render)
    ensures Tree(d, t1, render).Success? ==>
      var c1, c2 := Tree(d, t1, render).value.children, Tree(d, t2, render).value.children;
      && |c1| == |c2| >= 8
      && c1[5] == t1.typeCode
      && (d.ublBe ==> c1[8] == UblBeReference(t1.description))
      && forall i :: 0 <= i < |c1| && i != 5 && !(d.ublBe && i == 8) ==> c1[i] == c2[i]
  {
    if Tree(d, t1, render).Success? {
      TreeChildren(d, t1, render);
      TreeChildren(d, t2, render);
      HeaderTypeCodeOnly(d, t1.typeCode, t2.typeCode, render);
      DocumentReferencesDescriptionOnly(d, t1.description, t2.description);
      JoinDiffer(Header(d, [t1.typeCode], render), Header(d, [t2.typeCode], render),
        DocumentReferences(d, t1.description), DocumentReferences(d, t2.description),
        PartyBlock(d.supplier, AccountingSupplierParty).value, PartyBlock(d.customer, AccountingCustomerParty).value,
        TaxTotal(d, render), MonetaryTotal(d), InvoiceLines(d, render), d.ublBe);
    }
  }

  /**
   * Invoice and credit note differ only in the root name and default
   * namespace, the type code, and, in Belgian mode, the description of the
   * UBL.BE reference; everything else, including success, is the same.
   */
  lemma InvoiceVersusCreditNote(d: Doc, render: Render)
    ensures InvoiceTree(d, render).Success? <==> CreditNoteTree(d, render).Success?
    ensures InvoiceTree(d, render).Failure? ==> InvoiceTree(d, render) == CreditNoteTree(d, render)
    ensures InvoiceTree(d, render).Success? ==>
      var inv, cn := InvoiceTree(d, render).value, CreditNoteTree(d, render).value;
      && inv.name == "Invoice" && cn.name == "CreditNote"
      && inv.attrs == Namespaces()
      && cn.attrs == [Attr("xmlns", CREDIT_NOTE_NS)] + Namespaces()[1..]
      && |inv.children| == |cn.children|
      && inv.children[5] == Leaf("cbc:InvoiceTypeCode", "380")
      && cn.children[5] == Leaf("cbc:CreditNoteTypeCode", "381")
      && (d.ublBe ==> inv.children[8] == UblBeReference("CommercialInvoice") && cn.children[8] == UblBeReference("CreditNote"))
      && forall i :: 0 <= i < |inv.children| && i != 5 && !(d.ublBe && i == 8) ==> inv.children[i] == cn.children[i]
  {
    CreditNoteNamespaces();
    TreeKindsDiffer(d, InvoiceType(), CreditNoteType(), render);
    TreeKindsDiffer(d, CreditNoteType(), InvoiceType(), render);
    if InvoiceTree(d, render).Success? {
      TreeChildren(d, InvoiceType(), render);
      TreeChildren(d, CreditNoteType(), render);
    }
  }

  /**
   * Regrouping the sections of a Belgian and a standard build: the header
   * and references of the Belgian one are the standard ones with the first
   * header element replaced and one reference in front.
   */
  lemma JoinModes(h1: seq<Node>, h2: seq<Node>, r1: seq<Node>, r2: seq<Node>, first: Node, ref: Node,
                  s: seq<Node>, c: seq<Node>, t1: seq<Node>, t2: seq<Node>, m1: seq<Node>, m2: seq<Node>, l1: seq<Node>, l2: seq<Node>)
    requires |h2| >= 1 && h1 == [first] + h2[1..] && r1 == [ref] + r2 && m1 == m2
    ensures h2 + r2 + s + c + t2 + m2 + l2 == h2 + (r2 + s + c) + t2 + m2 + l2
    ensures h1 + r1 + s + c + t1 + m1 + l1 == [first] + h2[1..] + [ref] + (r2 + s + c) + t1 + m2 + l1
  {
  }

  /** Belgian mode does not change whether a build succeeds, nor the failure it reports. */
  lemma TreeModesSucceed(d: Doc, t: DocType, render: Render)
    ensures Tree(d.(ublBe := true), t, render).Success? <==> Tree(d.(ublBe := false), t, render).Success?
    ensures Tree(d.(ublBe := true), t, render).Failure? ==> Tree(d.(ublBe := true), t, render) == Tree(d.(ublBe := false), t, render)
  {
    BuildSucceeds(d.(ublBe := true), t, render);
    BuildSucceeds(d.(ublBe := false), t, render);
  }

  /**
   * `Tree`'s section list with the two party blocks as parameters. It repeats
   * `Tree`'s children expression only so that `TreeModes` and `JoinModes` can
   * match it term for term; `TreeSections` ties it to `Tree`.
   */
  function Sections(d: Doc, t: DocType, render: Render, supplier: seq<Node>, customer: seq<Node>): seq<Node> {
    Header(d, [t.typeCode], render) + DocumentReferences(d, t.description) + supplier + customer
    + TaxTotal(d, render) + MonetaryTotal(d) + InvoiceLines(d, render)
  }

  /**
   * Belgian mode changes the sections of a build only in CustomizationID, the
   * UBL.BE reference put in front of the other references (position 8), and
   * the TaxTotal and InvoiceLine sections, whose changes (category Names and
   * per-line TaxTotals) `TaxTotalModes` and `InvoiceLinesModes` give; the rest
   * of the header, the other references, both parties and the monetary total
   * are shared. `DocumentModes` states this of the whole document.
   */
  lemma TreeModes(d: Doc, t: DocType, render: Render, s: seq<Node>, c: seq<Node>)
    ensures var dt, df := d.(ublBe := true), d.(ublBe := false);
      var h, mid := Header(df, [t.typeCode], render), DocumentReferences(df, t.description) + s + c;
      && |h| == 8 && h[0] == Leaf("cbc:CustomizationID", CUSTOMIZATION_ID)
      && Sections(df, t, render, s, c) == h + mid + TaxTotal(df, render) + MonetaryTotal(df) + InvoiceLines(df, render)
      && Sections(dt, t, render, s, c)
         == [Leaf("cbc:CustomizationID", CUSTOMIZATION_UBL_BE)] + h[1..] + [UblBeReference(t.description)] + mid
            + TaxTotal(dt, render) + MonetaryTotal(df) + InvoiceLines(dt, render)
  {
    var dt, df := d.(ublBe := true), d.(ublBe := false);
    var h1, h2 := Header(dt, [t.typeCode], render), Header(df, [t.typeCode], render);
    var first := Leaf("cbc:CustomizationID", CUSTOMIZATION_UBL_BE);
    HeaderModes(d, t.typeCode, render);
    DocumentReferencesModes(d, t.description);
    MonetaryTotalModes(d);
    assert h1 == [first] + h2[1..];
    JoinModes(h1, h2, DocumentReferences(dt, t.description), DocumentReferences(df, t.description), first, UblBeReference(t.description),
      s, c, TaxTotal(dt, render), TaxTotal(df, render), MonetaryTotal(dt), MonetaryTotal(df), InvoiceLines(dt, render), InvoiceLines(df, render));
  }

  /** A successful build's root children are its `Sections` with the two party blocks. */
  lemma TreeSections(d: Doc, t: DocType, render: Render)
    requires Tree(d, t, render).Success?
    ensures Tree(d, t, render).value.children
         == Sections(d, t, render, PartyBlock(d.supplier, AccountingSupplierParty).value, PartyBlock(d.customer, AccountingCustomerParty).value)
  {
  }

  /**
   * The whole document in both modes: a Belgian build succeeds exactly when a
   * standard one does, and its root children are the standard ones with the
   * CustomizationID value replaced, the UBL.BE reference put in front of the
   * other references, and the Belgian TaxTotal and InvoiceLine sections; the
   * rest of the header, the other references, both parties and the monetary
   * total are shared.
   */
  lemma DocumentModes(d: Doc, t: DocType, render: Render)
    requires Tree(d.(ublBe := false), t, render).Success?
    ensures Tree(d.(ublBe := true), t, render).Success?
    ensures var dt, df := d.(ublBe := true), d.(ublBe := false);
      var h := Header(df, [t.typeCode], render);
      var mid := DocumentReferences(df, t.description)
                 + PartyBlock(d.supplier, AccountingSupplierParty).value + PartyBlock(d.customer, AccountingCustomerParty).value;
      && |h| == 8 && h[0] == Leaf("cbc:CustomizationID", CUSTOMIZATION_ID)
      && Tree(df, t, render).value.children == h + mid + TaxTotal(df, render) + MonetaryTotal(df) + InvoiceLines(df, render)
      && Tree(dt, t, render).value.children
         == [Leaf("cbc:CustomizationID", CUSTOMIZATION_UBL_BE)] + h[1..] + [UblBeReference(t.description)] + mid
            + TaxTotal(dt, render) + MonetaryTotal(df) + InvoiceLines(dt, render)
  {
    var dt, df := d.(ublBe := true), d.(ublBe := false);
    TreeModesSucceed(d, t, render);
    TreeSections(dt, t, render);
    TreeSections(df, t, render);
    TreeModes(d, t, render, PartyBlock(d.supplier, AccountingSupplierParty).value, PartyBlock(d.customer, AccountingCustomerParty).value);
  }

  lemma HeaderModes(d: Doc, typeCode: Node, render: Render)
    ensures var hb, hs := Header(d.(ublBe := true), [typeCode], render), Header(d.(ublBe := false), [typeCode], render);
      && |hb| == |hs| == 8 && hb[1..] == hs[1..]
      && hb[0] == Leaf("cbc:CustomizationID", CUSTOMIZATION_UBL_BE)
      && hs[0] == Leaf("cbc:CustomizationID", CUSTOMIZATION_ID)
  {
  }

  // ---- the build methods ----

  /** The `build` body shared by both kinds: the `build_*` calls in order, each appending to the document. */
  method BuildDocument(b: UblBuilder, t: DocType, render: Render) returns (r: Result<Node, BuildError>)
    ensures r == Tree(b.Snapshot(), t, render)
  {
    var d := b.Snapshot();
    var xml := Header(d, [t.typeCode], render);
    xml := xml + DocumentReferences(d, t.description);
    var supplier := PartyBlock(d.supplier, AccountingSupplierParty);
    if supplier.Failure? {
      return Failure(supplier.error);
    }
    xml := xml + supplier.value;
    var customer := PartyBlock(d.customer, AccountingCustomerParty);
    if customer.Failure? {
      return Failure(customer.error);
    }
    xml := xml + customer.value;
    xml := EmitTaxTotal(d, xml, render);
    xml := xml + MonetaryTotal(d);
    xml := EmitInvoiceLines(d, xml, render);
    return Success(Element(t.root, t.attrs, xml));
  }

  /** `Invoice#build`. */
  method BuildInvoice(b: UblBuilder, render: Render) returns (r: Result<Node, BuildError>)
    ensures r == InvoiceTree(b.Snapshot(), render)
    ensures r.Success? ==> r.value.name == "Invoice" && r.value.attrs == Namespaces() && Ordered(r.value.children)
  {
    r := BuildDocument(b, InvoiceType(), render);
    DocumentsOrdered(b.Snapshot(), render);
  }

  /** `CreditNote#build` in the main file. */
  method BuildCreditNote(b: UblBuilder, render: Render) returns (r: Result<Node, BuildError>)
    ensures r == CreditNoteTree(b.Snapshot(), render)
    ensures r.Success? ==>
      r.value.name == "CreditNote" && r.value.attrs == [Attr("xmlns", CREDIT_NOTE_NS)] + Namespaces()[1..] && Ordered(r.value.children)
  {
    r := BuildDocument(b, CreditNoteType(), render);
    CreditNoteNamespaces();
    DocumentsOrdered(b.Snapshot(), render);
  }

  /** Building assigns no field, so two builds in a row give the same document. */
  method BuildTwice(b: UblBuilder, render: Render) returns (first: Result<Node, BuildError>, second: Result<Node, BuildError>)
    ensures first == second
  {
    first := BuildInvoice(b, render);
    second := BuildInvoice(b, render);
  }
}
