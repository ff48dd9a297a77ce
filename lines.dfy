/**
 * Invoice lines (the records `add_line` appends), their totals and their
 * grouping by tax rate for the TaxTotal block.
 */
module Lines {
  import opened Numbers

  /** One invoice line. Amounts are in cents; quantity, unit price and tax rate (a percentage) are exact. */
  datatype Line = Line(
    id: string,
    name: string,
    quantity: real,
    unit: string,
    unitPrice: real,
    lineExtensionAmount: int,
    taxRate: real,
    taxAmount: int)

  /** `(quantity * unit_price).round(2)`, in cents. */
  function LineExtension(quantity: real, unitPrice: real): int {
    RoundCents(quantity * unitPrice)
  }

  /** `(line_extension_amount * (tax_rate / 100.0)).round(2)`, with the extension amount given in cents. */
  function LineTax(lineExtension: int, taxRate: real): int {
    RoundCents(lineExtension as real / 100.0 * (taxRate / 100.0))
  }

  /** The record `add_line` appends as the line at 1-based position `position`. */
  function NewLine(position: nat, name: string, quantity: real, unitPrice: real, taxRate: real, unit: string): Line {
    var extension := LineExtension(quantity, unitPrice);
    Line(NatToString(position), name, quantity, unit, unitPrice, extension, taxRate, LineTax(extension, taxRate))
  }

  /** A line's amounts are the ones computed from its own quantity, unit price and rate. */
  predicate AmountsDerived(l: Line) {
    l.lineExtensionAmount == LineExtension(l.quantity, l.unitPrice) &&
    l.taxAmount == LineTax(l.lineExtensionAmount, l.taxRate)
  }

  /** What a sequence of `add_line` calls produces: ids "1", "2", ... in order, amounts derived. */
  predicate WellFormed(ls: seq<Line>) {
    forall i :: 0 <= i < |ls| ==> ls[i].id == NatToString(i + 1) && AmountsDerived(ls[i])
  }

  /** Appending the line `add_line` builds for the next position keeps a sequence well formed. */
  lemma WellFormedAppend(ls: seq<Line>, name: string, quantity: real, unitPrice: real, taxRate: real, unit: string)
    requires WellFormed(ls)
    ensures WellFormed(ls + [NewLine(|ls| + 1, name, quantity, unitPrice, taxRate, unit)])
  {
    var l := NewLine(|ls| + 1, name, quantity, unitPrice, taxRate, unit);
    var r := ls + [l];
    forall i | 0 <= i < |r|
      ensures r[i].id == NatToString(i + 1) && AmountsDerived(r[i])
    {
      if i < |ls| {
        assert r[i] == ls[i];
      }
    }
  }

  /** Line ids of a well-formed sequence are pairwise distinct. */
  lemma IdsDistinct(ls: seq<Line>, i: nat, j: nat)
    requires WellFormed(ls) && i < j < |ls|
    ensures ls[i].id != ls[j].id
  {
    if ls[i].id == ls[j].id {
      NatToStringInjective(i + 1, j + 1);
    }
  }

  /** `lines.sum { |line| line[:line_extension_amount] }` */
  function SumExtension(ls: seq<Line>): int {
    if ls == [] then 0 else SumExtension(ls[..|ls| - 1]) + ls[|ls| - 1].lineExtensionAmount
  }

  /** `lines.sum { |line| line[:tax_amount] }` */
  function SumTax(ls: seq<Line>): int {
    if ls == [] then 0 else SumTax(ls[..|ls| - 1]) + ls[|ls| - 1].taxAmount
  }

  /** The two invoice lines of the source's sum test: 10 x 100.00 and 1 x 500.00, both at 21%. */
  lemma SumExample()
    ensures var ls := [NewLine(1, "Consulting", 10.0, 100.0, 21.0, "ZZ"), NewLine(2, "Software License", 1.0, 500.0, 21.0, "ZZ")];
      ls[0].lineExtensionAmount == 100000 && ls[0].taxAmount == 21000 &&
      SumTax(ls) == 31500 && SumExtension(ls) + SumTax(ls) == 181500
  {
    RoundCentsExact(100000);
    RoundCentsExact(21000);
    RoundCentsExact(50000);
    RoundCentsExact(10500);
    var ls := [NewLine(1, "Consulting", 10.0, 100.0, 21.0, "ZZ"), NewLine(2, "Software License", 1.0, 500.0, 21.0, "ZZ")];
    assert ls[..1][..0] == [] && ls[..1] == [ls[0]];
  }

  // ---- Grouping by tax rate (`invoice_lines.group_by { |line| line[:tax_rate] }`) ----

  /** The lines of one tax rate, in the order they were added. */
  datatype TaxGroup = TaxGroup(rate: real, lines: seq<Line>)

  /** One step of `group_by`: the line joins the group of its rate, or opens a new group at the end. */
  function AddToGroups(gs: seq<TaxGroup>, l: Line): (r: seq<TaxGroup>)
    ensures |r| >= 1
  {
    if gs == [] then [TaxGroup(l.taxRate, [l])]
    else if gs[0].rate == l.taxRate then [gs[0].(lines := gs[0].lines + [l])] + gs[1..]
    else [gs[0]] + AddToGroups(gs[1..], l)
  }

  /** `group_by` on the tax rate: groups in the order their rate is first seen. */
  function GroupByRate(ls: seq<Line>): seq<TaxGroup> {
    if ls == [] then [] else AddToGroups(GroupByRate(ls[..|ls| - 1]), ls[|ls| - 1])
  }

  function GroupRates(gs: seq<TaxGroup>): seq<real> {
    seq(|gs|, i requires 0 <= i < |gs| => gs[i].rate)
  }

  function Rates(ls: seq<Line>): seq<real> {
    seq(|ls|, i requires 0 <= i < |ls| => ls[i].taxRate)
  }

  predicate NoDuplicates(s: seq<real>) {
    forall i, j :: 0 <= i < j < |s| ==> s[i] != s[j]
  }

  /** Reference definition of first-seen order: scan left to right, keep a value the first time it appears. */
  function FirstSeen(s: seq<real>): (d: seq<real>)
    ensures NoDuplicates(d)
    ensures forall x :: x in d <==> x in s
  {
    if s == [] then []
    else
      var p := FirstSeen(s[..|s| - 1]);
      assert forall x :: x in s <==> x in s[..|s| - 1] || x == s[|s| - 1];
      if s[|s| - 1] in p then p else p + [s[|s| - 1]]
  }

  /** The index at which x first occurs in s. */
  function FirstIndex(s: seq<real>, x: real): (k: nat)
    requires x in s
    ensures k < |s| && s[k] == x && x !in s[..k]
  {
    if s[0] == x then 0 else 1 + FirstIndex(s[1..], x)
  }

  lemma {:induction false} FirstIndexAppend(s: seq<real>, e: real, x: real)
    requires x in s + [e]
    ensures FirstIndex(s + [e], x) == if x in s then FirstIndex(s, x) else |s|
  {
    if s != [] && s[0] != x {
      assert (s + [e])[1..] == s[1..] + [e];
      assert x in s <==> x in s[1..];
      FirstIndexAppend(s[1..], e, x);
    }
  }

  /** First-seen order: the values of FirstSeen(s) appear in the order of their first occurrence in s. */
  lemma {:induction false} FirstSeenOrder(s: seq<real>, i: nat, j: nat)
    requires i < j < |FirstSeen(s)|
    ensures FirstSeen(s)[i] in s && FirstSeen(s)[j] in s
    ensures FirstIndex(s, FirstSeen(s)[i]) < FirstIndex(s, FirstSeen(s)[j])
  {
    var init, e := s[..|s| - 1], s[|s| - 1];
    assert s == init + [e];
    var p := FirstSeen(init);
    var x, y := FirstSeen(s)[i], FirstSeen(s)[j];
    FirstIndexAppend(init, e, x);
    FirstIndexAppend(init, e, y);
    if j < |p| {
      FirstSeenOrder(init, i, j);
    } else {
      assert x in p && x in init;
      assert y == e && e !in p && e !in init;
    }
  }

  lemma {:induction false} AddToGroupsTotals(gs: seq<TaxGroup>, l: Line)
    ensures TotalTax(AddToGroups(gs, l)) == TotalTax(gs) + l.taxAmount
    ensures TotalExtension(AddToGroups(gs, l)) == TotalExtension(gs) + l.lineExtensionAmount
  {
    if gs == [] {
      var r := AddToGroups(gs, l);
      assert r == [TaxGroup(l.taxRate, [l])];
      assert [l][..0] == [];
      assert SumTax([l]) == l.taxAmount && SumExtension([l]) == l.lineExtensionAmount;
      assert r[1..] == [];
    } else if gs[0].rate == l.taxRate {
      var r := AddToGroups(gs, l);
      assert r[1..] == gs[1..];
      assert (gs[0].lines + [l])[..|gs[0].lines|] == gs[0].lines;
    } else {
      var r := AddToGroups(gs, l);
      assert r[1..] == AddToGroups(gs[1..], l);
      AddToGroupsTotals(gs[1..], l);
    }
  }

  /** Sum of the tax amounts of all groups. */
  function TotalTax(gs: seq<TaxGroup>): int {
    if gs == [] then 0 else SumTax(gs[0].lines) + TotalTax(gs[1..])
  }

  /** Sum of the taxable (line extension) amounts of all groups. */
  function TotalExtension(gs: seq<TaxGroup>): int {
    if gs == [] then 0 else SumExtension(gs[0].lines) + TotalExtension(gs[1..])
  }

  /** The group sums add up to the document's sums: every line is in exactly one group. */
  lemma {:induction false} GroupTotals(ls: seq<Line>)
    ensures TotalTax(GroupByRate(ls)) == SumTax(ls)
    ensures TotalExtension(GroupByRate(ls)) == SumExtension(ls)
  {
    if ls != [] {
      GroupTotals(ls[..|ls| - 1]);
      AddToGroupsTotals(GroupByRate(ls[..|ls| - 1]), ls[|ls| - 1]);
    }
  }

  /** The lines of ls with the given rate, in order. */
  function WithRate(ls: seq<Line>, rate: real): seq<Line> {
    if ls == [] then []
    else WithRate(ls[..|ls| - 1], rate) + (if ls[|ls| - 1].taxRate == rate then [ls[|ls| - 1]] else [])
  }

  lemma {:induction false} WithAbsentRate(ls: seq<Line>, rate: real)
    requires rate !in Rates(ls)
    ensures WithRate(ls, rate) == []
  {
    if ls != [] {
      assert Rates(ls[..|ls| - 1]) == Rates(ls)[..|ls| - 1];
      assert Rates(ls)[|ls| - 1] == ls[|ls| - 1].taxRate;
      WithAbsentRate(ls[..|ls| - 1], rate);
    }
  }

  /** How one `group_by` step changes a list of groups with distinct rates. */
  lemma {:induction false} AddToGroupsShape(gs: seq<TaxGroup>, l: Line)
    requires NoDuplicates(GroupRates(gs))
    ensures l.taxRate in GroupRates(gs) ==>
      |AddToGroups(gs, l)| == |gs| &&
      forall i :: 0 <= i < |gs| ==> AddToGroups(gs, l)[i] == (if gs[i].rate == l.taxRate then gs[i].(lines := gs[i].lines + [l]) else gs[i])
    ensures l.taxRate !in GroupRates(gs) ==> AddToGroups(gs, l) == gs + [TaxGroup(l.taxRate, [l])]
  {
    if gs != [] {
      var tail := gs[1..];
      assert GroupRates(tail) == GroupRates(gs)[1..];
      AddToGroupsShape(tail, l);
      assert GroupRates(gs)[0] == gs[0].rate;
      if gs[0].rate == l.taxRate {
        forall i | 1 <= i < |gs| ensures gs[i].rate != l.taxRate {
          assert GroupRates(gs)[0] == gs[0].rate && GroupRates(gs)[i] == gs[i].rate;
        }
      } else {
        assert l.taxRate in GroupRates(gs) <==> l.taxRate in GroupRates(tail);
      }
    }
  }

  /**
   * What `group_by` on the tax rate computes: one group per distinct rate, in
   * first-seen order, and each group holds exactly the lines of its rate.
   */
  lemma {:induction false} GroupByRateSpec(ls: seq<Line>)
    ensures GroupRates(GroupByRate(ls)) == FirstSeen(Rates(ls))
    ensures forall i :: 0 <= i < |GroupByRate(ls)| ==> GroupByRate(ls)[i].lines == WithRate(ls, GroupByRate(ls)[i].rate)
  {
    if ls != [] {
      var init, l := ls[..|ls| - 1], ls[|ls| - 1];
      var gs := GroupByRate(init);
      GroupByRateSpec(init);
      assert Rates(ls) == Rates(init) + [l.taxRate];
      assert Rates(ls)[..|ls| - 1] == Rates(init);
      AddToGroupsShape(gs, l);
      var r := GroupByRate(ls);
      if l.taxRate in GroupRates(gs) {
        assert GroupRates(r) == GroupRates(gs);
      } else {
        assert GroupRates(r) == GroupRates(gs) + [l.taxRate];
        assert l.taxRate !in Rates(init);
        WithAbsentRate(init, l.taxRate);
        forall i | 0 <= i < |gs| ensures gs[i].rate != l.taxRate {
          assert GroupRates(gs)[i] == gs[i].rate;
        }
      }
    }
  }

  /** Group i holds the i-th first-seen rate and exactly the lines with that rate. */
  lemma GroupAt(ls: seq<Line>, i: nat)
    requires i < |FirstSeen(Rates(ls))|
    ensures |GroupByRate(ls)| == |FirstSeen(Rates(ls))|
    ensures GroupByRate(ls)[i] == TaxGroup(FirstSeen(Rates(ls))[i], WithRate(ls, FirstSeen(Rates(ls))[i]))
  {
    var gs := GroupByRate(ls);
    GroupByRateSpec(ls);
    assert |GroupRates(gs)| == |gs|;
    assert GroupRates(gs)[i] == gs[i].rate;
  }

  /** The group whose rate is x, if any, is the one at the first-seen position of x; its sums are those of the lines with rate x. */
  lemma GroupSums(ls: seq<Line>, i: nat)
    requires i < |GroupByRate(ls)|
    ensures GroupByRate(ls)[i].rate in Rates(ls)
    ensures SumTax(GroupByRate(ls)[i].lines) == SumTax(WithRate(ls, GroupByRate(ls)[i].rate))
    ensures SumExtension(GroupByRate(ls)[i].lines) == SumExtension(WithRate(ls, GroupByRate(ls)[i].rate))
  {
    GroupByRateSpec(ls);
    assert GroupRates(GroupByRate(ls))[i] == GroupByRate(ls)[i].rate;
  }
}
