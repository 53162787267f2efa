/**
 * The remesa (consignment) settlement sheet: the invoices a remesa lists,
 * grouped by destination office, with table and per-group totals, the split
 * into prepaid (flete pagado) and collect-on-delivery (flete destino)
 * invoices, and the 75%/25% liquidation owed to the associate.
 */
module Remesas {
  import opened Outcomes
  import opened Numbers
  import opened Text
  import opened Domain
  import opened Sorting
  import opened Financials

  const UNKNOWN_BRANCH := "SUCURSAL DESCONOCIDA"
  const ASSOCIATE_SHARE: real := 0.75
  const DESTINATION_RETENTION: real := 0.25

  // ---------------------------------------------------------------------------
  // Selection and offices

  function InRemesa(remesa: Remesa): Invoice -> bool
  {
    (inv: Invoice) => inv.id in remesa.invoiceIds
  }

  /** The remesa's invoices, in the order of the invoice list. */
  function RemesaInvoices(invoices: seq<Invoice>, remesa: Remesa): seq<Invoice>
  {
    Filter(invoices, InRemesa(remesa))
  }

  /** An invoice is on the sheet exactly when the remesa lists its id; listing an id twice does not repeat it. */
  lemma RemesaInvoicesSpec(invoices: seq<Invoice>, remesa: Remesa)
    ensures forall inv :: inv in RemesaInvoices(invoices, remesa) <==> inv in invoices && inv.id in remesa.invoiceIds
    ensures |RemesaInvoices(invoices, remesa)| <= |invoices|
  {
    forall inv ensures inv in RemesaInvoices(invoices, remesa) <==> inv in invoices && inv.id in remesa.invoiceIds {
      FilterMembership(invoices, InRemesa(remesa), inv);
    }
  }

  /** `offices.find(o => o.id === id)`. */
  function FindOffice(offices: seq<Office>, id: string): (r: Option<Office>)
    ensures r.Some? ==> r.value in offices && r.value.id == id
    ensures r.None? <==> forall k :: 0 <= k < |offices| ==> offices[k].id != id
  {
    match FindFirst(offices, (o: Office) => o.id == id)
    case None => None
    case Some(k) => Some(offices[k])
  }

  /** `getOfficeName`: the office's name, or the raw id when the office is unknown or unnamed. */
  function OfficeName(offices: seq<Office>, id: string): (r: string)
    ensures FindOffice(offices, id).None? ==> r == id
    ensures FindOffice(offices, id).Some? ==> r == (if FindOffice(offices, id).value.name != "" then FindOffice(offices, id).value.name else id)
  {
    match FindOffice(offices, id)
    case None => id
    case Some(o) => if o.name != "" then o.name else id
  }

  /** The origin-branch caption: `CODE-NAME`, the name cut at " - " and upper-cased. */
  function SucursalText(offices: seq<Office>, remesaInvoices: seq<Invoice>): (r: string)
    ensures remesaInvoices == [] ==> r == UNKNOWN_BRANCH
    ensures remesaInvoices != [] && FindOffice(offices, remesaInvoices[0].guide.originOfficeId).None? ==> r == UNKNOWN_BRANCH
    ensures remesaInvoices != [] && FindOffice(offices, remesaInvoices[0].guide.originOfficeId).Some? ==>
      var o := FindOffice(offices, remesaInvoices[0].guide.originOfficeId).value;
      && StartsWith(r, o.code + "-") && |r| == |o.code| + 1 + |BeforeFirst(o.name, " - ")|
      && r[|o.code| + 1..] == Upper(BeforeFirst(o.name, " - "))
  {
    if remesaInvoices == [] then UNKNOWN_BRANCH
    else
      match FindOffice(offices, remesaInvoices[0].guide.originOfficeId)
      case None => UNKNOWN_BRANCH
      case Some(o) =>
        var r := o.code + "-" + Upper(BeforeFirst(o.name, " - "));
        assert r[..|o.code + "-"|] == o.code + "-";
        assert r[|o.code| + 1..] == Upper(BeforeFirst(o.name, " - "));
        r
  }

  // ---------------------------------------------------------------------------
  // Grouping by destination

  /** The invoices of one destination, under the name the sheet prints. */
  datatype Group<T> = Group(officeName: string, members: seq<T>)

  function DestinationName(offices: seq<Office>, inv: Invoice): string
  {
    OfficeName(offices, inv.guide.destinationOfficeId)
  }

  /** The grouping key of the sheet: the destination office's name. */
  function Destination(offices: seq<Office>): Invoice -> string
  {
    (inv: Invoice) => DestinationName(offices, inv)
  }

  function Keys<T>(s: seq<T>, key: T -> string): (r: seq<string>)
    ensures |r| == |s|
    ensures forall i :: 0 <= i < |s| ==> r[i] == key(s[i])
  {
    seq(|s|, i requires 0 <= i < |s| => key(s[i]))
  }

  function HasKey<T>(key: T -> string, name: string): T -> bool
  {
    (x: T) => key(x) == name
  }

  function GroupNames<T>(groups: seq<Group<T>>): (r: seq<string>)
    ensures |r| == |groups|
    ensures forall j :: 0 <= j < |groups| ==> r[j] == groups[j].officeName
  {
    seq(|groups|, j requires 0 <= j < |groups| => groups[j].officeName)
  }

  /** `acc[officeName]` on the accumulator, as an index into the groups. */
  function FindGroup<T>(groups: seq<Group<T>>, name: string): Option<nat>
  {
    FindFirst(groups, (g: Group<T>) => g.officeName == name)
  }

  /** One step of the grouping `reduce`: append to the named group, opening it if new. */
  function AddToGroup<T>(groups: seq<Group<T>>, name: string, x: T): seq<Group<T>>
  {
    match FindGroup(groups, name)
    case Some(k) => groups[k := Group(name, groups[k].members + [x])]
    case None => groups + [Group(name, [x])]
  }

  /** The grouping `reduce` (`groupedInvoices` with `key` the destination name). */
  function Groups<T>(s: seq<T>, key: T -> string): seq<Group<T>>
  {
    if s == [] then []
    else AddToGroup(Groups(s[..|s| - 1], key), key(s[|s| - 1]), s[|s| - 1])
  }

  /**
   * A grouping: one group per key in order of first appearance, each holding
   * exactly the elements with that key, in their original order.
   */
  ghost predicate IsGrouping<T>(s: seq<T>, key: T -> string, groups: seq<Group<T>>)
  {
    && GroupNames(groups) == Dedupe(Keys(s, key))
    && forall j :: 0 <= j < |groups| ==> groups[j].members == Filter(s, HasKey(key, groups[j].officeName))
  }

  lemma FilterSnoc<T>(s: seq<T>, x: T, p: T -> bool)
    ensures p(x) ==> Filter(s + [x], p) == Filter(s, p) + [x]
    ensures !p(x) ==> Filter(s + [x], p) == Filter(s, p)
  {
    assert (s + [x])[..|s|] == s;
    assert Filter(s, p) + [] == Filter(s, p);
  }

  lemma DedupeSnoc(s: seq<string>, x: string)
    ensures Dedupe(s + [x]) == if x in Dedupe(s) then Dedupe(s) else Dedupe(s) + [x]
  {
    assert (s + [x])[..|s|] == s;
  }

  lemma GroupStepExisting<T>(front: seq<T>, x: T, key: T -> string, g: seq<Group<T>>, k: nat)
    requires IsGrouping(front, key, g)
    requires k < |g| && g[k].officeName == key(x)
    ensures IsGrouping(front + [x], key, g[k := Group(key(x), g[k].members + [x])])
  {
    var name := key(x);
    var g' := g[k := Group(name, g[k].members + [x])];
    assert Keys(front + [x], key) == Keys(front, key) + [name];
    DedupeSnoc(Keys(front, key), name);
    assert GroupNames(g') == GroupNames(g);
    assert GroupNames(g)[k] == name;
    forall j | 0 <= j < |g'|
      ensures g'[j].members == Filter(front + [x], HasKey(key, g'[j].officeName))
    {
      FilterSnoc(front, x, HasKey(key, g[j].officeName));
      if j != k {
        assert GroupNames(g)[j] != GroupNames(g)[k];
      }
    }
  }

  lemma KeysSnoc<T>(s: seq<T>, x: T, key: T -> string)
    ensures Keys(s + [x], key) == Keys(s, key) + [key(x)]
  {
  }

  /** A key no earlier element has: filtering on it after appending keeps only the new element. */
  lemma NewKeyFilter<T>(front: seq<T>, x: T, key: T -> string)
    requires key(x) !in Keys(front, key)
    ensures Filter(front + [x], HasKey(key, key(x))) == [x]
  {
    forall i | 0 <= i < |front|
      ensures !HasKey(key, key(x))(front[i])
    {
      assert Keys(front, key)[i] == key(front[i]);
    }
    FilterNone(front, HasKey(key, key(x)));
    FilterSnoc(front, x, HasKey(key, key(x)));
  }

  /** Opening a group for a new key keeps the group names the distinct keys in order. */
  lemma GroupNamesNew<T>(front: seq<T>, x: T, key: T -> string, g: seq<Group<T>>)
    requires GroupNames(g) == Dedupe(Keys(front, key))
    requires key(x) !in GroupNames(g)
    ensures key(x) !in Keys(front, key)
    ensures GroupNames(g + [Group(key(x), [x])]) == Dedupe(Keys(front + [x], key))
  {
    KeysSnoc(front, x, key);
    DedupeSnoc(Keys(front, key), key(x));
    assert GroupNames(g + [Group(key(x), [x])]) == GroupNames(g) + [key(x)];
  }

  lemma GroupStepNew<T>(front: seq<T>, x: T, key: T -> string, g: seq<Group<T>>)
    requires IsGrouping(front, key, g)
    requires forall j :: 0 <= j < |g| ==> g[j].officeName != key(x)
    ensures IsGrouping(front + [x], key, g + [Group(key(x), [x])])
  {
    var g' := g + [Group(key(x), [x])];
    assert key(x) !in GroupNames(g);
    GroupNamesNew(front, x, key, g);
    forall j | 0 <= j < |g'|
      ensures g'[j].members == Filter(front + [x], HasKey(key, g'[j].officeName))
    {
      if j < |g| {
        FilterSnoc(front, x, HasKey(key, g[j].officeName));
      } else {
        NewKeyFilter(front, x, key);
      }
    }
  }

  lemma {:induction false} GroupsSpec<T>(s: seq<T>, key: T -> string)
    ensures IsGrouping(s, key, Groups(s, key))
    decreases |s|
  {
    if s != [] {
      var front, x := s[..|s| - 1], s[|s| - 1];
      assert s == front + [x];
      GroupsSpec(front, key);
      var g := Groups(front, key);
      match FindGroup(g, key(x))
      case Some(k) => GroupStepExisting(front, x, key, g, k);
      case None => GroupStepNew(front, x, key, g);
    }
  }

  lemma InSomeGroup<T>(s: seq<T>, key: T -> string, x: T)
    requires x in s
    ensures exists j :: 0 <= j < |Groups(s, key)| && x in Groups(s, key)[j].members
  {
    var groups := Groups(s, key);
    GroupsSpec(s, key);
    var i :| 0 <= i < |s| && s[i] == x;
    assert Keys(s, key)[i] == key(x);
    assert key(x) in GroupNames(groups);
    var j :| 0 <= j < |groups| && GroupNames(groups)[j] == key(x);
    FilterMembership(s, HasKey(key, key(x)), x);
    assert x in groups[j].members;
  }

  lemma InOneGroupOnly<T>(s: seq<T>, key: T -> string, x: T, j: nat, k: nat)
    requires j < |Groups(s, key)| && k < |Groups(s, key)|
    requires x in Groups(s, key)[j].members && x in Groups(s, key)[k].members
    ensures j == k
  {
    var groups := Groups(s, key);
    GroupsSpec(s, key);
    FilterMembership(s, HasKey(key, groups[j].officeName), x);
    FilterMembership(s, HasKey(key, groups[k].officeName), x);
    assert GroupNames(groups)[j] == GroupNames(groups)[k];
  }

  /** Every element lands in exactly one group. */
  lemma EachInOneGroup<T>(s: seq<T>, key: T -> string, x: T)
    requires x in s
    ensures var groups := Groups(s, key);
      && (exists j :: 0 <= j < |groups| && x in groups[j].members)
      && (forall j, k :: 0 <= j < |groups| && 0 <= k < |groups| && x in groups[j].members && x in groups[k].members ==> j == k)
  {
    InSomeGroup(s, key, x);
    forall j, k | 0 <= j < |Groups(s, key)| && 0 <= k < |Groups(s, key)| && x in Groups(s, key)[j].members && x in Groups(s, key)[k].members
      ensures j == k
    {
      InOneGroupOnly(s, key, x, j, k);
    }
  }

  /** The grouping `reduce`, run over the invoices with the accumulator updated in place. */
  method GroupByDestination(invs: seq<Invoice>, offices: seq<Office>) returns (groups: seq<Group<Invoice>>)
    ensures groups == Groups(invs, Destination(offices))
    ensures IsGrouping(invs, Destination(offices), groups)
  {
    groups := [];
    var i := 0;
    while i < |invs|
      invariant 0 <= i <= |invs|
      invariant groups == Groups(invs[..i], Destination(offices))
    {
      var name := DestinationName(offices, invs[i]);
      var found := FindGroup(groups, name);
      if found.Some? {
        var k := found.value;
        groups := groups[k := Group(name, groups[k].members + [invs[i]])];
      } else {
        groups := groups + [Group(name, [invs[i]])];
      }
      assert invs[..i + 1][..i] == invs[..i];
      i := i + 1;
    }
    assert invs[..i] == invs;
    GroupsSpec(invs, Destination(offices));
  }

  // ---------------------------------------------------------------------------
  // Table and group totals

  /** The freight, insurance and grand-total columns. */
  datatype Totals = Totals(flete: real, seguro: real, total: real)

  const ZERO_TOTALS := Totals(0.0, 0.0, 0.0)

  function Plus(a: Totals, b: Totals): Totals
  {
    Totals(a.flete + b.flete, a.seguro + b.seguro, a.total + b.total)
  }

  function InvoiceFinancials(inv: Invoice, costPerKg: Num): Financials
  {
    CalculateFinancialDetails(Some(inv.guide), costPerKg)
  }

  /** What one invoice adds to the table's columns. */
  function Columns(costPerKg: Num): Invoice -> Totals
  {
    (inv: Invoice) =>
      var f := InvoiceFinancials(inv, costPerKg);
      Totals(f.freight, f.insuranceCost, f.total)
  }

  function SumTotals<T>(s: seq<T>, amount: T -> Totals): Totals
  {
    if s == [] then ZERO_TOTALS
    else Plus(SumTotals(s[..|s| - 1], amount), amount(s[|s| - 1]))
  }

  /** Pieces on one guide: the sum of the merchandise quantities. */
  function ItemPieces(items: seq<Merchandise>): Num
  {
    if items == [] then Num(0.0)
    else NumAdd(ItemPieces(items[..|items| - 1]), items[|items| - 1].quantity)
  }

  function GuidePieces(items: Option<seq<Merchandise>>): Num
  {
    match items
    case None => Num(0.0)
    case Some(s) => ItemPieces(s)
  }

  function Pieces(invs: seq<Invoice>): Num
  {
    if invs == [] then Num(0.0)
    else NumAdd(Pieces(invs[..|invs| - 1]), GuidePieces(invs[|invs| - 1].guide.merchandise))
  }

  lemma SumTotalsPrefixStep<T>(s: seq<T>, i: nat, amount: T -> Totals)
    requires i < |s|
    ensures SumTotals(s[..i + 1], amount) == Plus(SumTotals(s[..i], amount), amount(s[i]))
  {
    assert s[..i + 1][..i] == s[..i];
  }

  lemma PiecesPrefixStep(invs: seq<Invoice>, i: nat)
    requires i < |invs|
    ensures Pieces(invs[..i + 1]) == NumAdd(Pieces(invs[..i]), GuidePieces(invs[i].guide.merchandise))
  {
    assert invs[..i + 1][..i] == invs[..i];
  }

  /** The totals `reduce` (`tableTotals`, and each group's subtotal), with the accumulator updated in place. */
  method Tally(invs: seq<Invoice>, costPerKg: Num) returns (t: Totals, piezas: Num)
    ensures t == SumTotals(invs, Columns(costPerKg))
    ensures piezas == Pieces(invs)
  {
    t, piezas := ZERO_TOTALS, Num(0.0);
    var i := 0;
    while i < |invs|
      invariant 0 <= i <= |invs|
      invariant t == SumTotals(invs[..i], Columns(costPerKg))
      invariant piezas == Pieces(invs[..i])
    {
      t := AddRow(invs, i, Columns(costPerKg), t);
      PiecesPrefixStep(invs, i);
      piezas := NumAdd(piezas, GuidePieces(invs[i].guide.merchandise));
      i := i + 1;
    }
    assert invs[..i] == invs;
  }

  /** One turn of the `reduce`: the row's freight, insurance and total join the accumulator field by field. */
  method AddRow<T>(s: seq<T>, i: nat, row: T -> Totals, t: Totals) returns (t': Totals)
    requires i < |s|
    requires t == SumTotals(s[..i], row)
    ensures t' == SumTotals(s[..i + 1], row)
  {
    var r := row(s[i]);
    SumTotalsPrefixStep(s, i, row);
    t' := Totals(t.flete + r.flete, t.seguro + r.seguro, t.total + r.total);
  }

  function GroupsTotal<T>(groups: seq<Group<T>>, amount: T -> Totals): Totals
  {
    if groups == [] then ZERO_TOTALS
    else Plus(GroupsTotal(groups[..|groups| - 1], amount), SumTotals(groups[|groups| - 1].members, amount))
  }

  lemma SumTotalsSnoc<T>(s: seq<T>, x: T, amount: T -> Totals)
    ensures SumTotals(s + [x], amount) == Plus(SumTotals(s, amount), amount(x))
  {
    assert (s + [x])[..|s|] == s;
  }

  lemma PlusRotate(a: Totals, b: Totals, c: Totals)
    ensures Plus(Plus(a, b), c) == Plus(Plus(a, c), b)
  {
  }

  /** Replacing one group changes the sum of the subtotals by the difference of that group's subtotal. */
  lemma {:induction false} GroupsTotalUpdate<T>(groups: seq<Group<T>>, k: nat, g: Group<T>, amount: T -> Totals)
    requires k < |groups|
    ensures Plus(GroupsTotal(groups[k := g], amount), SumTotals(groups[k].members, amount))
         == Plus(GroupsTotal(groups, amount), SumTotals(g.members, amount))
    decreases |groups|
  {
    var n := |groups| - 1;
    var updated := groups[k := g];
    var last := SumTotals(groups[n].members, amount);
    if k < n {
      var front, front' := groups[..n], groups[..n][k := g];
      assert updated[..n] == front';
      assert GroupsTotal(updated, amount) == Plus(GroupsTotal(front', amount), last);
      GroupsTotalUpdate(front, k, g, amount);
      PlusRotate(GroupsTotal(front', amount), last, SumTotals(groups[k].members, amount));
      PlusRotate(GroupsTotal(front, amount), last, SumTotals(g.members, amount));
    } else {
      assert updated[..n] == groups[..n];
      assert GroupsTotal(updated, amount) == Plus(GroupsTotal(groups[..n], amount), SumTotals(g.members, amount));
    }
  }

  /** Adding one element to the grouping adds its amount to the sum of the subtotals. */
  lemma GroupsTotalStep<T>(g: seq<Group<T>>, name: string, x: T, amount: T -> Totals)
    ensures GroupsTotal(AddToGroup(g, name, x), amount) == Plus(GroupsTotal(g, amount), amount(x))
  {
    match FindGroup(g, name)
    case Some(k) =>
      SumTotalsSnoc(g[k].members, x, amount);
      GroupsTotalUpdate(g, k, Group(name, g[k].members + [x]), amount);
    case None =>
      var g' := g + [Group(name, [x])];
      assert g'[..|g|] == g;
      SumTotalsSnoc([], x, amount);
      assert [] + [x] == [x];
  }

  /** The per-group subtotals add up to the table totals. */
  lemma {:induction false} GroupSubtotalsAddUp<T>(s: seq<T>, key: T -> string, amount: T -> Totals)
    ensures GroupsTotal(Groups(s, key), amount) == SumTotals(s, amount)
    decreases |s|
  {
    if s != [] {
      var front, x := s[..|s| - 1], s[|s| - 1];
      GroupSubtotalsAddUp(front, key, amount);
      GroupsTotalStep(Groups(front, key), key(x), x, amount);
    }
  }

  // ---------------------------------------------------------------------------
  // Settlement

  /** The liquidation columns: freight, insurance, IPOSTEL and handling. */
  datatype Summary = Summary(flete: real, seguro: real, ipostel: real, manejo: real)

  const ZERO_SUMMARY := Summary(0.0, 0.0, 0.0, 0.0)

  function Add(a: Summary, b: Summary): Summary
  {
    Summary(a.flete + b.flete, a.seguro + b.seguro, a.ipostel + b.ipostel, a.manejo + b.manejo)
  }

  /** What one invoice adds to a settlement column. */
  function Charges(costPerKg: Num): Invoice -> Summary
  {
    (inv: Invoice) =>
      var f := InvoiceFinancials(inv, costPerKg);
      Summary(f.freight, f.insuranceCost, f.ipostel, f.handling)
  }

  function Summarize<T>(s: seq<T>, amount: T -> Summary): Summary
  {
    if s == [] then ZERO_SUMMARY
    else Add(Summarize(s[..|s| - 1], amount), amount(s[|s| - 1]))
  }

  lemma SummarizeSnoc<T>(s: seq<T>, x: T, amount: T -> Summary)
    ensures Summarize(s + [x], amount) == Add(Summarize(s, amount), amount(x))
  {
    assert (s + [x])[..|s|] == s;
  }

  const IS_PAGADO := (inv: Invoice) => inv.guide.paymentType == FletePagado
  const IS_DESTINO := (inv: Invoice) => inv.guide.paymentType != FletePagado

  /** One step of the split: the new element's charges join exactly one of the two columns. */
  lemma SummarySplitStep(a: Summary, b: Summary, a': Summary, b': Summary, whole: Summary, whole': Summary,
                         r: Summary, left: bool)
    requires Add(a, b) == whole && whole' == Add(whole, r)
    requires a' == if left then Add(a, r) else a
    requires b' == if left then b else Add(b, r)
    ensures Add(a', b') == whole'
  {
  }

  lemma SummarizeFilterLast<T>(s: seq<T>, p: T -> bool, amount: T -> Summary)
    requires s != []
    ensures Summarize(Filter(s, p), amount)
         == if p(s[|s| - 1]) then Add(Summarize(Filter(s[..|s| - 1], p), amount), amount(s[|s| - 1]))
            else Summarize(Filter(s[..|s| - 1], p), amount)
  {
    var f := Filter(s[..|s| - 1], p);
    if p(s[|s| - 1]) {
      assert Filter(s, p) == f + [s[|s| - 1]];
      SummarizeSnoc(f, s[|s| - 1], amount);
    } else {
      assert Filter(s, p) == f;
    }
  }

  /** Two complementary filters split every settlement column. */
  lemma {:induction false} SummarizeSplit<T>(s: seq<T>, p: T -> bool, q: T -> bool, amount: T -> Summary)
    requires forall i :: 0 <= i < |s| ==> (p(s[i]) <==> !q(s[i]))
    ensures Add(Summarize(Filter(s, p), amount), Summarize(Filter(s, q), amount)) == Summarize(s, amount)
    decreases |s|
  {
    if s != [] {
      var front, x := s[..|s| - 1], s[|s| - 1];
      forall i | 0 <= i < |front|
        ensures p(front[i]) <==> !q(front[i])
      {
        assert front[i] == s[i];
      }
      SummarizeSplit(front, p, q, amount);
      SummarizeFilterLast(s, p, amount);
      SummarizeFilterLast(s, q, amount);
      assert q(x) <==> !p(x);
      SummarySplitStep(Summarize(Filter(front, p), amount), Summarize(Filter(front, q), amount),
                       Summarize(Filter(s, p), amount), Summarize(Filter(s, q), amount),
                       Summarize(front, amount), Summarize(s, amount), amount(x), p(x));
    }
  }

  /** The settlement's freight column and the table's are the same sum. */
  lemma ChargesFleteIsTableFlete(invs: seq<Invoice>, costPerKg: Num)
    ensures Summarize(invs, Charges(costPerKg)).flete == SumTotals(invs, Columns(costPerKg)).flete
  {
    forall inv ensures Charges(costPerKg)(inv).flete == Columns(costPerKg)(inv).flete { }
    SameFleteSums(invs, Charges(costPerKg), Columns(costPerKg));
  }

  /** Two columns that agree on every element's freight agree on the freight sum. */
  lemma {:induction false} SameFleteSums<T>(s: seq<T>, a: T -> Summary, b: T -> Totals)
    requires forall x :: a(x).flete == b(x).flete
    ensures Summarize(s, a).flete == SumTotals(s, b).flete
    decreases |s|
  {
    if s != [] {
      SameFleteSums(s[..|s| - 1], a, b);
    }
  }

  lemma SummarizeFilterSnoc<T>(s: seq<T>, x: T, p: T -> bool, amount: T -> Summary)
    ensures Summarize(Filter(s + [x], p), amount)
         == if p(x) then Add(Summarize(Filter(s, p), amount), amount(x)) else Summarize(Filter(s, p), amount)
  {
    FilterSnoc(s, x, p);
    SummarizeSnoc(Filter(s, p), x, amount);
  }

  lemma SummarizePrefixStep<T>(s: seq<T>, i: nat, p: T -> bool, amount: T -> Summary)
    requires i < |s|
    ensures Summarize(Filter(s[..i + 1], p), amount)
         == if p(s[i]) then Add(Summarize(Filter(s[..i], p), amount), amount(s[i])) else Summarize(Filter(s[..i], p), amount)
  {
    assert s[..i + 1] == s[..i] + [s[i]];
    SummarizeFilterSnoc(s[..i], s[i], p, amount);
  }

  /** The pagado/destino `reduce`: each invoice adds to one of two accumulators. */
  method SplitByPaymentType(invs: seq<Invoice>, costPerKg: Num) returns (pagado: Summary, destino: Summary)
    ensures pagado == Summarize(Filter(invs, IS_PAGADO), Charges(costPerKg))
    ensures destino == Summarize(Filter(invs, IS_DESTINO), Charges(costPerKg))
    ensures pagado.flete + destino.flete == SumTotals(invs, Columns(costPerKg)).flete
  {
    var charge := Charges(costPerKg);
    pagado, destino := ZERO_SUMMARY, ZERO_SUMMARY;
    var i := 0;
    while i < |invs|
      invariant 0 <= i <= |invs|
      invariant pagado == Summarize(Filter(invs[..i], IS_PAGADO), charge)
      invariant destino == Summarize(Filter(invs[..i], IS_DESTINO), charge)
    {
      var inv := invs[i];
      SummarizePrefixStep(invs, i, IS_PAGADO, charge);
      SummarizePrefixStep(invs, i, IS_DESTINO, charge);
      if inv.guide.paymentType == FletePagado {
        pagado := Add(pagado, charge(inv));
      } else {
        destino := Add(destino, charge(inv));
      }
      i := i + 1;
    }
    assert invs[..i] == invs;
    SummarizeSplit(invs, IS_PAGADO, IS_DESTINO, charge);
    ChargesFleteIsTableFlete(invs, costPerKg);
  }

  datatype Liquidation = Liquidation(
    totalFleteGeneral: real, fletePagadoAsociado: real, subTotalPagado: real,
    retencionFleteDestino: real, totalARetener: real, totalALiquidar: real)

  /**
   * The liquidation: the associate keeps 75% of the prepaid freight less the
   * prepaid charges, and gives back 25% of the collect freight plus its
   * charges. Equivalently, the amount to settle is 75% of all freight, less
   * all of the collect freight and every charge.
   */
  function Liquidate(pagado: Summary, destino: Summary): (l: Liquidation)
    ensures l.totalFleteGeneral == pagado.flete + destino.flete
    ensures l.totalALiquidar == l.subTotalPagado - l.totalARetener
    ensures l.totalALiquidar == ASSOCIATE_SHARE * l.totalFleteGeneral - destino.flete
      - (pagado.seguro + destino.seguro) - (pagado.ipostel + destino.ipostel) - (pagado.manejo + destino.manejo)
  {
    var fletePagadoAsociado := pagado.flete * ASSOCIATE_SHARE;
    var subTotalPagado := fletePagadoAsociado - pagado.seguro - pagado.ipostel - pagado.manejo;
    var retencionFleteDestino := destino.flete * DESTINATION_RETENTION;
    var totalARetener := retencionFleteDestino + destino.seguro + destino.ipostel + destino.manejo;
    Liquidation(pagado.flete + destino.flete, fletePagadoAsociado, subTotalPagado,
                retencionFleteDestino, totalARetener, subTotalPagado - totalARetener)
  }

  /** With no collect-on-delivery invoice nothing is retained and the whole prepaid subtotal is settled. */
  lemma AllPrepaidRetainsNothing(invs: seq<Invoice>, costPerKg: Num)
    requires forall i :: 0 <= i < |invs| ==> invs[i].guide.paymentType == FletePagado
    ensures var l := Liquidate(Summarize(Filter(invs, IS_PAGADO), Charges(costPerKg)), Summarize(Filter(invs, IS_DESTINO), Charges(costPerKg)));
      l.totalARetener == 0.0 && l.totalALiquidar == l.subTotalPagado
  {
    FilterNone(invs, IS_DESTINO);
  }

  // ---------------------------------------------------------------------------
  // The whole sheet

  datatype Sheet = Sheet(
    invoices: seq<Invoice>, sucursal: string, groups: seq<Group<Invoice>>, groupTotals: seq<Totals>,
    tableTotals: Totals, piezas: Num, pagado: Summary, destino: Summary, liquidation: Liquidation)

  /** Each destination group's subtotal row, group by group. */
  method Subtotals(groups: seq<Group<Invoice>>, costPerKg: Num) returns (groupTotals: seq<Totals>)
    ensures |groupTotals| == |groups|
    ensures forall j :: 0 <= j < |groups| ==> groupTotals[j] == SumTotals(groups[j].members, Columns(costPerKg))
  {
    groupTotals := [];
    var j := 0;
    while j < |groups|
      invariant 0 <= j <= |groups|
      invariant |groupTotals| == j
      invariant forall m :: 0 <= m < j ==> groupTotals[m] == SumTotals(groups[m].members, Columns(costPerKg))
    {
      var t, _ := Tally(groups[j].members, costPerKg);
      groupTotals := groupTotals + [t];
      j := j + 1;
    }
  }

  /** Everything the remesa document shows apart from its layout. */
  method BuildSheet(remesa: Remesa, invoices: seq<Invoice>, offices: seq<Office>, costPerKg: Num) returns (sheet: Sheet)
    ensures sheet.invoices == RemesaInvoices(invoices, remesa)
    ensures sheet.sucursal == SucursalText(offices, sheet.invoices)
    ensures IsGrouping(sheet.invoices, Destination(offices), sheet.groups)
    ensures |sheet.groupTotals| == |sheet.groups|
    ensures forall j :: 0 <= j < |sheet.groups| ==> sheet.groupTotals[j] == SumTotals(sheet.groups[j].members, Columns(costPerKg))
    ensures GroupsTotal(sheet.groups, Columns(costPerKg)) == sheet.tableTotals == SumTotals(sheet.invoices, Columns(costPerKg))
    ensures sheet.piezas == Pieces(sheet.invoices)
    ensures sheet.pagado.flete + sheet.destino.flete == sheet.tableTotals.flete
    ensures sheet.liquidation == Liquidate(sheet.pagado, sheet.destino)
  {
    var selected := RemesaInvoices(invoices, remesa);
    var groups := GroupByDestination(selected, offices);
    GroupSubtotalsAddUp(selected, Destination(offices), Columns(costPerKg));
    var groupTotals := Subtotals(groups, costPerKg);
    var tableTotals, piezas := Tally(selected, costPerKg);
    var pagado, destino := SplitByPaymentType(selected, costPerKg);
    sheet := Sheet(selected, SucursalText(offices, selected), groups, groupTotals,
                   tableTotals, piezas, pagado, destino, Liquidate(pagado, destino));
  }
}
