/**
 * The invoice editor page (src/pages/Index.jsx): the random invoice number,
 * the line-item list, the derived totals and the draft kept in the browser's
 * local storage under the key "formData".
 *
 * JavaScript numbers are modelled as `real` (no IEEE-754 rounding); every
 * result of `Math.random()` is a parameter, a real number in [0, 1).
 */
module InvoiceEditor {
  import opened Wrappers

  // ---------------------------------------------------------------------------
  // Invoice number (Index.jsx:15-31)
  // ---------------------------------------------------------------------------

  const Alphabet: string := "ABCDEFGHIJKLMNOPQRSTUVWXYZ"
  const Numbers: string := "0123456789"

  /** A result of `Math.random()`. */
  predicate IsDraw(x: real)
  {
    0.0 <= x < 1.0
  }

  /** `Math.floor(draw * n)`: an index below `n`. */
  function Scale(draw: real, n: nat): (i: nat)
    requires IsDraw(draw) && 0 < n
    ensures i < n
    ensures i as real <= draw * n as real < i as real + 1.0
  {
    assert draw * n as real < n as real;
    (draw * n as real).Floor
  }

  function Min(a: int, b: int): int
  {
    if a < b then a else b
  }

  /** The draws `generateRandomInvoiceNumber` consumes: one for the length, one for the
      number of letters, then one per character (at most eight characters). */
  datatype InvoiceDraws = InvoiceDraws(lengthDraw: real, letterCountDraw: real, charDraws: seq<real>)

  predicate ValidDraws(d: InvoiceDraws)
  {
    && IsDraw(d.lengthDraw)
    && IsDraw(d.letterCountDraw)
    && |d.charDraws| >= 8
    && forall i :: 0 <= i < |d.charDraws| ==> IsDraw(d.charDraws[i])
  }

  /** `length` (line 16). */
  function NumberLength(d: InvoiceDraws): nat
    requires ValidDraws(d)
  {
    Scale(d.lengthDraw, 6) + 3
  }

  /** `alphabetCount` (line 17). */
  function LetterCount(d: InvoiceDraws): nat
    requires ValidDraws(d)
  {
    Min(Scale(d.letterCountDraw, 4), NumberLength(d))
  }

  /** The character at position `i`: a letter in the first `alphabetCount` places, a digit after. */
  function NumberChar(d: InvoiceDraws, i: nat): char
    requires ValidDraws(d) && i < |d.charDraws|
  {
    if i < LetterCount(d) then Alphabet[Scale(d.charDraws[i], 26)]
    else Numbers[Scale(d.charDraws[i], 10)]
  }

  /** The string the two loops of lines 22-28 build. */
  function InvoiceNumber(d: InvoiceDraws): string
    requires ValidDraws(d)
  {
    seq(NumberLength(d), i requires 0 <= i < NumberLength(d) => NumberChar(d, i))
  }

  predicate IsUpper(c: char)
  {
    'A' <= c <= 'Z'
  }

  predicate IsDigit(c: char)
  {
    '0' <= c <= '9'
  }

  /** The number of upper-case letters at the start of `s`. */
  function LeadingLetters(s: string): (n: nat)
    ensures n <= |s|
    ensures forall i :: 0 <= i < n ==> IsUpper(s[i])
    ensures n < |s| ==> !IsUpper(s[n])
  {
    if s != [] && IsUpper(s[0]) then 1 + LeadingLetters(s[1..]) else 0
  }

  /** The shape of an invoice number: 3 to 8 characters, at most three upper-case letters, then digits only. */
  predicate IsInvoiceNumber(s: string)
  {
    && 3 <= |s| <= 8
    && LeadingLetters(s) <= 3
    && forall i :: LeadingLetters(s) <= i < |s| ==> IsDigit(s[i])
  }

  lemma AlphabetAt(i: nat)
    requires i < 26
    ensures Alphabet[i] == (i + 'A' as int) as char
  {
  }

  lemma NumbersAt(i: nat)
    requires i < 10
    ensures Numbers[i] == (i + '0' as int) as char
  {
  }

  /** A prefix of `k` letters followed by a non-letter (or the end) is exactly the leading-letter run. */
  lemma {:induction false} LeadingLettersIs(s: string, k: nat)
    requires k <= |s|
    requires forall i :: 0 <= i < k ==> IsUpper(s[i])
    requires k < |s| ==> !IsUpper(s[k])
    ensures LeadingLetters(s) == k
  {
    if k > 0 {
      LeadingLettersIs(s[1..], k - 1);
    }
  }

  /** Every generated number has length `length` in 3..8, `alphabetCount` letters, then digits. */
  lemma InvoiceNumberShape(d: InvoiceDraws)
    requires ValidDraws(d)
    ensures |InvoiceNumber(d)| == NumberLength(d) && 3 <= NumberLength(d) <= 8
    ensures LeadingLetters(InvoiceNumber(d)) == LetterCount(d) <= 3
    ensures forall i :: 0 <= i < LetterCount(d) ==> IsUpper(InvoiceNumber(d)[i])
    ensures forall i :: LetterCount(d) <= i < NumberLength(d) ==> IsDigit(InvoiceNumber(d)[i])
    ensures IsInvoiceNumber(InvoiceNumber(d))
  {
    var s := InvoiceNumber(d);
    forall i | 0 <= i < LetterCount(d)
      ensures IsUpper(s[i])
    {
      AlphabetAt(Scale(d.charDraws[i], 26));
    }
    forall i | LetterCount(d) <= i < NumberLength(d)
      ensures IsDigit(s[i])
    {
      NumbersAt(Scale(d.charDraws[i], 10));
    }
    LeadingLettersIs(s, LetterCount(d));
  }

  /** The draws that make the generator produce `s`. */
  function DrawsFor(s: string): InvoiceDraws
    requires IsInvoiceNumber(s)
  {
    var k := LeadingLetters(s);
    InvoiceDraws(
      (|s| - 3) as real / 6.0,
      k as real / 4.0,
      seq(8, i requires 0 <= i < 8 =>
        if i >= |s| then 0.0
        else if i < k then (s[i] as int - 'A' as int) as real / 26.0
        else (s[i] as int - '0' as int) as real / 10.0))
  }

  /** Conversely, every string of the invoice-number shape is produced by some draws. */
  lemma EveryInvoiceNumberIsGenerated(s: string)
    requires IsInvoiceNumber(s)
    ensures ValidDraws(DrawsFor(s)) && InvoiceNumber(DrawsFor(s)) == s
  {
    var d := DrawsFor(s);
    var k := LeadingLetters(s);
    assert ValidDraws(d);
    assert NumberLength(d) == |s|;
    assert LetterCount(d) == k;
    forall i | 0 <= i < |s|
      ensures NumberChar(d, i) == s[i]
    {
      if i < k {
        var j := s[i] as int - 'A' as int;
        assert Scale(d.charDraws[i], 26) == j;
        AlphabetAt(j);
      } else {
        var j := s[i] as int - '0' as int;
        assert Scale(d.charDraws[i], 10) == j;
        NumbersAt(j);
      }
    }
  }

  /** `generateRandomInvoiceNumber` (lines 15-31), with its loops. */
  method GenerateRandomInvoiceNumber(d: InvoiceDraws) returns (result: string)
    requires ValidDraws(d)
    ensures result == InvoiceNumber(d)
    ensures IsInvoiceNumber(result)
  {
    var length := Scale(d.lengthDraw, 6) + 3;
    var alphabetCount := Min(Scale(d.letterCountDraw, 4), length);
    result := "";
    for i := 0 to alphabetCount
      invariant |result| == i
      invariant forall j :: 0 <= j < i ==> result[j] == NumberChar(d, j)
    {
      result := result + [Alphabet[Scale(d.charDraws[i], 26)]];
    }
    for i := alphabetCount to length
      invariant |result| == i
      invariant forall j :: 0 <= j < i ==> result[j] == NumberChar(d, j)
    {
      result := result + [Numbers[Scale(d.charDraws[i], 10)]];
    }
    InvoiceNumberShape(d);
  }

  // ---------------------------------------------------------------------------
  // Line items (Index.jsx:145-165)
  // ---------------------------------------------------------------------------

  datatype LineItem = LineItem(name: string, description: string, quantity: real, amount: real, total: real)

  /** The item `addItem` appends (line 158) and `clearForm` starts from (line 305). */
  const EmptyItem := LineItem("", "", 0.0, 0.0, 0.0)

  /** A `(field, value)` pair passed to `handleItemChange`. */
  datatype ItemEdit =
    | SetName(name: string)
    | SetDescription(description: string)
    | SetQuantity(quantity: real)
    | SetAmount(amount: real)

  /** The item after one field is set (lines 147-150); setting the quantity or the amount also recomputes `total` as their product. */
  function EditedItem(item: LineItem, edit: ItemEdit): (r: LineItem)
    ensures r.name == (if edit.SetName? then edit.name else item.name)
    ensures r.description == (if edit.SetDescription? then edit.description else item.description)
    ensures r.quantity == (if edit.SetQuantity? then edit.quantity else item.quantity)
    ensures r.amount == (if edit.SetAmount? then edit.amount else item.amount)
    ensures r.total == (if edit.SetQuantity? || edit.SetAmount? then r.quantity * r.amount else item.total)
  {
    match edit
    case SetName(n) => item.(name := n)
    case SetDescription(s) => item.(description := s)
    case SetQuantity(q) => item.(quantity := q, total := q * item.amount)
    case SetAmount(a) => item.(amount := a, total := item.quantity * a)
  }

  /** The list without the item at position `index` (line 163), walking the list with the index shifted by one per step. */
  function Filtered(items: seq<LineItem>, index: int): seq<LineItem>
  {
    if items == [] then []
    else (if index == 0 then [] else [items[0]]) + Filtered(items[1..], index - 1)
  }

  /** `removeItem` deletes exactly position `index` and keeps the order of the rest; an index out of range changes nothing. */
  lemma {:induction false} FilteredRemovesIndex(items: seq<LineItem>, index: int)
    ensures 0 <= index < |items| ==> Filtered(items, index) == items[..index] + items[index + 1..]
    ensures !(0 <= index < |items|) ==> Filtered(items, index) == items
  {
    if items != [] {
      FilteredRemovesIndex(items[1..], index - 1);
      if 0 < index < |items| {
        assert items[1..][..index - 1] == items[1..index];
        assert [items[0]] + items[1..index] == items[..index];
        assert items[1..][index..] == items[index + 1..];
      } else if index != 0 {
        assert [items[0]] + items[1..] == items;
      }
    }
  }

  // ---------------------------------------------------------------------------
  // Totals (Index.jsx:167-199)
  // ---------------------------------------------------------------------------

  /** One item's contribution to the sub-total: `quantity * amount`, never the stored `total`. */
  function LineValue(item: LineItem): real
  {
    item.quantity * item.amount
  }

  /** The sum of quantity times amount over the items (line 168), folded from the left starting at zero. */
  function SubTotal(items: seq<LineItem>): real
  {
    if items == [] then 0.0
    else SubTotal(items[..|items| - 1]) + LineValue(items[|items| - 1])
  }

  /** The tax: the sub-total times the percentage, over one hundred (line 174). */
  function TaxAmount(subTotal: real, taxPercentage: real): real
  {
    subTotal * taxPercentage / 100.0
  }

  /** The grand total: sub-total plus tax (line 180); `parseFloat` of a number is that number. */
  function GrandTotal(subTotal: real, taxAmount: real): real
  {
    subTotal + taxAmount
  }

  /** The tax rate taken from the input (line 196): the parsed number, or zero when it is falsy; `None` stands for a value that parses to NaN. */
  function TaxRate(parsed: Option<real>): (rate: real)
    ensures rate == 0.0 <==> parsed.None? || parsed.value == 0.0
    ensures parsed.Some? ==> rate == parsed.value
  {
    match parsed
    case None => 0.0
    case Some(x) => if x == 0.0 then 0.0 else x
  }

  lemma {:induction false} SubTotalConcat(a: seq<LineItem>, b: seq<LineItem>)
    ensures SubTotal(a + b) == SubTotal(a) + SubTotal(b)
  {
    if b == [] {
      assert a + b == a;
    } else {
      var b' := b[..|b| - 1];
      assert (a + b)[..|a + b| - 1] == a + b';
      assert (a + b)[|a + b| - 1] == b[|b| - 1];
      SubTotalConcat(a, b');
    }
  }

  lemma SubTotalSnoc(items: seq<LineItem>, x: LineItem)
    ensures SubTotal(items + [x]) == SubTotal(items) + LineValue(x)
  {
    assert (items + [x])[..|items|] == items;
  }

  lemma SubTotalSingle(x: LineItem)
    ensures SubTotal([x]) == LineValue(x)
  {
    assert [x][..0] == [];
  }

  /** The sub-total is the sum of `quantity * amount`, so the stored `total` fields do not enter it. */
  lemma {:induction false} SubTotalIgnoresTotals(a: seq<LineItem>, b: seq<LineItem>)
    requires |a| == |b|
    requires forall i :: 0 <= i < |a| ==> a[i].quantity == b[i].quantity && a[i].amount == b[i].amount
    ensures SubTotal(a) == SubTotal(b)
  {
    if a != [] {
      SubTotalIgnoresTotals(a[..|a| - 1], b[..|b| - 1]);
    }
  }

  /** `addItem` leaves the sub-total unchanged: the empty item contributes nothing. */
  lemma AddItemKeepsSubTotal(items: seq<LineItem>)
    ensures SubTotal(items + [EmptyItem]) == SubTotal(items)
  {
    SubTotalConcat(items, [EmptyItem]);
    SubTotalSingle(EmptyItem);
  }

  lemma SplitSubTotal(pre: seq<LineItem>, x: LineItem, post: seq<LineItem>)
    ensures SubTotal(pre + [x] + post) == SubTotal(pre + post) + LineValue(x)
  {
    SubTotalConcat(pre + [x], post);
    SubTotalConcat(pre, [x]);
    SubTotalConcat(pre, post);
    SubTotalSingle(x);
  }

  /** `removeItem` takes exactly the removed item's `quantity * amount` off the sub-total. */
  lemma RemoveItemSubTotal(items: seq<LineItem>, index: int)
    ensures SubTotal(Filtered(items, index)) ==
            SubTotal(items) - (if 0 <= index < |items| then LineValue(items[index]) else 0.0)
  {
    FilteredRemovesIndex(items, index);
    if 0 <= index < |items| {
      RemoveAtSubTotal(items, index);
    }
  }

  lemma RemoveAtSubTotal(items: seq<LineItem>, index: nat)
    requires index < |items|
    ensures SubTotal(items[..index] + items[index + 1..]) == SubTotal(items) - LineValue(items[index])
  {
    var pre, x, post := items[..index], items[index], items[index + 1..];
    assert items == pre + [x] + post;
    SplitSubTotal(pre, x, post);
  }

  /** Editing one item moves the sub-total by the change of that item's `quantity * amount`. */
  lemma EditItemSubTotal(items: seq<LineItem>, index: nat, edit: ItemEdit)
    requires index < |items|
    ensures SubTotal(items[index := EditedItem(items[index], edit)]) ==
            SubTotal(items) - LineValue(items[index]) + LineValue(EditedItem(items[index], edit))
  {
    var pre, y, post := items[..index], items[index], items[index + 1..];
    var x := EditedItem(y, edit);
    assert items == (pre + [y]) + post;
    assert items[index := x] == (pre + [x]) + post;
    SubTotalConcat(pre + [y], post);
    SubTotalConcat(pre, [y]);
    SubTotalConcat(pre + [x], post);
    SubTotalConcat(pre, [x]);
    SubTotalSingle(y);
    SubTotalSingle(x);
  }

  /** With a tax rate in the input's range 0..28 and a non-negative sub-total, the tax and grand total are bounded. */
  lemma TaxBounds(subTotal: real, taxPercentage: real)
    requires 0.0 <= subTotal && 0.0 <= taxPercentage <= 28.0
    ensures 0.0 <= TaxAmount(subTotal, taxPercentage) <= subTotal * 28.0 / 100.0
    ensures subTotal <= GrandTotal(subTotal, TaxAmount(subTotal, taxPercentage))
    ensures GrandTotal(subTotal, TaxAmount(subTotal, taxPercentage)) == subTotal * (100.0 + taxPercentage) / 100.0
  {
    assert subTotal * taxPercentage <= subTotal * 28.0;
  }

  /** The sample items of `fillDummyData` (lines 247-290). */
  const DummyItems: seq<LineItem> := [
    LineItem("Product A", "High-quality item", 2.0, 50.0, 100.0),
    LineItem("Service B", "Professional service", 1.0, 200.0, 200.0),
    LineItem("Product C", "Another great product", 3.0, 30.0, 90.0),
    LineItem("Service D", "Another professional service", 2.0, 150.0, 300.0),
    LineItem("Product E", "Yet another product", 1.0, 75.0, 75.0),
    LineItem("Service F", "Yet another service", 4.0, 100.0, 400.0)
  ]

  /** At tax 10 the sample items give sub-total 1165, tax 116.5 and grand total 1281.5. */
  lemma DummyTotals()
    ensures SubTotal(DummyItems) == 1165.0
    ensures TaxAmount(SubTotal(DummyItems), 10.0) == 116.5
    ensures GrandTotal(SubTotal(DummyItems), TaxAmount(SubTotal(DummyItems), 10.0)) == 1281.5
  {
    var s := DummyItems;
    var p1, p2, p3, p4, p5 := [s[0]], [s[0], s[1]], [s[0], s[1], s[2]], [s[0], s[1], s[2], s[3]], [s[0], s[1], s[2], s[3], s[4]];
    assert SubTotal(p1) == 100.0 by { SubTotalSingle(s[0]); }
    assert SubTotal(p2) == 300.0 by { SubTotalSnoc(p1, s[1]); assert p1 + [s[1]] == p2; }
    assert SubTotal(p3) == 390.0 by { SubTotalSnoc(p2, s[2]); assert p2 + [s[2]] == p3; }
    assert SubTotal(p4) == 690.0 by { SubTotalSnoc(p3, s[3]); assert p3 + [s[3]] == p4; }
    assert SubTotal(p5) == 765.0 by { SubTotalSnoc(p4, s[4]); assert p4 + [s[4]] == p5; }
    assert SubTotal(s) == 1165.0 by { SubTotalSnoc(p5, s[5]); assert p5 + [s[5]] == s; }
  }

  // ---------------------------------------------------------------------------
  // Form state and the saved draft (Index.jsx:59-138, 296-309)
  // ---------------------------------------------------------------------------

  datatype Party = Party(name: string, address: string, phone: string)
  const EmptyParty := Party("", "", "")

  datatype InvoiceMeta = InvoiceMeta(date: string, paymentDate: string, number: string)
  const EmptyInvoice := InvoiceMeta("", "", "")

  /** The editor's state variables (lines 59-77). */
  datatype Form = Form(
    billTo: Party, shipTo: Party, invoice: InvoiceMeta, yourCompany: Party,
    items: seq<LineItem>, taxPercentage: real,
    taxAmount: real, subTotal: real, grandTotal: real,
    notes: string, selectedCurrency: string)

  /** The `useState` initial values. */
  const InitialForm := Form(EmptyParty, EmptyParty, EmptyInvoice, EmptyParty, [], 0.0, 0.0, 0.0, 0.0, "", "USD")

  /** The parsed "formData" record; `None` is a key that is absent or holds a falsy value. */
  datatype Draft = Draft(
    billTo: Option<Party>, shipTo: Option<Party>, invoice: Option<InvoiceMeta>, yourCompany: Option<Party>,
    items: Option<seq<LineItem>>, taxPercentage: Option<real>,
    taxAmount: Option<real>, subTotal: Option<real>, grandTotal: Option<real>,
    notes: Option<string>, selectedCurrency: Option<string>)

  /** A record in which every key is absent. */
  const EmptyDraft := Draft(None, None, None, None, None, None, None, None, None, None, None)

  /** The derived totals agree with the items and the tax rate. */
  predicate TotalsConsistent(f: Form)
  {
    && f.subTotal == SubTotal(f.items)
    && f.taxAmount == TaxAmount(f.subTotal, f.taxPercentage)
    && f.grandTotal == GrandTotal(f.subTotal, f.taxAmount)
  }

  /** Two states that differ at most in the three derived totals. */
  predicate SameInputs(f: Form, g: Form)
  {
    && f.billTo == g.billTo && f.shipTo == g.shipTo && f.invoice == g.invoice
    && f.yourCompany == g.yourCompany && f.items == g.items
    && f.taxPercentage == g.taxPercentage && f.notes == g.notes
    && f.selectedCurrency == g.selectedCurrency
  }

  predicate SameTotals(f: Form, g: Form)
  {
    f.subTotal == g.subTotal && f.taxAmount == g.taxAmount && f.grandTotal == g.grandTotal
  }

  /** `updateTotals` (lines 185-193): only the three totals change, and they then agree with the items. */
  function WithTotals(f: Form): (g: Form)
    ensures SameInputs(f, g) && TotalsConsistent(g)
  {
    var sub := SubTotal(f.items);
    var tax := TaxAmount(sub, f.taxPercentage);
    f.(subTotal := sub, taxAmount := tax, grandTotal := GrandTotal(sub, tax))
  }

  /** The object the save effect writes (lines 112-124): all eleven fields. */
  function Snapshot(f: Form): Draft
  {
    Draft(Some(f.billTo), Some(f.shipTo), Some(f.invoice), Some(f.yourCompany),
          Some(f.items), Some(f.taxPercentage),
          Some(f.taxAmount), Some(f.subTotal), Some(f.grandTotal),
          Some(f.notes), Some(f.selectedCurrency))
  }

  /** The state after the load effect restores draft `d` into state `f` (lines 89-100).
      The stored totals are not read back: `f`'s totals stay until `updateTotals` runs. */
  function Restored(f: Form, d: Draft): Form
  {
    f.(billTo := d.billTo.GetOr(EmptyParty),
       shipTo := d.shipTo.GetOr(EmptyParty),
       invoice := d.invoice.GetOr(EmptyInvoice),
       yourCompany := d.yourCompany.GetOr(EmptyParty),
       items := d.items.GetOr([]),
       taxPercentage := TaxRate(d.taxPercentage),
       notes := d.notes.GetOr(""),
       selectedCurrency := if d.selectedCurrency.Some? && d.selectedCurrency.value != "" then d.selectedCurrency.value else "USD")
  }

  /** The state `clearForm` sets (lines 297-307); `selectedCurrency` and the totals are left as they were. */
  function Cleared(f: Form, number: string): Form
  {
    f.(billTo := EmptyParty, shipTo := EmptyParty,
       invoice := InvoiceMeta("", "", number),
       yourCompany := EmptyParty,
       items := [EmptyItem], taxPercentage := 0.0, notes := "")
  }

  /** Saving and then loading restores every input field whenever the currency is not empty,
      and leaves the totals of the loading state alone. */
  lemma SaveThenLoad(f: Form, g: Form)
    requires f.selectedCurrency != ""
    ensures SameInputs(Restored(g, Snapshot(f)), f)
    ensures SameTotals(Restored(g, Snapshot(f)), g)
  {
  }

  /** The currency survives a save and load exactly when it is not the empty string. */
  lemma SaveThenLoadCurrency(f: Form, g: Form)
    ensures Restored(g, Snapshot(f)).selectedCurrency == f.selectedCurrency <==> f.selectedCurrency != ""
  {
  }

  /** After the load effect and the totals effect, a saved state with consistent totals comes back unchanged. */
  lemma SaveLoadRecomputeRoundTrip(f: Form, g: Form)
    requires f.selectedCurrency != "" && TotalsConsistent(f)
    ensures WithTotals(Restored(g, Snapshot(f))) == f
  {
  }

  /** Loading never reads the stored `subTotal`, `taxAmount` or `grandTotal`. */
  lemma LoadIgnoresStoredTotals(f: Form, d: Draft, e: Draft)
    requires d.(taxAmount := None, subTotal := None, grandTotal := None) == e.(taxAmount := None, subTotal := None, grandTotal := None)
    ensures Restored(f, d) == Restored(f, e)
  {
  }

  /** A record whose every key is falsy loads as the initial state (with the invoice number empty). */
  lemma LoadAllFalsy(f: Form)
    ensures SameInputs(Restored(f, EmptyDraft), InitialForm)
  {
  }

  /** Clearing and then recomputing leaves one empty item, zero tax and zero totals, and keeps the currency. */
  lemma ClearedTotals(f: Form, number: string)
    ensures WithTotals(Cleared(f, number)).items == [EmptyItem]
    ensures WithTotals(Cleared(f, number)).subTotal == 0.0
    ensures WithTotals(Cleared(f, number)).taxAmount == 0.0
    ensures WithTotals(Cleared(f, number)).grandTotal == 0.0
    ensures WithTotals(Cleared(f, number)).selectedCurrency == f.selectedCurrency
  {
    SubTotalSingle(EmptyItem);
  }

  /** The `Index` component: its state variables and the "formData" storage key. */
  class Editor {
    var billTo: Party
    var shipTo: Party
    var invoice: InvoiceMeta
    var yourCompany: Party
    var items: seq<LineItem>
    var taxPercentage: real
    var taxAmount: real
    var subTotal: real
    var grandTotal: real
    var notes: string
    var selectedCurrency: string
    /** localStorage "formData", already parsed. */
    var storedDraft: Option<Draft>

    function State(): Form
      reads this
    {
      Form(billTo, shipTo, invoice, yourCompany, items, taxPercentage,
           taxAmount, subTotal, grandTotal, notes, selectedCurrency)
    }

    /** The component's first render, over whatever the storage holds. */
    constructor (stored: Option<Draft>)
      ensures State() == InitialForm && storedDraft == stored
    {
      billTo, shipTo, invoice, yourCompany := EmptyParty, EmptyParty, EmptyInvoice, EmptyParty;
      items, taxPercentage := [], 0.0;
      taxAmount, subTotal, grandTotal := 0.0, 0.0, 0.0;
      notes, selectedCurrency := "", "USD";
      storedDraft := stored;
    }

    /** The load effect (lines 84-108): restore a saved draft, or else only generate the invoice number. */
    method Load(draws: InvoiceDraws)
      requires ValidDraws(draws)
      modifies this
      ensures storedDraft == old(storedDraft)
      ensures old(storedDraft).Some? ==> State() == Restored(old(State()), old(storedDraft).value)
      ensures old(storedDraft).None? ==> State() == old(State()).(invoice := old(invoice).(number := InvoiceNumber(draws)))
    {
      match storedDraft {
        case Some(d) =>
          billTo := d.billTo.GetOr(EmptyParty);
          shipTo := d.shipTo.GetOr(EmptyParty);
          invoice := d.invoice.GetOr(EmptyInvoice);
          yourCompany := d.yourCompany.GetOr(EmptyParty);
          items := d.items.GetOr([]);
          taxPercentage := TaxRate(d.taxPercentage);
          notes := d.notes.GetOr("");
          selectedCurrency := if d.selectedCurrency.Some? && d.selectedCurrency.value != "" then d.selectedCurrency.value else "USD";
        case None =>
          var number := GenerateRandomInvoiceNumber(draws);
          invoice := invoice.(number := number);
      }
    }

    /** The save effect (lines 110-125): the storage holds the current state, all eleven fields. */
    method Save()
      modifies this`storedDraft
      ensures storedDraft == Some(Snapshot(State()))
    {
      storedDraft := Some(Draft(Some(billTo), Some(shipTo), Some(invoice), Some(yourCompany),
                                Some(items), Some(taxPercentage),
                                Some(taxAmount), Some(subTotal), Some(grandTotal),
                                Some(notes), Some(selectedCurrency)));
    }

    /** `updateTotals` (lines 167-193), which the effect at lines 201-203 runs after every change of the items or the tax rate. */
    method UpdateTotals()
      modifies this`subTotal, this`taxAmount, this`grandTotal
      ensures State() == WithTotals(old(State()))
      ensures TotalsConsistent(State())
    {
      var currentSubTotal := SubTotal(items);
      subTotal := currentSubTotal;
      var currentTaxAmount := currentSubTotal * taxPercentage / 100.0;
      taxAmount := currentTaxAmount;
      grandTotal := currentSubTotal + currentTaxAmount;
    }

    /** `handleItemChange` (lines 145-153). An index with no item makes the source throw before any state
        changes; `applied` is false then. */
    method HandleItemChange(index: int, edit: ItemEdit) returns (applied: bool)
      modifies this`items, this`subTotal, this`taxAmount, this`grandTotal
      ensures applied <==> 0 <= index < |old(items)|
      ensures applied ==> State() == WithTotals(old(State()).(items := old(items)[index := EditedItem(old(items)[index], edit)]))
      ensures !applied ==> State() == old(State())
    {
      if !(0 <= index < |items|) {
        return false;
      }
      var item := items[index];
      match edit {
        case SetName(n) => item := item.(name := n);
        case SetDescription(s) => item := item.(description := s);
        case SetQuantity(q) => item := item.(quantity := q);
        case SetAmount(a) => item := item.(amount := a);
      }
      if edit.SetQuantity? || edit.SetAmount? {
        item := item.(total := item.quantity * item.amount);
      }
      assert item == EditedItem(items[index], edit);
      items := items[index := item];
      UpdateTotals();
      applied := true;
    }

    /** `addItem` (lines 155-160). */
    method AddItem()
      modifies this`items
      ensures items == old(items) + [EmptyItem]
    {
      items := items + [EmptyItem];
    }

    /** `removeItem` (lines 162-165). */
    method RemoveItem(index: int)
      modifies this`items
      ensures items == Filtered(old(items), index)
      ensures 0 <= index < |old(items)| ==> items == old(items)[..index] + old(items)[index + 1..]
      ensures !(0 <= index < |old(items)|) ==> items == old(items)
    {
      FilteredRemovesIndex(items, index);
      items := Filtered(items, index);
    }

    /** `handleTaxPercentageChange` (lines 195-199). */
    method HandleTaxPercentageChange(parsed: Option<real>)
      modifies this`taxPercentage
      ensures taxPercentage == TaxRate(parsed)
    {
      taxPercentage := if parsed.None? || parsed.value == 0.0 then 0.0 else parsed.value;
    }

    /** `clearForm` (lines 296-309). */
    method ClearForm(draws: InvoiceDraws)
      requires ValidDraws(draws)
      modifies this
      ensures State() == Cleared(old(State()), InvoiceNumber(draws))
      ensures storedDraft == None
    {
      billTo := EmptyParty;
      shipTo := EmptyParty;
      var number := GenerateRandomInvoiceNumber(draws);
      invoice := InvoiceMeta("", "", number);
      yourCompany := EmptyParty;
      items := [EmptyItem];
      taxPercentage := 0.0;
      notes := "";
      storedDraft := None;
    }
  }
}
