/** The billing arithmetic of the invoice builder: per-item GST amounts,
    bill totals, the amount in words on the Indian scale, and the bill
    number. Money is `real`; the clock and the random source are
    parameters. */
module BillUtils {
  import opened JsString

  datatype Option<T> = None | Some(value: T)

  /** A line item. A numeric field is `None` when it is undefined or NaN,
      the values `x || 0` turns into 0. `amount` is stored, not derived:
      the form writes it when it recomputes the item. */
  datatype Item = Item(
    id: int,
    description: string,
    quantity: Option<real>,
    rate: Option<real>,
    gstPercentage: Option<real>,
    amount: real)

  /** `x || 0` on a number field. */
  function OrZero(x: Option<real>): (r: real)
    ensures x == Some(r) || (x == None && r == 0.0)
  {
    match x
    case Some(v) => v
    case None => 0.0
  }

  datatype ItemAmount = ItemAmount(baseAmount: real, gstAmount: real, totalAmount: real)

  datatype Totals = Totals(subtotal: real, totalGST: real, total: real)

  // ---------------------------------------------------------------------
  // calculateItemAmount

  /** Base, GST and total amount of one line. */
  function CalculateItemAmount(quantity: real, rate: real, gstPercentage: real, includeGST: bool): (a: ItemAmount)
    ensures a.baseAmount == quantity * rate
    ensures a.totalAmount == a.baseAmount + a.gstAmount
    ensures !includeGST ==> a.gstAmount == 0.0 && a.totalAmount == quantity * rate
    ensures includeGST ==> a.gstAmount * 100.0 == quantity * rate * gstPercentage
    ensures includeGST ==> a.totalAmount * 100.0 == quantity * rate * (100.0 + gstPercentage)
  {
    var baseAmount := quantity * rate;
    var gstAmount := if includeGST then baseAmount * gstPercentage / 100.0 else 0.0;
    ItemAmount(baseAmount, gstAmount, baseAmount + gstAmount)
  }

  /** The amounts of an item with its missing numeric fields read as 0,
      as both the totals and the form's item editor compute them. */
  function ItemAmountOf(item: Item, includeGST: bool): (r: ItemAmount)
    ensures r.baseAmount == OrZero(item.quantity) * OrZero(item.rate)
    ensures item.quantity == None || item.rate == None ==> r == ItemAmount(0.0, 0.0, 0.0)
  {
    CalculateItemAmount(OrZero(item.quantity), OrZero(item.rate), OrZero(item.gstPercentage), includeGST)
  }

  // ---------------------------------------------------------------------
  // calculateBillTotals

  /** Sum of the base amounts, accumulated in list order. */
  function SumBase(items: seq<Item>): real {
    if items == [] then 0.0
    else SumBase(items[..|items| - 1]) + ItemAmountOf(items[|items| - 1], false).baseAmount
  }

  /** Sum of the GST amounts, accumulated in list order. */
  function SumGst(items: seq<Item>, includeGST: bool): real {
    if items == [] then 0.0
    else SumGst(items[..|items| - 1], includeGST) + ItemAmountOf(items[|items| - 1], includeGST).gstAmount
  }

  /** What `calculateBillTotals` returns. */
  function BillTotals(items: seq<Item>, includeGST: bool): Totals {
    var subtotal := SumBase(items);
    var totalGST := SumGst(items, includeGST);
    Totals(subtotal, totalGST, subtotal + totalGST)
  }

  /** `calculateBillTotals`: one pass over the items accumulating the
      subtotal and the GST. */
  method CalculateBillTotals(items: seq<Item>, includeGST: bool) returns (totals: Totals)
    ensures totals == BillTotals(items, includeGST)
  {
    var subtotal := 0.0;
    var totalGST := 0.0;
    var i := 0;
    while i < |items|
      invariant 0 <= i <= |items|
      invariant subtotal == SumBase(items[..i])
      invariant totalGST == SumGst(items[..i], includeGST)
    {
      var amounts := ItemAmountOf(items[i], includeGST);
      subtotal := subtotal + amounts.baseAmount;
      totalGST := totalGST + amounts.gstAmount;
      assert items[..i + 1][..i] == items[..i];
      i := i + 1;
    }
    assert items[..i] == items;
    totals := Totals(subtotal, totalGST, subtotal + totalGST);
  }

  /** Sum of quantity × rate, missing fields read as 0, taken from the
      front of the list: an order-independent reference for the subtotal. */
  function SumProducts(items: seq<Item>): real {
    if items == [] then 0.0
    else OrZero(items[0].quantity) * OrZero(items[0].rate) + SumProducts(items[1..])
  }

  /** Sum of the stored item amounts, taken from the front of the list. */
  function SumAmounts(items: seq<Item>): real {
    if items == [] then 0.0 else items[0].amount + SumAmounts(items[1..])
  }

  /** Every item's stored amount is its computed total under the flag. */
  ghost predicate AmountsCurrent(items: seq<Item>, includeGST: bool) {
    forall i :: 0 <= i < |items| ==> items[i].amount == ItemAmountOf(items[i], includeGST).totalAmount
  }

  /** An empty list totals zero whatever the flag. */
  lemma TotalsEmpty(includeGST: bool)
    ensures BillTotals([], includeGST) == Totals(0.0, 0.0, 0.0)
  {
  }

  /** Totals are additive over concatenated item lists. */
  lemma {:induction false} TotalsAppend(a: seq<Item>, b: seq<Item>, includeGST: bool)
    ensures SumBase(a + b) == SumBase(a) + SumBase(b)
    ensures SumGst(a + b, includeGST) == SumGst(a, includeGST) + SumGst(b, includeGST)
    ensures BillTotals(a + b, includeGST).total == BillTotals(a, includeGST).total + BillTotals(b, includeGST).total
  {
    if b == [] {
      assert a + b == a;
    } else {
      assert (a + b)[..|a + b| - 1] == a + b[..|b| - 1];
      TotalsAppend(a, b[..|b| - 1], includeGST);
    }
  }

  /** Without GST the GST total is 0 and the total is the subtotal. */
  lemma {:induction false} TotalsWithoutGst(items: seq<Item>)
    ensures BillTotals(items, false).totalGST == 0.0
    ensures BillTotals(items, false).total == BillTotals(items, false).subtotal
  {
    if items != [] {
      TotalsWithoutGst(items[..|items| - 1]);
    }
  }

  /** The totals of a single item are that item's amounts. */
  lemma SingleTotals(x: Item, includeGST: bool)
    ensures BillTotals([x], includeGST).subtotal == ItemAmountOf(x, includeGST).baseAmount
    ensures BillTotals([x], includeGST).total == ItemAmountOf(x, includeGST).totalAmount
  {
    var one := [x];
    assert one[..|one| - 1] == [] && one[|one| - 1] == x;
    assert SumBase(one) == ItemAmountOf(x, false).baseAmount;
    assert SumGst(one, includeGST) == ItemAmountOf(x, includeGST).gstAmount;
  }

  /** The subtotal is the sum of quantity × rate over the items, missing
      fields read as 0, and does not depend on the flag. */
  lemma {:induction false} SubtotalIsSumOfProducts(items: seq<Item>, includeGST: bool)
    ensures BillTotals(items, includeGST).subtotal == SumProducts(items)
  {
    if items != [] {
      var x, tl := items[0], items[1..];
      assert SumProducts(items) == OrZero(x.quantity) * OrZero(x.rate) + SumProducts(tl);
      SubtotalIsSumOfProducts(tl, includeGST);
      TotalsAppend([x], tl, includeGST);
      assert [x] + tl == items;
      SingleTotals(x, includeGST);
    }
  }

  /** When every stored amount is current, the bill total is the sum of
      the stored item amounts. */
  lemma {:induction false} TotalIsSumOfAmounts(items: seq<Item>, includeGST: bool)
    requires AmountsCurrent(items, includeGST)
    ensures BillTotals(items, includeGST).total == SumAmounts(items)
  {
    if items != [] {
      var x, tl := items[0], items[1..];
      assert AmountsCurrent(tl, includeGST) by {
        forall i | 0 <= i < |tl| ensures tl[i].amount == ItemAmountOf(tl[i], includeGST).totalAmount {
          assert tl[i] == items[i + 1];
        }
      }
      TotalIsSumOfAmounts(tl, includeGST);
      TotalsAppend([x], tl, includeGST);
      assert [x] + tl == items;
      SingleTotals(x, includeGST);
    }
  }

  /** The worked example: 2 × 100 at 18% GST totals 200 + 36 = 236. */
  lemma TotalsExample()
    ensures BillTotals([Item(1, "", Some(2.0), Some(100.0), Some(18.0), 0.0)], true)
            == Totals(200.0, 36.0, 236.0)
  {
    var items := [Item(1, "", Some(2.0), Some(100.0), Some(18.0), 0.0)];
    assert items[..0] == [];
  }

  // ---------------------------------------------------------------------
  // numberToWords

  const Ones: seq<string> := ["", "One", "Two", "Three", "Four", "Five", "Six", "Seven", "Eight", "Nine"]
  const Teens: seq<string> := ["Ten", "Eleven", "Twelve", "Thirteen", "Fourteen", "Fifteen",
                               "Sixteen", "Seventeen", "Eighteen", "Nineteen"]
  const Tens: seq<string> := ["", "", "Twenty", "Thirty", "Forty", "Fifty", "Sixty", "Seventy", "Eighty", "Ninety"]

  /** The words for the last two digits of a group: a tens word followed
      by a ones word only when that digit is not 0, a single teen word for
      10..19, a single ones word below 10, nothing for 0. */
  function TensWords(m: nat): seq<string>
    requires m < 100
  {
    if m >= 20 then [Tens[m / 10]] + (if m % 10 > 0 then [Ones[m % 10]] else [])
    else if m >= 10 then [Teens[m - 10]]
    else if m > 0 then [Ones[m]]
    else []
  }

  /** The words `convertHundreds` emits for a group below 1000. */
  function HundredsWords(n: nat): seq<string>
    requires n < 1000
  {
    (if n >= 100 then [Ones[n / 100], "Hundred"] else []) + TensWords(n % 100)
  }

  /** A non-zero group followed by its scale word; a zero group is silent. */
  function Group(g: nat, scale: string): seq<string>
    requires g < 1000
  {
    if g > 0 then HundredsWords(g) + [scale] else []
  }

  /** The Indian-scale groups, taken as the source takes them. */
  function Crores(n: nat): nat { n / 10000000 }
  function Lakhs(n: nat): nat { n % 10000000 / 100000 }
  function Thousands(n: nat): nat { n % 10000000 % 100000 / 1000 }
  function Rest(n: nat): nat { n % 10000000 % 100000 % 1000 }

  /** The groups recompose the number: crores, lakhs (< 100), thousands
      (< 100) and a remainder below 1000. */
  lemma Decompose(n: nat)
    ensures n == Crores(n) * 10000000 + Lakhs(n) * 100000 + Thousands(n) * 1000 + Rest(n)
    ensures Lakhs(n) < 100 && Thousands(n) < 100 && Rest(n) < 1000
    ensures n < 10000000000 <==> Crores(n) < 1000
  {
  }

  /** The words of `numberToWords(n)`, in order. */
  function Words(n: nat): seq<string>
    requires n < 10000000000
  {
    if n == 0 then ["Zero"]
    else Group(Crores(n), "Crore") + Group(Lakhs(n), "Lakh") + Group(Thousands(n), "Thousand")
         + HundredsWords(Rest(n))
  }

  /** Words joined by single spaces. */
  function Sentence(ws: seq<string>): string {
    if |ws| == 0 then ""
    else if |ws| == 1 then ws[0]
    else ws[0] + " " + Sentence(ws[1..])
  }

  /** Every word followed by one space, as the source appends them. */
  function Spaced(ws: seq<string>): string {
    if ws == [] then "" else ws[0] + " " + Spaced(ws[1..])
  }

  predicate IsLetter(c: char) {
    'A' <= c <= 'Z' || 'a' <= c <= 'z'
  }

  /** A non-empty run of letters. */
  predicate IsWord(w: string) {
    |w| > 0 && forall i :: 0 <= i < |w| ==> IsLetter(w[i])
  }

  predicate AllWords(ws: seq<string>) {
    forall i :: 0 <= i < |ws| ==> IsWord(ws[i])
  }

  lemma {:induction false} SpacedAppend(a: seq<string>, b: seq<string>)
    ensures Spaced(a + b) == Spaced(a) + Spaced(b)
  {
    if a == [] {
      assert a + b == b;
    } else {
      SpacedAppend(a[1..], b);
      assert (a + b)[0] == a[0];
      assert (a + b)[1..] == a[1..] + b;
      AppendAssoc(a[0] + " ", Spaced(a[1..]), Spaced(b));
    }
  }

  lemma SpacedPair(a: string, b: string)
    ensures Spaced([a]) == a + " "
    ensures Spaced([a, b]) == a + " " + b + " "
  {
    assert Spaced([b]) == b + " " by { assert [b][1..] == []; }
    assert [a, b][1..] == [b];
  }

  lemma {:induction false} SpacedIsSentence(ws: seq<string>)
    requires |ws| > 0
    ensures Spaced(ws) == Sentence(ws) + " "
  {
    if |ws| > 1 {
      SpacedIsSentence(ws[1..]);
    }
  }

  /** Words joined by single spaces make a non-empty string with no
      leading, trailing or doubled space, made of letters and spaces only. */
  lemma {:induction false} SentenceShape(ws: seq<string>)
    requires |ws| > 0 && AllWords(ws)
    ensures |Sentence(ws)| > 0
    ensures IsLetter(Sentence(ws)[0]) && IsLetter(Sentence(ws)[|Sentence(ws)| - 1])
    ensures forall i :: 0 <= i < |Sentence(ws)| ==> IsLetter(Sentence(ws)[i]) || Sentence(ws)[i] == ' '
    ensures forall i :: 0 <= i < |Sentence(ws)| - 1 && Sentence(ws)[i] == ' ' ==> Sentence(ws)[i + 1] != ' '
  {
    if |ws| > 1 {
      assert IsWord(ws[0]);
      SentenceShape(ws[1..]);
      var s := Sentence(ws);
      var t := Sentence(ws[1..]);
      var k := |ws[0]|;
      assert s == ws[0] + " " + t;
      forall i | 0 <= i < k ensures IsLetter(s[i]) {
        assert s[i] == ws[0][i];
      }
      forall i | k < i < |s| ensures s[i] == t[i - k - 1] {
      }
      forall i | 0 <= i < |s| - 1 && s[i] == ' ' ensures s[i + 1] != ' ' {
        if i == k {
          assert s[i + 1] == t[0];
        } else {
          assert k < i;
          assert s[i] == t[i - k - 1] && s[i + 1] == t[i - k];
        }
      }
    }
  }

  /** The table entries that are emitted are words. */
  lemma OnesAreWords()
    ensures forall d :: 1 <= d <= 9 ==> IsWord(Ones[d])
  {
  }

  lemma TeensAreWords()
    ensures forall d :: 0 <= d <= 9 ==> IsWord(Teens[d])
  {
  }

  lemma TensAreWords()
    ensures forall d :: 2 <= d <= 9 ==> IsWord(Tens[d])
  {
  }

  lemma HundredsAreWords(n: nat)
    requires n < 1000
    ensures AllWords(HundredsWords(n))
    ensures n > 0 ==> |HundredsWords(n)| > 0
  {
    OnesAreWords();
    TeensAreWords();
    TensAreWords();
  }

  lemma AllWordsAppend(a: seq<string>, b: seq<string>)
    requires AllWords(a) && AllWords(b)
    ensures AllWords(a + b)
  {
  }

  lemma GroupAreWords(g: nat, scale: string)
    requires g < 1000 && IsWord(scale)
    ensures AllWords(Group(g, scale))
    ensures g > 0 ==> |Group(g, scale)| > 0
  {
    if g > 0 {
      HundredsAreWords(g);
      AllWordsAppend(HundredsWords(g), [scale]);
    }
  }

  /** `Words(n)` is a non-empty list of words. */
  lemma WordsAreWords(n: nat)
    requires n < 10000000000
    ensures |Words(n)| > 0 && AllWords(Words(n))
  {
    if n == 0 {
      assert IsWord("Zero");
    } else {
      Decompose(n);
      assert IsWord("Crore") && IsWord("Lakh") && IsWord("Thousand");
      var c := Group(Crores(n), "Crore");
      var l := Group(Lakhs(n), "Lakh");
      var th := Group(Thousands(n), "Thousand");
      var r := HundredsWords(Rest(n));
      GroupAreWords(Crores(n), "Crore");
      GroupAreWords(Lakhs(n), "Lakh");
      GroupAreWords(Thousands(n), "Thousand");
      HundredsAreWords(Rest(n));
      AllWordsAppend(c, l);
      AllWordsAppend(c + l, th);
      AllWordsAppend(c + l + th, r);
      assert Words(n) == c + l + th + r;
      assert |c| > 0 || |l| > 0 || |th| > 0 || |r| > 0;
    }
  }

  /** How many words the last two digits take: one for a teen, a round
      tens or a lone ones digit, two for a tens word followed by a non-zero
      ones digit, none for 0. */
  lemma TensWordCount(m: nat)
    requires m < 100
    ensures |TensWords(m)| == if m >= 20 && m % 10 != 0 then 2 else if m > 0 then 1 else 0
  {
  }

  /** How many words a group takes: two for a hundreds digit, then the
      words of its last two digits. */
  lemma HundredsWordCount(n: nat)
    requires n < 1000
    ensures |HundredsWords(n)| ==
              (if n >= 100 then 2 else 0)
              + (if n % 100 >= 20 && n % 10 != 0 then 2 else if n % 100 > 0 then 1 else 0)
  {
    var m := n % 100;
    TensWordCount(m);
    UnitsOfLastTwo(n);
    if n >= 100 {
      assert HundredsWords(n) == [Ones[n / 100], "Hundred"] + TensWords(m);
    } else {
      assert HundredsWords(n) == [] + TensWords(m);
    }
  }

  lemma UnitsOfLastTwo(n: nat)
    ensures n % 100 % 10 == n % 10
  {
    var q := n / 100;
    var r := n % 100;
    assert n == (q * 10) * 10 + r;
    assert n % 10 == r % 10;
  }

  /** Appending a word and a space extends the spaced list by that word. */
  lemma {:induction false} SpacedSnoc(ws: seq<string>, w: string)
    ensures Spaced(ws + [w]) == Spaced(ws) + (w + " ")
  {
    if ws == [] {
      SpacedPair(w, "");
    } else {
      assert (ws + [w])[1..] == ws[1..] + [w];
      SpacedSnoc(ws[1..], w);
    }
  }

  lemma SpacedHundred(ws: seq<string>, w: string)
    ensures Spaced(ws + [w, "Hundred"]) == Spaced(ws) + (w + " Hundred ")
  {
    SpacedPair(w, "Hundred");
    SpacedAppend(ws, [w, "Hundred"]);
  }

  /** `convertHundreds`, reducing `n` with `%=` and appending each word
      with a trailing space; the teens branch returns at once. */
  method ConvertHundreds(n0: nat) returns (result: string)
    requires n0 < 1000
    ensures result == Spaced(HundredsWords(n0))
  {
    var n := n0;
    result := "";
    ghost var ws: seq<string> := [];
    if n >= 100 {
      SpacedHundred(ws, Ones[n / 100]);
      result := result + (Ones[n / 100] + " Hundred ");
      ws := ws + [Ones[n / 100], "Hundred"];
      n := n % 100;
    }
    ghost var m := n;
    ghost var pre := ws;
    assert m == n0 % 100;
    assert HundredsWords(n0) == pre + TensWords(m);
    if n >= 20 {
      SpacedSnoc(ws, Tens[n / 10]);
      result := result + (Tens[n / 10] + " ");
      ws := ws + [Tens[n / 10]];
      n := n % 10;
    } else if n >= 10 {
      SpacedSnoc(ws, Teens[n - 10]);
      result := result + (Teens[n - 10] + " ");
      ws := ws + [Teens[n - 10]];
      assert TensWords(m) == [Teens[m - 10]];
      return;
    }
    if n > 0 {
      SpacedSnoc(ws, Ones[n]);
      result := result + (Ones[n] + " ");
      ws := ws + [Ones[n]];
    }
    assert ws == pre + TensWords(m) by {
      if m >= 20 && n > 0 {
        assert TensWords(m) == [Tens[m / 10], Ones[n]];
        assert ws == pre + [Tens[m / 10]] + [Ones[n]];
      } else if m >= 20 {
        assert TensWords(m) == [Tens[m / 10]];
      } else if n > 0 {
        assert TensWords(m) == [Ones[n]];
      }
    }
  }

  /** A non-zero group's text followed by its scale word and a space is
      the spaced form of that group. */
  lemma GroupText(g: nat, scale: string)
    requires 0 < g < 1000
    ensures Spaced(HundredsWords(g)) + (scale + " ") == Spaced(Group(g, scale))
  {
    SpacedPair(scale, "");
    SpacedAppend(HundredsWords(g), [scale]);
  }

  /** The spaced form of four consecutive word lists. */
  lemma SpacedFour(a: seq<string>, b: seq<string>, c: seq<string>, d: seq<string>)
    ensures Spaced(a + b + c + d) == Spaced(a) + Spaced(b) + Spaced(c) + Spaced(d)
  {
    SpacedAppend(a + b + c, d);
    SpacedAppend(a + b, c);
    SpacedAppend(a, b);
  }

  /** A group emits no words exactly when it is zero. */
  lemma HundredsEmptyIff(g: nat)
    requires g < 1000
    ensures HundredsWords(g) == [] <==> g == 0
  {
    HundredsAreWords(g);
  }

  /** Trimming the spaced form of a word list gives its sentence. */
  lemma TrimSpaced(ws: seq<string>)
    requires |ws| > 0 && AllWords(ws)
    ensures Trim(Spaced(ws)) == Sentence(ws)
  {
    SpacedIsSentence(ws);
    SentenceShape(ws);
    var s := Sentence(ws);
    assert !IsWhitespace(s[0]);
    assert !IsWhitespace(s[|s| - 1]);
    TrimTrailingSpace(s);
  }

  /** `numberToWords` for a whole number below 10^10 (from 1000 crore on,
      the source would index its word table out of range). */
  method NumberToWords(num: nat) returns (words: string)
    requires num < 10000000000
    ensures words == Sentence(Words(num))
  {
    if num == 0 {
      return "Zero";
    }
    var result := "";
    var n := num;
    var crores := n / 10000000;
    n := n % 10000000;
    var lakhs := n / 100000;
    n := n % 100000;
    var thousandsValue := n / 1000;
    n := n % 1000;
    WordsGroups(num, crores, lakhs, thousandsValue, n);

    ghost var c := Group(crores, "Crore");
    ghost var l := Group(lakhs, "Lakh");
    ghost var th := Group(thousandsValue, "Thousand");
    ghost var r := HundredsWords(n);
    if crores > 0 {
      var part := ConvertHundreds(crores);
      GroupText(crores, "Crore");
      assert "Crore" + " " == "Crore ";
      result := result + (part + "Crore ");
    }
    assert result == Spaced(c);
    if lakhs > 0 {
      var part := ConvertHundreds(lakhs);
      GroupText(lakhs, "Lakh");
      assert "Lakh" + " " == "Lakh ";
      result := result + (part + "Lakh ");
    }
    assert result == Spaced(c) + Spaced(l);
    if thousandsValue > 0 {
      var part := ConvertHundreds(thousandsValue);
      GroupText(thousandsValue, "Thousand");
      assert "Thousand" + " " == "Thousand ";
      result := result + (part + "Thousand ");
    }
    assert result == Spaced(c) + Spaced(l) + Spaced(th);
    if n > 0 {
      var part := ConvertHundreds(n);
      result := result + part;
    } else {
      HundredsEmptyIff(n);
    }
    assert result == Spaced(c) + Spaced(l) + Spaced(th) + Spaced(r);
    SpacedFour(c, l, th, r);
    WordsAreWords(num);
    TrimSpaced(Words(num));
    words := Trim(result);
  }

  /** For 0 < n < 10^10 the words read as a non-empty sentence of letters
      separated by single spaces, with no space at either end. */
  lemma NumberToWordsShape(n: nat)
    requires 0 < n < 10000000000
    ensures var s := Sentence(Words(n));
      && |s| > 0 && s[0] != ' ' && s[|s| - 1] != ' '
      && (forall i :: 0 <= i < |s| ==> IsLetter(s[i]) || s[i] == ' ')
      && (forall i :: 0 <= i < |s| - 1 && s[i] == ' ' ==> s[i + 1] != ' ')
  {
    WordsAreWords(n);
    SentenceShape(Words(n));
  }

  /** Below a thousand only the last group speaks. */
  lemma WordsBelowThousand(n: nat)
    requires 0 < n < 1000
    ensures Words(n) == HundredsWords(n)
  {
    assert Crores(n) == 0 && Lakhs(n) == 0 && Thousands(n) == 0 && Rest(n) == n;
    assert Group(0, "Crore") + Group(0, "Lakh") + Group(0, "Thousand") == [];
  }

  lemma SentencePair(a: string, b: string)
    ensures Sentence([a]) == a
    ensures Sentence([a, b]) == a + " " + b
  {
    assert [a, b][1..] == [b];
  }

  /** Zero, and a teen with no ones word after it. */
  lemma WordsSmallExamples()
    ensures Sentence(Words(0)) == "Zero"
    ensures Sentence(Words(19)) == "Nineteen"
  {
    assert Sentence(HundredsWords(19)) == "Nineteen" by {
      assert HundredsWords(19) == ["Nineteen"];
    }
    WordsBelowThousand(19);
  }

  /** A tens word followed by its non-zero ones word. */
  lemma WordsTwentyOne()
    ensures Sentence(Words(21)) == "Twenty One"
  {
    assert Sentence(HundredsWords(21)) == "Twenty One" by {
      assert HundredsWords(21) == ["Twenty", "One"];
      SentencePair("Twenty", "One");
    }
    WordsBelowThousand(21);
  }

  /** The groups of a number, named by the caller. */
  lemma WordsGroups(n: nat, c: nat, l: nat, t: nat, r: nat)
    requires 0 < n < 10000000000
    requires c == Crores(n) && l == Lakhs(n) && t == Thousands(n) && r == Rest(n)
    ensures c < 1000 && l < 100 && t < 100 && r < 1000
    ensures Words(n) == Group(c, "Crore") + Group(l, "Lakh") + Group(t, "Thousand") + HundredsWords(r)
  {
    Decompose(n);
  }

  /** A number made of lakhs alone is spoken as its lakh group. */
  lemma WordsLoneLakhs(g: nat)
    requires 0 < g < 100
    ensures Words(g * 100000) == HundredsWords(g) + ["Lakh"]
  {
    var n := g * 100000;
    assert n < 10000000;
    assert n % 100000 == 0 && n / 100000 == g;
    WordsGroups(n, 0, g, 0, 0);
    assert Group(0, "Crore") + Group(g, "Lakh") + Group(0, "Thousand") + HundredsWords(0) == Group(g, "Lakh");
  }

  /** A number made of crores alone is spoken as its crore group. */
  lemma WordsLoneCrores(g: nat)
    requires 0 < g < 1000
    ensures Words(g * 10000000) == HundredsWords(g) + ["Crore"]
  {
    var n := g * 10000000;
    assert n % 10000000 == 0 && n / 10000000 == g;
    WordsGroups(n, g, 0, 0, 0);
    assert Group(g, "Crore") + Group(0, "Lakh") + Group(0, "Thousand") + HundredsWords(0) == Group(g, "Crore");
  }

  /** Four words joined by single spaces. */
  lemma SentenceFour(a: string, b: string, c: string, d: string)
    ensures Sentence([a, b, c, d]) == a + " " + b + " " + c + " " + d
  {
    assert [a, b, c, d][1..] == [b, c, d];
    assert [b, c, d][1..] == [c, d];
    SentencePair(c, d);
  }

  /** A hundreds digit followed by a tens word and its ones word. */
  lemma WordsOf236()
    ensures Words(236) == ["Two", "Hundred", "Thirty", "Six"]
  {
    assert HundredsWords(236) == ["Two", "Hundred", "Thirty", "Six"] by {
    }
    WordsBelowThousand(236);
  }

  lemma SentenceOf236()
    ensures Sentence(["Two", "Hundred", "Thirty", "Six"]) == "Two Hundred Thirty Six"
  {
    SentenceFour("Two", "Hundred", "Thirty", "Six");
  }

  lemma WordsTwoHundredThirtySix()
    ensures Sentence(Words(236)) == "Two Hundred Thirty Six"
  {
    WordsOf236();
    SentenceOf236();
  }

  lemma GroupOfOneLakh()
    ensures Group(1, "Lakh") == ["One", "Lakh"]
  {
  }

  lemma GroupOfTwentyThreeThousand()
    ensures Group(23, "Thousand") == ["Twenty", "Three", "Thousand"]
  {
    assert TensWords(23) == ["Twenty", "Three"];
    assert HundredsWords(23) == [] + TensWords(23);
  }

  lemma HundredsWordsOf456()
    ensures HundredsWords(456) == ["Four", "Hundred", "Fifty", "Six"]
  {
  }

  /** Lakhs, thousands and hundreds together, in that order. */
  lemma WordsMixedExample()
    ensures Words(123456) == ["One", "Lakh", "Twenty", "Three", "Thousand", "Four", "Hundred", "Fifty", "Six"]
  {
    GroupOfOneLakh();
    GroupOfTwentyThreeThousand();
    HundredsWordsOf456();
    WordsGroups(123456, 0, 1, 23, 456);
  }

  /** A lone lakh and a lone crore. */
  lemma WordsScaleExamples()
    ensures Sentence(Words(100000)) == "One Lakh"
    ensures Sentence(Words(10000000)) == "One Crore"
  {
    assert Sentence(HundredsWords(1) + ["Lakh"]) == "One Lakh" by {
      assert HundredsWords(1) + ["Lakh"] == ["One", "Lakh"];
      SentencePair("One", "Lakh");
    }
    assert Sentence(HundredsWords(1) + ["Crore"]) == "One Crore" by {
      assert HundredsWords(1) + ["Crore"] == ["One", "Crore"];
      SentencePair("One", "Crore");
    }
    WordsLoneLakhs(1);
    WordsLoneCrores(1);
  }

  // ---------------------------------------------------------------------
  // Reading the words back: an English reader for the Indian scale.

  /** Reader state: the value of the finished scale groups and of the
      group being read. */
  datatype Acc = Acc(total: nat, current: nat)

  /** The value of a unit word: ones, teens and tens; any other word
      (including "Zero") adds nothing. */
  function UnitValue(w: string): nat {
    if w == "One" then 1 else if w == "Two" then 2 else if w == "Three" then 3
    else if w == "Four" then 4 else if w == "Five" then 5 else if w == "Six" then 6
    else if w == "Seven" then 7 else if w == "Eight" then 8 else if w == "Nine" then 9
    else if w == "Ten" then 10 else if w == "Eleven" then 11 else if w == "Twelve" then 12
    else if w == "Thirteen" then 13 else if w == "Fourteen" then 14 else if w == "Fifteen" then 15
    else if w == "Sixteen" then 16 else if w == "Seventeen" then 17 else if w == "Eighteen" then 18
    else if w == "Nineteen" then 19 else if w == "Twenty" then 20 else if w == "Thirty" then 30
    else if w == "Forty" then 40 else if w == "Fifty" then 50 else if w == "Sixty" then 60
    else if w == "Seventy" then 70 else if w == "Eighty" then 80 else if w == "Ninety" then 90
    else 0
  }

  /** One word read: "Hundred" scales the current group, a scale word
      closes it, a unit word adds to it. */
  function Step(a: Acc, w: string): Acc {
    if w == "Hundred" then Acc(a.total, a.current * 100)
    else if w == "Thousand" then Acc(a.total + a.current * 1000, 0)
    else if w == "Lakh" then Acc(a.total + a.current * 100000, 0)
    else if w == "Crore" then Acc(a.total + a.current * 10000000, 0)
    else Acc(a.total, a.current + UnitValue(w))
  }

  function Run(ws: seq<string>, a: Acc): Acc {
    if ws == [] then a else Run(ws[1..], Step(a, ws[0]))
  }

  /** The number a list of words denotes. */
  function WordsValue(ws: seq<string>): nat {
    var a := Run(ws, Acc(0, 0));
    a.total + a.current
  }

  lemma {:induction false} RunAppend(a: seq<string>, b: seq<string>, acc: Acc)
    ensures Run(a + b, acc) == Run(b, Run(a, acc))
  {
    if a == [] {
      assert a + b == b;
    } else {
      assert (a + b)[0] == a[0];
      assert (a + b)[1..] == a[1..] + b;
      RunAppend(a[1..], b, Step(acc, a[0]));
    }
  }

  lemma RunPair(x: string, y: string, a: Acc)
    ensures Run([x], a) == Step(a, x)
    ensures Run([x, y], a) == Step(Step(a, x), y)
  {
    assert [x][1..] == [];
    assert [x, y][1..] == [y];
    assert Run([x, y], a) == Run([y], Step(a, x));
  }

  lemma OnesStep(d: nat, a: Acc)
    requires 1 <= d <= 9
    ensures Step(a, Ones[d]) == Acc(a.total, a.current + d)
  {
    if d <= 4 {
      OnesStepLow(d, a);
    } else {
      OnesStepHigh(d, a);
    }
  }

  lemma OnesStepLow(d: nat, a: Acc)
    requires 1 <= d <= 4
    ensures Step(a, Ones[d]) == Acc(a.total, a.current + d)
  {
    if d == 1 {} else if d == 2 {} else if d == 3 {} else {}
  }

  lemma OnesStepHigh(d: nat, a: Acc)
    requires 5 <= d <= 9
    ensures Step(a, Ones[d]) == Acc(a.total, a.current + d)
  {
    if d == 5 {} else if d == 6 {} else if d == 7 {} else if d == 8 {} else {}
  }

  lemma TeensStep(d: nat, a: Acc)
    requires d <= 9
    ensures Step(a, Teens[d]) == Acc(a.total, a.current + 10 + d)
  {
    if d <= 4 {
      TeensStepLow(d, a);
    } else {
      TeensStepHigh(d, a);
    }
  }

  lemma TeensStepLow(d: nat, a: Acc)
    requires d <= 4
    ensures Step(a, Teens[d]) == Acc(a.total, a.current + 10 + d)
  {
    if d == 0 {} else if d == 1 {} else if d == 2 {} else if d == 3 {} else {}
  }

  lemma TeensStepHigh(d: nat, a: Acc)
    requires 5 <= d <= 9
    ensures Step(a, Teens[d]) == Acc(a.total, a.current + 10 + d)
  {
    if d == 5 {} else if d == 6 {} else if d == 7 {} else if d == 8 {} else {}
  }

  lemma TensStep(d: nat, a: Acc)
    requires 2 <= d <= 9
    ensures Step(a, Tens[d]) == Acc(a.total, a.current + 10 * d)
  {
    if d <= 5 {
      TensStepLow(d, a);
    } else {
      TensStepHigh(d, a);
    }
  }

  lemma TensStepLow(d: nat, a: Acc)
    requires 2 <= d <= 5
    ensures Step(a, Tens[d]) == Acc(a.total, a.current + 10 * d)
  {
    if d == 2 {} else if d == 3 {} else if d == 4 {} else {}
  }

  lemma TensStepHigh(d: nat, a: Acc)
    requires 6 <= d <= 9
    ensures Step(a, Tens[d]) == Acc(a.total, a.current + 10 * d)
  {
    if d == 6 {} else if d == 7 {} else if d == 8 {} else {}
  }

  lemma TensRun(m: nat, a: Acc)
    requires m < 100
    ensures Run(TensWords(m), a) == Acc(a.total, a.current + m)
  {
    if m >= 20 {
      TensStep(m / 10, a);
      if m % 10 > 0 {
        OnesStep(m % 10, Step(a, Tens[m / 10]));
        RunPair(Tens[m / 10], Ones[m % 10], a);
        assert TensWords(m) == [Tens[m / 10], Ones[m % 10]];
      } else {
        RunPair(Tens[m / 10], "", a);
      }
    } else if m >= 10 {
      TeensStep(m - 10, a);
      RunPair(Teens[m - 10], "", a);
    } else if m > 0 {
      OnesStep(m, a);
      RunPair(Ones[m], "", a);
    }
  }

  /** Reading a group's words from a fresh group gives the group. */
  lemma HundredsRun(g: nat, t: nat)
    requires g < 1000
    ensures Run(HundredsWords(g), Acc(t, 0)) == Acc(t, g)
  {
    var h := if g >= 100 then [Ones[g / 100], "Hundred"] else [];
    RunAppend(h, TensWords(g % 100), Acc(t, 0));
    if g >= 100 {
      OnesStep(g / 100, Acc(t, 0));
      RunPair(Ones[g / 100], "Hundred", Acc(t, 0));
      assert Run(h, Acc(t, 0)) == Acc(t, g / 100 * 100);
    }
    TensRun(g % 100, Run(h, Acc(t, 0)));
  }

  lemma GroupRun(g: nat, scale: string, unit: nat, t: nat)
    requires g < 1000
    requires (scale, unit) == ("Crore", 10000000) || (scale, unit) == ("Lakh", 100000)
             || (scale, unit) == ("Thousand", 1000)
    ensures Run(Group(g, scale), Acc(t, 0)) == Acc(t + g * unit, 0)
  {
    if g > 0 {
      RunAppend(HundredsWords(g), [scale], Acc(t, 0));
      HundredsRun(g, t);
      RunPair(scale, "", Acc(t, g));
    }
  }

  /** Round trip: the words `numberToWords` produces denote the number. */
  lemma WordsRoundTrip(n: nat)
    requires n < 10000000000
    ensures WordsValue(Words(n)) == n
  {
    if n > 0 {
      Decompose(n);
      var c := Group(Crores(n), "Crore");
      var l := Group(Lakhs(n), "Lakh");
      var th := Group(Thousands(n), "Thousand");
      var r := HundredsWords(Rest(n));
      assert Words(n) == c + l + th + r;
      RunAppend(c + l + th, r, Acc(0, 0));
      RunAppend(c + l, th, Acc(0, 0));
      RunAppend(c, l, Acc(0, 0));
      GroupRun(Crores(n), "Crore", 10000000, 0);
      var t1 := Crores(n) * 10000000;
      assert Run(c, Acc(0, 0)) == Acc(t1, 0);
      GroupRun(Lakhs(n), "Lakh", 100000, t1);
      var t2 := t1 + Lakhs(n) * 100000;
      assert Run(c + l, Acc(0, 0)) == Acc(t2, 0);
      GroupRun(Thousands(n), "Thousand", 1000, t2);
      var t3 := t2 + Thousands(n) * 1000;
      assert Run(c + l + th, Acc(0, 0)) == Run(th, Acc(t2, 0)) == Acc(t3, 0);
      HundredsRun(Rest(n), t3);
      assert Run(Words(n), Acc(0, 0)) == Acc(t3, Rest(n));
    } else {
      RunPair("Zero", "", Acc(0, 0));
    }
  }

  // ---------------------------------------------------------------------
  // generateBillNumber

  /** `Math.floor(random * 1000)` for `random` in [0, 1). */
  function RandomBelow1000(random: real): (r: nat)
    requires 0.0 <= random < 1.0
    ensures r < 1000
    ensures r as real <= random * 1000.0 < r as real + 1.0
  {
    (random * 1000.0).Floor
  }

  /** `INV` + last two digits of the year + two-digit month + three-digit
      zero-padded random number. `monthIndex` is `getMonth()`, 0..11. */
  function GenerateBillNumber(year: nat, monthIndex: nat, random: real): (id: string)
    requires monthIndex < 12
    requires 0.0 <= random < 1.0
    ensures |id| >= 3 && id[..3] == "INV"
    ensures |id| == 3 + |SliceLast(ToDecimal(year), 2)| + 5
  {
    var y := SliceLast(ToDecimal(year), 2);
    var pm := PadStart(ToDecimal(monthIndex + 1), 2, '0');
    var pr := PadStart(ToDecimal(RandomBelow1000(random)), 3, '0');
    var p1 := "INV" + y;
    var p2 := p1 + pm;
    SliceOfAppend(p2, pr, 0, 3);
    SliceOfAppend(p1, pm, 0, 3);
    SliceOfAppend("INV", y, 0, 3);
    PaddedLength(monthIndex + 1, 2);
    PaddedLength(RandomBelow1000(random), 3);
    p2 + pr
  }

  /** A number below `10^k` zero-padded to `k` characters is `k`
      decimal digits that read back as the number. */
  lemma PaddedField(v: nat, k: nat)
    requires k >= 1 && v < Pow10(k)
    ensures |PadStart(ToDecimal(v), k, '0')| == k
    ensures AllDigits(PadStart(ToDecimal(v), k, '0'))
    ensures DecimalValue(PadStart(ToDecimal(v), k, '0')) == v
  {
    DecimalLength(v, k);
    DecimalRoundTrip(v);
    PadStartZeros(ToDecimal(v), k);
  }

  /** A number below `10^k` zero-padded to `k` characters has exactly
      `k` characters. */
  lemma PaddedLength(v: nat, k: nat)
    requires k >= 1 && v < Pow10(k)
    ensures |PadStart(ToDecimal(v), k, '0')| == k
  {
    DecimalLength(v, k);
  }

  /** A year below 10 has a one-digit `toString`, so its bill number has
      nine characters. */
  lemma BillNumberShortYear(year: nat, monthIndex: nat, random: real)
    requires year < 10
    requires monthIndex < 12
    requires 0.0 <= random < 1.0
    ensures |GenerateBillNumber(year, monthIndex, random)| == 9
  {
    assert ToDecimal(year) == [DigitChar(year)];
  }

  /** A bill number of a year from 10 on has ten characters: `INV`, then
      two digits reading as the year modulo 100, two reading as the month
      1..12 and three reading as the random value. */
  lemma BillNumberFormat(year: nat, monthIndex: nat, random: real)
    requires year >= 10
    requires monthIndex < 12
    requires 0.0 <= random < 1.0
    ensures var id := GenerateBillNumber(year, monthIndex, random);
      && |id| == 10
      && id[..3] == "INV"
      && AllDigits(id[3..5]) && DecimalValue(id[3..5]) == year % 100
      && AllDigits(id[5..7]) && DecimalValue(id[5..7]) == monthIndex + 1
      && AllDigits(id[7..]) && DecimalValue(id[7..]) == RandomBelow1000(random)
  {
    var y := SliceLast(ToDecimal(year), 2);
    var pm := PadStart(ToDecimal(monthIndex + 1), 2, '0');
    var pr := PadStart(ToDecimal(RandomBelow1000(random)), 3, '0');
    PaddedField(monthIndex + 1, 2);
    PaddedField(RandomBelow1000(random), 3);
    LastTwoDigits(year);
    var p1 := "INV" + y;
    var p2 := p1 + pm;
    var id := p2 + pr;
    SuffixOfAppend(p2, pr);
    SliceOfAppend(p2, pr, 5, 7);
    SuffixOfAppend(p1, pm);
    SliceOfAppend(p2, pr, 3, 5);
    SliceOfAppend(p1, pm, 3, 5);
    SuffixOfAppend("INV", y);
  }
}
