/** The amount in words printed on an invoice (`numToWords` and its inner
    `convert` in src/components/portal/InvoiceView.tsx): the Indian
    numbering system, with thousand, lakh (10^5) and crore (10^7) as the
    digit groups.  Besides the function as written, a word list `Words` and
    a reader `Value` for such word lists are defined, and the words of
    every positive amount are shown to read back as that amount. */
module InvoiceWords {
  import opened Text
  import opened Numbers

  const Ones: seq<string> := ["", "One", "Two", "Three", "Four", "Five", "Six", "Seven", "Eight", "Nine", "Ten",
                              "Eleven", "Twelve", "Thirteen", "Fourteen", "Fifteen", "Sixteen", "Seventeen",
                              "Eighteen", "Nineteen"]
  const Tens: seq<string> := ["", "", "Twenty", "Thirty", "Forty", "Fifty", "Sixty", "Seventy", "Eighty", "Ninety"]

  const Lakh: int := 100000
  const Crore: int := 10000000

  /** `convert(num)`.  A negative amount indexes `ones` below zero,
      which yields `undefined`, printed as the text "undefined". */
  function Convert(num: int): string
    decreases if num < 0 then 0 else num
  {
    if num < 0 then "undefined"
    else if num < 20 then Ones[num]
    else if num < 100 then Tens[num / 10] + (if num % 10 != 0 then " " + Ones[num % 10] else "")
    else if num < 1000 then Ones[num / 100] + " Hundred" + (if num % 100 != 0 then " " + Convert(num % 100) else "")
    else if num < Lakh then Convert(num / 1000) + " Thousand" + (if num % 1000 != 0 then " " + Convert(num % 1000) else "")
    else if num < Crore then Convert(num / Lakh) + " Lakh" + (if num % Lakh != 0 then " " + Convert(num % Lakh) else "")
    else Convert(num / Crore) + " Crore" + (if num % Crore != 0 then " " + Convert(num % Crore) else "")
  }

  const Suffix: string := " Rupees Only"

  /** `numToWords(n)` as written: the test for zero is made on the total
      as it is, before `Math.round`. */
  function NumToWords(n: real): (r: string)
    ensures n == 0.0 ==> r == "Zero Rupees Only"
    ensures n != 0.0 ==> r == Convert(Round(n)) + Suffix
    ensures |r| >= |Suffix| && r[|r| - |Suffix|..] == Suffix
  {
    if n == 0.0 then "Zero" + Suffix else Convert(Round(n)) + Suffix
  }

  /** A fraction that is not zero but rounds to zero gets no amount words
      at all, `convert(0)` being `ones[0]`, the empty text.  The invoice
      never passes one: its total is rounded already. */
  lemma FractionBelowHalf()
    ensures NumToWords(0.25) == " Rupees Only"
  {
    assert Round(0.25) == 0;
  }

  /** The invoice's total is a whole number: zero is "Zero", and any other
      total is its `convert` text. */
  lemma NumToWordsOfTotal(n: int)
    ensures n == 0 ==> NumToWords(n as real) == "Zero Rupees Only"
    ensures n != 0 ==> NumToWords(n as real) == Convert(n) + Suffix
  {
    assert Round(n as real) == n;
  }

  /** A word of the amount: non-empty, without spaces. */
  predicate IsWord(w: string)
  {
    w != "" && ' ' !in w
  }

  /** What a scale word counts; zero for any other text. */
  function ScaleUnit(w: string): nat
  {
    if w == "Crore" then Crore else if w == "Lakh" then Lakh
    else if w == "Thousand" then 1000 else if w == "Hundred" then 100 else 0
  }

  /** The words of `ones` are words and none of them is a scale word. */
  lemma OnesWord(i: int)
    requires 1 <= i < 20
    ensures IsWord(Ones[i]) && ScaleUnit(Ones[i]) == 0
  {
  }

  /** The same for the words of `tens`. */
  lemma TensWord(i: int)
    requires 2 <= i < 10
    ensures IsWord(Tens[i]) && ScaleUnit(Tens[i]) == 0
  {
  }

  /** The words of the amount `n`, each group followed by its scale word;
      a zero remainder contributes no words. */
  function Words(n: nat): (ws: seq<string>)
    ensures n >= 1 <==> |ws| >= 1
  {
    if n == 0 then []
    else if n < 20 then [Ones[n]]
    else if n < 100 then [Tens[n / 10]] + Words(n % 10)
    else if n < 1000 then [Ones[n / 100], "Hundred"] + Words(n % 100)
    else if n < Lakh then Words(n / 1000) + ["Thousand"] + Words(n % 1000)
    else if n < Crore then Words(n / Lakh) + ["Lakh"] + Words(n % Lakh)
    else Words(n / Crore) + ["Crore"] + Words(n % Crore)
  }

  /** Every entry is a word, and no scale word counts more than `n`. */
  predicate WordsBelow(ws: seq<string>, n: nat)
  {
    forall i :: 0 <= i < |ws| ==> IsWord(ws[i]) && ScaleUnit(ws[i]) <= n
  }

  /** The words of `n` are words, and none of their scale words counts
      more than `n`. */
  lemma {:induction false} WordsShape(n: nat)
    ensures WordsBelow(Words(n), n)
  {
    if n < 1000 {
      SmallWordsShape(n);
    } else if n < Lakh {
      WordsShape(n / 1000);
      WordsShape(n % 1000);
      GroupShape(n, 1000, "Thousand", Words(n / 1000), Words(n % 1000));
    } else if n < Crore {
      WordsShape(n / Lakh);
      WordsShape(n % Lakh);
      GroupShape(n, Lakh, "Lakh", Words(n / Lakh), Words(n % Lakh));
    } else {
      WordsShape(n / Crore);
      WordsShape(n % Crore);
      GroupShape(n, Crore, "Crore", Words(n / Crore), Words(n % Crore));
    }
  }

  /** `WordsShape` below a thousand. */
  lemma {:induction false} SmallWordsShape(n: nat)
    requires n < 1000
    ensures WordsBelow(Words(n), n)
  {
    ScaleUnitValues();
    if n == 0 {
    } else if n < 20 {
      OnesWord(n);
    } else if n < 100 {
      TensWord(n / 10);
      SmallWordsShape(n % 10);
      Grouped([], Tens[n / 10], Words(n % 10), n % 10, n);
      assert [Tens[n / 10]] + Words(n % 10) == [] + [Tens[n / 10]] + Words(n % 10);
    } else {
      OnesWord(n / 100);
      SmallWordsShape(n % 100);
      Grouped([Ones[n / 100]], "Hundred", Words(n % 100), n % 100, n);
      assert [Ones[n / 100], "Hundred"] + Words(n % 100) == [Ones[n / 100]] + ["Hundred"] + Words(n % 100);
    }
  }

  lemma GroupShape(n: nat, u: nat, scale: string, a: seq<string>, b: seq<string>)
    requires 1 <= u <= n && IsWord(scale) && ScaleUnit(scale) == u
    requires WordsBelow(a, n / u) && WordsBelow(b, n % u)
    ensures WordsBelow(a + [scale] + b, n)
  {
    Widen(a, n / u, n);
    Grouped(a, scale, b, n % u, n);
  }

  lemma ScaleUnitValues()
    ensures ScaleUnit("Hundred") == 100 && ScaleUnit("Thousand") == 1000
    ensures ScaleUnit("Lakh") == Lakh && ScaleUnit("Crore") == Crore
  {
  }

  lemma Widen(ws: seq<string>, m: nat, n: nat)
    requires WordsBelow(ws, m) && m <= n
    ensures WordsBelow(ws, n)
  {
  }

  /** The words of a group, its scale word and the words after it. */
  lemma Grouped(a: seq<string>, s: string, b: seq<string>, m: nat, n: nat)
    requires WordsBelow(a, n) && IsWord(s) && ScaleUnit(s) <= n && WordsBelow(b, m) && m <= n
    ensures WordsBelow(a + [s] + b, n)
  {
    var ws := a + [s] + b;
    forall i | 0 <= i < |ws|
      ensures IsWord(ws[i]) && ScaleUnit(ws[i]) <= n
    {
      if i < |a| {
        assert ws[i] == a[i];
      } else if i > |a| {
        assert ws[i] == b[i - |a| - 1];
      }
    }
  }

  /** The text `convert` builds is the word list joined with single
      spaces. */
  lemma {:induction false} ConvertIsJoin(n: nat)
    requires n >= 1
    ensures Convert(n) == Join(Words(n), ' ')
  {
    if n < 20 {
      OnesIsJoin(n);
    } else if n < 100 {
      TensIsJoin(n);
    } else if n < 1000 {
      if n % 100 != 0 {
        ConvertIsJoin(n % 100);
      }
      HundredsIsJoin(n);
    } else {
      var unit := if n < Lakh then 1000 else if n < Crore then Lakh else Crore;
      ConvertIsJoin(n / unit);
      if n % unit != 0 {
        ConvertIsJoin(n % unit);
      }
      if n < Lakh {
        ThousandsIsJoin(n);
      } else if n < Crore {
        LakhsIsJoin(n);
      } else {
        CroresIsJoin(n);
      }
    }
  }

  lemma OnesIsJoin(n: nat)
    requires 1 <= n < 20
    ensures Convert(n) == Join(Words(n), ' ')
  {
    assert Words(n) == [Ones[n]];
  }

  lemma TensIsJoin(n: nat)
    requires 20 <= n < 100
    ensures Convert(n) == Join(Words(n), ' ')
  {
    var t, u := n / 10, n % 10;
    assert Words(n) == [Tens[t]] + Words(u);
    if u != 0 {
      assert Words(u) == [Ones[u]];
      assert Convert(n) == Tens[t] + " " + Ones[u];
      JoinConcat([Tens[t]], [Ones[u]], ' ');
    } else {
      assert Convert(n) == Tens[t];
    }
  }

  /** `ConvertIsJoin` for three-digit amounts, given it for the last two
      digits. */
  lemma HundredsIsJoin(n: nat)
    requires 100 <= n < 1000
    requires n % 100 != 0 ==> Convert(n % 100) == Join(Words(n % 100), ' ')
    ensures Convert(n) == Join(Words(n), ' ')
  {
    var h, r := n / 100, n % 100;
    assert Convert(n) == Ones[h] + " Hundred" + (if r != 0 then " " + Convert(r) else "");
    assert Words(n) == [Ones[h]] + ["Hundred"] + Words(r);
    assert r != 0 <==> |Words(r)| >= 1;
    SpacedScales();
    GroupJoin(Ones[h], [Ones[h]], "Hundred", " Hundred", Convert(r), Words(r));
  }

  /** `ConvertIsJoin` for the amounts of a thousand and more, given it
      for the group and the remainder. */
  lemma ThousandsIsJoin(n: nat)
    requires 1000 <= n < Lakh
    requires Convert(n / 1000) == Join(Words(n / 1000), ' ')
    requires n % 1000 != 0 ==> Convert(n % 1000) == Join(Words(n % 1000), ' ')
    ensures Convert(n) == Join(Words(n), ' ')
  {
    var q, r := n / 1000, n % 1000;
    assert Convert(n) == Convert(q) + " Thousand" + (if r != 0 then " " + Convert(r) else "");
    assert Words(n) == Words(q) + ["Thousand"] + Words(r);
    assert r != 0 <==> |Words(r)| >= 1;
    SpacedScales();
    GroupJoin(Convert(q), Words(q), "Thousand", " Thousand", Convert(r), Words(r));
  }

  lemma LakhsIsJoin(n: nat)
    requires Lakh <= n < Crore
    requires Convert(n / Lakh) == Join(Words(n / Lakh), ' ')
    requires n % Lakh != 0 ==> Convert(n % Lakh) == Join(Words(n % Lakh), ' ')
    ensures Convert(n) == Join(Words(n), ' ')
  {
    var q, r := n / Lakh, n % Lakh;
    assert Convert(n) == Convert(q) + " Lakh" + (if r != 0 then " " + Convert(r) else "");
    assert Words(n) == Words(q) + ["Lakh"] + Words(r);
    assert r != 0 <==> |Words(r)| >= 1;
    SpacedScales();
    GroupJoin(Convert(q), Words(q), "Lakh", " Lakh", Convert(r), Words(r));
  }

  lemma CroresIsJoin(n: nat)
    requires Crore <= n
    requires Convert(n / Crore) == Join(Words(n / Crore), ' ')
    requires n % Crore != 0 ==> Convert(n % Crore) == Join(Words(n % Crore), ' ')
    ensures Convert(n) == Join(Words(n), ' ')
  {
    var q, r := n / Crore, n % Crore;
    assert Convert(n) == Convert(q) + " Crore" + (if r != 0 then " " + Convert(r) else "");
    assert Words(n) == Words(q) + ["Crore"] + Words(r);
    assert r != 0 <==> |Words(r)| >= 1;
    SpacedScales();
    GroupJoin(Convert(q), Words(q), "Crore", " Crore", Convert(r), Words(r));
  }

  /** The scale texts `convert` appends are the scale words after a
      space. */
  lemma SpacedScales()
    ensures " Hundred" == " " + "Hundred" && " Thousand" == " " + "Thousand"
    ensures " Lakh" == " " + "Lakh" && " Crore" == " " + "Crore"
  {
  }

  /** One step of the join: a group's text followed by its scale word, and
      by the text of the remainder when that has words. */
  lemma GroupJoin(head: string, hw: seq<string>, scale: string, spaced: string, tail: string, tw: seq<string>)
    requires |hw| >= 1 && head == Join(hw, ' ') && spaced == " " + scale
    requires |tw| >= 1 ==> tail == Join(tw, ' ')
    ensures head + spaced + (if |tw| >= 1 then " " + tail else "") == Join(hw + [scale] + tw, ' ')
  {
    JoinSnoc(head, hw, scale, spaced);
    if |tw| >= 1 {
      JoinAppend(head + spaced, hw + [scale], tail, tw);
    } else {
      assert hw + [scale] + tw == hw + [scale];
    }
  }

  lemma JoinSnoc(head: string, hw: seq<string>, scale: string, spaced: string)
    requires |hw| >= 1 && head == Join(hw, ' ') && spaced == " " + scale
    ensures Join(hw + [scale], ' ') == head + spaced
  {
    JoinConcat(hw, [scale], ' ');
    assert Join([scale], ' ') == scale;
  }

  lemma JoinAppend(front: string, a: seq<string>, tail: string, tw: seq<string>)
    requires |a| >= 1 && |tw| >= 1 && front == Join(a, ' ') && tail == Join(tw, ' ')
    ensures Join(a + tw, ' ') == front + (" " + tail)
  {
    JoinConcat(a, tw, ' ');
  }

  // ---------------------------------------------------------------------
  // reading the words back

  /** The first index from `i` on where `table` holds `w`, or -1. */
  function Find(table: seq<string>, w: string, i: nat): (k: int)
    ensures k == -1 || (i <= k < |table| && table[k] == w)
    decreases |table| - i
  {
    if i >= |table| then -1 else if table[i] == w then i else Find(table, w, i + 1)
  }

  /** The value of a word of `ones` or `tens`; zero for any other text. */
  function UnitValue(w: string): nat
  {
    var o := Find(Ones, w, 1);
    if o >= 1 then o
    else
      var t := Find(Tens, w, 2);
      if t >= 2 then 10 * t else 0
  }

  lemma OnesValue(i: int)
    requires 1 <= i < 20
    ensures UnitValue(Ones[i]) == i
  {
    FindSkips(Ones, Ones[i], 1, i);
  }

  /** `Find` stops at the first index holding `w`. */
  lemma {:induction false} FindSkips(table: seq<string>, w: string, i: nat, k: nat)
    requires i <= k < |table| && table[k] == w
    requires forall j :: i <= j < k ==> table[j] != w
    ensures Find(table, w, i) == k
    decreases k - i
  {
    if i < k {
      FindSkips(table, w, i + 1, k);
    }
  }

  lemma TensValue(i: int)
    requires 2 <= i < 10
    ensures UnitValue(Tens[i]) == 10 * i
  {
    var w := Tens[i];
    TensEndInY(i);
    forall j | 1 <= j < |Ones|
      ensures Ones[j] != w
    {
      OnesEndOtherwise(j);
    }
    FindAbsent(Ones, w, 1);
    FindSkips(Tens, w, 2, i);
  }

  /** Every tens word ends in `y`, */
  lemma TensEndInY(i: int)
    requires 2 <= i < 10
    ensures |Tens[i]| >= 1 && Tens[i][|Tens[i]| - 1] == 'y'
  {
  }

  /** and no ones word does. */
  lemma OnesEndOtherwise(j: int)
    requires 1 <= j < |Ones|
    ensures |Ones[j]| >= 1 && Ones[j][|Ones[j]| - 1] != 'y'
  {
  }

  /** `Find` gives -1 when no later index holds `w`. */
  lemma {:induction false} FindAbsent(table: seq<string>, w: string, i: nat)
    requires forall j :: i <= j < |table| ==> table[j] != w
    ensures Find(table, w, i) == -1
    decreases |table| - i
  {
    if i < |table| {
      FindAbsent(table, w, i + 1);
    }
  }

  /** The last index holding `w`, or -1. */
  function LastIndex<T(==)>(ws: seq<T>, w: T): (i: int)
    ensures -1 <= i < |ws|
    ensures i >= 0 ==> ws[i] == w && w !in ws[i + 1..]
    ensures i < 0 ==> w !in ws
  {
    if |ws| == 0 then -1
    else if ws[|ws| - 1] == w then |ws| - 1
    else
      var k := LastIndex(ws[..|ws| - 1], w);
      assert ws == ws[..|ws| - 1] + [ws[|ws| - 1]];
      assert k >= 0 ==> ws[k + 1..] == ws[..|ws| - 1][k + 1..] + [ws[|ws| - 1]];
      k
  }

  /** The sum of the word values of a list. */
  function SumUnits(ws: seq<string>): nat
  {
    if |ws| == 0 then 0 else UnitValue(ws[0]) + SumUnits(ws[1..])
  }

  /** The scale words from the largest down, and what each counts. */
  const ScaleWords: seq<string> := ["Crore", "Lakh", "Thousand", "Hundred"]
  const ScaleUnits: seq<int> := [Crore, Lakh, 1000, 100]

  /** How a reader of the Indian numbering system reads a word list, from
      the scale `ScaleWords[k]` down: the words before the last such scale
      word count in that scale and those after it are read with the next
      smaller scale; a list without scale words is the sum of its unit and
      tens words. */
  function ValueAt(ws: seq<string>, k: nat): int
    requires k <= |ScaleWords|
    decreases |ws|, |ScaleWords| - k
  {
    if k == |ScaleWords| then SumUnits(ws)
    else
      var i := LastIndex(ws, ScaleWords[k]);
      if i >= 0 then ValueAt(ws[..i], k) * ScaleUnits[k] + ValueAt(ws[i + 1..], k + 1)
      else ValueAt(ws, k + 1)
  }

  /** The value of a word list. */
  function Value(ws: seq<string>): int
  {
    ValueAt(ws, 0)
  }

  /** An index holding `w` with no `w` after it is the last index. */
  lemma LastIndexAt(s: seq<string>, w: string, p: int)
    requires 0 <= p < |s| && s[p] == w && w !in s[p + 1..]
    ensures LastIndex(s, w) == p
  {
    assert s[p] in s;
  }

  /** Amounts below 100 are read as the sum of their words. */
  lemma UnitsValue(n: nat)
    requires n < 100
    ensures SumUnits(Words(n)) == n
  {
    if 1 <= n < 20 {
      OnesValue(n);
    } else if n >= 20 {
      TensValue(n / 10);
      if n % 10 != 0 {
        OnesValue(n % 10);
      }
      assert Words(n)[1..] == Words(n % 10);
    }
  }

  /** An amount of at least one unit of scale `k` (and below the next
      larger scale) is its group's words, the scale word and the words of
      the remainder. */
  lemma ScaleSplit(n: nat, k: nat)
    requires k < |ScaleWords| && ScaleUnits[k] <= n && (k == 0 || n < ScaleUnits[k - 1])
    ensures Words(n) == Words(n / ScaleUnits[k]) + [ScaleWords[k]] + Words(n % ScaleUnits[k])
  {
    if k == 3 {
      assert Words(n / 100) == [Ones[n / 100]];
    }
  }

  /** An amount below a scale has no word of that scale. */
  lemma BelowScale(n: nat, k: nat)
    requires k < |ScaleWords| && n < ScaleUnits[k]
    ensures ScaleWords[k] !in Words(n)
  {
    var ws := Words(n);
    WordsShape(n);
    ScaleUnitValues();
    assert ScaleUnit(ScaleWords[k]) == ScaleUnits[k];
    forall i | 0 <= i < |ws|
      ensures ws[i] != ScaleWords[k]
    {
    }
  }

  /** Reading from scale `k` splits at the last scale word. */
  lemma ValueAtSplit(s: seq<string>, a: seq<string>, b: seq<string>, k: nat)
    requires k < |ScaleWords| && s == a + [ScaleWords[k]] + b && ScaleWords[k] !in b
    ensures ValueAt(s, k) == ValueAt(a, k) * ScaleUnits[k] + ValueAt(b, k + 1)
  {
    assert s[|a|] == ScaleWords[k] && s[..|a|] == a && s[|a| + 1..] == b;
    LastIndexAt(s, ScaleWords[k], |a|);
  }

  /** Reading from scale `k` a list without its word reads it from the
      next smaller scale. */
  lemma ValueAtSkip(s: seq<string>, k: nat)
    requires k < |ScaleWords| && ScaleWords[k] !in s
    ensures ValueAt(s, k) == ValueAt(s, k + 1)
  {
  }

  /** Words below scale `k - 1` read back from scale `k` on as their
      amount. */
  lemma {:induction false} WordsValueAt(n: nat, k: nat)
    requires k <= |ScaleWords| && (k == 0 || n < ScaleUnits[k - 1])
    ensures ValueAt(Words(n), k) == n
    decreases n, |ScaleWords| - k
  {
    if k == |ScaleWords| {
      UnitsValue(n);
    } else {
      var u := ScaleUnits[k];
      if n >= u {
        DivideByUnit(n, u);
        WordsValueAt(n / u, k);
        WordsValueAt(n % u, k + 1);
        GroupsValue(n, k);
      } else {
        BelowScale(n, k);
        ValueAtSkip(Words(n), k);
        WordsValueAt(n, k + 1);
      }
    }
  }

  /** One step of `WordsValueAt`: the group count and the remainder read
      back give the amount. */
  lemma GroupsValue(n: nat, k: nat)
    requires k < |ScaleWords| && ScaleUnits[k] <= n
    requires k == 0 || n < ScaleUnits[k - 1]
    requires ValueAt(Words(n / ScaleUnits[k]), k) == n / ScaleUnits[k]
    requires ValueAt(Words(n % ScaleUnits[k]), k + 1) == n % ScaleUnits[k]
    ensures ValueAt(Words(n), k) == n
  {
    var u := ScaleUnits[k];
    var q, r := n / u, n % u;
    DivideByUnit(n, u);
    ScaleSplit(n, k);
    BelowScale(r, k);
    ValueAtSplit(Words(n), Words(q), Words(r), k);
  }

  lemma DivideByUnit(n: nat, u: int)
    requires 2 <= u <= n
    ensures 1 <= n / u < n && n % u < u && n == (n / u) * u + n % u
  {
  }

  /** The text `convert` makes of a positive amount splits at its spaces
      into exactly its word list: no empty part, so no doubled, leading or
      trailing space. */
  lemma ConvertWords(n: nat)
    requires n >= 1
    ensures Split(Convert(n), ' ') == Words(n)
    ensures forall i :: 0 <= i < |Split(Convert(n), ' ')| ==> IsWord(Split(Convert(n), ' ')[i])
  {
    ConvertIsJoin(n);
    var ws := Words(n);
    WordsShape(n);
    assert forall k :: 0 <= k < |ws| ==> ' ' !in ws[k];
    SplitJoin(ws, ' ');
  }

  /** The words of every positive amount read back as that amount. */
  lemma WordsReadBack(n: nat)
    requires n >= 1
    ensures Value(Split(Convert(n), ' ')) == n
  {
    ConvertWords(n);
    WordsValueAt(n, 0);
  }

  /** Different positive amounts are written differently. */
  lemma ConvertInjective(m: nat, n: nat)
    requires m >= 1 && n >= 1 && Convert(m) == Convert(n)
    ensures m == n
  {
    WordsReadBack(m);
    WordsReadBack(n);
  }

  /** "Zero" is not the text of a positive amount. */
  lemma ZeroIsNoAmount(n: nat)
    requires n >= 1
    ensures Convert(n) != "Zero"
  {
    ConvertWords(n);
    SplitWithoutSeparator("Zero", ' ');
  }

  /** Different whole totals of zero and more are written differently. */
  lemma NumToWordsInjective(m: int, n: int)
    requires m >= 0 && n >= 0 && NumToWords(m as real) == NumToWords(n as real)
    ensures m == n
  {
    NumToWordsOfTotal(m);
    NumToWordsOfTotal(n);
    var a, b := NumToWords(m as real), NumToWords(n as real);
    assert a[..|a| - |Suffix|] == b[..|b| - |Suffix|];
    if m == 0 && n != 0 {
      assert b[..|b| - |Suffix|] == Convert(n);
      ZeroIsNoAmount(n);
    } else if m != 0 && n == 0 {
      assert a[..|a| - |Suffix|] == Convert(m);
      ZeroIsNoAmount(m);
    } else if m != 0 && n != 0 {
      assert a[..|a| - |Suffix|] == Convert(m);
      assert b[..|b| - |Suffix|] == Convert(n);
      ConvertInjective(m, n);
    }
  }

  /** A negative total indexes `ones` below zero. */
  lemma NegativeTotal(n: int)
    requires n < 0
    ensures NumToWords(n as real) == "undefined Rupees Only"
  {
    NumToWordsOfTotal(n);
  }

  /** The amounts below twenty are their `ones` word, and the multiples
      of ten below a hundred their `tens` word with nothing after it. */
  lemma SmallAmounts(n: int)
    ensures 1 <= n < 20 ==> Convert(n) == Ones[n]
    ensures 2 <= n < 10 ==> Convert(10 * n) == Tens[n]
  {
    if 2 <= n < 10 {
      assert (10 * n) / 10 == n && (10 * n) % 10 == 0;
    }
  }

  /** A whole number of thousands, lakhs or crores is the count followed
      by the scale word: no remainder words and no trailing space. */
  lemma ScaleAmounts(k: int)
    requires 1 <= k
    ensures k < 100 ==> Convert(k * 1000) == Convert(k) + " Thousand"
    ensures k < 100 ==> Convert(k * Lakh) == Convert(k) + " Lakh"
    ensures Convert(k * Crore) == Convert(k) + " Crore"
  {
    assert (k * 1000) / 1000 == k && (k * 1000) % 1000 == 0;
    assert (k * Lakh) / Lakh == k && (k * Lakh) % Lakh == 0;
    assert (k * Crore) / Crore == k && (k * Crore) % Crore == 0;
  }

  /** A total of one to nineteen lakhs or crores is the count's word and
      the group word, with no remainder words and no trailing space. */
  lemma WholeGroups(k: int)
    requires 1 <= k < 20
    ensures NumToWords((k * Lakh) as real) == Ones[k] + " Lakh" + Suffix
    ensures NumToWords((k * Crore) as real) == Ones[k] + " Crore" + Suffix
  {
    ScaleAmounts(k);
    NumToWordsOfTotal(k * Lakh);
    NumToWordsOfTotal(k * Crore);
  }

}
