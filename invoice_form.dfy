/**
 * The invoice form of the web client
 * (frontend/invoice-system/src/components/InvoiceForm.tsx): the zod schema
 * of a new invoice, the live totals (subtotal, SGST, CGST, total) and the
 * client's own amount-to-words converter.
 *
 * Amounts reach the converter as `parseFloat(x.toFixed(2))` values, so the
 * converter is modelled on the whole number of paise of its argument.
 */
module InvoiceForm {
  import opened Text
  import opened Wrappers
  import opened Money
  import opened IndianWords

  // ---------------------------------------------------------------------
  // The client's words converter
  // ---------------------------------------------------------------------

  /** Each word followed by one space, as `convertChunk` appends them. */
  function Spaced(ws: seq<string>): string
    decreases |ws|
  {
    if ws == [] then "" else ws[0] + " " + Spaced(ws[1..])
  }

  lemma {:induction false} SpacedJoin(ws: seq<string>)
    requires ws != []
    ensures Spaced(ws) == Join(ws, " ") + " "
    decreases |ws|
  {
    if |ws| > 1 {
      SpacedJoin(ws[1..]);
    }
  }

  lemma {:induction false} SpacedAppend(a: seq<string>, b: seq<string>)
    ensures Spaced(a + b) == Spaced(a) + Spaced(b)
    decreases |a|
  {
    if a == [] {
      assert a + b == b;
    } else {
      assert (a + b)[1..] == a[1..] + b;
      SpacedAppend(a[1..], b);
    }
  }

  /**
   * `convertChunk(n)`: `result` collects the hundreds word, then a teens word
   * or a tens word, then a unit word, each followed by a space, while `n`
   * drops the part already spelled. The client's `tens` table has "" at
   * index 1 where the server's has "Ten"; that entry is never read, since
   * 10-19 take the teens branch.
   */
  method ConvertChunk(n0: nat) returns (result: string)
    ensures result == Spaced(ChunkWords(n0))
  {
    var n := n0;
    result := "";
    // `done` are the words spelled so far and `left` the part still to spell.
    ghost var done: seq<string> := [];
    ghost var left: nat := n0;
    if n >= 100 {
      HundredStep(n);
      result := result + (UnitWord(n / 100) + " Hundred ");
      done := [UnitWord(n / 100), "Hundred"];
      n := n % 100;
      left := n;
    } else {
      assert ChunkWords(n0) == done + ChunkWords(n);
    }
    assert result == Spaced(done) && ChunkWords(n0) == done + ChunkWords(left) && left == n < 100;
    if 10 <= n <= 19 {
      ChunkStep(done, n, TeenWord(n - 10), 0);
      SpacedStep(done, TeenWord(n - 10));
      result := result + (TeenWord(n - 10) + " ");
      done := done + [TeenWord(n - 10)];
      left := 0;
    } else if n >= 20 {
      ChunkStep(done, n, TensWord(n / 10), n % 10);
      SpacedStep(done, TensWord(n / 10));
      result := result + (TensWord(n / 10) + " ");
      done := done + [TensWord(n / 10)];
      n := n % 10;
      left := n;
    }
    assert result == Spaced(done) && ChunkWords(n0) == done + ChunkWords(left);
    if 1 <= n <= 9 {
      assert left == n;
      UnitStep(done, n);
      SpacedStep(done, UnitWord(n));
      result := result + (UnitWord(n) + " ");
      done := done + [UnitWord(n)];
    } else {
      assert left == 0;
      assert done + ChunkWords(left) == done;
    }
  }

  /** A group of a hundred or more starts with its hundreds word and "Hundred". */
  lemma HundredStep(n: nat)
    requires n >= 100
    ensures ChunkWords(n) == [UnitWord(n / 100), "Hundred"] + ChunkWords(n % 100)
    ensures Spaced([UnitWord(n / 100), "Hundred"]) == UnitWord(n / 100) + " Hundred "
  {
    SpacedWord(UnitWord(n / 100), ["Hundred"]);
    SpacedWord("Hundred", []);
  }

  /** Below one hundred, the first word spelled leaves the units to spell. */
  lemma ChunkStep(done: seq<string>, n: nat, w: string, u: nat)
    requires 10 <= n < 100
    requires if n < 20 then w == TeenWord(n - 10) && u == 0 else w == TensWord(n / 10) && u == n % 10
    ensures done + ChunkWords(n) == (done + [w]) + ChunkWords(u)
  {
    assert ChunkWords(n) == [w] + ChunkWords(u);
  }

  /** Below ten, a group is its unit word. */
  lemma UnitStep(done: seq<string>, n: nat)
    requires 1 <= n <= 9
    ensures done + ChunkWords(n) == done + [UnitWord(n)]
  {
  }

  lemma SpacedWord(w: string, rest: seq<string>)
    ensures Spaced([w] + rest) == w + " " + Spaced(rest)
  {
    assert ([w] + rest)[1..] == rest;
  }

  lemma SpacedStep(done: seq<string>, w: string)
    ensures Spaced(done + [w]) == Spaced(done) + (w + " ")
  {
    SpacedAppend(done, [w]);
    SpacedWord(w, []);
  }

  /**
   * The result of `convertNumberToWords` on an amount of `cents` paise, as
   * written: zero answers a bare "Zero"; the paise clause keeps the space
   * `convertChunk` leaves after its last word. A negative amount has no
   * positive group, so it reads "Zero", and its paise are those of the
   * floored amount (`cents % 100` is the Euclidean remainder).
   */
  function AsWrittenWords(cents: int): string {
    if cents == 0 then "Zero"
    else
      Join(Words(Rupees(cents)), " ")
      + (if cents % 100 > 0 then " and " + Spaced(ChunkWords(cents % 100)) + " Paise" else "")
      + " Only"
  }

  /** The whole rupees the converter spells: none for a negative amount. */
  function Rupees(cents: int): nat {
    if cents > 0 then cents / 100 else 0
  }

  function Positive(x: int): nat {
    if x > 0 then x else 0
  }

  /** JavaScript's `a % b`: the remainder takes the sign of `a`. */
  function JsRem(a: int, b: int): (r: int)
    requires b > 0
    ensures -b < r < b && (a >= 0 ==> r == a % b) && (a <= 0 ==> r <= 0)
  {
    if a >= 0 then a % b else -((-a) % b)
  }

  /** The words the converter is evidently meant to produce: single spaces, always framed by " Only". */
  function NumberWords(cents: int): string {
    SpelledAmount(Rupees(cents), cents % 100)
  }

  /** The corrected words of `rupees` and `paise` (below 100). */
  function SpelledAmount(rupees: nat, paise: nat): string {
    Join(Words(rupees), " ")
    + (if paise > 0 then " and " + Join(ChunkWords(paise), " ") + " Paise" else "")
    + " Only"
  }

  /** The words of `NumberWords`, one token each. */
  function AmountTokens(cents: int): seq<string> {
    Words(Rupees(cents))
    + (if cents % 100 > 0 then ["and"] + ChunkWords(cents % 100) + ["Paise"] else [])
    + ["Only"]
  }

  /**
   * `convertNumberToWords(num)` for `num` = `cents` / 100: `num` is split
   * into crore, lakh and thousand groups and the rest, `words` collects the
   * spelled groups, and the paise clause is appended last.
   */
  method ConvertNumberToWords(cents: int) returns (r: string)
    ensures r == AsWrittenWords(cents)
  {
    if cents == 0 {
      return "Zero";
    }
    ghost var n := Rupees(cents);
    var crores, lakhs, thousands, hundreds, paise := SplitAmount(cents);

    var words := GroupWords(crores, lakhs, thousands, hundreds, n);
    words := ZeroIfBlank(words, n);
    words := AddPaise(words, paise);
    r := Trim(words) + " Only";
  }

  /** `if (words.trim() === "") words = "Zero"; words = words.trim();` */
  method ZeroIfBlank(words: string, ghost n: nat) returns (words': string)
    requires words == Spaced(Scaled(n) + ChunkWords(n % 1000))
    ensures words' == Join(Words(n), " ") && words' != [] && IsTrimmed(words')
  {
    JoinedWordsTrimmed(n);
    words' := words;
    if Trim(words') == "" {
      SpelledNothing(n);
      words' := "Zero";
    } else {
      SpelledSomething(n);
    }
    words' := Trim(words');
  }

  /** The `Math.floor` / `%=` steps that split the amount into its groups and its paise. */
  method SplitAmount(cents: int) returns (crores: int, lakhs: int, thousands: int, hundreds: int, paise: nat)
    ensures Positive(crores) == Rupees(cents) / Crore && Positive(lakhs) == Rupees(cents) % Crore / Lakh
    ensures Positive(thousands) == Rupees(cents) % Lakh / 1000 && Positive(hundreds) == Rupees(cents) % 1000
    ensures paise == cents % 100
  {
    if cents >= 0 {
      CentsGroups(cents);
    } else {
      NegativeGroups(cents);
    }
    var num := cents;
    crores := num / 1000000000;
    num := JsRem(num, 1000000000);
    lakhs := num / 10000000;
    num := JsRem(num, 10000000);
    thousands := num / 100000;
    num := JsRem(num, 100000);
    hundreds := num / 100;
    paise := num - hundreds * 100;
  }

  /** A negative amount leaves non-positive remainders, and its paise are those of the floored amount. */
  lemma NegativeGroups(c: int)
    requires c < 0
    ensures JsRem(JsRem(c, 1000000000), 10000000) == -((-c) % 10000000)
    ensures JsRem(JsRem(JsRem(c, 1000000000), 10000000), 100000) == -((-c) % 100000)
    ensures (-((-c) % 100000)) % 100 == c % 100
  {
    var m := -c;
    assert JsRem(c, 1000000000) == -(m % 1000000000);
    ModBillionCrore(m);
    assert JsRem(JsRem(c, 1000000000), 10000000) == -(m % 10000000);
    ModCroreLakh(m);
    NegativePaise(m);
  }

  lemma ModBillionCrore(m: nat)
    ensures m % 1000000000 % 10000000 == m % 10000000
  {
  }

  /** Negating what is left below one lakh keeps the paise of the floored amount. */
  lemma NegativePaise(m: int)
    requires m >= 0
    ensures (-(m % 100000)) % 100 == (-m) % 100
  {
    var q, r := m / 100000, m % 100000;
    assert -m == -r + 100 * (-1000 * q);
    ShiftHundreds(-r, -1000 * q);
  }

  /** Whole rupees do not change the paise. */
  lemma ShiftHundreds(a: int, k: int)
    ensures (a + 100 * k) % 100 == a % 100
  {
  }

  /** `if (paise > 0) words += ` and ${convertChunk(paise)} Paise``, on trimmed, non-empty `words`. */
  method AddPaise(words: string, paise: nat) returns (words': string)
    requires words != [] && IsTrimmed(words)
    ensures words' == words + (if paise > 0 then " and " + Spaced(ChunkWords(paise)) + " Paise" else "")
    ensures Trim(words') == words'
  {
    words' := words;
    if paise > 0 {
      var chunk := ConvertChunk(paise);
      words' := words + (" and " + chunk + " Paise");
      TrimmedAppend(words, " and " + chunk + " Paise");
    }
    TrimOfTrimmed(words');
  }

  /** The four `if (… > 0) words += …` lines of the converter. */
  method GroupWords(crores: int, lakhs: int, thousands: int, hundreds: int, ghost n: nat)
    returns (words: string)
    requires Positive(crores) == n / Crore && Positive(lakhs) == n % Crore / Lakh
    requires Positive(thousands) == n % Lakh / 1000 && Positive(hundreds) == n % 1000
    ensures words == Spaced(Scaled(n) + ChunkWords(n % 1000))
  {
    words := "";
    words := AddChunk(words, crores, "Crore", "Crore ", []);
    ghost var groups := Group(n / Crore, "Crore");
    assert [] + groups == groups;
    words := AddChunk(words, lakhs, "Lakh", "Lakh ", groups);
    groups := groups + Group(n % Crore / Lakh, "Lakh");
    words := AddChunk(words, thousands, "Thousand", "Thousand ", groups);
    groups := groups + Group(n % Lakh / 1000, "Thousand");
    if hundreds > 0 {
      var chunk := ConvertChunk(hundreds);
      SpacedAppend(groups, ChunkWords(hundreds));
      words := words + chunk;
    } else {
      assert groups + ChunkWords(n % 1000) == groups;
    }
  }

  /** One group of the converter: `convertChunk(g) + scale + " "` when `g` is non-zero. */
  method AddChunk(words: string, g: int, scale: string, suffix: string, ghost ws: seq<string>)
    returns (words': string)
    requires words == Spaced(ws) && suffix == scale + " "
    ensures words' == Spaced(ws + Group(Positive(g), scale))
  {
    words' := words;
    if g > 0 {
      var chunk := ConvertChunk(g);
      SpacedStep(ChunkWords(g), scale);
      SpacedAppend(ws, ChunkWords(g) + [scale]);
      words' := words + (chunk + suffix);
    } else {
      assert ws + Group(Positive(g), scale) == ws;
    }
  }

  /** Blank group words come from a zero amount, whose spelling is "Zero". */
  lemma SpelledNothing(n: nat)
    requires Trim(Spaced(Scaled(n) + ChunkWords(n % 1000))) == ""
    ensures Trim("Zero") == Join(Words(n), " ")
  {
    if n > 0 {
      SettlePositive(n);
    }
    SettleZero(n);
    JoinedWordsTrimmed(n);
    TrimmedWord(Join(Words(n), " "));
  }

  /** Group words that are not blank trim to the amount's spelling. */
  lemma SpelledSomething(n: nat)
    requires Trim(Spaced(Scaled(n) + ChunkWords(n % 1000))) != ""
    ensures Trim(Spaced(Scaled(n) + ChunkWords(n % 1000))) == Join(Words(n), " ")
  {
    if n == 0 {
      SettleZero(n);
    } else {
      SettlePositive(n);
    }
  }

  /** Nothing spelled for zero: the converter falls back to "Zero". */
  lemma SettleZero(n: nat)
    requires n == 0
    ensures Trim(Spaced(Scaled(n) + ChunkWords(n % 1000))) == "" && Join(Words(n), " ") == "Zero"
  {
    var ws := Scaled(n) + ChunkWords(n % 1000);
    assert ws == [];
    assert Spaced(ws) == "";
  }

  /** A word without surrounding whitespace is its own trim. */
  lemma TrimmedWord(w: string)
    requires w != "" && IsTrimmed(w)
    ensures Trim(w) == w
  {
    TrimOfTrimmed(w);
  }

  /** A positive amount's spelled groups trim to its words joined by single spaces. */
  lemma SettlePositive(n: nat)
    requires n > 0
    ensures Trim(Spaced(Scaled(n) + ChunkWords(n % 1000))) == Join(Words(n), " ") != ""
  {
    var ws := Words(n);
    assert Scaled(n) + ChunkWords(n % 1000) == ws;
    JoinedWordsTrimmed(n);
    SpacedJoin(ws);
    TrimTrailingSpace(Join(ws, " "));
  }

  lemma JoinedWordsTrimmed(n: nat)
    ensures Join(Words(n), " ") != [] && IsTrimmed(Join(Words(n), " "))
  {
    WordsAreTokens(n);
    JoinTokensWellSpaced(Words(n));
  }

  lemma TrimmedAppend(a: string, b: string)
    requires a != [] && IsTrimmed(a) && b != [] && !IsSpace(b[|b| - 1])
    ensures IsTrimmed(a + b)
  {
    assert (a + b)[0] == a[0];
  }

  /** The five quantities `convertNumberToWords` derives from its argument, in whole paise. */
  lemma CentsGroups(c: nat)
    ensures c / 1000000000 == c / 100 / Crore
    ensures c % 1000000000 / 10000000 == c / 100 % Crore / Lakh
    ensures c % 1000000000 % 10000000 / 100000 == c / 100 % Lakh / 1000
    ensures c % 1000000000 % 10000000 % 100000 / 100 == c / 100 % 1000
    ensures c % 1000000000 % 10000000 % 100000 % 100 == c % 100
  {
    ShiftCrore(c);
    var e := CentsLakh(c);
    var f := CentsThousand(c, e);
    CentsHundreds(c, e, f);
  }

  /** The crore step leaves the paise and the rupees below one crore; its lakh group is the rupees' lakh group. */
  lemma CentsLakh(c: nat) returns (e: nat)
    ensures e == c % 1000000000 % 10000000
    ensures c % 1000000000 / 10000000 == c / 100 % Crore / Lakh
    ensures e == 100 * (c / 100 % Lakh) + c % 100
  {
    var r, p := c / 100, c % 100;
    var d := c % 1000000000;
    ShiftCrore(c);
    CentsOf(r % Crore, p);
    ShiftLakh(d);
    ModCroreLakh(r);
    e := d % 10000000;
  }

  /** The lakh step leaves the paise and the rupees below one lakh; its thousand group is the rupees' thousand group. */
  lemma CentsThousand(c: nat, e: nat) returns (f: nat)
    requires e == 100 * (c / 100 % Lakh) + c % 100
    ensures f == e % 100000
    ensures e / 100000 == c / 100 % Lakh / 1000
    ensures f == 100 * (c / 100 % 1000) + c % 100
  {
    var r, p := c / 100, c % 100;
    CentsOf(r % Lakh, p);
    ShiftThousand(e);
    ModLakhThousand(r);
    f := e % 100000;
  }

  /** The thousand step leaves the hundreds group and the paise. */
  lemma CentsHundreds(c: nat, e: nat, f: nat)
    requires f == 100 * (c / 100 % 1000) + c % 100
    ensures f / 100 == c / 100 % 1000 && f % 100 == c % 100
  {
    CentsOf(c / 100 % 1000, c % 100);
  }

  lemma ModCroreLakh(r: nat)
    ensures r % Crore % Lakh == r % Lakh
  {
  }

  lemma ModLakhThousand(r: nat)
    ensures r % Lakh % 1000 == r % 1000
  {
  }

  lemma CentsOf(r: nat, p: nat)
    requires p < 100
    ensures (100 * r + p) / 100 == r && (100 * r + p) % 100 == p
  {
  }

  lemma ShiftCrore(c: nat)
    ensures c % 1000000000 == 100 * (c / 100 % Crore) + c % 100
    ensures c / 1000000000 == c / 100 / Crore
  {
  }

  lemma ShiftLakh(c: nat)
    ensures c % 10000000 == 100 * (c / 100 % Lakh) + c % 100
    ensures c / 10000000 == c / 100 / Lakh
  {
  }

  lemma ShiftThousand(c: nat)
    ensures c % 100000 == 100 * (c / 100 % 1000) + c % 100
    ensures c / 100000 == c / 100 / 1000
  {
  }

  // ---------------------------------------------------------------------
  // Properties of the converter
  // ---------------------------------------------------------------------

  /** The corrected words are single-spaced tokens, the rupee words first and "Only" last. */
  lemma NumberWordsJoin(cents: int)
    ensures NumberWords(cents) == Join(AmountTokens(cents), " ")
    ensures WellSpaced(NumberWords(cents)) && OnlyPlainSpaces(NumberWords(cents))
  {
    var w, p := Words(Rupees(cents)), cents % 100;
    WordsAreTokens(Rupees(cents));
    ChunkWordsAreTokens(p);
    if p > 0 {
      var cw := ChunkWords(p);
      FramedJoin(w, cw);
      assert AmountTokens(cents) == w + (["and"] + cw + ["Paise"]) + ["Only"];
      assert NumberWords(cents) == Join(w, " ") + (" and " + Join(cw, " ") + " Paise") + " Only";
    } else {
      assert w + [] == w;
      BareJoin(w);
      assert AmountTokens(cents) == w + ["Only"];
      assert NumberWords(cents) == Join(w, " ") + "" + " Only";
    }
    AmountTokensAreTokens(w, ChunkWords(p), p > 0);
    JoinTokensWellSpaced(AmountTokens(cents));
  }

  lemma FramedJoin(w: seq<string>, cw: seq<string>)
    requires w != [] && cw != []
    ensures Join(w + (["and"] + cw + ["Paise"]) + ["Only"], " ")
         == Join(w, " ") + (" and " + Join(cw, " ") + " Paise") + " Only"
  {
    var mid := ["and"] + cw + ["Paise"];
    PaiseClauseJoin(cw);
    JoinAppend(w, mid, " ");
    JoinAppend(w + mid, ["Only"], " ");
    OnlyClause(Join(w, " "), Join(mid, " "));
  }

  lemma PaiseClauseJoin(cw: seq<string>)
    requires cw != []
    ensures " " + Join(["and"] + cw + ["Paise"], " ") == " and " + Join(cw, " ") + " Paise"
  {
    var c := Join(cw, " ");
    JoinAppend(["and"], cw, " ");
    JoinAppend(["and"] + cw, ["Paise"], " ");
    assert Join(["and"] + cw + ["Paise"], " ") == "and" + " " + c + " " + "Paise";
    SpacedLiterals();
  }

  lemma BareJoin(w: seq<string>)
    requires w != []
    ensures Join(w + ["Only"], " ") == Join(w, " ") + "" + " Only"
  {
    var a := Join(w, " ");
    JoinAppend(w, ["Only"], " ");
    assert Join(["Only"], " ") == "Only";
    SpacedLiterals();
    assert a + " " + "Only" == a + (" " + "Only");
    assert a + "" == a;
  }

  lemma OnlyClause(a: string, m: string)
    ensures a + " " + m + " " + "Only" == a + (" " + m) + " Only"
  {
    SpacedLiterals();
  }

  lemma SpacedLiterals()
    ensures " " + "and" + " " == " and " && " " + "Paise" == " Paise" && " " + "Only" == " Only"
  {
  }

  lemma AmountTokensAreTokens(w: seq<string>, cw: seq<string>, paise: bool)
    requires AllTokens(w) && AllTokens(cw)
    ensures AllTokens(w + (if paise then ["and"] + cw + ["Paise"] else []) + ["Only"])
  {
    var mid := if paise then ["and"] + cw + ["Paise"] else [];
    assert IsToken("and") && IsToken("Paise") && IsToken("Only");
    AllTokensAppend(["and"], cw);
    AllTokensAppend(["and"] + cw, ["Paise"]);
    AllTokensAppend(w, mid);
    AllTokensAppend(w + mid, ["Only"]);
  }

  /** Every corrected result ends in " Only", and a whole-rupee amount has no paise clause. */
  lemma NumberWordsFraming(cents: int)
    ensures var r := NumberWords(cents);
      |r| > 5 && r[|r| - 5..] == " Only" && r[..|Join(Words(Rupees(cents)), " ")|] == Join(Words(Rupees(cents)), " ")
    ensures cents % 100 == 0 ==> NumberWords(cents) == Join(Words(Rupees(cents)), " ") + " Only"
  {
  }

  /**
   * As written, every amount with paise has two spaces before "Paise":
   * `convertChunk` ends its words with a space and the template adds another.
   */
  lemma AsWrittenDoubleSpace(cents: nat)
    requires cents % 100 > 0
    ensures AsWrittenWords(cents)
         == Join(Words(cents / 100), " ") + " and " + Join(ChunkWords(cents % 100), " ") + "  Paise Only"
    ensures Contains(AsWrittenWords(cents), "  Paise") && !WellSpaced(AsWrittenWords(cents))
  {
    var cw := ChunkWords(cents % 100);
    ChunkWordsAreTokens(cents % 100);
    SpacedJoin(cw);
    var a, c := Join(Words(cents / 100), " "), Join(cw, " ");
    DoubleSpaceText(a, c);
    DoubleSpaceAt(a + " and " + c);
  }

  lemma DoubleSpaceText(a: string, c: string)
    ensures a + (" and " + (c + " ") + " Paise") + " Only" == a + " and " + c + "  Paise Only"
  {
    assert " " + " Paise" + " Only" == "  Paise Only";
  }

  lemma DoubleSpaceAt(head: string)
    ensures var r := head + "  Paise Only";
      Contains(r, "  Paise") && !WellSpaced(r)
  {
    var r := head + "  Paise Only";
    assert r[|head|..|head| + 7] == "  Paise";
    assert OccursAt(r, "  Paise", |head|);
    assert IsSpace(r[|head|]) && IsSpace(r[|head| + 1]);
  }

  /** As written, zero is the bare word "Zero"; the corrected converter frames it like any amount. */
  lemma AsWrittenZero()
    ensures AsWrittenWords(0) == "Zero"
    ensures NumberWords(0) == "Zero Only"
  {
  }

  /** For whole rupees the as-written and the corrected words agree (there is no paise clause). */
  lemma WholeRupeesAgree(cents: nat)
    requires cents > 0 && cents % 100 == 0
    ensures AsWrittenWords(cents) == NumberWords(cents)
  {
  }

  /**
   * The server renders a decimal text exactly as "Rs " followed by the
   * corrected client words for the same rupees and (two-digit) paise.
   */
  lemma ServerMatchesClient(s: string)
    requires IsDecimalText(s)
    ensures var parts := Split(s, {'.'});
      var paise := PaiseDigits(parts);
      AllDigits(paise) && DigitsValue(paise) < 100
      && "Rs " + Spell(ParseInt(parts[0])) + PaisePhrase(paise) + " Only"
         == "Rs " + SpelledAmount(DigitsValue(parts[0]), DigitsValue(paise))
  {
    var parts := Split(s, {'.'});
    var paise := PaiseDigits(parts);
    AmountWordsOfDecimal(s);
    PaiseDigitsAreDigits(parts);
    var r, p := DigitsValue(parts[0]), DigitsValue(paise);
    TwoDigitsBelow100(paise);
    if |parts| == 1 {
      TwoDigitsZero(paise);
    }
    var rupees := Spell(ParseInt(parts[0]));
    var phrase := PaisePhrase(paise);
    assert rupees == Join(Words(r), " ");
    if p > 0 {
      SmallWords(p);
    }
    assert phrase == if p > 0 then " and " + Join(ChunkWords(p), " ") + " Paise" else "";
    PrefixRs(rupees, phrase);
  }

  lemma PrefixRs(a: string, b: string)
    ensures "Rs " + a + b + " Only" == "Rs " + (a + b + " Only")
  {
  }

  /** `NumberWords` of `r` rupees and `p` paise spells exactly those two amounts. */
  lemma NumberWordsOf(r: nat, p: nat)
    requires p < 100
    ensures NumberWords(100 * r + p) == SpelledAmount(r, p)
  {
    CentsOf(r, p);
  }

  lemma TwoDigitsBelow100(p: string)
    requires |p| == 2 && AllDigits(p)
    ensures DigitsValue(p) < 100
  {
    var h := p[..1];
    assert h[..0] == [] && p[..1] == h;
    assert DigitsValue(h) == DigitValue(p[0]);
  }

  /** An amount below one thousand is a single chunk. */
  lemma SmallWords(p: nat)
    requires 0 < p < 1000
    ensures Words(p) == ChunkWords(p)
  {
    assert p / Crore == 0 && p % Crore / Lakh == 0 && p % Lakh / 1000 == 0 && p % 1000 == p;
    var scaled := Group(p / Crore, "Crore") + Group(p % Crore / Lakh, "Lakh") + Group(p % Lakh / 1000, "Thousand");
    assert scaled == [];
    var cw := ChunkWords(p);
    assert Words(p) == scaled + cw;
    assert [] + cw == cw;
  }

  // ---------------------------------------------------------------------
  // The live totals
  // ---------------------------------------------------------------------

  /** One row of the items table, with its numbers already coerced. */
  datatype LineItem = LineItem(
    kind: string,
    description: string,
    hsnCode: string,
    purity: string,
    grossWeight: real,
    netWeight: real,
    rate: real,
    makingCharges: real,
    otherCharges: real)

  /** The value of one row: net weight times rate, plus making charges as a percentage of that, plus other charges. */
  function ItemValue(item: LineItem): real {
    var itemRate := item.netWeight * item.rate;
    itemRate + itemRate * (item.makingCharges / 100.0) + item.otherCharges
  }

  /** The `reduce` over the rows, from the left, starting at 0. */
  function Subtotal(items: seq<LineItem>): real
    decreases |items|
  {
    if items == [] then 0.0 else Subtotal(items[..|items| - 1]) + ItemValue(items[|items| - 1])
  }

  /** The subtotal does not depend on how the rows are grouped. */
  lemma {:induction false} SubtotalConcat(a: seq<LineItem>, b: seq<LineItem>)
    ensures Subtotal(a + b) == Subtotal(a) + Subtotal(b)
    decreases |b|
  {
    if b == [] {
      assert a + b == a;
    } else {
      var b' := b[..|b| - 1];
      assert (a + b)[..|a + b| - 1] == a + b';
      assert (a + b)[|a + b| - 1] == b[|b| - 1];
      SubtotalConcat(a, b');
    }
  }

  /** The figures shown under the items table. */
  datatype Totals = Totals(subtotal: real, sgst: real, cgst: real, total: real, amountInWords: string)

  /** Half of the 3% GST rate, charged once as SGST and once as CGST. */
  const HalfGstRate: real := 0.015

  /**
   * The totals `useMemo`: `None` stands for missing or non-array items.
   * Each tax is rounded to paise, the total is the rounded sum, and the words
   * are those the form's own converter, as written, gives for the rounded total.
   */
  function LiveTotals(watched: Option<seq<LineItem>>): (t: Totals)
    ensures watched.None? ==> t == Totals(0.0, 0.0, 0.0, 0.0, "")
    ensures t.sgst == t.cgst
    ensures watched.Some? ==>
      var sub := Subtotal(watched.value);
      && t.subtotal == Round2(sub)
      && t.sgst == Round2(sub * HalfGstRate)
      && t.total == Round2(sub + t.sgst + t.cgst)
      && -0.005 <= t.subtotal - sub <= 0.005
      && -0.005 <= t.sgst - sub * HalfGstRate <= 0.005
      && -0.015 <= t.total - sub * 1.03 <= 0.015
      && t.amountInWords == AsWrittenWords(Cents(t.total))
  {
    match watched
    case None => Totals(0.0, 0.0, 0.0, 0.0, "")
    case Some(items) =>
      var sub := Subtotal(items);
      var sgst := Round2(sub * HalfGstRate);
      var cgst := Round2(sub * HalfGstRate);
      var total := Round2(sub + sgst + cgst);
      CentsOfCents(Cents(sub + sgst + cgst));
      Totals(Round2(sub), sgst, cgst, total, AsWrittenWords(Cents(total)))
  }

  // ---------------------------------------------------------------------
  // The form schema
  // ---------------------------------------------------------------------

  datatype InvoiceCustomer = InvoiceCustomer(name: string, address: string, phone: string, state: string)

  datatype InvoiceInput = InvoiceInput(
    invoiceNumber: string,
    date: string,
    items: seq<LineItem>,
    customer: InvoiceCustomer)

  /** `invoiceItemSchema`. */
  predicate ItemValid(item: LineItem) {
    && (item.kind == "S" || item.kind == "G")
    && |item.description| >= 1 && |item.hsnCode| >= 1 && |item.purity| >= 1
    && item.grossWeight >= 0.01 && item.netWeight >= 0.01 && item.rate >= 0.01
    && item.makingCharges >= 0.0 && item.otherCharges >= 0.0
  }

  /** `invoiceCustomerSchema`: the phone has at least ten characters, all digits. */
  predicate InvoiceCustomerValid(c: InvoiceCustomer) {
    |c.name| >= 1 && |c.address| >= 1 && |c.phone| >= 10 && AllDigits(c.phone) && |c.state| >= 1
  }

  /** `generateInvoiceFormSchema`: at least one item, every item and the customer valid. */
  predicate InvoiceInputValid(f: InvoiceInput) {
    && |f.invoiceNumber| >= 1 && |f.date| >= 1
    && |f.items| >= 1
    && (forall k :: 0 <= k < |f.items| ==> ItemValid(f.items[k]))
    && InvoiceCustomerValid(f.customer)
  }

  /** A valid row is worth at least a hundredth of a hundredth of a rupee. */
  lemma ValidItemValue(item: LineItem)
    requires ItemValid(item)
    ensures ItemValue(item) >= 0.0001
  {
    var itemRate := item.netWeight * item.rate;
    assert itemRate >= 0.01 * 0.01 by {
      assert item.netWeight * item.rate >= 0.01 * item.rate;
    }
    assert itemRate * (item.makingCharges / 100.0) >= 0.0;
  }

  /** Every valid row adds to the subtotal. */
  lemma {:induction false} ValidItemsSubtotal(items: seq<LineItem>)
    requires forall k :: 0 <= k < |items| ==> ItemValid(items[k])
    ensures Subtotal(items) >= 0.0001 * |items| as real
    decreases |items|
  {
    if items != [] {
      ValidItemsSubtotal(items[..|items| - 1]);
      ValidItemValue(items[|items| - 1]);
    }
  }

  /** With no rows the form shows zero figures and the bare word "Zero", without " Only". */
  lemma NoItemsShowZero()
    ensures LiveTotals(Some([])) == Totals(0.0, 0.0, 0.0, 0.0, "Zero")
  {
    assert Subtotal([]) == 0.0;
    CentsOfCents(0);
    assert Round2(0.0) == 0.0;
    AsWrittenZero();
  }

  /** A form that passes the schema has a positive subtotal and non-negative taxes and total. */
  lemma ValidInvoiceTotals(f: InvoiceInput)
    requires InvoiceInputValid(f)
    ensures var t := LiveTotals(Some(f.items));
      Subtotal(f.items) > 0.0 && t.sgst >= 0.0 && t.total >= 0.0 && Cents(t.total) >= 0
  {
    ValidItemsSubtotal(f.items);
  }
}
