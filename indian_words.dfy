/**
 * The invoice service's amount-to-words converter
 * (services/invoice-service/src/utils/converision.js): an integer is split
 * into crore (10^7), lakh (10^5), thousand and sub-thousand groups and each
 * group is spelled from lookup tables; `convertAmountToIndianWords` frames the
 * rupee and paise parts as "Rs ... Only".
 *
 * The spelled words are specified as a list of tokens (`Words`); a parser
 * (`ParseWords`) reads a token list back to its number, which shows that the
 * spelling of every amount below 10^10 is unambiguous.
 */
module IndianWords {
  import opened Text
  import opened Wrappers

  const Crore: nat := 10000000
  const Lakh: nat := 100000

  /** The `units` table; past its end JavaScript reads `undefined`, which concatenation prints as "undefined". */
  function UnitWord(k: nat): string {
    match k
    case 0 => "" case 1 => "One" case 2 => "Two" case 3 => "Three" case 4 => "Four"
    case 5 => "Five" case 6 => "Six" case 7 => "Seven" case 8 => "Eight" case 9 => "Nine"
    case _ => "undefined"
  }

  /** The `teens` table, indexed by `num - 10`. */
  function TeenWord(k: nat): string
    requires k < 10
  {
    match k
    case 0 => "Ten" case 1 => "Eleven" case 2 => "Twelve" case 3 => "Thirteen" case 4 => "Fourteen"
    case 5 => "Fifteen" case 6 => "Sixteen" case 7 => "Seventeen" case 8 => "Eighteen" case _ => "Nineteen"
  }

  /** The `tens` table. */
  function TensWord(k: nat): string
    requires k < 10
  {
    match k
    case 0 => "" case 1 => "Ten" case 2 => "Twenty" case 3 => "Thirty" case 4 => "Forty"
    case 5 => "Fifty" case 6 => "Sixty" case 7 => "Seventy" case 8 => "Eighty" case _ => "Ninety"
  }

  /** `convertLessThanThousand`. */
  function LessThanThousand(num: nat): string
    decreases num
  {
    if num == 0 then ""
    else if num < 10 then UnitWord(num)
    else if num < 20 then TeenWord(num - 10)
    else if num < 100 then TensWord(num / 10) + (if num % 10 != 0 then " " + UnitWord(num % 10) else "")
    else UnitWord(num / 100) + " Hundred" + (if num % 100 != 0 then " " + LessThanThousand(num % 100) else "")
  }

  // ---------------------------------------------------------------------
  // The spelling as a token list
  // ---------------------------------------------------------------------

  /** The tokens `LessThanThousand(n)` spells, in order. */
  function ChunkWords(n: nat): seq<string>
    decreases n
  {
    if n == 0 then []
    else if n < 10 then [UnitWord(n)]
    else if n < 20 then [TeenWord(n - 10)]
    else if n < 100 then [TensWord(n / 10)] + (if n % 10 != 0 then [UnitWord(n % 10)] else [])
    else [UnitWord(n / 100), "Hundred"] + ChunkWords(n % 100)
  }

  /** One group followed by its scale word, or nothing when the group is zero. */
  function Group(g: nat, scale: string): seq<string> {
    if g > 0 then ChunkWords(g) + [scale] else []
  }

  /** The tokens of `convert(n)`: crore, lakh and thousand groups, then the remainder. */
  function Words(n: nat): seq<string> {
    if n == 0 then ["Zero"]
    else Group(n / Crore, "Crore") + Group(n % Crore / Lakh, "Lakh") + Group(n % Lakh / 1000, "Thousand") + ChunkWords(n % 1000)
  }

  /** `convertToIndianWords` on what `parseInt` produced: `None` is NaN. */
  function Spell(number: Option<int>): string {
    match number
    case Some(n) => if n >= 0 then Join(Words(n), " ") else ""
    case None => ""
  }

  predicate IsToken(w: string) {
    w != "" && forall i :: 0 <= i < |w| ==> !IsSpace(w[i])
  }

  predicate AllTokens(ws: seq<string>) {
    forall k :: 0 <= k < |ws| ==> IsToken(ws[k])
  }

  lemma UnitTokens(k: nat)
    requires k >= 1
    ensures IsToken(UnitWord(k))
  {
  }

  lemma TensTokens(k: nat)
    requires 1 <= k < 10
    ensures IsToken(TensWord(k))
  {
  }

  lemma TeenTokens(k: nat)
    requires k < 10
    ensures IsToken(TeenWord(k))
  {
    var w := TeenWord(k);
    assert w != "";
    forall i | 0 <= i < |w| ensures !IsSpace(w[i]) {
      assert 'A' <= w[i] <= 'z';
    }
  }

  lemma AllTokensAppend(a: seq<string>, b: seq<string>)
    requires AllTokens(a) && AllTokens(b)
    ensures AllTokens(a + b)
  {
    forall k | 0 <= k < |a + b| ensures IsToken((a + b)[k]) {
      if k >= |a| {
        assert (a + b)[k] == b[k - |a|];
      }
    }
  }

  lemma {:induction false} ChunkWordsAreTokens(n: nat)
    ensures AllTokens(ChunkWords(n))
    ensures n > 0 <==> ChunkWords(n) != []
    decreases n
  {
    if n >= 100 {
      UnitTokens(n / 100);
      assert IsToken("Hundred");
      ChunkWordsAreTokens(n % 100);
      AllTokensAppend([UnitWord(n / 100), "Hundred"], ChunkWords(n % 100));
    } else if n >= 20 {
      TensTokens(n / 10);
      if n % 10 != 0 {
        UnitTokens(n % 10);
      }
    } else if n >= 10 {
      TeenTokens(n - 10);
    } else if n > 0 {
      UnitTokens(n);
    }
  }

  lemma GroupTokens(g: nat, scale: string)
    requires IsToken(scale)
    ensures AllTokens(Group(g, scale))
  {
    if g > 0 {
      ChunkWordsAreTokens(g);
      AllTokensAppend(ChunkWords(g), [scale]);
    }
  }

  lemma WordsAreTokens(n: nat)
    ensures AllTokens(Words(n)) && Words(n) != []
  {
    if n == 0 {
      assert IsToken("Zero");
    } else {
      assert IsToken("Crore") && IsToken("Lakh") && IsToken("Thousand");
      GroupTokens(n / Crore, "Crore");
      GroupTokens(n % Crore / Lakh, "Lakh");
      GroupTokens(n % Lakh / 1000, "Thousand");
      ChunkWordsAreTokens(n % 1000);
      var g1, g2, g3 := Group(n / Crore, "Crore"), Group(n % Crore / Lakh, "Lakh"), Group(n % Lakh / 1000, "Thousand");
      AllTokensAppend(g1, g2);
      AllTokensAppend(g1 + g2, g3);
      AllTokensAppend(g1 + g2 + g3, ChunkWords(n % 1000));
      WordsNonEmpty(n);
    }
  }

  /** A positive amount has at least one non-empty group. */
  lemma WordsNonEmpty(n: nat)
    requires n > 0
    ensures Words(n) != []
  {
    Decompose(n);
    ChunkWordsAreTokens(n % 1000);
  }

  /** `LessThanThousand(n)` is its tokens joined by single spaces. */
  lemma {:induction false} LessThanThousandJoin(n: nat)
    ensures LessThanThousand(n) == Join(ChunkWords(n), " ")
    decreases n
  {
    if n >= 100 {
      var h, r := n / 100, n % 100;
      assert ChunkWords(n) == [UnitWord(h), "Hundred"] + ChunkWords(r);
      assert LessThanThousand(n) == UnitWord(h) + " Hundred" + (if r != 0 then " " + LessThanThousand(r) else "");
      LessThanThousandJoin(r);
      ChunkWordsAreTokens(r);
      HundredJoin(UnitWord(h), ChunkWords(r));
    } else if 20 <= n && n % 10 != 0 {
      assert [TensWord(n / 10), UnitWord(n % 10)][1..] == [UnitWord(n % 10)];
    }
  }

  /** Joining "u Hundred" with the rest of a group's words. */
  lemma HundredJoin(u: string, rest: seq<string>)
    ensures Join([u, "Hundred"] + rest, " ") == u + " Hundred" + (if rest != [] then " " + Join(rest, " ") else "")
  {
    assert [u, "Hundred"][1..] == ["Hundred"];
    if rest != [] {
      JoinAppend([u, "Hundred"], rest, " ");
    } else {
      assert [u, "Hundred"] + rest == [u, "Hundred"];
    }
  }

  // ---------------------------------------------------------------------
  // Spacing: what `.trim().replace(/\s+/g, " ")` guarantees
  // ---------------------------------------------------------------------

  /** No leading or trailing whitespace and never two whitespace characters in a row. */
  predicate WellSpaced(s: string) {
    IsTrimmed(s) && forall i :: 0 <= i < |s| - 1 ==> !(IsSpace(s[i]) && IsSpace(s[i + 1]))
  }

  /** Every whitespace character of `s` is a plain space. */
  predicate OnlyPlainSpaces(s: string) {
    forall i :: 0 <= i < |s| ==> IsSpace(s[i]) ==> s[i] == ' '
  }

  lemma {:induction false} JoinTokensWellSpaced(ws: seq<string>)
    requires ws != [] && AllTokens(ws)
    ensures WellSpaced(Join(ws, " ")) && OnlyPlainSpaces(Join(ws, " "))
    ensures !IsSpace(Join(ws, " ")[0])
    decreases |ws|
  {
    if |ws| > 1 {
      JoinTokensWellSpaced(ws[1..]);
      var a, b := ws[0], Join(ws[1..], " ");
      var s := a + " " + b;
      assert IsToken(a);
      forall i | 0 <= i < |s| - 1 ensures !(IsSpace(s[i]) && IsSpace(s[i + 1])) {
        if i < |a| {
          assert s[i] == a[i];
        } else if i == |a| {
          assert s[i + 1] == b[0];
        } else {
          assert s[i] == b[i - |a| - 1] && s[i + 1] == b[i - |a|];
        }
      }
      forall i | 0 <= i < |s| ensures IsSpace(s[i]) ==> s[i] == ' ' {
        if i < |a| {
          assert s[i] == a[i];
        } else if i > |a| {
          assert s[i] == b[i - |a| - 1];
        }
      }
      assert s[|s| - 1] == b[|b| - 1];
    }
  }

  /** `replace(/\s+/g, " ")`: every run of whitespace becomes one space. */
  function CollapseSpaces(s: string): (r: string)
    decreases |s|
  {
    if s == [] then []
    else if IsSpace(s[0]) then [' '] + CollapseSpaces(TrimStart(s[1..]))
    else [s[0]] + CollapseSpaces(s[1..])
  }

  lemma {:induction false} CollapseWellSpaced(s: string)
    requires OnlyPlainSpaces(s)
    requires forall i :: 0 <= i < |s| - 1 ==> !(IsSpace(s[i]) && IsSpace(s[i + 1]))
    ensures CollapseSpaces(s) == s
    decreases |s|
  {
    if s != [] {
      CollapseWellSpaced(s[1..]);
      if IsSpace(s[0]) && |s| > 1 {
        assert !IsSpace(s[1..][0]);
      }
    }
  }

  /** `trim` removes the one trailing space the group loop leaves behind. */
  lemma TrimTrailingSpace(x: string)
    requires x != [] && IsTrimmed(x)
    ensures Trim(x + " ") == x && Trim(x) == x
  {
    var y := x + " ";
    assert TrimStart(y) == y;
    assert y[..|y| - 1] == x;
    assert TrimEnd(x) == x;
    assert TrimEnd(y) == TrimEnd(x);
  }

  // ---------------------------------------------------------------------
  // The imperative converter
  // ---------------------------------------------------------------------

  /**
   * `convertToIndianWords(number)` (its inner `convert`): `result` grows by
   * one group at a time while `num` shrinks, then the text is trimmed and
   * whitespace runs collapsed.
   */
  method ConvertToIndianWords(number: Option<int>) returns (r: string)
    ensures r == Spell(number)
  {
    if number == Some(0) {
      return "Zero";
    }
    if number.None? || number.value < 0 {
      // NaN and negative numbers fail every `> 0` test, so `result` stays empty.
      return "";
    }
    var n: nat := number.value;
    Decompose(n);
    ghost var crores := Group(n / Crore, "Crore");
    ghost var lakhs := crores + Group(n % Crore / Lakh, "Lakh");
    var num: nat := n;
    var result := "";
    result, num := AddGroup(result, num, Crore, "Crore", []);
    assert [] + crores == crores;
    result, num := AddGroup(result, num, Lakh, "Lakh", crores);
    result, num := AddGroup(result, num, 1000, "Thousand", lakhs);
    assert num == n % 1000 && result == Pending(Scaled(n));
    ghost var built := Pending(Scaled(n)) + LessThanThousand(n % 1000);
    if num > 0 {
      result := result + LessThanThousand(num);
    } else {
      assert built == result + "";
    }
    assert result == built;
    FinishSpelling(n);
    r := CollapseSpaces(Trim(result));
    assert r == Join(Words(n), " ");
  }

  /**
   * One of the three scale blocks of `convert`: when `num` holds at least one
   * `weight`, the group's words and the scale word are appended and `num`
   * keeps only the remainder.
   */
  method AddGroup(result: string, num: nat, weight: nat, scale: string, ghost ws: seq<string>) returns (result': string, num': nat)
    requires weight > 0 && result == Pending(ws)
    ensures num' == num % weight
    ensures result' == Pending(ws + Group(num / weight, scale))
  {
    var g, suffix := num / weight, " " + scale + " ";
    result' := result;
    if g > 0 {
      GroupStep(ws, g, scale, suffix, ws + Group(g, scale));
      result' := result + (LessThanThousand(g) + suffix);
    } else {
      assert ws + Group(g, scale) == ws;
    }
    num' := num % weight;
  }

  /** Every non-negative number is spelled by a non-empty text with single spaces and no space at either end. */
  lemma SpellWellSpaced(n: nat)
    ensures Spell(Some(n)) != [] && WellSpaced(Spell(Some(n)))
  {
    if n == 0 {
      assert WellSpaced("Zero");
    } else {
      FinishSpelling(n);
    }
  }

  /** The crore, lakh and thousand groups of `n`, each with its scale word. */
  function Scaled(n: nat): seq<string> {
    Group(n / Crore, "Crore") + Group(n % Crore / Lakh, "Lakh") + Group(n % Lakh / 1000, "Thousand")
  }

  /** After the group loop, trimming and collapsing leave exactly the words of `n` joined by single spaces. */
  lemma FinishSpelling(n: nat)
    requires n > 0
    ensures var built := Pending(Scaled(n)) + LessThanThousand(n % 1000);
      CollapseSpaces(Trim(built)) == Join(Words(n), " ")
    ensures Join(Words(n), " ") != [] && WellSpaced(Join(Words(n), " "))
  {
    var ws, cw := Scaled(n), ChunkWords(n % 1000);
    var all := ws + cw;
    assert Words(n) == all;
    WordsAreTokens(n);
    var joined := Join(all, " ");
    JoinTokensWellSpaced(all);
    LessThanThousandJoin(n % 1000);
    ChunkWordsAreTokens(n % 1000);
    BuiltIsJoined(ws, cw, LessThanThousand(n % 1000));
    TrimTrailingSpace(joined);
    CollapseWellSpaced(joined);
  }

  /** The built text is the joined words, followed by one space when the last group is empty. */
  lemma BuiltIsJoined(ws: seq<string>, cw: seq<string>, last: string)
    requires ws + cw != [] && last == Join(cw, " ") && (cw == [] <==> last == "")
    ensures Pending(ws) + last == (if cw == [] then Join(ws + cw, " ") + " " else Join(ws + cw, " "))
  {
    if cw == [] {
      assert ws + cw == ws;
    } else if ws == [] {
      assert ws + cw == cw;
    } else {
      JoinAppend(ws, cw, " ");
    }
  }

  /** The text the group loop has built for the tokens `ws`: each group ends in a space. */
  ghost function Pending(ws: seq<string>): string {
    if ws == [] then "" else Join(ws, " ") + " "
  }

  /** One group step appends the group's words and its scale word, then a space. */
  lemma GroupStep(ws: seq<string>, g: nat, scale: string, suffix: string, ws': seq<string>)
    requires g > 0 && suffix == " " + scale + " " && ws' == ws + Group(g, scale)
    ensures Pending(ws) + (LessThanThousand(g) + suffix) == Pending(ws')
  {
    var cw := ChunkWords(g);
    var gs := cw + [scale];
    LessThanThousandJoin(g);
    ChunkWordsAreTokens(g);
    JoinAppend(cw, [scale], " ");
    assert Join([scale], " ") == scale;
    var text := LessThanThousand(g) + " " + scale;
    assert Join(gs, " ") == text;
    assert LessThanThousand(g) + suffix == text + " ";
    if ws != [] {
      JoinAppend(ws, gs, " ");
      assert Pending(ws + gs) == Join(ws, " ") + " " + text + " ";
    } else {
      assert ws + gs == gs;
    }
  }

  // ---------------------------------------------------------------------
  // Reading the words back
  // ---------------------------------------------------------------------

  /** The number a single unit, teen or tens word stands for. */
  function SmallValue(w: string): nat {
    if w == "One" then 1 else if w == "Two" then 2 else if w == "Three" then 3
    else if w == "Four" then 4 else if w == "Five" then 5 else if w == "Six" then 6
    else if w == "Seven" then 7 else if w == "Eight" then 8 else if w == "Nine" then 9
    else if w == "Ten" then 10 else if w == "Eleven" then 11 else if w == "Twelve" then 12
    else if w == "Thirteen" then 13 else if w == "Fourteen" then 14 else if w == "Fifteen" then 15
    else if w == "Sixteen" then 16 else if w == "Seventeen" then 17 else if w == "Eighteen" then 18
    else if w == "Nineteen" then 19 else if w == "Twenty" then 20 else if w == "Thirty" then 30
    else if w == "Forty" then 40 else if w == "Fifty" then 50 else if w == "Sixty" then 60
    else if w == "Seventy" then 70 else if w == "Eighty" then 80 else if w == "Ninety" then 90
    else 0
  }

  /** Running total of completed groups and the value of the group being read. */
  datatype Tally = Tally(total: nat, chunk: nat)

  function ReadWord(t: Tally, w: string): Tally {
    if w == "Crore" then Tally(t.total + t.chunk * Crore, 0)
    else if w == "Lakh" then Tally(t.total + t.chunk * Lakh, 0)
    else if w == "Thousand" then Tally(t.total + t.chunk * 1000, 0)
    else if w == "Hundred" then Tally(t.total, t.chunk * 100)
    else Tally(t.total, t.chunk + SmallValue(w))
  }

  function ReadWords(ws: seq<string>, t: Tally): Tally
    decreases |ws|
  {
    if ws == [] then t else ReadWords(ws[1..], ReadWord(t, ws[0]))
  }

  /** The number a token list spells. */
  function ParseWords(ws: seq<string>): nat {
    var t := ReadWords(ws, Tally(0, 0));
    t.total + t.chunk
  }

  lemma {:induction false} ReadWordsAppend(a: seq<string>, b: seq<string>, t: Tally)
    ensures ReadWords(a + b, t) == ReadWords(b, ReadWords(a, t))
    decreases |a|
  {
    if a == [] {
      assert a + b == b;
    } else {
      assert (a + b)[1..] == a[1..] + b;
      ReadWordsAppend(a[1..], b, ReadWord(t, a[0]));
    }
  }

  lemma UnitValue(k: nat)
    requires 1 <= k < 10
    ensures SmallValue(UnitWord(k)) == k
  {
  }

  lemma TensValue(k: nat)
    requires 1 <= k < 10
    ensures SmallValue(TensWord(k)) == 10 * k
  {
  }

  lemma TeenValue(k: nat)
    requires k < 10
    ensures SmallValue(TeenWord(k)) == 10 + k
  {
  }

  predicate IsScaleWord(w: string) {
    w == "Crore" || w == "Lakh" || w == "Thousand" || w == "Hundred"
  }

  lemma TableWordsAreNotScales(k: nat)
    requires k < 10
    ensures !IsScaleWord(UnitWord(k)) && !IsScaleWord(TensWord(k)) && !IsScaleWord(TeenWord(k))
  {
  }

  /** Reading a word that is not a scale word adds its value to the current group. */
  lemma ReadSmall(w: string, rest: seq<string>, t: Tally)
    requires !IsScaleWord(w)
    ensures ReadWords([w] + rest, t) == ReadWords(rest, Tally(t.total, t.chunk + SmallValue(w)))
  {
    var ws := [w] + rest;
    assert ws[0] == w && ws[1..] == rest;
    assert ReadWord(t, w) == Tally(t.total, t.chunk + SmallValue(w));
  }

  /** Reading a single word that is not a scale word adds its value to the current group. */
  lemma ReadOne(w: string, t: Tally)
    requires !IsScaleWord(w)
    ensures ReadWords([w], t) == Tally(t.total, t.chunk + SmallValue(w))
  {
    ReadSmall(w, [], t);
    assert [w] + [] == [w];
  }

  /** Below one hundred, reading a group's words adds its value to the current group. */
  lemma TwoDigitRead(m: nat, t: Tally)
    requires m < 100
    ensures ReadWords(ChunkWords(m), t) == Tally(t.total, t.chunk + m)
  {
    if m == 0 {
      assert ChunkWords(m) == [];
    } else if m < 10 {
      var w := UnitWord(m);
      assert ChunkWords(m) == [w];
      UnitValue(m);
      TableWordsAreNotScales(m);
      ReadOne(w, t);
    } else if m < 20 {
      var w := TeenWord(m - 10);
      assert ChunkWords(m) == [w];
      TeenValue(m - 10);
      TableWordsAreNotScales(m - 10);
      ReadOne(w, t);
    } else {
      var d, u := m / 10, m % 10;
      var tw := TensWord(d);
      TensValue(d);
      TableWordsAreNotScales(d);
      if u != 0 {
        var uw := UnitWord(u);
        assert ChunkWords(m) == [tw] + [uw];
        UnitValue(u);
        TableWordsAreNotScales(u);
        ReadSmall(tw, [uw], t);
        ReadOne(uw, Tally(t.total, t.chunk + 10 * d));
      } else {
        assert ChunkWords(m) == [tw] + [];
        assert [tw] + [] == [tw];
        ReadOne(tw, t);
      }
    }
  }

  /** Reading a whole group's words from an empty group yields the group's value. */
  lemma ChunkRead(g: nat, total: nat)
    requires g < 1000
    ensures ReadWords(ChunkWords(g), Tally(total, 0)) == Tally(total, g)
  {
    if g < 100 {
      TwoDigitRead(g, Tally(total, 0));
    } else {
      var h := g / 100;
      UnitValue(h);
      TableWordsAreNotScales(h);
      var rest := ChunkWords(g % 100);
      ReadSmall(UnitWord(h), ["Hundred"] + rest, Tally(total, 0));
      assert ([UnitWord(h), "Hundred"] + rest) == [UnitWord(h)] + (["Hundred"] + rest);
      assert (["Hundred"] + rest)[1..] == rest;
      TwoDigitRead(g % 100, Tally(total, h * 100));
    }
  }

  lemma GroupRead(g: nat, scale: string, weight: nat, total: nat)
    requires g < 1000
    requires (scale == "Crore" && weight == Crore) || (scale == "Lakh" && weight == Lakh) || (scale == "Thousand" && weight == 1000)
    ensures ReadWords(Group(g, scale), Tally(total, 0)) == Tally(total + g * weight, 0)
  {
    if g > 0 {
      ChunkRead(g, total);
      ReadWordsAppend(ChunkWords(g), [scale], Tally(total, 0));
    }
  }

  /** Crore, lakh and thousand groups read back to their weighted sum. */
  lemma ScaledGroupsRead(c: nat, l: nat, th: nat)
    requires c < 1000 && l < 1000 && th < 1000
    ensures ReadWords(Group(c, "Crore") + Group(l, "Lakh") + Group(th, "Thousand"), Tally(0, 0))
         == Tally(c * Crore + l * Lakh + th * 1000, 0)
  {
    var gc, gl, gt := Group(c, "Crore"), Group(l, "Lakh"), Group(th, "Thousand");
    var t1 := Tally(c * Crore, 0);
    var t2 := Tally(t1.total + l * Lakh, 0);
    var t3 := Tally(t2.total + th * 1000, 0);
    GroupRead(c, "Crore", Crore, 0);
    assert ReadWords(gc, Tally(0, 0)) == t1;
    GroupRead(l, "Lakh", Lakh, t1.total);
    GroupRead(th, "Thousand", 1000, t2.total);
    ReadWordsAppend(gc, gl, Tally(0, 0));
    assert ReadWords(gc + gl, Tally(0, 0)) == t2;
    ReadWordsAppend(gc + gl, gt, Tally(0, 0));
    assert ReadWords(gc + gl + gt, Tally(0, 0)) == t3;
  }

  /** The spelling of every amount below 10^10 (crore part below 1000) reads back to the amount. */
  lemma WordsRoundTrip(n: nat)
    requires n / Crore < 1000
    ensures ParseWords(Words(n)) == n
  {
    if n == 0 {
      ZeroRoundTrip();
    } else {
      var c, l, th, rem := GroupsOf(n);
      WordsOfGroups(n, c, l, th, rem);
      PositiveRoundTrip(n, c, l, th, rem);
    }
  }

  lemma ZeroRoundTrip()
    ensures ParseWords(Words(0)) == 0
  {
    assert ReadWords(["Zero"], Tally(0, 0)) == Tally(0, 0);
  }

  lemma WordsOfGroups(n: nat, c: nat, l: nat, th: nat, rem: nat)
    requires n > 0 && c == n / Crore && l == n % Crore / Lakh && th == n % Lakh / 1000 && rem == n % 1000
    ensures Words(n) == Group(c, "Crore") + Group(l, "Lakh") + Group(th, "Thousand") + ChunkWords(rem)
  {
  }

  lemma PositiveRoundTrip(n: nat, c: nat, l: nat, th: nat, rem: nat)
    requires n > 0 && c < 1000 && l < 1000 && th < 1000 && rem < 1000
    requires n == c * Crore + l * Lakh + th * 1000 + rem
    requires Words(n) == Group(c, "Crore") + Group(l, "Lakh") + Group(th, "Thousand") + ChunkWords(rem)
    ensures ParseWords(Words(n)) == n
  {
    var scaled := Group(c, "Crore") + Group(l, "Lakh") + Group(th, "Thousand");
    var above := c * Crore + l * Lakh + th * 1000;
    var cw := ChunkWords(rem);
    ScaledGroupsRead(c, l, th);
    assert ReadWords(scaled, Tally(0, 0)) == Tally(above, 0);
    ReadWordsAppend(scaled, cw, Tally(0, 0));
    ChunkRead(rem, above);
    assert ReadWords(scaled + cw, Tally(0, 0)) == Tally(above, rem);
    assert Words(n) == scaled + cw;
  }

  /** The four groups of `n`, with the facts `Decompose` gives about them. */
  lemma GroupsOf(n: nat) returns (c: nat, l: nat, th: nat, rem: nat)
    ensures c == n / Crore && l == n % Crore / Lakh && th == n % Lakh / 1000 && rem == n % 1000
    ensures l < 100 && th < 100 && rem < 1000
    ensures n == c * Crore + l * Lakh + th * 1000 + rem
  {
    c, l, th, rem := n / Crore, n % Crore / Lakh, n % Lakh / 1000, n % 1000;
    Decompose(n);
  }

  lemma Decompose(n: nat)
    ensures n % Crore % Lakh == n % Lakh && n % Lakh % 1000 == n % 1000
    ensures n % Crore / Lakh < 100 && n % Lakh / 1000 < 100
    ensures n == n / Crore * Crore + n % Crore / Lakh * Lakh + n % Lakh / 1000 * 1000 + n % 1000
  {
    NestedGroups(n);
    GroupBounds(n);
    GroupSum(n);
  }

  lemma NestedGroups(n: nat)
    ensures n % Crore % Lakh == n % Lakh && n % Lakh % 1000 == n % 1000
  {
    var c, l := n / Crore, n / Lakh;
    assert n == n % Crore + Lakh * (100 * c);
    ShiftLakhs(n % Crore, 100 * c);
    assert n == n % Lakh + 1000 * (100 * l);
    ShiftThousands(n % Lakh, 100 * l);
  }

  /** Whole lakhs do not change what is left below one lakh. */
  lemma ShiftLakhs(a: int, k: int)
    ensures (a + Lakh * k) % Lakh == a % Lakh
  {
  }

  /** Whole thousands do not change what is left below one thousand. */
  lemma ShiftThousands(a: int, k: int)
    ensures (a + 1000 * k) % 1000 == a % 1000
  {
  }

  lemma GroupBounds(n: nat)
    ensures n % Crore / Lakh < 100 && n % Lakh / 1000 < 100
  {
  }

  lemma GroupSum(n: nat)
    ensures n == n / Crore * Crore + n % Crore / Lakh * Lakh + n % Lakh / 1000 * 1000 + n % 1000
  {
    NestedGroups(n);
  }

  /** Two amounts below 10^10 with the same words are the same amount. */
  lemma WordsInjective(a: nat, b: nat)
    requires a / Crore < 1000 && b / Crore < 1000
    requires Join(Words(a), " ") == Join(Words(b), " ")
    ensures a == b
  {
    WordsAreTokens(a);
    WordsAreTokens(b);
    JoinTokensSplit(Words(a));
    JoinTokensSplit(Words(b));
    WordsRoundTrip(a);
    WordsRoundTrip(b);
  }

  /** Splitting tokens joined by spaces gives the tokens back. */
  lemma JoinTokensSplit(ws: seq<string>)
    requires ws != [] && AllTokens(ws)
    ensures Split(Join(ws, " "), {' '}) == ws
  {
    forall k | 0 <= k < |ws| ensures NoneIn(ws[k], {' '}) {
      assert IsToken(ws[k]);
    }
    SplitJoinPieces(ws, ' ', "", {' '});
    assert [' '] + "" == " ";
    var raw := RawPieces(ws, "");
    assert |raw| == |ws|;
    forall k | 0 <= k < |ws| ensures raw[k] == ws[k] {
      if k > 0 {
        assert raw[k] == "" + ws[k];
      }
    }
    assert raw == ws;
  }

  // ---------------------------------------------------------------------
  // Rupees and paise
  // ---------------------------------------------------------------------

  /** `parseInt` on a prefix: an optional minus sign, then the leading digits; NaN when there are none. */
  function ParseInt(s: string): Option<int> {
    if s != [] && s[0] == '-' then
      match ParseDigitsPrefix(s[1..])
      case Some(v) => Some(-(v as int))
      case None => None
    else
      match ParseDigitsPrefix(s)
      case Some(v) => Some(v)
      case None => None
  }

  function LeadingDigits(s: string): (d: string)
    ensures |d| <= |s| && d == s[..|d|]
    ensures forall i :: 0 <= i < |d| ==> IsDigit(d[i])
  {
    if s != [] && IsDigit(s[0]) then [s[0]] + LeadingDigits(s[1..]) else ""
  }

  function ParseDigitsPrefix(s: string): Option<nat> {
    var d := LeadingDigits(s);
    if d == "" then None else Some(DigitsValue(d))
  }

  /** `amount.toString()`; `Missing` is `null`/`undefined`, on which `toString` throws. */
  datatype Amount = Missing | Text(text: string)

  /** The text a non-negative amount prints as: integer digits and, when there is a fraction, its digits. */
  predicate IsDecimalText(s: string) {
    var parts := Split(s, {'.'});
    (|parts| == 1 || |parts| == 2) && AllDigits(parts[0]) && (|parts| == 2 ==> AllDigits(parts[1]))
  }

  /** The two paise digits: the first two after the point, right-padded with '0'; "00" without a fraction. */
  function PaiseDigits(parts: seq<string>): (p: string)
    requires |parts| >= 1
    ensures |parts| > 1 && |parts[1]| >= 1 ==> |p| == 2
  {
    if |parts| > 1 then
      var p := if |parts[1]| >= 2 then parts[1][..2] else parts[1];
      if |p| == 1 then p + "0" else p
    else "00"
  }

  /** The paise clause: present unless the two paise digits are "00". */
  function PaisePhrase(paise: string): string {
    if paise != "00" then " and " + Spell(ParseInt(paise)) + " Paise" else ""
  }

  /**
   * `convertAmountToIndianWords(amount)`: `paise` and `words` are
   * reassigned as in the source; a thrown error yields "Rs Zero Only".
   */
  method AmountToWords(amount: Amount) returns (r: string)
    ensures amount.Missing? ==> r == "Rs Zero Only"
    ensures amount.Text? ==>
      var parts := Split(amount.text, {'.'});
      r == "Rs " + Spell(ParseInt(parts[0])) + PaisePhrase(PaiseDigits(parts)) + " Only"
  {
    if amount.Missing? {
      r := "Rs Zero Only";
      return;
    }
    var parts := Split(amount.text, {'.'});
    var rupees := parts[0];
    var paise := if |parts| > 1 then (if |parts[1]| >= 2 then parts[1][..2] else parts[1]) else "00";
    if |paise| == 1 {
      paise := paise + "0";
    }
    assert paise == PaiseDigits(parts);
    var rupeeWords := ConvertToIndianWords(ParseInt(rupees));
    var words := "Rs " + rupeeWords;
    if paise != "00" {
      var paiseWords := ConvertToIndianWords(ParseInt(paise));
      words := words + (" and " + paiseWords + " Paise");
    }
    assert words == "Rs " + Spell(ParseInt(rupees)) + PaisePhrase(paise);
    r := words + " Only";
  }

  /** Whatever the input, the words start with "Rs " and end with " Only". */
  lemma AmountFraming(rupees: Option<int>, paise: string)
    ensures var r := "Rs " + Spell(rupees) + PaisePhrase(paise) + " Only";
      |r| >= 8 && r[..3] == "Rs " && r[|r| - 5..] == " Only"
  {
    var head := "Rs " + Spell(rupees) + PaisePhrase(paise);
    var r := head + " Only";
    assert head[..3] == "Rs ";
    assert r[..3] == head[..3];
    assert r[|r| - 5..] == " Only";
  }

  /** The paise digits of decimal text are digits: the fraction's first two, right-padded, or "00". */
  lemma PaiseDigitsAreDigits(parts: seq<string>)
    requires |parts| == 1 || (|parts| == 2 && AllDigits(parts[1]))
    ensures AllDigits(PaiseDigits(parts)) && |PaiseDigits(parts)| == 2
  {
  }

  /**
   * On the text of a non-negative amount, the words are those of the rupee
   * value, then " and <paise> Paise" exactly when there is a fraction whose
   * first two digits are not both zero.
   */
  lemma AmountWordsOfDecimal(s: string)
    requires IsDecimalText(s)
    ensures var parts := Split(s, {'.'});
      var paise := PaiseDigits(parts);
      AllDigits(paise)
      && Spell(ParseInt(parts[0])) == Join(Words(DigitsValue(parts[0])), " ")
      && PaisePhrase(paise) == (if |parts| == 2 && DigitsValue(paise) != 0
                                then " and " + Join(Words(DigitsValue(paise)), " ") + " Paise"
                                else "")
  {
    var parts := Split(s, {'.'});
    AllDigitsPrefix(parts[0]);
    PaiseDigitsAreDigits(parts);
    var p := PaiseDigits(parts);
    AllDigitsPrefix(p);
    TwoDigitsZero(p);
  }

  lemma AllDigitsPrefix(s: string)
    requires AllDigits(s)
    ensures LeadingDigits(s) == s
    ensures s[0] != '-'
  {
    if |s| > 1 {
      AllDigitsPrefix(s[1..]);
    }
  }

  lemma TwoDigitsZero(p: string)
    requires |p| == 2 && AllDigits(p)
    ensures p == "00" <==> DigitsValue(p) == 0
  {
    var head := p[..1];
    assert head[..0] == [] && head[0] == p[0] && p[..|p| - 1] == head;
    assert DigitsValue(head) == DigitValue(p[0]);
    assert DigitsValue(p) == DigitValue(p[0]) * 10 + DigitValue(p[1]);
    if DigitsValue(p) == 0 {
      assert p == [p[0], p[1]];
    }
  }

  /** A one-digit fraction is right-padded: "12.5" has fifty paise. */
  lemma OneDigitFraction()
    ensures PaiseDigits(Split("12.5", {'.'})) == "50"
  {
    var seps := {'.'};
    SplitPrefix("5", "", seps);
    assert "5" + "" == "5";
    assert Split("5", seps) == ["5"];
    assert ".5"[1..] == "5";
    assert Split(".5", seps) == ["", "5"];
    SplitPrefix("12", ".5", seps);
    assert "12" + ".5" == "12.5" && "12" + "" == "12";
    assert Split("12.5", seps) == ["12", "5"];
  }
}
