/**
 * String helpers that stand for the JavaScript built-ins the services and the
 * frontend use: `split`, `trim`, `join`, `padStart`, `toLowerCase`,
 * `includes`, `String(n)` and `parseInt` on decimal digit strings.
 */
module Text {

  // ---------------------------------------------------------------------
  // Characters
  // ---------------------------------------------------------------------

  predicate IsDigit(c: char) { '0' <= c <= '9' }

  predicate IsUpper(c: char) { 'A' <= c <= 'Z' }

  /**
   * The characters `String.prototype.trim` strips and `\s` matches: the
   * white space characters (tab, vertical tab, form feed, space, no-break
   * space, the byte order mark and the other space separators of Unicode)
   * and the line terminators (line feed, carriage return, line and
   * paragraph separators).
   */
  predicate IsSpace(c: char) {
    || c == ' ' || '\t' <= c <= '\r'
    || c == '\U{00A0}' || c == '\U{1680}' || '\U{2000}' <= c <= '\U{200A}'
    || c == '\U{2028}' || c == '\U{2029}' || c == '\U{202F}' || c == '\U{205F}'
    || c == '\U{3000}' || c == '\U{FEFF}'
  }

  /** `/^\d+$/`: non-empty and digits only. */
  predicate AllDigits(s: string) {
    |s| > 0 && forall i :: 0 <= i < |s| ==> IsDigit(s[i])
  }

  function DigitChar(d: nat): (c: char)
    requires d < 10
    ensures IsDigit(c)
  {
    ['0', '1', '2', '3', '4', '5', '6', '7', '8', '9'][d]
  }

  function DigitValue(c: char): nat
    requires IsDigit(c)
  {
    (c as int - '0' as int) as nat
  }

  // ---------------------------------------------------------------------
  // Decimal rendering and parsing
  // ---------------------------------------------------------------------

  /** `String(n)` for a natural number: decimal, no leading zeros. */
  function NatToString(n: nat): (s: string)
    ensures |s| >= 1
    ensures forall i :: 0 <= i < |s| ==> IsDigit(s[i])
    ensures n >= 10 ==> s[0] != '0'
    decreases n
  {
    if n < 10 then [DigitChar(n)] else NatToString(n / 10) + [DigitChar(n % 10)]
  }

  /** `parseInt` of a string of decimal digits. */
  function DigitsValue(s: string): nat
    requires forall i :: 0 <= i < |s| ==> IsDigit(s[i])
  {
    if s == [] then 0 else DigitsValue(s[..|s| - 1]) * 10 + DigitValue(s[|s| - 1])
  }

  lemma DigitCharValue(d: nat)
    requires d < 10
    ensures DigitValue(DigitChar(d)) == d
  {
  }

  /** Parsing undoes rendering. */
  lemma {:induction false} NatToStringRoundTrip(n: nat)
    ensures DigitsValue(NatToString(n)) == n
    decreases n
  {
    var s := NatToString(n);
    if n < 10 {
      DigitCharValue(n);
      assert s[..0] == [];
    } else {
      NatToStringRoundTrip(n / 10);
      DigitCharValue(n % 10);
      assert s[..|s| - 1] == NatToString(n / 10);
    }
  }

  /** Different numbers render differently. */
  lemma NatToStringInjective(m: nat, n: nat)
    ensures NatToString(m) == NatToString(n) ==> m == n
  {
    NatToStringRoundTrip(m);
    NatToStringRoundTrip(n);
  }

  /** `s.padStart(width, c)`: left-pad with `c` to at least `width` characters; never truncates. */
  function PadStart(s: string, width: nat, c: char): (r: string)
    ensures |r| == if |s| >= width then |s| else width
    ensures r[|r| - |s|..] == s
    ensures forall i :: 0 <= i < |r| - |s| ==> r[i] == c
  {
    if |s| >= width then s else seq(width - |s|, _ => c) + s
  }

  /** Leading zeros do not change the value of a digit string. */
  lemma {:induction false} LeadingZerosValue(z: string, s: string)
    requires forall i :: 0 <= i < |z| ==> z[i] == '0'
    requires forall i :: 0 <= i < |s| ==> IsDigit(s[i])
    ensures forall i :: 0 <= i < |z + s| ==> IsDigit((z + s)[i])
    ensures DigitsValue(z + s) == DigitsValue(s)
    decreases |z| + |s|
  {
    if s == [] {
      assert z + s == z;
      if z != [] {
        LeadingZerosValue(z[..|z| - 1], []);
        assert z[..|z| - 1] + [] == z[..|z| - 1];
      }
    } else {
      var t := z + s;
      assert t[..|t| - 1] == z + s[..|s| - 1];
      LeadingZerosValue(z, s[..|s| - 1]);
    }
  }

  lemma PadStartValue(s: string, width: nat)
    requires forall i :: 0 <= i < |s| ==> IsDigit(s[i])
    ensures var r := PadStart(s, width, '0');
      (forall i :: 0 <= i < |r| ==> IsDigit(r[i])) && DigitsValue(r) == DigitsValue(s)
  {
    if |s| < width {
      LeadingZerosValue(seq(width - |s|, _ => '0'), s);
    }
  }

  // ---------------------------------------------------------------------
  // join / split / trim
  // ---------------------------------------------------------------------

  /** `parts.join(sep)`. */
  function Join(parts: seq<string>, sep: string): string
  {
    if |parts| == 0 then "" else if |parts| == 1 then parts[0] else parts[0] + sep + Join(parts[1..], sep)
  }

  lemma {:induction false} JoinAppend(a: seq<string>, b: seq<string>, sep: string)
    requires |a| > 0 && |b| > 0
    ensures Join(a + b, sep) == Join(a, sep) + sep + Join(b, sep)
    decreases |a|
  {
    if |a| == 1 {
      assert (a + b)[1..] == b;
    } else {
      assert (a + b)[1..] == a[1..] + b;
      JoinAppend(a[1..], b, sep);
    }
  }

  predicate NoneIn(s: string, cs: set<char>) {
    forall i :: 0 <= i < |s| ==> s[i] !in cs
  }

  /** `s.split(seps)` for a set of one-character separators: JavaScript keeps empty pieces. */
  function Split(s: string, seps: set<char>): (parts: seq<string>)
    ensures |parts| >= 1
    ensures forall k :: 0 <= k < |parts| ==> NoneIn(parts[k], seps)
  {
    if s == [] then [""]
    else
      var rest := Split(s[1..], seps);
      if s[0] in seps then [""] + rest else [[s[0]] + rest[0]] + rest[1..]
  }

  /** The number of separator characters in `s`. */
  function SepCount(s: string, seps: set<char>): (n: nat)
    ensures n <= |s|
    ensures n == 0 <==> NoneIn(s, seps)
  {
    if s == [] then 0
    else (if s[0] in seps then 1 else 0) + SepCount(s[1..], seps)
  }

  /** `split` gives one more piece than there are separators. */
  lemma {:induction false} SplitCount(s: string, seps: set<char>)
    ensures |Split(s, seps)| == SepCount(s, seps) + 1
  {
    if s != [] {
      SplitCount(s[1..], seps);
    }
  }

  lemma {:induction false} SplitPrefix(a: string, x: string, seps: set<char>)
    requires NoneIn(a, seps)
    ensures Split(a + x, seps) == [a + Split(x, seps)[0]] + Split(x, seps)[1..]
    decreases |a|
  {
    if a != [] {
      assert (a + x)[1..] == a[1..] + x;
      assert (a + x)[0] == a[0] && a[0] !in seps;
      SplitPrefix(a[1..], x, seps);
      assert [a[0]] + (a[1..] + Split(x, seps)[0]) == a + Split(x, seps)[0];
    } else {
      var sx := Split(x, seps);
      assert a + x == x;
      assert a + sx[0] == sx[0];
      assert sx == [sx[0]] + sx[1..];
    }
  }

  /** A string with a separator in it splits into two pieces or more. */
  lemma {:induction false} SplitAtSeparator(s: string, seps: set<char>, i: nat)
    requires i < |s| && s[i] in seps
    ensures |Split(s, seps)| >= 2
    decreases i
  {
    if s[0] !in seps {
      SplitAtSeparator(s[1..], seps, i - 1);
    }
  }

  function TrimStart(s: string): (r: string)
    ensures |r| <= |s|
    ensures r == s[|s| - |r|..]
    ensures r != [] ==> !IsSpace(r[0])
  {
    if s != [] && IsSpace(s[0]) then TrimStart(s[1..]) else s
  }

  function TrimEnd(s: string): (r: string)
    ensures |r| <= |s|
    ensures r == s[..|r|]
    ensures r != [] ==> !IsSpace(r[|r| - 1])
  {
    if s != [] && IsSpace(s[|s| - 1]) then TrimEnd(s[..|s| - 1]) else s
  }

  /** `s.trim()`. */
  function Trim(s: string): string { TrimEnd(TrimStart(s)) }

  predicate IsTrimmed(s: string) {
    s == [] || (!IsSpace(s[0]) && !IsSpace(s[|s| - 1]))
  }

  lemma TrimOfTrimmed(s: string)
    requires IsTrimmed(s)
    ensures Trim(s) == s
  {
  }

  lemma TrimIsTrimmed(s: string)
    ensures IsTrimmed(Trim(s))
  {
    var t := TrimStart(s);
    var r := TrimEnd(t);
    if r != [] {
      assert r == t[..|r|];
      assert r[0] == t[0];
    }
  }

  /** Leading whitespace is dropped by trim. */
  lemma {:induction false} TrimLeadingSpace(w: string, s: string)
    requires forall i :: 0 <= i < |w| ==> IsSpace(w[i])
    requires IsTrimmed(s)
    ensures Trim(w + s) == s
    decreases |w|
  {
    if w == [] {
      assert w + s == s;
    } else {
      assert (w + s)[1..] == w[1..] + s;
      TrimLeadingSpace(w[1..], s);
    }
  }

  /** `.map(s => s.trim()).filter(s => s !== "")`. */
  function TrimAndDropEmpty(parts: seq<string>): (r: seq<string>)
    ensures |r| <= |parts|
    ensures forall k :: 0 <= k < |r| ==> r[k] != "" && IsTrimmed(r[k])
  {
    if parts == [] then []
    else
      TrimIsTrimmed(parts[0]);
      var t := Trim(parts[0]);
      if t == "" then TrimAndDropEmpty(parts[1..]) else [t] + TrimAndDropEmpty(parts[1..])
  }

  lemma {:induction false} TrimAndDropEmptyAppend(a: seq<string>, b: seq<string>)
    ensures TrimAndDropEmpty(a + b) == TrimAndDropEmpty(a) + TrimAndDropEmpty(b)
    decreases |a|
  {
    if a == [] {
      assert a + b == b;
    } else {
      assert (a + b)[1..] == a[1..] + b;
      TrimAndDropEmptyAppend(a[1..], b);
    }
  }

  /** The split/trim/filter chain the forms apply to list fields. */
  function SplitClean(s: string, seps: set<char>): (r: seq<string>)
    ensures forall k :: 0 <= k < |r| ==> r[k] != "" && IsTrimmed(r[k]) && NoneIn(r[k], seps)
  {
    var parts := Split(s, seps);
    var r := TrimAndDropEmpty(parts);
    CleanKeepsNoSeps(parts, seps);
    r
  }

  lemma {:induction false} CleanKeepsNoSeps(parts: seq<string>, seps: set<char>)
    requires forall k :: 0 <= k < |parts| ==> NoneIn(parts[k], seps)
    ensures forall k :: 0 <= k < |TrimAndDropEmpty(parts)| ==> NoneIn(TrimAndDropEmpty(parts)[k], seps)
    decreases |parts|
  {
    if parts != [] {
      var tail := parts[1..];
      forall k | 0 <= k < |tail| ensures NoneIn(tail[k], seps) {
        assert tail[k] == parts[k + 1];
      }
      CleanKeepsNoSeps(tail, seps);
      var r := TrimAndDropEmpty(tail);
      var t := Trim(parts[0]);
      TrimKeepsNoSeps(parts[0], seps);
      if t == "" {
        assert TrimAndDropEmpty(parts) == r;
      } else {
        assert TrimAndDropEmpty(parts) == [t] + r;
        forall k | 0 <= k < |[t] + r| ensures NoneIn(([t] + r)[k], seps) {
          if k > 0 {
            assert ([t] + r)[k] == r[k - 1];
          }
        }
      }
    }
  }

  /** Trimming removes characters, so it adds no separator. */
  lemma TrimKeepsNoSeps(s: string, seps: set<char>)
    requires NoneIn(s, seps)
    ensures NoneIn(Trim(s), seps)
  {
    var t := TrimStart(s);
    assert NoneIn(t, seps) by {
      forall i | 0 <= i < |t| ensures t[i] !in seps {
        assert t[i] == s[|s| - |t| + i];
      }
    }
    var r := TrimEnd(t);
    assert NoneIn(r, seps) by {
      forall i | 0 <= i < |r| ensures r[i] !in seps {
        assert r[i] == t[i];
      }
    }
  }

  /**
   * Joining clean entries with `sep` (a separator character followed by
   * optional whitespace) and applying the split/trim/filter chain gives the
   * entries back.
   */
  lemma {:induction false} SplitCleanJoin(entries: seq<string>, c: char, pad: string, seps: set<char>)
    requires c in seps
    requires forall i :: 0 <= i < |pad| ==> IsSpace(pad[i]) && pad[i] !in seps
    requires forall k :: 0 <= k < |entries| ==> entries[k] != "" && IsTrimmed(entries[k]) && NoneIn(entries[k], seps)
    ensures SplitClean(Join(entries, [c] + pad), seps) == entries
  {
    var sep := [c] + pad;
    if entries == [] {
      assert Split("", seps) == [""];
      TrimOfTrimmed("");
    } else {
      var raw := RawPieces(entries, pad);
      SplitJoinPieces(entries, c, pad, seps);
      CleanPieces(entries, pad);
    }
  }

  /** The same round trip, for a separator given as one string. */
  lemma SplitCleanJoinSep(entries: seq<string>, sep: string, seps: set<char>)
    requires |sep| > 0 && sep[0] in seps
    requires forall i :: 1 <= i < |sep| ==> IsSpace(sep[i]) && sep[i] !in seps
    requires forall k :: 0 <= k < |entries| ==> entries[k] != "" && IsTrimmed(entries[k]) && NoneIn(entries[k], seps)
    ensures SplitClean(Join(entries, sep), seps) == entries
  {
    var c, pad := sep[0], sep[1..];
    assert [c] + pad == sep;
    SeparatorTail(sep, seps);
    SplitCleanJoin(entries, c, pad, seps);
  }

  lemma SeparatorTail(sep: string, seps: set<char>)
    requires |sep| > 0
    requires forall i :: 1 <= i < |sep| ==> IsSpace(sep[i]) && sep[i] !in seps
    ensures forall i :: 0 <= i < |sep[1..]| ==> IsSpace(sep[1..][i]) && sep[1..][i] !in seps
  {
    forall i | 0 <= i < |sep[1..]| ensures IsSpace(sep[1..][i]) && sep[1..][i] !in seps {
      assert sep[1..][i] == sep[i + 1];
    }
  }

  /** The pieces `split` yields on a joined list: the first entry, then each later one behind its padding. */
  function RawPieces(entries: seq<string>, pad: string): (r: seq<string>)
    requires |entries| > 0
    ensures |r| == |entries| && r[0] == entries[0]
    ensures forall k :: 1 <= k < |r| ==> r[k] == pad + entries[k]
  {
    [entries[0]] + Padded(entries[1..], pad)
  }

  /** Each entry behind the padding. */
  function Padded(entries: seq<string>, pad: string): (r: seq<string>)
    ensures |r| == |entries|
    ensures forall k :: 0 <= k < |r| ==> r[k] == pad + entries[k]
  {
    if entries == [] then [] else [pad + entries[0]] + Padded(entries[1..], pad)
  }

  lemma {:induction false} SplitJoinPieces(entries: seq<string>, c: char, pad: string, seps: set<char>)
    requires |entries| > 0 && c in seps && NoneIn(pad, seps)
    requires forall k :: 0 <= k < |entries| ==> NoneIn(entries[k], seps)
    ensures Split(Join(entries, [c] + pad), seps) == RawPieces(entries, pad)
    decreases |entries|
  {
    var sep := [c] + pad;
    if |entries| == 1 {
      SplitPrefix(entries[0], "", seps);
      assert entries[0] + "" == entries[0];
      assert Padded(entries[1..], pad) == [];
    } else {
      var rest := entries[1..];
      var tail := Join(rest, sep);
      SplitJoinPieces(rest, c, pad, seps);
      var rt := RawPieces(rest, pad);
      assert Join(entries, sep) == entries[0] + ([c] + (pad + tail));
      // The separator character ends the first piece ...
      var x := [c] + (pad + tail);
      assert x[1..] == pad + tail;
      var sx := Split(x, seps);
      assert sx == [""] + Split(pad + tail, seps);
      SplitPrefix(entries[0], x, seps);
      assert entries[0] + sx[0] == entries[0];
      assert sx[1..] == Split(pad + tail, seps);
      // ... and the padding opens the next one.
      SplitPrefix(pad, tail, seps);
      assert rt[1..] == Padded(rest[1..], pad);
      assert Padded(rest, pad) == [pad + rest[0]] + Padded(rest[1..], pad);
    }
  }

  /** A first piece that is padding around a clean entry contributes that entry. */
  lemma CleanHead(pad: string, w: string, parts: seq<string>)
    requires forall i :: 0 <= i < |pad| ==> IsSpace(pad[i])
    requires w != "" && IsTrimmed(w)
    requires parts != [] && parts[0] == pad + w
    ensures TrimAndDropEmpty(parts) == [w] + TrimAndDropEmpty(parts[1..])
  {
    TrimLeadingSpace(pad, w);
  }

  lemma {:induction false} CleanPieces(entries: seq<string>, pad: string)
    requires |entries| > 0
    requires forall i :: 0 <= i < |pad| ==> IsSpace(pad[i])
    requires forall k :: 0 <= k < |entries| ==> entries[k] != "" && IsTrimmed(entries[k])
    ensures TrimAndDropEmpty(RawPieces(entries, pad)) == entries
    decreases |entries|
  {
    var raw := RawPieces(entries, pad);
    assert "" + entries[0] == entries[0];
    CleanHead("", entries[0], raw);
    var tail := Padded(entries[1..], pad);
    assert raw[1..] == tail;
    if |entries| == 1 {
      assert tail == [];
    } else {
      var rest := entries[1..];
      var rr := RawPieces(rest, pad);
      CleanPieces(rest, pad);
      assert "" + rest[0] == rest[0];
      CleanHead("", rest[0], rr);
      CleanHead(pad, rest[0], tail);
      assert tail[1..] == Padded(rest[1..], pad) == rr[1..];
      assert entries == [entries[0]] + rest;
    }
  }

  // ---------------------------------------------------------------------
  // Case and substring search
  // ---------------------------------------------------------------------

  /** A capital letter of the Latin-1 range: A to Z, and À to Þ except the multiplication sign. */
  predicate IsLatinUpper(c: char) {
    IsUpper(c) || ('\U{00C0}' <= c <= '\U{00DE}' && c != '\U{00D7}')
  }

  /** The lower-case letter of a Latin-1 capital sits 32 code points above it. */
  function LowerChar(c: char): char {
    if IsLatinUpper(c) then (c as int + 32) as char else c
  }

  /** `toLowerCase` on the Latin-1 range. */
  function Lower(s: string): (r: string)
    ensures |r| == |s| && forall i :: 0 <= i < |s| ==> r[i] == LowerChar(s[i])
  {
    seq(|s|, i requires 0 <= i < |s| => LowerChar(s[i]))
  }

  /** `hay.includes(needle)`. */
  predicate Contains(hay: string, needle: string) {
    exists i :: 0 <= i <= |hay| - |needle| && OccursAt(hay, needle, i)
  }

  predicate OccursAt(hay: string, needle: string, i: int)
    requires 0 <= i <= |hay| - |needle|
  {
    hay[i..i + |needle|] == needle
  }

  lemma ContainsEmpty(hay: string)
    ensures Contains(hay, "")
  {
    assert OccursAt(hay, "", 0);
  }
}
