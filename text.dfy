/**
 * Character classes, whitespace splitting, joining, substring search and
 * decimal rendering: the string primitives that the server's query
 * sanitiser, strategy planner, playlist-id extractor and response headers
 * are built from.
 */
module Text {

  datatype Option<T> = None | Some(value: T)

  datatype Result<T, E> = Ok(value: T) | Err(error: E)

  // ---------------------------------------------------------------------
  // Character classes
  // ---------------------------------------------------------------------

  /** The regular-expression class `\s`, and the separators of `str.split()`. */
  predicate IsSpace(c: char) {
    ('\U{9}' <= c <= '\U{D}') || ('\U{1C}' <= c <= '\U{20}') || c == '\U{85}' || c == '\U{A0}'
  }

  predicate IsAsciiLetter(c: char) {
    ('a' <= c <= 'z') || ('A' <= c <= 'Z')
  }

  predicate IsDigit(c: char) {
    '0' <= c <= '9'
  }

  /**
   * The regular-expression class `\w` up to U+024F: ASCII letters, digits
   * and the underscore; the Latin-1 word characters ª ² ³ µ ¹ º ¼ ½ ¾; and
   * the letters from U+00C0 to U+024F other than × and ÷.
   */
  predicate IsWordChar(c: char) {
    IsAsciiLetter(c) || IsDigit(c) || c == '_'
    || c == '\U{AA}' || c == '\U{B2}' || c == '\U{B3}' || c == '\U{B5}' || c == '\U{B9}' || c == '\U{BA}'
    || ('\U{BC}' <= c <= '\U{BE}')
    || ('\U{C0}' <= c <= '\U{24F}' && c != '\U{D7}' && c != '\U{F7}')
  }

  // ---------------------------------------------------------------------
  // Whitespace splitting and joining
  // ---------------------------------------------------------------------

  predicate NoSpace(s: string) {
    forall i :: 0 <= i < |s| ==> !IsSpace(s[i])
  }

  /** A token produced by `str.split()`: non-empty and free of whitespace. */
  predicate IsToken(s: string) {
    s != [] && NoSpace(s)
  }

  /** Length of the run of non-whitespace characters that opens `s`. */
  function RunLength(s: string): (n: nat)
    requires s != [] && !IsSpace(s[0])
    ensures 1 <= n <= |s|
    ensures NoSpace(s[..n])
    ensures n < |s| ==> IsSpace(s[n])
  {
    if |s| == 1 || IsSpace(s[1]) then 1 else 1 + RunLength(s[1..])
  }

  /** Python's `str.split()` without arguments: the maximal whitespace-free runs, in order. */
  function Split(s: string): (ws: seq<string>)
    ensures forall k :: 0 <= k < |ws| ==> IsToken(ws[k])
    decreases |s|
  {
    if s == [] then []
    else if IsSpace(s[0]) then Split(s[1..])
    else
      var n := RunLength(s);
      [s[..n]] + Split(s[n..])
  }

  /** Python's `sep.join(ws)`. */
  function JoinWith(sep: string, ws: seq<string>): string {
    if ws == [] then ""
    else if |ws| == 1 then ws[0]
    else ws[0] + sep + JoinWith(sep, ws[1..])
  }

  /** `' '.join(ws)`. */
  function Join(ws: seq<string>): string {
    JoinWith(" ", ws)
  }

  lemma {:induction false} RunLengthOfToken(w: string, t: string)
    requires IsToken(w)
    requires t == [] || IsSpace(t[0])
    ensures RunLength(w + t) == |w|
  {
    var s := w + t;
    if |w| == 1 {
    } else {
      assert s[1..] == w[1..] + t;
      RunLengthOfToken(w[1..], t);
    }
  }

  lemma {:induction false} SplitSkipsSpace(t: string)
    requires t != [] && IsSpace(t[0])
    ensures Split(t) == Split(t[1..])
  {}

  /** Splitting undoes joining with single spaces, when every piece is a token. */
  lemma {:induction false} SplitJoin(ws: seq<string>)
    requires forall k :: 0 <= k < |ws| ==> IsToken(ws[k])
    ensures Split(Join(ws)) == ws
  {
    if ws == [] {
    } else if |ws| == 1 {
      var s := ws[0];
      RunLengthOfToken(s, "");
      assert s + "" == s;
      assert s[|s|..] == [];
      assert s[..|s|] == s;
    } else {
      var w := ws[0];
      var rest := Join(ws[1..]);
      var s := w + " " + rest;
      assert Join(ws) == s;
      RunLengthOfToken(w, " " + rest);
      assert s == w + (" " + rest);
      assert s[..|w|] == w;
      assert s[|w|..] == " " + rest;
      SplitSkipsSpace(" " + rest);
      assert (" " + rest)[1..] == rest;
      SplitJoin(ws[1..]);
      assert [w] + ws[1..] == ws;
    }
  }

  // ---------------------------------------------------------------------
  // Substring search (Python's `sub in s`)
  // ---------------------------------------------------------------------

  predicate OccursAt(s: string, sub: string, i: nat) {
    i + |sub| <= |s| && s[i..i + |sub|] == sub
  }

  /** `sub in s`, decided by scanning the start positions from the left. */
  function Contains(s: string, sub: string, from: nat := 0): (b: bool)
    ensures b <==> exists i: nat :: from <= i && OccursAt(s, sub, i)
    decreases |s| - from
  {
    if from + |sub| > |s| then
      assert forall i: nat :: from <= i ==> !OccursAt(s, sub, i);
      false
    else if OccursAt(s, sub, from) then true
    else
      var b := Contains(s, sub, from + 1);
      assert forall i: nat :: from <= i && OccursAt(s, sub, i) ==> from + 1 <= i;
      b
  }

  /** `s.startswith(pre)`. */
  predicate StartsWith(s: string, pre: string) {
    |pre| <= |s| && s[..|pre|] == pre
  }

  lemma StartsWithAppend(pre: string, t: string)
    ensures StartsWith(pre + t, pre)
  {
    assert (pre + t)[..|pre|] == pre;
  }

  /** A string that starts with `a + b` starts with `a`. */
  lemma StartsWithShorter(s: string, a: string, b: string)
    requires StartsWith(s, a + b)
    ensures StartsWith(s, a)
  {
    assert s[..|a|] == (a + b)[..|a|];
  }

  /** The text before the first occurrence of `sep`, i.e. `s.split(sep)[0]`. */
  function BeforeFirst(s: string, sep: char): (r: string)
    ensures |r| <= |s| && r == s[..|r|]
    ensures sep !in r
    ensures |r| < |s| ==> s[|r|] == sep
  {
    if s == [] then []
    else if s[0] == sep then []
    else [s[0]] + BeforeFirst(s[1..], sep)
  }

  /** Python's `s.split(sep)` for a one-character separator: always at least one piece. */
  function SplitOn(s: string, sep: char): (ws: seq<string>)
    ensures ws != []
    decreases |s|
  {
    var head := BeforeFirst(s, sep);
    if |head| == |s| then [s] else [head] + SplitOn(s[|head| + 1..], sep)
  }

  lemma {:induction false} BeforeFirstOfJoined(w: string, sep: char, t: string)
    requires sep !in w
    ensures BeforeFirst(w + [sep] + t, sep) == w
  {
    if w != [] {
      assert (w + [sep] + t)[1..] == w[1..] + [sep] + t;
      BeforeFirstOfJoined(w[1..], sep, t);
    }
  }

  lemma {:induction false} BeforeFirstWhole(w: string, sep: char)
    requires sep !in w
    ensures BeforeFirst(w, sep) == w
  {
    if w != [] {
      BeforeFirstWhole(w[1..], sep);
    }
  }

  /** Splitting on the separator undoes joining with it, when no piece holds the separator. */
  lemma {:induction false} SplitOnJoin(ws: seq<string>, sep: char)
    requires ws != []
    requires forall k :: 0 <= k < |ws| ==> sep !in ws[k]
    ensures SplitOn(JoinWith([sep], ws), sep) == ws
  {
    if |ws| == 1 {
      BeforeFirstWhole(ws[0], sep);
    } else {
      var w := ws[0];
      var t := JoinWith([sep], ws[1..]);
      var s := w + [sep] + t;
      assert JoinWith([sep], ws) == s;
      BeforeFirstOfJoined(w, sep, t);
      assert s[|w| + 1..] == t;
      SplitOnJoin(ws[1..], sep);
      assert [w] + ws[1..] == ws;
    }
  }

  // ---------------------------------------------------------------------
  // Decimal numerals
  // ---------------------------------------------------------------------

  predicate AllDigits(s: string) {
    forall i :: 0 <= i < |s| ==> IsDigit(s[i])
  }

  lemma DigitsExclude(s: string, c: char)
    requires AllDigits(s) && !IsDigit(c)
    ensures c !in s
  {
    assert forall i :: 0 <= i < |s| ==> s[i] != c;
  }

  function DigitChar(d: nat): (c: char)
    requires d < 10
    ensures IsDigit(c)
  {
    ['0', '1', '2', '3', '4', '5', '6', '7', '8', '9'][d]
  }

  function DigitValue(c: char): (d: nat)
    requires IsDigit(c)
    ensures d < 10
  {
    (c as int - '0' as int) as nat
  }

  lemma DigitRoundTrip(d: nat)
    requires d < 10
    ensures DigitValue(DigitChar(d)) == d
  {}

  /** Python's `str(n)` for a non-negative integer: no leading zeros. */
  function Decimal(n: nat): (s: string)
    ensures s != [] && AllDigits(s)
    ensures |s| > 1 ==> s[0] != '0'
  {
    if n < 10 then [DigitChar(n)] else Decimal(n / 10) + [DigitChar(n % 10)]
  }

  /** Python's `int(s)` on a string of decimal digits. */
  function ParseDecimal(s: string): (n: nat)
    requires AllDigits(s)
  {
    if s == [] then 0 else 10 * ParseDecimal(s[..|s| - 1]) + DigitValue(s[|s| - 1])
  }

  function Zeros(k: nat): (s: string)
    ensures |s| == k && AllDigits(s)
    ensures forall i :: 0 <= i < k ==> s[i] == '0'
  {
    if k == 0 then [] else Zeros(k - 1) + ['0']
  }

  /** The format `{n:0<width>d}`: `str(n)` left-padded with zeros to at least `width` digits. */
  function ZeroPad(n: nat, width: nat): (s: string)
    ensures AllDigits(s) && |s| >= width
  {
    var d := Decimal(n);
    if |d| < width then Zeros(width - |d|) + d else d
  }

  lemma {:induction false} ParseDecimalOfDecimal(n: nat)
    ensures ParseDecimal(Decimal(n)) == n
  {
    if n >= 10 {
      var s := Decimal(n);
      assert s[..|s| - 1] == Decimal(n / 10);
      ParseDecimalOfDecimal(n / 10);
      DigitRoundTrip(n % 10);
    } else {
      DigitRoundTrip(n);
    }
  }

  lemma {:induction false} ParseDecimalOfZeros(k: nat)
    ensures ParseDecimal(Zeros(k)) == 0
  {
    if k > 0 {
      assert Zeros(k)[..k - 1] == Zeros(k - 1);
      ParseDecimalOfZeros(k - 1);
    }
  }

  /** Leading zeros do not change the value of a numeral. */
  lemma {:induction false} ParseDecimalIgnoresZeros(k: nat, t: string)
    requires AllDigits(t)
    ensures AllDigits(Zeros(k) + t)
    ensures ParseDecimal(Zeros(k) + t) == ParseDecimal(t)
    decreases |t|
  {
    var s := Zeros(k) + t;
    if t == [] {
      assert s == Zeros(k);
      ParseDecimalOfZeros(k);
    } else {
      assert s[..|s| - 1] == Zeros(k) + t[..|t| - 1];
      ParseDecimalIgnoresZeros(k, t[..|t| - 1]);
    }
  }

  /** Reading a zero-padded numeral back gives the number: padding is injective. */
  lemma {:induction false} ParseZeroPad(n: nat, width: nat)
    ensures ParseDecimal(ZeroPad(n, width)) == n
  {
    var d := Decimal(n);
    ParseDecimalOfDecimal(n);
    if |d| < width {
      assert ZeroPad(n, width) == Zeros(width - |d|) + d;
      ParseDecimalIgnoresZeros(width - |d|, d);
    } else {
      assert ZeroPad(n, width) == d;
    }
  }
}
