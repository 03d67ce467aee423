/** The parts of Go's `strings`, `unicode` and `strconv` packages the core relies on, over runes
    (a Go string converted with `[]rune` is a `seq<char>` here). */
module GoStrings {

  /** unicode.IsSpace: the Latin-1 spaces plus the other code points with the White_Space property. */
  predicate IsSpace(c: char) {
    c == '\t' || c == '\n' || c == '\U{B}' || c == '\U{C}' || c == '\r' || c == ' '
    || c == '\U{85}' || c == '\U{A0}' || c == '\U{1680}' || ('\U{2000}' <= c <= '\U{200A}')
    || c == '\U{2028}' || c == '\U{2029}' || c == '\U{202F}' || c == '\U{205F}' || c == '\U{3000}'
  }

  /** The code point unicode.ToLower gives for the upper-case letters of the ASCII, Latin-1 Supplement,
      Latin Extended-A, Greek and Coptic, Cyrillic, Cyrillic Supplement and Armenian blocks
      (U+0000-U+017F and U+0370-U+058F) and of the fullwidth Latin letters; every other code point is
      its own image. */
  function LowerCode(c: char): int {
    var x := c as int;
    if x < 0x80 then
      (if 0x41 <= x <= 0x5A then x + 32 else x)
    else if x < 0x100 then
      (if 0xC0 <= x <= 0xDE && x != 0xD7 then x + 32 else x)
    else if x < 0x180 then
      if (x <= 0x12F || 0x132 <= x <= 0x137 || 0x14A <= x <= 0x177) && x % 2 == 0 then x + 1
      else if (0x139 <= x <= 0x148 || 0x179 <= x <= 0x17E) && x % 2 == 1 then x + 1
      else if x == 0x130 then 0x69
      else if x == 0x178 then 0xFF
      else x
    else if x < 0x370 then x
    else if x < 0x400 then
      if x < 0x386 then
        (if x == 0x370 || x == 0x372 || x == 0x376 then x + 1 else if x == 0x37F then 0x3F3 else x)
      else if x <= 0x3AB then
        if x == 0x386 then 0x3AC
        else if 0x388 <= x <= 0x38A then x + 37
        else if x == 0x38C then 0x3CC
        else if 0x38E <= x <= 0x38F then x + 63
        else if 0x391 <= x && x != 0x3A2 then x + 32
        else x
      else if x == 0x3CF then 0x3D7
      else if 0x3D8 <= x <= 0x3EE && x % 2 == 0 then x + 1
      else if x == 0x3F4 then 0x3B8
      else if x == 0x3F7 || x == 0x3FA then x + 1
      else if x == 0x3F9 then 0x3F2
      else if 0x3FD <= x then x - 130
      else x
    else if x < 0x530 then
      if x <= 0x40F then x + 80
      else if x <= 0x42F then x + 32
      else if x < 0x460 then x
      else if (x <= 0x480 || 0x48A <= x <= 0x4BE || 0x4D0 <= x) && x % 2 == 0 then x + 1
      else if x == 0x4C0 then 0x4CF
      else if 0x4C1 <= x <= 0x4CD && x % 2 == 1 then x + 1
      else x
    else if x < 0x600 then
      (if 0x531 <= x <= 0x556 then x + 48 else x)
    else if 0xFF21 <= x <= 0xFF3A then x + 32
    else x
  }

  /** The upper-case letters LowerRune maps. */
  predicate IsUpper(c: char) {
    LowerCode(c) != c as int
  }

  /** unicode.ToLower over the blocks of LowerCode: an upper-case letter maps to a letter that is not
      upper-case, and every other rune, white space included, to itself. */
  function LowerRune(c: char): (r: char)
    ensures 'A' <= c <= 'Z' ==> 'a' <= r <= 'z' && r as int - c as int == 32
    ensures !IsUpper(c) ==> r == c
    ensures IsUpper(c) ==> r != c && !IsUpper(r) && !IsSpace(r)
    ensures IsSpace(c) ==> !IsUpper(c)
  {
    LowerCode(c) as char
  }

  /** strings.ToLower: rune-wise lower-casing. */
  function ToLower(s: string): (r: string)
    ensures |r| == |s|
    ensures forall i :: 0 <= i < |s| ==> r[i] == LowerRune(s[i])
  {
    seq(|s|, i requires 0 <= i < |s| => LowerRune(s[i]))
  }

  /** strings.ReplaceAll(s, string(c), ""): every `c` removed, the other runes kept in order. */
  function RemoveRune(s: string, c: char): (r: string)
    ensures multiset(r) == multiset(s)[c := 0]
  {
    if |s| == 0 then ""
    else
      assert s == [s[0]] + s[1..];
      if s[0] == c then RemoveRune(s[1..], c) else [s[0]] + RemoveRune(s[1..], c)
  }

  /** Length of the run of non-space runes that starts `s`. */
  function WordLen(s: string): (n: nat)
    ensures n <= |s|
    ensures forall i :: 0 <= i < n ==> !IsSpace(s[i])
    ensures n < |s| ==> IsSpace(s[n])
  {
    if |s| == 0 || IsSpace(s[0]) then 0 else 1 + WordLen(s[1..])
  }

  /** strings.Fields: the maximal runs of non-space runes, in order. */
  function Fields(s: string): (r: seq<string>)
    ensures forall k :: 0 <= k < |r| ==> |r[k]| > 0
    ensures forall k, i :: 0 <= k < |r| && 0 <= i < |r[k]| ==> !IsSpace(r[k][i])
    decreases |s|
  {
    if |s| == 0 then []
    else if IsSpace(s[0]) then Fields(s[1..])
    else
      var n := WordLen(s);
      [s[..n]] + Fields(s[n..])
  }

  /** A string made only of spaces (the empty string included) has no fields. */
  lemma {:induction false} FieldsOfBlank(s: string)
    requires forall i :: 0 <= i < |s| ==> IsSpace(s[i])
    ensures Fields(s) == []
  {
    if |s| > 0 {
      FieldsOfBlank(s[1..]);
    }
  }

  /** `s` with its white-space runes removed. */
  function Unspaced(s: string): string
    decreases |s|
  {
    if |s| == 0 then "" else (if IsSpace(s[0]) then "" else [s[0]]) + Unspaced(s[1..])
  }

  /** The pieces written one after another. */
  function Concat(ws: seq<string>): string
    decreases |ws|
  {
    if |ws| == 0 then "" else ws[0] + Concat(ws[1..])
  }

  /** `w` occurs in `s` at `i` as a maximal run: bordered by white space or by an end of `s`. */
  predicate RunAt(s: string, i: nat, w: string) {
    && i + |w| <= |s| && s[i..i + |w|] == w
    && (i == 0 || IsSpace(s[i - 1]))
    && (i + |w| == |s| || IsSpace(s[i + |w|]))
  }

  lemma {:induction false} UnspacedPrefix(s: string, n: nat)
    requires n <= |s| && forall i :: 0 <= i < n ==> !IsSpace(s[i])
    ensures Unspaced(s) == s[..n] + Unspaced(s[n..])
  {
    if n > 0 {
      UnspacedPrefix(s[1..], n - 1);
      assert s[1..][n - 1..] == s[n..];
      assert s[..n] == [s[0]] + s[1..][..n - 1];
    }
  }

  /** Nothing but white space is lost: the fields, written one after another, are `s` without its
      white space. */
  lemma {:induction false} FieldsCover(s: string)
    ensures Concat(Fields(s)) == Unspaced(s)
    decreases |s|
  {
    if |s| > 0 {
      if IsSpace(s[0]) {
        FieldsCover(s[1..]);
      } else {
        var n := WordLen(s);
        FieldsCover(s[n..]);
        UnspacedPrefix(s, n);
        var r := Fields(s);
        assert r == [s[..n]] + Fields(s[n..]);
        assert r[1..] == Fields(s[n..]);
      }
    }
  }

  /** Every field is a maximal run of non-space runes of `s`. */
  lemma {:induction false} FieldsMaximal(s: string, k: nat)
    requires k < |Fields(s)|
    ensures exists i: nat :: RunAt(s, i, Fields(s)[k])
    decreases |s|
  {
    var r := Fields(s);
    if IsSpace(s[0]) {
      var t := s[1..];
      assert r == Fields(t);
      FieldsMaximal(t, k);
      var i: nat :| RunAt(t, i, r[k]);
      RunShift(s, 1, i, r[k]);
    } else {
      var n := WordLen(s);
      var t := s[n..];
      assert r == [s[..n]] + Fields(t);
      if k == 0 {
        assert RunAt(s, 0, r[0]);
      } else {
        assert r[k] == Fields(t)[k - 1];
        FieldsMaximal(t, k - 1);
        var i: nat :| RunAt(t, i, r[k]);
        assert t[i] == r[k][0] && !IsSpace(r[k][0]);
        RunShift(s, n, i, r[k]);
      }
    }
  }

  /** A run found in a suffix of `s` is a run of `s`, unless it starts the suffix right after a
      non-space rune. */
  lemma RunShift(s: string, m: nat, i: nat, w: string)
    requires m <= |s| && RunAt(s[m..], i, w)
    requires i > 0 || m == 0 || IsSpace(s[m - 1])
    ensures RunAt(s, m + i, w)
  {
    assert s[m + i..m + i + |w|] == s[m..][i..i + |w|];
    if i > 0 {
      assert s[m + i - 1] == s[m..][i - 1];
    }
    if m + i + |w| < |s| {
      assert s[m + i + |w|] == s[m..][i + |w|];
    }
  }

  /** A rune that survives Unspaced lies in one of the pieces whose concatenation it is. */
  lemma {:induction false} InConcat(ws: seq<string>, c: char)
    requires c in Concat(ws)
    ensures exists k :: 0 <= k < |ws| && c in ws[k]
    decreases |ws|
  {
    if c !in ws[0] {
      InConcat(ws[1..], c);
      var k :| 0 <= k < |ws[1..]| && c in ws[1..][k];
      assert c in ws[k + 1];
    }
  }

  /** A non-space rune of `s` is kept by Unspaced. */
  lemma {:induction false} InUnspaced(s: string, i: nat)
    requires i < |s| && !IsSpace(s[i])
    ensures s[i] in Unspaced(s)
    decreases |s|
  {
    if i > 0 {
      InUnspaced(s[1..], i - 1);
    }
  }

  /** Every non-space rune of `s` lies in some field. */
  lemma FieldsHoldEveryRune(s: string, i: nat)
    requires i < |s| && !IsSpace(s[i])
    ensures exists k :: 0 <= k < |Fields(s)| && s[i] in Fields(s)[k]
  {
    InUnspaced(s, i);
    FieldsCover(s);
    InConcat(Fields(s), s[i]);
  }

  /** strings.Split(s, string(sep)): the pieces between the occurrences of `sep`. */
  function Split(s: string, sep: char): (r: seq<string>)
    ensures |r| == multiset(s)[sep] + 1
    ensures forall k :: 0 <= k < |r| ==> sep !in r[k]
    decreases |s|
  {
    if |s| == 0 then [""]
    else
      assert s == [s[0]] + s[1..];
      var rest := Split(s[1..], sep);
      if s[0] == sep then [""] + rest else [[s[0]] + rest[0]] + rest[1..]
  }

  /** strings.Join(pieces, string(sep)). */
  function Join(pieces: seq<string>, sep: char): string {
    if |pieces| == 0 then ""
    else if |pieces| == 1 then pieces[0]
    else pieces[0] + [sep] + Join(pieces[1..], sep)
  }

  /** Split and Join are inverse: joining the pieces gives back the original string. */
  lemma {:induction false} JoinSplit(s: string, sep: char)
    ensures Join(Split(s, sep), sep) == s
  {
    if |s| > 0 {
      JoinSplit(s[1..], sep);
      if s[0] == sep {
        JoinSplitAtSeparator(s, sep);
      } else {
        JoinSplitAtRune(s, sep);
      }
    }
  }

  lemma JoinSplitAtSeparator(s: string, sep: char)
    requires |s| > 0 && s[0] == sep && Join(Split(s[1..], sep), sep) == s[1..]
    ensures Join(Split(s, sep), sep) == s
  {
    var rest := Split(s[1..], sep);
    var pieces := [""] + rest;
    assert Split(s, sep) == pieces;
    assert pieces[1..] == rest;
    assert s == [sep] + s[1..];
  }

  lemma JoinSplitAtRune(s: string, sep: char)
    requires |s| > 0 && s[0] != sep && Join(Split(s[1..], sep), sep) == s[1..]
    ensures Join(Split(s, sep), sep) == s
  {
    var rest := Split(s[1..], sep);
    assert Split(s, sep) == [[s[0]] + rest[0]] + rest[1..];
    JoinGrowsFirst(s[0], rest, sep, s[1..]);
    assert s == [s[0]] + s[1..];
  }

  /** Prepending a rune to the first piece prepends it to the joined string. */
  lemma JoinGrowsFirst(c: char, pieces: seq<string>, sep: char, joined: string)
    requires |pieces| > 0 && Join(pieces, sep) == joined
    ensures Join([[c] + pieces[0]] + pieces[1..], sep) == [c] + joined
  {
    var head := [c] + pieces[0];
    if |pieces| > 1 {
      var tail := Join(pieces[1..], sep);
      JoinCons(head, pieces[1..], sep);
      assert pieces == [pieces[0]] + pieces[1..];
      JoinCons(pieces[0], pieces[1..], sep);
      assert head + [sep] + tail == [c] + (pieces[0] + [sep] + tail);
    }
  }

  lemma JoinCons(head: string, tail: seq<string>, sep: char)
    requires |tail| > 0
    ensures Join([head] + tail, sep) == head + [sep] + Join(tail, sep)
  {
    assert ([head] + tail)[1..] == tail;
  }

  /** With exactly one separator, at index `i`, Split gives the text before it and the text after it. */
  lemma {:induction false} SplitAtOnlySeparator(s: string, sep: char, i: nat)
    requires i < |s| && s[i] == sep
    requires forall j :: 0 <= j < |s| && j != i ==> s[j] != sep
    ensures Split(s, sep) == [s[..i], s[i+1..]]
  {
    if i == 0 {
      NoSeparatorSplit(s[1..], sep);
    } else {
      SplitAtOnlySeparator(s[1..], sep, i - 1);
      assert [s[0]] + s[1..][..i-1] == s[..i];
      assert s[1..][i-1+1..] == s[i+1..];
    }
  }

  /** A string without the separator splits into itself. */
  lemma {:induction false} NoSeparatorSplit(s: string, sep: char)
    requires forall j :: 0 <= j < |s| ==> s[j] != sep
    ensures Split(s, sep) == [s]
  {
    if |s| > 0 {
      NoSeparatorSplit(s[1..], sep);
      assert s == [s[0]] + s[1..];
    }
  }

  const MaxInt64: int := 0x7FFF_FFFF_FFFF_FFFF
  const MinInt64: int := -0x8000_0000_0000_0000
  const MaxUint64: int := 0xFFFF_FFFF_FFFF_FFFF

  /** What strconv.ParseUint's digit loop reports. */
  datatype Digits = SyntaxError | RangeError | Value(n: nat)

  /** strconv.ParseUint's loop in base 10: a non-digit is a syntax error, and the first digit that
      takes the running value past 2^64-1 is a range error, whatever follows it. */
  function ScanDigits(s: string, acc: nat): (r: Digits)
    requires acc <= MaxUint64
    ensures r.Value? ==> r.n <= MaxUint64
    decreases |s|
  {
    if |s| == 0 then Value(acc)
    else if !('0' <= s[0] <= '9') then SyntaxError
    else
      var n := acc * 10 + (s[0] as int - '0' as int);
      if n > MaxUint64 then RangeError else ScanDigits(s[1..], n)
  }

  /** Go's `(int, error)` pair from strconv.Atoi: the value it returns and whether the error is nil. */
  datatype Conversion = Conversion(value: int, ok: bool)

  /** strconv.Atoi on a 64-bit platform: an optional sign and decimal digits. A syntax error returns 0;
      an out-of-range number returns the nearest int64 bound, with the error set. */
  function Atoi(s: string): (r: Conversion)
    ensures MinInt64 <= r.value <= MaxInt64
    ensures !r.ok ==> r.value == 0 || r.value == MinInt64 || r.value == MaxInt64
    ensures r.ok ==> |s| > 0
  {
    if |s| == 0 then Conversion(0, false)
    else
      var neg := s[0] == '-';
      var body := if s[0] == '+' || s[0] == '-' then s[1..] else s;
      if |body| == 0 then Conversion(0, false)
      else match ScanDigits(body, 0)
        case SyntaxError => Conversion(0, false)
        case RangeError => Conversion(if neg then MinInt64 else MaxInt64, false)
        case Value(n) =>
          if !neg && n > MaxInt64 then Conversion(MaxInt64, false)
          else if neg && n > -MinInt64 then Conversion(MinInt64, false)
          else Conversion(if neg then -(n as int) else n as int, true)
  }

  predicate AllDigits(s: string) {
    forall i :: 0 <= i < |s| ==> '0' <= s[i] <= '9'
  }

  function Pow10(k: nat): (r: nat)
    ensures r >= 1
  {
    if k == 0 then 1 else 10 * Pow10(k - 1)
  }

  /** The number a string of decimal digits denotes, most significant digit first. */
  function DecimalValue(s: string): nat
    requires AllDigits(s)
    decreases |s|
  {
    if |s| == 0 then 0 else (s[0] as int - '0' as int) * Pow10(|s| - 1) + DecimalValue(s[1..])
  }

  /** The digit loop, started from `acc` over digits only, yields the number they denote after `acc`
      when it fits in 64 bits, and a range error when it does not. */
  lemma {:induction false} ScanDigitsValue(s: string, acc: nat)
    requires acc <= MaxUint64 && AllDigits(s)
    ensures ScanDigits(s, acc) == (var v := acc * Pow10(|s|) + DecimalValue(s);
                                   if v <= MaxUint64 then Value(v) else RangeError)
    decreases |s|
  {
    if |s| > 0 {
      var d := s[0] as int - '0' as int;
      var n := acc * 10 + d;
      assert AllDigits(s[1..]);
      var p := Pow10(|s| - 1);
      if n <= MaxUint64 {
        ScanDigitsValue(s[1..], n);
      }
      ShiftDigit(acc, d, p, DecimalValue(s[1..]));
      assert Pow10(|s|) == 10 * p;
    }
  }

  lemma ShiftDigit(acc: nat, d: nat, p: nat, rest: nat)
    requires p >= 1
    ensures acc * (10 * p) + (d * p + rest) == (acc * 10 + d) * p + rest
    ensures (acc * 10 + d) * p + rest >= acc * 10 + d
  {
    assert acc * (10 * p) == (acc * 10) * p;
    assert (acc * 10 + d) * p == (acc * 10) * p + d * p;
  }

  /** A rune that is not a digit keeps the digit loop from yielding a value. */
  lemma {:induction false} ScanNonDigit(s: string, acc: nat)
    requires acc <= MaxUint64 && !AllDigits(s)
    ensures !ScanDigits(s, acc).Value?
    decreases |s|
  {
    if '0' <= s[0] <= '9' {
      var n := acc * 10 + (s[0] as int - '0' as int);
      if n <= MaxUint64 {
        assert !AllDigits(s[1..]) by {
          var i :| 0 <= i < |s| && !('0' <= s[i] <= '9');
          assert s[1..][i - 1] == s[i];
        }
        ScanNonDigit(s[1..], n);
      }
    }
  }

  /** The text after Atoi's optional sign. */
  function Unsigned(s: string): (b: string)
    ensures |b| <= |s|
  {
    if |s| > 0 && (s[0] == '+' || s[0] == '-') then s[1..] else s
  }

  /** What strconv.Atoi returns, stated through the number the digits denote: no digits is
      `(0, error)` and a rune that is not a digit an error; for digits only, a number outside int64 is
      the nearest bound with an error, and any other number is returned with a nil error, negated
      after a '-'. */
  lemma AtoiValue(s: string)
    ensures |Unsigned(s)| == 0 ==> Atoi(s) == Conversion(0, false)
    ensures !AllDigits(Unsigned(s)) ==> !Atoi(s).ok
    ensures |Unsigned(s)| > 0 && AllDigits(Unsigned(s)) ==>
              Atoi(s) == (var v: int := if s[0] == '-' then -(DecimalValue(Unsigned(s)) as int)
                                        else DecimalValue(Unsigned(s));
                          if v < MinInt64 then Conversion(MinInt64, false)
                          else if v > MaxInt64 then Conversion(MaxInt64, false)
                          else Conversion(v, true))
  {
    if |s| > 0 {
      var b := Unsigned(s);
      if AllDigits(b) {
        ScanDigitsValue(b, 0);
      } else {
        ScanNonDigit(b, 0);
      }
    }
  }

  /** The digits of `x` followed by one more digit. */
  lemma {:induction false} DecimalValueSnoc(x: string, c: char)
    requires AllDigits(x) && '0' <= c <= '9'
    ensures AllDigits(x + [c])
    ensures DecimalValue(x + [c]) == 10 * DecimalValue(x) + (c as int - '0' as int)
    decreases |x|
  {
    var y := x + [c];
    assert AllDigits(y) by {
      assert forall i :: 0 <= i < |x| ==> y[i] == x[i];
    }
    if |x| > 0 {
      assert y[0] == x[0] && y[1..] == x[1..] + [c];
      assert AllDigits(x[1..]);
      DecimalValueSnoc(x[1..], c);
      SnocStep(x[0] as int - '0' as int, Pow10(|x| - 1), DecimalValue(x[1..]), c as int - '0' as int);
    } else {
      assert y == [c] && y[1..] == [];
    }
  }

  lemma SnocStep(d0: int, p: int, rest: int, d: int)
    ensures d0 * (10 * p) + (10 * rest + d) == 10 * (d0 * p + rest) + d
  {
    assert d0 * (10 * p) == 10 * (d0 * p);
  }

  /** strconv.Itoa of a non-negative number: its shortest decimal digits. */
  function DigitsOf(n: nat): string
    decreases n
  {
    if n < 10 then [('0' as int + n) as char] else DigitsOf(n / 10) + [('0' as int + n % 10) as char]
  }

  lemma {:induction false} DigitsOfValue(n: nat)
    ensures |DigitsOf(n)| > 0 && AllDigits(DigitsOf(n)) && DecimalValue(DigitsOf(n)) == n
    decreases n
  {
    if n < 10 {
      assert DecimalValue(DigitsOf(n)) == n * Pow10(0) + DecimalValue([]) by {
        assert DigitsOf(n)[1..] == [];
      }
    } else {
      DigitsOfValue(n / 10);
      DecimalValueSnoc(DigitsOf(n / 10), ('0' as int + n % 10) as char);
    }
  }

  /** strconv.Itoa. */
  function Itoa(n: int): string {
    if n < 0 then "-" + DigitsOf(-n) else DigitsOf(n)
  }

  /** Atoi reads back what Itoa writes, for every int64, and accepts a leading '+' as well. */
  lemma AtoiItoa(n: int)
    requires MinInt64 <= n <= MaxInt64
    ensures Atoi(Itoa(n)) == Conversion(n, true)
    ensures n >= 0 ==> Atoi("+" + Itoa(n)) == Conversion(n, true)
  {
    var m := if n < 0 then -n else n;
    DigitsOfValue(m);
    var digits := DigitsOf(m);
    AtoiValue(Itoa(n));
    if n < 0 {
      assert Unsigned(Itoa(n)) == digits;
    } else {
      assert Unsigned(Itoa(n)) == digits;
      AtoiValue("+" + Itoa(n));
      assert Unsigned("+" + Itoa(n)) == digits;
    }
  }

  /** A Go `int` (64-bit two's complement) result of unbounded arithmetic. */
  function WrapInt64(x: int): (r: int)
    ensures MinInt64 <= r <= MaxInt64
    ensures (r - x) % 0x1_0000_0000_0000_0000 == 0
    ensures MinInt64 <= x <= MaxInt64 ==> r == x
  {
    (x - MinInt64) % 0x1_0000_0000_0000_0000 + MinInt64
  }
}
