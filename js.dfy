/** JavaScript value semantics that the import pipeline relies on: undefined
    values, truthiness, the `||` operator, `parseInt`, `String.prototype.split`
    on the date separators, and the three kinds of `Date` the code produces. */
module Js {

  datatype Option<+T> = None | Some(value: T)

  datatype Result<+T, +E> = Ok(value: T) | Err(error: E)

  /** A parsed CSV row: column name to cell text. A column the row lacks reads
      as `undefined`. */
  type Row = map<string, string>

  /** `row[key]`, with `None` standing for `undefined`. */
  function Get(row: Row, key: string): Option<string>
  {
    if key in row then Some(row[key]) else None
  }

  /** JavaScript truthiness of a string-or-undefined value. */
  predicate Truthy(v: Option<string>)
  {
    v.Some? && v.value != ""
  }

  /** `a || b` on string-or-undefined values. */
  function Or(a: Option<string>, b: Option<string>): Option<string>
  {
    if Truthy(a) then a else b
  }

  /** `a || "default"`. */
  function OrElse(a: Option<string>, default: string): string
  {
    if Truthy(a) then a.value else default
  }

  /** `row[k0] || row[k1] || ... || row[kn]`: JavaScript yields the first truthy
      operand, or the last operand itself when none is truthy. */
  function FirstTruthy(row: Row, aliases: seq<string>): Option<string>
    requires |aliases| > 0
    decreases |aliases|
  {
    if |aliases| == 1 then Get(row, aliases[0])
    else Or(Get(row, aliases[0]), FirstTruthy(row, aliases[1..]))
  }

  /** Alias `k` is the first alias whose column is truthy in `row`. */
  predicate FirstTruthyAt(row: Row, aliases: seq<string>, k: int)
  {
    && 0 <= k < |aliases|
    && Truthy(Get(row, aliases[k]))
    && forall j :: 0 <= j < k ==> !Truthy(Get(row, aliases[j]))
  }

  /** No alias has a truthy column in `row`. */
  predicate NoneTruthy(row: Row, aliases: seq<string>)
  {
    forall j :: 0 <= j < |aliases| ==> !Truthy(Get(row, aliases[j]))
  }

  /** The alias chain picks the first truthy alias and ignores all later ones. */
  lemma {:induction false} FirstTruthyPicksFirst(row: Row, aliases: seq<string>, k: int)
    requires FirstTruthyAt(row, aliases, k)
    ensures FirstTruthy(row, aliases) == Get(row, aliases[k])
    decreases |aliases|
  {
    if k > 0 {
      assert !Truthy(Get(row, aliases[0]));
      assert FirstTruthyAt(row, aliases[1..], k - 1) by {
        forall j | 0 <= j < k - 1 ensures !Truthy(Get(row, aliases[1..][j])) {
          assert aliases[1..][j] == aliases[j + 1];
        }
      }
      FirstTruthyPicksFirst(row, aliases[1..], k - 1);
    }
  }

  /** When no alias is truthy the chain yields the last alias's raw value,
      which is itself not truthy. */
  lemma {:induction false} FirstTruthyNone(row: Row, aliases: seq<string>)
    requires |aliases| > 0 && NoneTruthy(row, aliases)
    ensures FirstTruthy(row, aliases) == Get(row, aliases[|aliases| - 1])
    ensures !Truthy(FirstTruthy(row, aliases))
    decreases |aliases|
  {
    if |aliases| > 1 {
      assert !Truthy(Get(row, aliases[0]));
      assert NoneTruthy(row, aliases[1..]) by {
        forall j | 0 <= j < |aliases| - 1 ensures !Truthy(Get(row, aliases[1..][j])) {
          assert aliases[1..][j] == aliases[j + 1];
        }
      }
      FirstTruthyNone(row, aliases[1..]);
    }
  }

  /** The chain is truthy exactly when some alias is; in that case some alias
      is the first truthy one. */
  lemma FirstTruthyCases(row: Row, aliases: seq<string>)
    requires |aliases| > 0
    ensures NoneTruthy(row, aliases) || exists k :: FirstTruthyAt(row, aliases, k)
    ensures Truthy(FirstTruthy(row, aliases)) <==> !NoneTruthy(row, aliases)
  {
    if NoneTruthy(row, aliases) {
      FirstTruthyNone(row, aliases);
    } else {
      var k := FirstTruthyIndex(row, aliases, 0);
      FirstTruthyPicksFirst(row, aliases, k);
    }
  }

  /** The index of the first truthy alias at or after `from`. */
  function FirstTruthyIndex(row: Row, aliases: seq<string>, from: nat): (k: int)
    requires from <= |aliases|
    requires forall j :: 0 <= j < from ==> !Truthy(Get(row, aliases[j]))
    requires !NoneTruthy(row, aliases)
    ensures FirstTruthyAt(row, aliases, k)
    decreases |aliases| - from
  {
    if from < |aliases| && Truthy(Get(row, aliases[from])) then from
    else FirstTruthyIndex(row, aliases, from + 1)
  }

  // ---------------------------------------------------------------------------
  // Sequences

  /** Stated once so that a proof about appended records need not rediscover
      it element by element. */
  lemma AppendAssoc<T>(a: seq<T>, b: seq<T>, c: seq<T>)
    ensures (a + b) + c == a + (b + c)
  {
  }

  /** One element appended to a buffer that already holds `base + acc`. */
  lemma SnocStep<T>(before: seq<T>, base: seq<T>, acc: seq<T>, x: T, next: seq<T>, now: seq<T>)
    requires before == base + acc && now == before + [x] && next == acc + [x]
    ensures now == base + next
  {
  }

  /** A prefix one longer is the prefix and the next element. */
  lemma PrefixSnoc<T>(s: seq<T>, i: nat)
    requires i < |s|
    ensures s[..i + 1] == s[..i] + [s[i]]
  {
  }

  /** The same for a run of elements appended at once. */
  lemma AppendStep<T>(before: seq<T>, base: seq<T>, acc: seq<T>, xs: seq<T>, next: seq<T>, now: seq<T>)
    requires before == base + acc && now == before + xs && next == acc + xs
    ensures now == base + next
  {
    AppendAssoc(base, acc, xs);
  }

  // ---------------------------------------------------------------------------
  // Strings

  predicate StartsWith(s: string, prefix: string)
  {
    |prefix| <= |s| && s[..|prefix|] == prefix
  }

  predicate EndsWith(s: string, suffix: string)
  {
    |suffix| <= |s| && s[|s| - |suffix|..] == suffix
  }

  /** `s.includes(sub)`. */
  predicate Contains(s: string, sub: string)
    decreases |s|
  {
    StartsWith(s, sub) || (s != [] && Contains(s[1..], sub))
  }

  /** ASCII lower-casing of one character. */
  function LowerChar(c: char): char
  {
    if 'A' <= c <= 'Z' then (c as int + 32) as char else c
  }

  /** `s.toLowerCase()` restricted to ASCII letters. */
  function Lower(s: string): (r: string)
    ensures |r| == |s|
    ensures forall i :: 0 <= i < |s| ==> r[i] == LowerChar(s[i])
  {
    if s == [] then [] else [LowerChar(s[0])] + Lower(s[1..])
  }

  // ---------------------------------------------------------------------------
  // Numbers

  /** A JavaScript number as produced by `parseInt`: `NaN` or an integer. */
  datatype Number = NaN | Int(value: int)

  /** A JavaScript number from `parseFloat` or from a JSON document. Floating
      point rounding is not modelled: a finite number is an exact real. */
  datatype Float = FloatNaN | Real(value: real)

  predicate NumTruthy(n: Number)
  {
    n.Int? && n.value != 0
  }

  predicate FloatTruthy(f: Float)
  {
    f.Real? && f.value != 0.0
  }

  /** `n - 1`, which keeps `NaN`. */
  function Pred(n: Number): Number
  {
    if n.NaN? then NaN else Int(n.value - 1)
  }

  /** The whitespace `parseInt` skips: StrWhiteSpaceChar of ECMA-262. */
  predicate IsJsSpace(c: char)
  {
    || c == ' ' || c == '\t' || c == '\n' || c == '\r'
    || c == '\U{000B}' || c == '\U{000C}' || c == '\U{00A0}' || c == '\U{1680}'
    || ('\U{2000}' <= c <= '\U{200A}')
    || c == '\U{2028}' || c == '\U{2029}' || c == '\U{202F}' || c == '\U{205F}'
    || c == '\U{3000}' || c == '\U{FEFF}'
  }

  function TrimStart(s: string): (r: string)
    ensures |r| <= |s|
    ensures r != [] ==> !IsJsSpace(r[0])
  {
    if s != [] && IsJsSpace(s[0]) then TrimStart(s[1..]) else s
  }

  /** The value of a digit character in any radix up to 36, or 36 for a
      character that is no digit at all. */
  function DigitValue(c: char): (d: nat)
    ensures d <= 36
  {
    if '0' <= c <= '9' then c as int - '0' as int
    else if 'a' <= c <= 'z' then c as int - 'a' as int + 10
    else if 'A' <= c <= 'Z' then c as int - 'A' as int + 10
    else 36
  }

  /** Length of the longest prefix of `s` made of digits of radix `base`. */
  function DigitRun(s: string, base: nat): (n: nat)
    ensures n <= |s|
    ensures forall i :: 0 <= i < n ==> DigitValue(s[i]) < base
    ensures n < |s| ==> DigitValue(s[n]) >= base
  {
    if s != [] && DigitValue(s[0]) < base then 1 + DigitRun(s[1..], base) else 0
  }

  /** The value of a digit string, most significant digit first. */
  function DigitsValue(ds: string, base: nat): nat
  {
    if ds == [] then 0
    else DigitsValue(ds[..|ds| - 1], base) * base + DigitValue(ds[|ds| - 1])
  }

  /** `parseInt(s)` (radix `Auto`, which honours a `0x` prefix) and
      `parseInt(s, 10)` (radix `Ten`). */
  datatype Radix = Auto | Ten

  function ParseInt(s: string, radix: Radix): Number
  {
    var t := TrimStart(s);
    var negative := t != [] && t[0] == '-';
    var unsigned := if t != [] && (t[0] == '-' || t[0] == '+') then t[1..] else t;
    var m := UnsignedValue(unsigned, radix);
    if m.NaN? then NaN else Int(if negative then -m.value else m.value)
  }

  /** The digits after the sign: hexadecimal after `0x` or `0X` when the
      radix is `Auto`, decimal otherwise. */
  function UnsignedValue(unsigned: string, radix: Radix): Number
  {
    var hex := radix == Auto && |unsigned| >= 2 && unsigned[0] == '0'
               && (unsigned[1] == 'x' || unsigned[1] == 'X');
    if hex then Magnitude(unsigned[2..], 16) else Magnitude(unsigned, 10)
  }

  /** The value of the longest digit prefix, or `NaN` when there is none. */
  function Magnitude(body: string, base: nat): Number
  {
    var n := DigitRun(body, base);
    if n == 0 then NaN else Int(DigitsValue(body[..n], base))
  }

  lemma MagnitudeOfDigits(d: string)
    requires d != [] && forall i :: 0 <= i < |d| ==> '0' <= d[i] <= '9'
    ensures Magnitude(d, 10) == Int(DigitsValue(d, 10))
  {
    DigitRunAll(d, 10);
    assert d[..|d|] == d;
  }

  /** Canonical decimal text of a natural number (what `String(n)` prints). */
  function DecimalString(n: nat): (s: string)
    ensures s != [] && '0' <= s[0] <= '9'
    ensures forall i :: 0 <= i < |s| ==> '0' <= s[i] <= '9'
  {
    if n < 10 then [('0' as int + n) as char]
    else DecimalString(n / 10) + [('0' as int + n % 10) as char]
  }

  lemma {:induction false} DecimalStringValue(n: nat)
    ensures DigitsValue(DecimalString(n), 10) == n
  {
    var s := DecimalString(n);
    if n >= 10 {
      assert s[..|s| - 1] == DecimalString(n / 10);
      DecimalStringValue(n / 10);
    }
  }

  lemma DigitRunAll(s: string, base: nat)
    requires forall i :: 0 <= i < |s| ==> DigitValue(s[i]) < base
    ensures DigitRun(s, base) == |s|
  {
  }

  /** `parseInt` reads a non-empty run of decimal digits, signed or not, as
      its decimal value. */
  lemma ParseIntUnsignedDigits(d: string, radix: Radix)
    requires d != [] && forall i :: 0 <= i < |d| ==> '0' <= d[i] <= '9'
    ensures ParseInt(d, radix) == Int(DigitsValue(d, 10))
  {
    TrimDigits(d);
    ParseIntUnsigned(d, radix);
    DecimalDigitsValue(d, radix);
    MagnitudeOfDigits(d);
  }

  lemma TrimDigits(d: string)
    requires d != [] && '0' <= d[0] <= '9'
    ensures TrimStart(d) == d
  {
    assert !IsJsSpace(d[0]);
  }

  /** Without whitespace or sign, `parseInt` is the unsigned value. */
  lemma ParseIntUnsigned(d: string, radix: Radix)
    requires TrimStart(d) == d && d != [] && '0' <= d[0] <= '9'
    ensures ParseInt(d, radix) == UnsignedValue(d, radix)
  {
  }

  /** A run of decimal digits never reads as hexadecimal. */
  lemma DecimalDigitsValue(d: string, radix: Radix)
    requires d != [] && forall i :: 0 <= i < |d| ==> '0' <= d[i] <= '9'
    ensures UnsignedValue(d, radix) == Magnitude(d, 10)
  {
    assert !(|d| >= 2 && (d[1] == 'x' || d[1] == 'X'));
  }

  /** A leading minus sign before a digit negates what follows. */
  lemma ParseIntMinus(d: string, radix: Radix)
    requires d != [] && '0' <= d[0] <= '9'
    ensures ParseInt("-" + d, radix) == if ParseInt(d, radix).NaN? then NaN else Int(-ParseInt(d, radix).value)
  {
    var s := "-" + d;
    assert TrimStart(s) == s by {
      assert s[0] == '-';
    }
    assert s[1..] == d;
    TrimDigits(d);
    ParseIntUnsigned(d, radix);
  }

  /** `parseInt` reads back the decimal text of every negative integer, with
      or without a radix argument. */
  lemma ParseIntNegativeNatural(m: nat, radix: Radix)
    ensures ParseInt("-" + DecimalString(m), radix) == Int(-(m as int))
  {
    var d := DecimalString(m);
    ParseIntNatural(m, radix);
    NegateDigits(d, m, radix);
  }

  lemma NegateDigits(d: string, v: int, radix: Radix)
    requires d != [] && '0' <= d[0] <= '9' && ParseInt(d, radix) == Int(v)
    ensures ParseInt("-" + d, radix) == Int(-v)
  {
    ParseIntMinus(d, radix);
  }

  /** `String(n)` for an integer `n`. */
  function IntText(n: int): (s: string)
  {
    if n < 0 then "-" + DecimalString(-n) else DecimalString(n)
  }

  /** `parseInt(String(n))` is `n`. */
  lemma ParseIntText(n: int, radix: Radix)
    ensures ParseInt(IntText(n), radix) == Int(n)
  {
    if n < 0 {
      ParseIntNegativeNatural(-n, radix);
    } else {
      ParseIntNatural(n, radix);
    }
  }

  /** ... and of every natural number. */
  lemma ParseIntNatural(m: nat, radix: Radix)
    ensures ParseInt(DecimalString(m), radix) == Int(m)
  {
    var d := DecimalString(m);
    DecimalStringValue(m);
    ParseIntUnsignedDigits(d, radix);
  }

  // ---------------------------------------------------------------------------
  // Splitting on the date separators

  predicate IsDateSeparator(c: char)
  {
    c == '/' || c == '-' || c == ':'
  }

  function SeparatorCount(s: string): nat
  {
    if s == [] then 0 else (if IsDateSeparator(s[0]) then 1 else 0) + SeparatorCount(s[1..])
  }

  /** `s.split(/[/\-:]/)`: the pieces between separators, empty ones kept. */
  function SplitOnDateSeparators(s: string): (parts: seq<string>)
    ensures |parts| == SeparatorCount(s) + 1
  {
    if s == [] then [""]
    else
      var rest := SplitOnDateSeparators(s[1..]);
      if IsDateSeparator(s[0]) then [""] + rest
      else [[s[0]] + rest[0]] + rest[1..]
  }

  /** Joining the pieces with the separators found recovers the string. */
  function JoinWith(parts: seq<string>, seps: string): string
    requires |seps| + 1 == |parts|
  {
    if |seps| == 0 then parts[0] else parts[0] + [seps[0]] + JoinWith(parts[1..], seps[1..])
  }

  function Separators(s: string): (seps: string)
    ensures |seps| == SeparatorCount(s)
  {
    if s == [] then [] else if IsDateSeparator(s[0]) then [s[0]] + Separators(s[1..]) else Separators(s[1..])
  }

  lemma {:induction false} SplitJoin(s: string)
    ensures JoinWith(SplitOnDateSeparators(s), Separators(s)) == s
  {
    if s != [] {
      SplitJoin(s[1..]);
      var rest := SplitOnDateSeparators(s[1..]);
      var seps := Separators(s[1..]);
      if !IsDateSeparator(s[0]) {
        var parts := SplitOnDateSeparators(s);
        if |seps| == 0 {
          assert parts == [[s[0]] + rest[0]];
        } else {
          assert parts[1..] == rest[1..];
          assert JoinWith(rest, seps) == rest[0] + [seps[0]] + JoinWith(rest[1..], seps[1..]);
        }
      }
    }
  }

  // ---------------------------------------------------------------------------
  // Dates

  /** The `Date` values the pipeline produces: an instant (epoch milliseconds),
      a local calendar date from `new Date(year, monthIndex, day)` (time zone
      and calendar normalisation are not modelled), or an Invalid Date. Every
      `Date` object is truthy. */
  datatype Date = Instant(ms: int) | Calendar(year: int, monthIndex: int, day: int) | InvalidDate

  /** The host's `new Date(text)` parser, taken as given: `None` is an
      Invalid Date. */
  type DateParser = string -> Option<int>

  /** The host's `parseFloat`, taken as given. */
  type FloatParser = string -> Float

  /** `new Date(text)` on a string-or-undefined value; `new Date(undefined)`
      is an Invalid Date. */
  function NewDate(parse: DateParser, v: Option<string>): Date
  {
    if v.None? then InvalidDate
    else match parse(v.value)
      case Some(ms) => Instant(ms)
      case None => InvalidDate
  }

  /** `new Date(year, monthIndex, day)`: NaN in any argument gives an Invalid
      Date, and years 0 to 99 mean 1900 to 1999. */
  function LocalDate(year: Number, monthIndex: Number, day: Number): Date
  {
    if year.NaN? || monthIndex.NaN? || day.NaN? then InvalidDate
    else Calendar(if 0 <= year.value <= 99 then 1900 + year.value else year.value,
                  monthIndex.value, day.value)
  }
}
