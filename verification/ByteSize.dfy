/** Printing and reading byte sizes (internal/artifacts/retention.go). */
module ByteSize {
  import opened Basics

  datatype Parsed = Size(value: int) | Malformed | NotPositive | UnknownUnitOrOverflow

  const MAX_SIZE := INT64_HALF - 1

  const KIB := 0x400
  const MIB := 0x10_0000
  const GIB := 0x4000_0000
  const TIB := 0x100_0000_0000

  // ------------------------------------------------------------------ characters

  predicate IsDigit(c: char) {
    '0' <= c <= '9'
  }

  /** What a regular expression's \s matches. */
  predicate IsBlank(c: char) {
    c == ' ' || c == '\t' || c == '\n' || c == '\r' || c == '\U{000C}'
  }

  /** What Go trims: every Unicode white space. */
  predicate IsSpace(c: char) {
    || IsBlank(c) || c == '\U{000B}' || c == '\U{0085}' || c == '\U{00A0}' || c == '\U{1680}'
    || '\U{2000}' <= c <= '\U{200A}' || c == '\U{2028}' || c == '\U{2029}' || c == '\U{202F}'
    || c == '\U{205F}' || c == '\U{3000}'
  }

  /** Lower case as far as it can reach a letter of a unit; the Kelvin sign and the dotted capital I do. */
  function LowerChar(c: char): char {
    if 'A' <= c <= 'Z' then c - 'A' + 'a'
    else if c == '\U{212A}' then 'k'
    else if c == '\U{0130}' then 'i'
    else c
  }

  function Lower(s: string): (r: string)
    ensures |r| == |s| && forall k | 0 <= k < |s| :: r[k] == LowerChar(s[k])
    decreases |s|
  {
    if s == "" then "" else [LowerChar(s[0])] + Lower(s[1..])
  }

  function TrimLeft(s: string): string
    decreases |s|
  {
    if s != "" && IsSpace(s[0]) then TrimLeft(s[1..]) else s
  }

  function TrimRight(s: string): string
    decreases |s|
  {
    if s != "" && IsSpace(s[|s| - 1]) then TrimRight(s[..|s| - 1]) else s
  }

  function Normalized(raw: string): string {
    Lower(TrimRight(TrimLeft(raw)))
  }

  // --------------------------------------------------------------------- numbers

  predicate AllDigits(s: string) {
    forall c | c in s :: IsDigit(c)
  }

  predicate AllBlank(s: string) {
    forall c | c in s :: IsBlank(c)
  }

  function DigitValue(c: char): int {
    c as int - '0' as int
  }

  function ValueOf(digits: string): int
    decreases |digits|
  {
    if digits == "" then 0
    else 10 * ValueOf(digits[..|digits| - 1]) + DigitValue(digits[|digits| - 1])
  }

  function Decimal(n: nat): string
    decreases n
  {
    var last := '0' + (n % 10) as char;
    if n < 10 then [last] else Decimal(n / 10) + [last]
  }

  lemma {:induction false} DecimalReadsBack(n: nat)
    ensures Decimal(n) != "" && AllDigits(Decimal(n)) && ValueOf(Decimal(n)) == n
    decreases n
  {
    if n >= 10 {
      DecimalReadsBack(n / 10);
      var init, last := Decimal(n / 10), '0' + (n % 10) as char;
      assert (init + [last])[..|init|] == init;
    }
  }

  // ------------------------------------------------------------------- the parser

  function LeadingDigits(s: string): (k: nat)
    ensures k <= |s|
    decreases |s|
  {
    if s != "" && IsDigit(s[0]) then 1 + LeadingDigits(s[1..]) else 0
  }

  function LeadingBlanks(s: string): (k: nat)
    ensures k <= |s|
    decreases |s|
  {
    if s != "" && IsBlank(s[0]) then 1 + LeadingBlanks(s[1..]) else 0
  }

  /** The optional last group of the pattern: [kmgt]?i?b. */
  predicate UnitShaped(u: string) {
    var a := if u != "" && (u[0] == 'k' || u[0] == 'm' || u[0] == 'g' || u[0] == 't') then u[1..] else u;
    var b := if a != "" && a[0] == 'i' then a[1..] else a;
    u == "" || b == "b"
  }

  function Multiplier(u: string): (m: Option<int>)
    ensures m.Some? ==> m.value >= 1
  {
    if u == "" || u == "b" then Some(1)
    else if u == "kb" || u == "kib" then Some(KIB)
    else if u == "mb" || u == "mib" then Some(MIB)
    else if u == "gb" || u == "gib" then Some(GIB)
    else if u == "tb" || u == "tib" then Some(TIB)
    else None
  }

  /** A count of units as a size, refused when it is not positive or would overflow. */
  function Scaled(value: int, multiplier: Option<int>): Parsed
    requires multiplier.Some? ==> multiplier.value >= 1
  {
    if value > MAX_SIZE || value <= 0 then NotPositive
    else if multiplier == None || value > MAX_SIZE / multiplier.value then UnknownUnitOrOverflow
    else Size(value * multiplier.value)
  }

  function Parse(raw: string): Parsed {
    ParseText(Normalized(raw))
  }

  function ParseText(text: string): Parsed {
    var d := LeadingDigits(text);
    var w := LeadingBlanks(text[d..]);
    SizeOf(text[..d], text[d..][w..])
  }

  /** What a number with a unit comes to. */
  function SizeOf(digits: string, unit: string): Parsed {
    if digits == "" || !UnitShaped(unit) then Malformed else Scaled(ValueOf(digits), Multiplier(unit))
  }

  function UnitFor(value: int): (string, int) {
    if value >= TIB && value % TIB == 0 then ("TiB", TIB)
    else if value >= GIB && value % GIB == 0 then ("GiB", GIB)
    else if value >= MIB && value % MIB == 0 then ("MiB", MIB)
    else if value >= KIB && value % KIB == 0 then ("KiB", KIB)
    else ("B", 1)
  }

  /** The name of a unit with its size. */
  predicate IsUnit(name: string, size: int) {
    || (name == "TiB" && size == TIB) || (name == "GiB" && size == GIB) || (name == "MiB" && size == MIB)
    || (name == "KiB" && size == KIB) || (name == "B" && size == 1)
  }

  /** A size is printed in the largest unit it is a whole number of. */
  lemma UnitIsLargest(value: int, other: string, size: int)
    requires value > 0 && IsUnit(other, size)
    ensures
      var unit := UnitFor(value);
      IsUnit(unit.0, unit.1) && value % unit.1 == 0 && (value % size == 0 ==> size <= unit.1)
  {
    if value % size == 0 {
      WholeUnits(value, size);
    }
  }

  lemma WholeUnits(value: int, size: int)
    requires value > 0 && size > 0 && value % size == 0
    ensures value >= size
  {
  }

  function Format(value: int): string {
    if value < 0 then "-" + Decimal(-value) + "B"
    else
      var (name, size) := UnitFor(value);
      Decimal(value / size) + name
  }

  // ------------------------------------------------- what the parser is to accept

  /** `text` reads as a number, blanks and a unit that together mean `v`. */
  ghost predicate Reads(text: string, digits: string, blanks: string, unit: string, v: int) {
    && text == digits + blanks + unit
    && digits != "" && AllDigits(digits) && AllBlank(blanks)
    && Multiplier(unit).Some? && v == ValueOf(digits) * Multiplier(unit).value
  }

  ghost predicate Means(text: string, v: int) {
    exists digits, blanks, unit :: Reads(text, digits, blanks, unit, v)
  }

  lemma {:induction false} LeadingDigitsAre(s: string)
    ensures AllDigits(s[..LeadingDigits(s)])
    ensures LeadingDigits(s) < |s| ==> !IsDigit(s[LeadingDigits(s)])
    decreases |s|
  {
    if s != "" && IsDigit(s[0]) {
      LeadingDigitsAre(s[1..]);
      assert s[..LeadingDigits(s)] == [s[0]] + s[1..][..LeadingDigits(s) - 1];
    }
  }

  lemma {:induction false} LeadingBlanksAre(s: string)
    ensures AllBlank(s[..LeadingBlanks(s)])
    decreases |s|
  {
    if s != "" && IsBlank(s[0]) {
      LeadingBlanksAre(s[1..]);
      assert s[..LeadingBlanks(s)] == [s[0]] + s[1..][..LeadingBlanks(s) - 1];
    }
  }

  lemma {:induction false} DigitsThenRest(digits: string, rest: string)
    requires AllDigits(digits) && (rest != "" ==> !IsDigit(rest[0]))
    ensures LeadingDigits(digits + rest) == |digits|
    decreases |digits|
  {
    if digits == "" {
      assert digits + rest == rest;
    } else {
      assert (digits + rest)[1..] == digits[1..] + rest;
      DigitsThenRest(digits[1..], rest);
    }
  }

  lemma {:induction false} BlanksThenRest(blanks: string, rest: string)
    requires AllBlank(blanks) && (rest != "" ==> !IsBlank(rest[0]))
    ensures LeadingBlanks(blanks + rest) == |blanks|
    decreases |blanks|
  {
    if blanks == "" {
      assert blanks + rest == rest;
    } else {
      assert (blanks + rest)[1..] == blanks[1..] + rest;
      BlanksThenRest(blanks[1..], rest);
    }
  }

  lemma UnitStartsWithLetter(unit: string)
    requires Multiplier(unit).Some?
    ensures UnitShaped(unit) && Multiplier(unit).value >= 1
    ensures unit != "" ==> !IsDigit(unit[0]) && !IsBlank(unit[0])
  {
  }

  /** There is only one way to read a text, and the parser finds it. */
  lemma ParserReads(text: string, digits: string, blanks: string, unit: string, v: int)
    requires Reads(text, digits, blanks, unit, v)
    ensures LeadingDigits(text) == |digits| && LeadingBlanks(text[|digits|..]) == |blanks|
    ensures text[..|digits|] == digits && text[|digits| + |blanks|..] == unit && UnitShaped(unit)
  {
    assert text == digits + (blanks + unit);
    assert text[|digits|..] == blanks + unit;
    if blanks == "" {
      assert blanks + unit == unit;
    } else {
      assert blanks[0] in blanks;
    }
    UnitStartsWithLetter(unit);
    DigitsThenRest(digits, blanks + unit);
    BlanksThenRest(blanks, unit);
  }

  lemma Fits(value: int, m: int)
    requires m > 0
    ensures value <= MAX_SIZE / m <==> value * m <= MAX_SIZE
  {
    if value * m <= MAX_SIZE {
      assert value <= MAX_SIZE / m by {
        if value >= MAX_SIZE / m + 1 {
          Times(value, MAX_SIZE / m + 1, m);
        }
      }
    } else if value <= MAX_SIZE / m {
      Times(MAX_SIZE / m, value, m);
    }
  }

  lemma Times(a: int, b: int, m: int)
    requires a >= b && m > 0
    ensures a * m >= b * m
  {
  }

  lemma MeaningParses(text: string, v: int)
    requires Means(text, v) && 0 < v <= MAX_SIZE
    ensures ParseText(text) == Size(v)
  {
    var digits, blanks, unit :| Reads(text, digits, blanks, unit, v);
    ParserReads(text, digits, blanks, unit, v);
    UnitStartsWithLetter(unit);
    ScaledExactly(ValueOf(digits), Multiplier(unit).value, v);
  }

  /** Scaling gives the product exactly when it is a positive 64-bit size. */
  lemma ScaledExactly(value: int, m: int, v: int)
    requires m >= 1
    ensures Scaled(value, Some(m)) == Size(v) <==> v == value * m && 0 < v <= MAX_SIZE
  {
    if value > 0 {
      Fits(value, m);
      Times(m, 1, value);
    } else {
      Times(0, value, m);
    }
  }

  lemma ScaledIsProduct(value: int, multiplier: Option<int>, v: int)
    requires multiplier.Some? ==> multiplier.value >= 1
    requires Scaled(value, multiplier) == Size(v)
    ensures multiplier.Some? && v == value * multiplier.value && 0 < v <= MAX_SIZE
  {
    if multiplier.Some? {
      ScaledExactly(value, multiplier.value, v);
    }
  }

  lemma SizeMeans(digits: string, blanks: string, unit: string, v: int)
    requires SizeOf(digits, unit) == Size(v) && AllDigits(digits) && AllBlank(blanks)
    ensures Means(digits + blanks + unit, v) && 0 < v <= MAX_SIZE
  {
    ScaledIsProduct(ValueOf(digits), Multiplier(unit), v);
    assert Reads(digits + blanks + unit, digits, blanks, unit, v);
  }

  lemma Splits(text: string, d: nat, w: nat)
    requires d + w <= |text|
    ensures text == text[..d] + text[d..][..w] + text[d..][w..]
  {
  }

  lemma ParsedMeans(text: string, v: int)
    requires ParseText(text) == Size(v)
    ensures Means(text, v) && 0 < v <= MAX_SIZE
  {
    var d := LeadingDigits(text);
    var w := LeadingBlanks(text[d..]);
    LeadingDigitsAre(text);
    LeadingBlanksAre(text[d..]);
    Splits(text, d, w);
    SizeMeans(text[..d], text[d..][..w], text[d..][w..], v);
  }

  /** The parser accepts exactly the texts that mean a positive 64-bit size, as that size. */
  lemma ParsesExactly(raw: string, v: int)
    ensures Parse(raw) == Size(v) <==> Means(Normalized(raw), v) && 0 < v <= MAX_SIZE
  {
    if Parse(raw) == Size(v) {
      ParsedMeans(Normalized(raw), v);
    }
    if Means(Normalized(raw), v) && 0 < v <= MAX_SIZE {
      MeaningParses(Normalized(raw), v);
    }
  }

  // ---------------------------------------------------------------- the round trip

  lemma {:induction false} LowerDigits(digits: string, rest: string)
    requires AllDigits(digits)
    ensures Lower(digits + rest) == digits + Lower(rest)
    decreases |digits|
  {
    if digits == "" {
      assert digits + rest == rest;
    } else {
      assert (digits + rest)[1..] == digits[1..] + rest;
      assert digits[0] in digits;
      LowerDigits(digits[1..], rest);
    }
  }

  lemma LowerUnit(value: int)
    requires value > 0
    ensures
      var (name, size) := UnitFor(value);
      && Multiplier(Lower(name)) == Some(size) && size > 0 && value % size == 0
      && name != "" && !IsSpace(name[|name| - 1])
  {
    var (name, size) := UnitFor(value);
    assert name == "B" || name[1..] == "iB";
    assert name != "B" ==> name == [name[0], 'i', 'B'];
    var low := Lower(name);
    assert name != "B" ==> low == [LowerChar(name[0]), 'i', 'b'];
    assert name == "B" ==> low == "b";
  }

  lemma Whole(v: int, size: int)
    requires v > 0 && size > 0 && v % size == 0
    ensures (v / size) * size == v && v / size >= 0
  {
  }

  lemma TrimKeeps(text: string)
    requires text != "" && !IsSpace(text[0]) && !IsSpace(text[|text| - 1])
    ensures TrimRight(TrimLeft(text)) == text
  {
  }

  lemma Ends(digits: string, name: string)
    requires digits != "" && AllDigits(digits) && name != ""
    ensures !IsSpace((digits + name)[0]) && (digits + name)[|digits + name| - 1] == name[|name| - 1]
  {
    assert digits[0] in digits;
  }

  lemma NothingToTrim(digits: string, name: string)
    requires digits != "" && AllDigits(digits) && name != "" && !IsSpace(name[|name| - 1])
    ensures Normalized(digits + name) == digits + Lower(name)
  {
    LowerDigits(digits, name);
    Ends(digits, name);
    TrimKeeps(digits + name);
  }

  lemma PlainReads(digits: string, unit: string, size: int)
    requires digits != "" && AllDigits(digits) && Multiplier(unit) == Some(size)
    ensures Means(digits + unit, ValueOf(digits) * size)
  {
    assert digits + unit == digits + "" + unit;
    assert Reads(digits + unit, digits, "", unit, ValueOf(digits) * size);
  }

  lemma PositiveRoundTrip(v: int)
    requires 0 < v <= MAX_SIZE
    ensures Parse(Format(v)) == Size(v)
  {
    var (name, size) := UnitFor(v);
    LowerUnit(v);
    Whole(v, size);
    DecimalReadsBack(v / size);
    NothingToTrim(Decimal(v / size), name);
    PlainReads(Decimal(v / size), Lower(name), size);
    MeaningParses(Normalized(Format(v)), v);
  }

  /** Printing a 64-bit size and reading it back gives the same size, exactly when it is positive. */
  lemma RoundTrip(v: int)
    requires Int64(v)
    ensures Parse(Format(v)) == Size(v) <==> v > 0
  {
    if v > 0 {
      PositiveRoundTrip(v);
    } else {
      ParsesExactly(Format(v), v);
    }
  }
}
