/** Text handling shared by the configuration reader, the calibration paths and the time stamps:
    C-locale white space, the formatted word extraction of `operator>>` into a `std::string`,
    `find_last_of` with its `npos` result, the ordering of `std::string`'s `operator<`, and the
    decimal text that `%d` produces for a non-negative value. */
module Text {
  import opened Wrappers

  /** `isspace` in the "C" locale: space, tab, newline, vertical tab, form feed, carriage return. */
  predicate IsSpace(c: char) {
    c == ' ' || c == '\t' || c == '\n' || c == '\r' || c as int == 11 || c as int == 12
  }

  predicate NoSpaces(s: string) {
    forall i :: 0 <= i < |s| ==> !IsSpace(s[i])
  }

  /** The number of white-space characters `s` starts with. */
  function SpaceCount(s: string): (n: nat)
    ensures n <= |s|
    ensures n == |s| || !IsSpace(s[n])
    ensures forall i :: 0 <= i < n ==> IsSpace(s[i])
  {
    if s == [] || !IsSpace(s[0]) then 0 else 1 + SpaceCount(s[1..])
  }

  /** The text that remains once the leading white space has been skipped. */
  function SkipSpaces(s: string): string {
    s[SpaceCount(s)..]
  }

  /** The longest prefix without white space. */
  function TakeWord(s: string): (w: string)
    ensures |w| <= |s| && w == s[..|w|]
    ensures NoSpaces(w)
    ensures |w| == |s| || IsSpace(s[|w|])
  {
    if s == [] || IsSpace(s[0]) then [] else [s[0]] + TakeWord(s[1..])
  }

  /** `stream >> str` on a stream holding `s`: skips white space and reads one word. When only
      white space is left the extraction fails and leaves `str` as it was, which is None here. */
  function FirstWord(s: string): Option<string> {
    var rest := SkipSpaces(s);
    if rest == [] then None else Some(TakeWord(rest))
  }

  /** `w` stands in `s` at index `i`, after nothing but white space and before white space or
      the end. */
  predicate LeadingWordAt(s: string, w: string, i: int) {
    0 <= i && i + |w| <= |s| && s[i..i + |w|] == w
    && (forall k :: 0 <= k < i ==> IsSpace(s[k]))
    && (i + |w| == |s| || IsSpace(s[i + |w|]))
  }

  /** The extraction fails exactly when `s` is all white space; otherwise the word read is the
      first maximal run of non-space characters, preceded only by white space. */
  lemma FirstWordIsLeadingWord(s: string)
    ensures FirstWord(s).None? <==> forall i :: 0 <= i < |s| ==> IsSpace(s[i])
    ensures FirstWord(s).Some? ==>
      var w := FirstWord(s).value;
      w != [] && NoSpaces(w) && exists i :: LeadingWordAt(s, w, i)
  {
    var rest := SkipSpaces(s);
    var i := SpaceCount(s);
    if rest == [] {
      assert forall k :: 0 <= k < |s| ==> IsSpace(s[k]);
    } else {
      var w := TakeWord(rest);
      assert rest[0] == s[i];
      assert !IsSpace(s[i]);
      assert w[0] == rest[0];
      assert s[i..i + |w|] == w;
      assert i + |w| == |s| || s[i + |w|] == rest[|w|];
      assert LeadingWordAt(s, w, i);
    }
  }

  /** A non-empty string without white space reads back as itself. */
  lemma {:induction false} FirstWordOfWord(w: string)
    requires w != [] && NoSpaces(w)
    ensures FirstWord(w) == Some(w)
  {
    TakeWordOfWord(w);
  }

  lemma {:induction false} TakeWordOfWord(w: string)
    requires NoSpaces(w)
    ensures TakeWord(w) == w
  {
    if w != [] {
      TakeWordOfWord(w[1..]);
    }
  }

  /** The modulus of `size_t` arithmetic on a 64-bit platform. */
  const SizeModulus: int := 0x1_0000_0000_0000_0000

  /** `std::string::npos`, the largest `size_t`. */
  const Npos: int := SizeModulus - 1

  /** `s.find_last_of(c)` for a single character: the last index holding `c`; None stands for
      the `npos` result. */
  function FindLastOf(s: string, c: char): (r: Option<nat>)
    ensures r.None? <==> c !in s
    ensures r.Some? ==> r.value < |s| && s[r.value] == c && forall k :: r.value < k < |s| ==> s[k] != c
  {
    if s == [] then None
    else if s[|s| - 1] == c then Some(|s| - 1)
    else FindLastOf(s[..|s| - 1], c)
  }

  /** `line.substr(line.find_last_of(":") + 1)`. Without a colon the sum is `npos + 1`, which wraps
      to 0 in `size_t`, so the whole line is taken. */
  function TokenOf(line: string): string {
    var pos := match FindLastOf(line, ':')
      case None => (Npos + 1) % SizeModulus
      case Some(p) => p + 1;
    line[pos..]
  }

  /** The token is the text after the last colon, or the whole line when there is none. */
  lemma TokenOfIsTextAfterLastColon(line: string)
    ensures var t := TokenOf(line);
      && ':' !in t
      && |t| <= |line| && t == line[|line| - |t|..]
      && (':' in line ==> line[|line| - |t| - 1] == ':')
      && (':' !in line ==> t == line)
  {
    var r := FindLastOf(line, ':');
    if r.Some? {
      var t := TokenOf(line);
      assert t == line[r.value + 1..];
      forall k | 0 <= k < |t| ensures t[k] != ':' {
        assert t[k] == line[r.value + 1 + k];
      }
    }
  }

  /** A key of the form `key:value` whose key has no colon of its own yields exactly `value`,
      whatever `value` is, provided it has no colon. */
  lemma TokenOfKeyValue(key: string, value: string)
    requires ':' !in value
    ensures TokenOf(key + ":" + value) == value
  {
    var line := key + ":" + value;
    assert line[|key|] == ':';
    forall k | |key| < k < |line| ensures line[k] != ':' {
      assert line[k] == value[k - |key| - 1];
    }
    var p := FindLastOf(line, ':').value;
    assert p == |key|;
    assert line[p + 1..] == value;
  }

  /** `std::string`'s `operator<`: lexicographic order by character code, a proper prefix first. */
  predicate LexLess(a: string, b: string) {
    if a == [] then b != []
    else if b == [] then false
    else a[0] < b[0] || (a[0] == b[0] && LexLess(a[1..], b[1..]))
  }

  lemma {:induction false} LexLessIrreflexive(a: string)
    ensures !LexLess(a, a)
  {
    if a != [] {
      LexLessIrreflexive(a[1..]);
    }
  }

  lemma {:induction false} LexLessTrichotomy(a: string, b: string)
    ensures LexLess(a, b) || a == b || LexLess(b, a)
  {
    if a != [] && b != [] && a[0] == b[0] {
      LexLessTrichotomy(a[1..], b[1..]);
      if a[1..] == b[1..] {
        assert a == [a[0]] + a[1..] && b == [b[0]] + b[1..];
      }
    }
  }

  lemma {:induction false} LexLessAsymmetric(a: string, b: string)
    ensures LexLess(a, b) ==> !LexLess(b, a)
  {
    if a != [] && b != [] && a[0] == b[0] {
      LexLessAsymmetric(a[1..], b[1..]);
    }
  }

  lemma {:induction false} LexLessTransitive(a: string, b: string, c: string)
    requires LexLess(a, b) && LexLess(b, c)
    ensures LexLess(a, c)
  {
    if a != [] && a[0] == b[0] && b[0] == c[0] {
      LexLessTransitive(a[1..], b[1..], c[1..]);
    }
  }

  /** "Not after": the order `std::sort` arranges the serial numbers in. It is total and
      transitive, so a sequence can be put in nondecreasing order. */
  predicate LexLeq(a: string, b: string) {
    !LexLess(b, a)
  }

  lemma LexLeqTotal(a: string, b: string)
    ensures LexLeq(a, b) || LexLeq(b, a)
  {
    LexLessAsymmetric(a, b);
  }

  lemma LexLeqTransitive(a: string, b: string, c: string)
    requires LexLeq(a, b) && LexLeq(b, c)
    ensures LexLeq(a, c)
  {
    if LexLess(c, a) {
      LexLessTrichotomy(a, b);
      if LexLess(a, b) {
        LexLessTransitive(c, a, b);
      }
    }
  }

  function DigitChar(d: nat): char
    requires d < 10
  {
    "0123456789"[d]
  }

  function DigitValue(c: char): int {
    c as int - '0' as int
  }

  /** `%d` applied to a non-negative value: its decimal digits, without leading zeros. */
  function Decimal(n: nat): (s: string)
    ensures s != [] && forall i :: 0 <= i < |s| ==> '0' <= s[i] <= '9'
  {
    if n < 10 then [DigitChar(n)] else Decimal(n / 10) + [DigitChar(n % 10)]
  }

  /** The value of a string of decimal digits. */
  function ParseDecimal(s: string): int {
    if s == [] then 0 else ParseDecimal(s[..|s| - 1]) * 10 + DigitValue(s[|s| - 1])
  }

  /** Reading the digits back gives the number printed. */
  lemma {:induction false} ParseDecimalOfDecimal(n: nat)
    ensures ParseDecimal(Decimal(n)) == n
  {
    if n >= 10 {
      var s := Decimal(n);
      assert s[..|s| - 1] == Decimal(n / 10);
      ParseDecimalOfDecimal(n / 10);
    }
  }

  /** Printing is injective: different numbers give different texts. */
  lemma DecimalInjective(m: nat, n: nat)
    requires Decimal(m) == Decimal(n)
    ensures m == n
  {
    ParseDecimalOfDecimal(m);
    ParseDecimalOfDecimal(n);
  }

  /** `operator<<` on a signed integer: a minus sign for negative values, then the digits. */
  function SignedDecimal(i: int): (s: string)
    ensures s != [] && ':' !in s && !IsSpace(s[0])
  {
    if i < 0 then "-" + Decimal(-i) else Decimal(i)
  }

  /** The range of a 32-bit `int`. */
  const IntMin: int := -0x8000_0000
  const IntMax: int := 0x7FFF_FFFF

  /** Conversion of a wider integer to `int`: reduction modulo 2^32 into the signed range. */
  function ToInt32(x: int): (r: int)
    ensures IntMin <= r <= IntMax
    ensures (x - r) % 0x1_0000_0000 == 0
    ensures IntMin <= x <= IntMax ==> r == x
  {
    (x - IntMin) % 0x1_0000_0000 + IntMin
  }

  predicate IsDigit(c: char) {
    '0' <= c <= '9'
  }

  /** The longest prefix of decimal digits. */
  function LeadingDigits(s: string): (d: string)
    ensures |d| <= |s| && d == s[..|d|]
    ensures forall i :: 0 <= i < |d| ==> IsDigit(d[i])
    ensures |d| == |s| || !IsDigit(s[|d|])
  {
    if s == [] || !IsDigit(s[0]) then [] else [s[0]] + LeadingDigits(s[1..])
  }

  /** `stream >> val` into an `int`: white space is skipped, an optional sign and the longest run
      of digits are read. Without digits the extraction fails and stores 0; a value beyond the
      range of `int` stores the nearest bound. */
  function ExtractInt(s: string): int
  {
    var t := SkipSpaces(s);
    var signed := t != [] && (t[0] == '-' || t[0] == '+');
    var digits := LeadingDigits(if signed then t[1..] else t);
    if digits == [] then 0
    else
      var magnitude := ParseDecimal(digits);
      Clamp(if signed && t[0] == '-' then -magnitude else magnitude)
  }

  function Clamp(x: int): int {
    if x < IntMin then IntMin else if x > IntMax then IntMax else x
  }

  lemma LeadingDigitsOfDecimal(n: nat)
    ensures LeadingDigits(Decimal(n)) == Decimal(n)
  {
  }

  /** The magnitude part of `ExtractInt`: the value of the digits after the optional sign. */
  lemma ExtractIntOfDigits(s: string, t: string, n: nat)
    requires SkipSpaces(s) == t && t != []
    requires (t[0] == '-' || t[0] == '+') ==> LeadingDigits(t[1..]) == Decimal(n)
    requires !(t[0] == '-' || t[0] == '+') ==> LeadingDigits(t) == Decimal(n)
    ensures ExtractInt(s) == Clamp(if t[0] == '-' then -(n as int) else n as int)
  {
    ParseDecimalOfDecimal(n);
  }

  /** Reading back what `operator<<` printed gives the value, for every `int`. */
  lemma ExtractIntOfSignedDecimal(i: int)
    requires IntMin <= i <= IntMax
    ensures ExtractInt(SignedDecimal(i)) == i
  {
    var s := SignedDecimal(i);
    assert SkipSpaces(s) == s;
    if i < 0 {
      assert s[1..] == Decimal(-i);
      LeadingDigitsOfDecimal(-i);
      ExtractIntOfDigits(s, s, -i);
    } else {
      LeadingDigitsOfDecimal(i);
      ExtractIntOfDigits(s, s, i);
    }
  }

  /** A text whose first non-blank character is neither a sign nor a digit reads as 0. */
  lemma ExtractIntOfNonNumber(s: string)
    requires var t := SkipSpaces(s); t == [] || (!IsDigit(t[0]) && t[0] != '-' && t[0] != '+')
    ensures ExtractInt(s) == 0
  {
  }
}
