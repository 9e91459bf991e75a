/** Board coordinates and their "a1" text form: a column letter followed by a
    one-based row number. */
module Utils {
  import opened Players

  /** A square: column `x` and row `y`, both counted from zero. */
  datatype Coords2D = Coords2D(x: nat, y: nat)

  /** One more than the largest `usize`. */
  const UsizeLimit: nat := 0x1_0000_0000_0000_0000

  /** One more than the largest `u32`. */
  const U32Limit: nat := 0x1_0000_0000

  /** The code point of the letter of column `x`: `x` is cast to `u32`,
      which keeps its low 32 bits, and 97 is added in `u32`. The sum is
      kept unbounded here: it reaches 2^32 exactly where a debug build's
      overflow check panics, and `Format` excludes those columns (a release
      build would wrap to a code below 97). */
  function LetterCode(x: nat): (code: nat)
    ensures 97 <= code < 97 + U32Limit
    ensures x < U32Limit ==> code == 97 + x
  {
    97 + x % U32Limit
  }

  /** The `u32` sum overflows exactly for the last 97 values of the cast, and
      no such code is a character, so `Format` never accepts them. */
  lemma LetterCodeOverflows(x: nat)
    ensures LetterCode(x) >= U32Limit <==> x % U32Limit >= U32Limit - 97
    ensures LetterCode(x) >= U32Limit ==> !IsScalar(LetterCode(x))
  {
  }

  /** The code points that are characters (no surrogate, not past U+10FFFF). */
  predicate IsScalar(n: nat)
  {
    n < 0xD800 || 0xE000 <= n < 0x11_0000
  }

  predicate IsDigit(c: char)
  {
    '0' <= c <= '9'
  }

  predicate AllDigits(s: string)
  {
    forall i :: 0 <= i < |s| ==> IsDigit(s[i])
  }

  /** The decimal text of `n`, without leading zeros. */
  function Decimal(n: nat): (s: string)
    ensures |s| >= 1 && AllDigits(s)
    decreases n
  {
    if n < 10 then [(48 + n) as char] else Decimal(n / 10) + [(48 + n % 10) as char]
  }

  /** The number a string of decimal digits stands for. */
  function DigitsValue(s: string): nat
    requires AllDigits(s)
  {
    if s == [] then 0 else 10 * DigitsValue(s[..|s| - 1]) + (s[|s| - 1] as int - 48)
  }

  /** `str::parse::<usize>`: an optional `+`, then at least one decimal digit,
      and a value that fits in 64 bits. */
  function ParseUsize(s: string): (r: Option<nat>)
    ensures r.Some? ==> r.value < UsizeLimit
  {
    var body := if |s| >= 1 && s[0] == '+' then s[1..] else s;
    if body == [] || !AllDigits(body) then None
    else
      var v := DigitsValue(body);
      if v < UsizeLimit then Some(v) else None
  }

  /** The `Display` text of a square: the character with code
      `LetterCode(x)` followed by the decimal text of `y + 1`. Building the
      character fails for a code that is not a character, and `y + 1` must
      not overflow. */
  function Format(c: Coords2D): string
    requires IsScalar(LetterCode(c.x))
    requires c.y + 1 < UsizeLimit
  {
    [LetterCode(c.x) as char] + Decimal(c.y + 1)
  }

  /** The outcome of reading one trimmed input line: a square, a request for
      another line, or a panic (an empty line, a non-ASCII first character,
      or an unsigned subtraction that underflows). */
  datatype ReadOutcome = Read(coords: Coords2D) | Retry | Panic

  /** ASCII upper-casing, which is all `to_uppercase` does to the ASCII first
      character it is given here. */
  function ToUpper(c: char): (u: char)
    ensures 'a' <= c <= 'z' ==> u as int == c as int - 32
    ensures !('a' <= c <= 'z') ==> u == c
  {
    if 'a' <= c <= 'z' then (c as int - 32) as char else c
  }

  /** The arithmetic of `Coords2D::read` on a trimmed line `s`: the first
      character, upper-cased, gives `x = letter - 'A'`; the rest must parse as
      a number `n` and gives `y = n - 1`. There is no upper bound on `x` or
      `y`. The two subtractions are `usize` ones: a letter below 'A' or the
      number 0 is a `Panic`, as a debug build's overflow check makes it (a
      release build would wrap). */
  function ParseCoords(s: string): ReadOutcome
  {
    if s == [] || s[0] as int >= 128 then Panic
    else
      var letter := ToUpper(s[0]);
      match ParseUsize(s[1..])
      case None => Retry
      case Some(number) =>
        if letter as int < 'A' as int || number == 0 then Panic
        else Read(Coords2D(letter as int - 'A' as int, number - 1))
  }

  lemma {:induction false} DecimalValue(n: nat)
    ensures DigitsValue(Decimal(n)) == n
    decreases n
  {
    if n >= 10 {
      var s := Decimal(n);
      assert s[..|s| - 1] == Decimal(n / 10);
      DecimalValue(n / 10);
    }
  }

  /** The formatted text is the letter of code `97 + x` and the decimal text
      of `y + 1`, which parses back to `y + 1`. */
  lemma FormatShape(c: Coords2D)
    requires IsScalar(LetterCode(c.x)) && c.y + 1 < UsizeLimit
    ensures |Format(c)| >= 2
    ensures Format(c)[0] as int == LetterCode(c.x)
    ensures c.x < U32Limit ==> Format(c)[0] as int == 97 + c.x
    ensures AllDigits(Format(c)[1..]) && Format(c)[1] != '+'
    ensures ParseUsize(Format(c)[1..]) == Some(c.y + 1)
  {
    var s := Format(c);
    assert s[1..] == Decimal(c.y + 1);
    DecimalValue(c.y + 1);
  }

  /** Columns that agree in their low 32 bits print the same letter. */
  lemma FormatTruncates(c: Coords2D)
    requires c.x < 26 && c.y + 1 < UsizeLimit
    ensures Format(Coords2D(c.x + U32Limit, c.y)) == Format(c)
  {
    assert (c.x + U32Limit) % U32Limit == c.x;
  }

  /** Lower- and upper-case letters give the same column. */
  lemma CaseInsensitive(ch: char, rest: string)
    requires 'a' <= ch <= 'z'
    ensures ParseCoords([ch] + rest) == ParseCoords([(ch as int - 32) as char] + rest)
  {
    assert ([ch] + rest)[1..] == rest;
    assert ([(ch as int - 32) as char] + rest)[1..] == rest;
  }

  /** A line whose remainder is not a number asks for another line; one whose
      remainder is a positive number reads row `number - 1`. */
  lemma ParseRow(s: string)
    requires |s| >= 1 && 'a' <= s[0] <= 'z'
    ensures ParseUsize(s[1..]).None? ==> ParseCoords(s) == Retry
    ensures ParseUsize(s[1..]).Some? && ParseUsize(s[1..]).value >= 1 ==>
      ParseCoords(s) == Read(Coords2D(s[0] as int - 97, ParseUsize(s[1..]).value - 1))
  {
  }

  /** Round trip: parsing the text of a square whose column is a letter gives
      the square back. */
  lemma RoundTrip(c: Coords2D)
    requires c.x < 26 && c.y + 1 < UsizeLimit
    ensures ParseCoords(Format(c)) == Read(c)
  {
    FormatShape(c);
  }
}
