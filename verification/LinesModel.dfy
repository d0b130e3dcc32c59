/** Text files of numbers: how lines are cut, parsed and written. */
module LinesModel {
  import opened Options

  const MIN: int := -0x8000_0000
  const MAX: int := 0x7FFF_FFFF

  /** What the line iterator yields: a line, or an error (unreadable, not UTF-8). */
  datatype Line = Text(text: string) | Unreadable

  // ---------- cutting ----------

  /** Position of the first newline, or the length. */
  function Break(s: string): (k: nat)
    ensures k <= |s| && (k < |s| ==> s[k] == '\n') && forall i :: 0 <= i < k ==> s[i] != '\n'
  {
    if s == "" || s[0] == '\n' then 0 else 1 + Break(s[1..])
  }

  /** A carriage return before the newline belongs to the line break. */
  function Chomp(s: string): string { if s != "" && s[|s| - 1] == '\r' then s[..|s| - 1] else s }

  /** `BufRead::lines`: a last line without a newline counts, an empty one does not. */
  function Lines(s: string): seq<Line>
    decreases |s|
  {
    if s == "" then []
    else
      var k := Break(s);
      if k == |s| then [Text(s)] else [Text(Chomp(s[..k]))] + Lines(s[k + 1..])
  }

  // ---------- numbers ----------

  predicate IsDigit(c: char) { '0' <= c <= '9' }

  function DigitOf(c: char): nat
    requires IsDigit(c)
  {
    c as nat - '0' as nat
  }

  function DigitChar(d: nat): (c: char)
    requires d < 10
    ensures IsDigit(c) && DigitOf(c) == d
  {
    (d + '0' as nat) as char
  }

  predicate AllDigits(s: string) { forall i :: 0 <= i < |s| ==> IsDigit(s[i]) }

  function Decimal(s: string): nat
    requires AllDigits(s)
    decreases |s|
  {
    if s == "" then 0 else 10 * Decimal(s[..|s| - 1]) + DigitOf(s[|s| - 1])
  }

  predicate InRange(n: int) { MIN <= n <= MAX }

  /** `str::parse::<i32>`: an optional sign, at least one digit, no overflow. */
  function Parse(s: string): Option<int> {
    var signed := s != "" && (s[0] == '-' || s[0] == '+');
    var digits := if signed then s[1..] else s;
    if digits == "" || !AllDigits(digits) then None
    else
      var size: int := Decimal(digits);
      var n := if s[0] == '-' then -size else size;
      if InRange(n) then Some(n) else None
  }

  function Digits(n: nat): (s: string)
    ensures s != "" && AllDigits(s)
  {
    if n < 10 then [DigitChar(n)] else Digits(n / 10) + [DigitChar(n % 10)]
  }

  /** `Display` of an integer. */
  function Format(n: int): string { if n < 0 then "-" + Digits(-n) else Digits(n) }

  // ---------- reading and writing ----------

  function ParseLine(l: Line): Option<int> { if l.Text? then Parse(l.text) else None }

  /** The numbers of the longest prefix of lines that parse. */
  function Numbers(lines: seq<Line>): seq<int>
    decreases |lines|
  {
    if lines == [] || ParseLine(lines[0]).None? then []
    else [ParseLine(lines[0]).value] + Numbers(lines[1..])
  }

  /** One canonical line per number. */
  function Render(ns: seq<int>): string
    decreases |ns|
  {
    if ns == [] then "" else Format(ns[0]) + "\n" + Render(ns[1..])
  }
}
