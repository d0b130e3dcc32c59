/** Reading back what was written gives the same numbers, and writing them the same bytes. */
module LinesTheorems {
  import opened Options
  import opened LinesModel

  lemma {:induction false} DigitsRoundTrip(n: nat)
    ensures Decimal(Digits(n)) == n
  {
    if n < 10 {
      assert Digits(n)[..0] == "";
    } else {
      DigitsRoundTrip(n / 10);
      assert Digits(n)[..|Digits(n)| - 1] == Digits(n / 10);
    }
  }

  lemma ParseSigned(s: string, digits: string)
    requires s == "-" + digits && digits != "" && AllDigits(digits)
    ensures var n: int := Decimal(digits); Parse(s) == if InRange(-n) then Some(-n) else None
  {
    assert s[0] == '-' && s[1..] == digits;
  }

  lemma ParseUnsigned(s: string)
    requires s != "" && AllDigits(s)
    ensures Parse(s) == if InRange(Decimal(s)) then Some(Decimal(s) as int) else None
  {
    assert IsDigit(s[0]);
  }

  /** The canonical form of a number parses to it exactly when it is an i32. */
  lemma FormatParses(n: int)
    ensures Parse(Format(n)) == if InRange(n) then Some(n) else None
  {
    var size := if n < 0 then -n else n;
    DigitsRoundTrip(size);
    if n < 0 {
      ParseSigned(Format(n), Digits(size));
    } else {
      ParseUnsigned(Digits(size));
    }
  }

  // ---------- what is a number, said without the parser ----------

  const DIGITS := "0123456789"

  function PowerOfTen(n: nat): nat { if n == 0 then 1 else 10 * PowerOfTen(n - 1) }

  /** A digit and what it stands for. */
  ghost predicate Stands(c: char, d: nat) { d < 10 && c == DIGITS[d] }

  /** The digits stand for `n`, the first for the highest power of ten. */
  ghost predicate Means(digits: string, n: nat)
    decreases |digits|
  {
    if digits == "" then n == 0
    else
      exists d: nat :: Stands(digits[0], d)
        && var rest := n - d * PowerOfTen(|digits| - 1);
        rest >= 0 && Means(digits[1..], rest)
  }

  lemma StandsIff(c: char, d: nat)
    ensures Stands(c, d) <==> IsDigit(c) && DigitOf(c) == d
  {
  }

  lemma PowerSuccessor(d: nat, k: nat)
    ensures d * PowerOfTen(k + 1) == 10 * (d * PowerOfTen(k))
  {
  }

  /** The value of a longer numeral, from its first digit. */
  lemma {:induction false} DecimalHead(s: string)
    requires s != "" && AllDigits(s)
    ensures Decimal(s) == DigitOf(s[0]) * PowerOfTen(|s| - 1) + Decimal(s[1..])
    decreases |s|
  {
    if |s| == 1 {
      assert s[..0] == "" && s[1..] == "";
    } else {
      var front, tail := s[..|s| - 1], s[1..];
      DecimalHead(front);
      assert front[1..] == tail[..|tail| - 1] && tail[|tail| - 1] == s[|s| - 1];
      PowerSuccessor(DigitOf(s[0]), |s| - 2);
    }
  }

  /** Digits, and only digits, have a value, and it is theirs alone. */
  lemma {:induction false} MeansIff(digits: string, n: nat)
    ensures Means(digits, n) <==> AllDigits(digits) && Decimal(digits) == n
    decreases |digits|
  {
    if digits != "" {
      var tail := digits[1..];
      if Means(digits, n) {
        var d: nat :| Stands(digits[0], d) && n - d * PowerOfTen(|digits| - 1) >= 0
                      && Means(digits[1..], n - d * PowerOfTen(|digits| - 1));
        StandsIff(digits[0], d);
        MeansIff(tail, n - d * PowerOfTen(|digits| - 1));
        assert forall i :: 1 <= i < |digits| ==> digits[i] == tail[i - 1];
        DecimalHead(digits);
      }
      if AllDigits(digits) && Decimal(digits) == n {
        StandsIff(digits[0], DigitOf(digits[0]));
        MeansIff(tail, Decimal(tail));
        DecimalHead(digits);
        assert Means(tail, Decimal(tail));
      }
    }
  }

  /** A numeral: an optional sign and at least one digit. */
  ghost predicate Numeral(s: string, sign: string, digits: string, size: nat) {
    s == sign + digits && (sign == "" || sign == "+" || sign == "-") && digits != "" && Means(digits, size)
  }

  function Signed(sign: string, size: nat): int { if sign == "-" then -(size as int) else size }

  lemma ParsedIsNumeral(s: string) returns (sign: string, digits: string, size: nat)
    requires Parse(s).Some?
    ensures Numeral(s, sign, digits, size) && Parse(s).value == Signed(sign, size)
  {
    sign := if s[0] == '-' then "-" else if s[0] == '+' then "+" else "";
    digits := s[|sign|..];
    assert s == sign + digits;
    size := Decimal(digits);
    MeansIff(digits, size);
  }

  lemma NumeralParses(s: string, sign: string, digits: string, size: nat)
    requires Numeral(s, sign, digits, size)
    ensures Parse(s) == if InRange(Signed(sign, size)) then Some(Signed(sign, size)) else None
  {
    MeansIff(digits, size);
    assert IsDigit(digits[0]);
    assert s[|sign|..] == digits && (sign != "" ==> s[0] == sign[0]);
  }

  /** A text is a number exactly if it is a numeral whose value is an i32. */
  lemma ParsesIff(s: string, n: int)
    ensures Parse(s) == Some(n) <==>
            exists sign, digits, size: nat ::
              Numeral(s, sign, digits, size) && n == Signed(sign, size) && -0x8000_0000 <= n <= 0x7FFF_FFFF
  {
    if Parse(s) == Some(n) {
      var sign, digits, size := ParsedIsNumeral(s);
    }
    if sign, digits, size: nat :|
      Numeral(s, sign, digits, size) && n == Signed(sign, size) && -0x8000_0000 <= n <= 0x7FFF_FFFF
    {
      NumeralParses(s, sign, digits, size);
    }
  }

  /** Neither a plus sign nor a leading zero, and no minus in front of zero. */
  predicate Canonical(s: string) {
    && s != "" && s != "-0" && s[0] != '+'
    && var digits := if s[0] == '-' then s[1..] else s;
    digits != "" && (digits[0] == '0' ==> |digits| == 1)
  }

  lemma {:induction false} DigitsCanonical(n: nat)
    ensures Digits(n)[0] == '0' ==> n == 0 && |Digits(n)| == 1
    decreases n
  {
    if n >= 10 {
      DigitsCanonical(n / 10);
      assert Digits(n)[0] == Digits(n / 10)[0];
    }
  }

  lemma {:induction false} DigitsOfDecimal(s: string)
    requires s != "" && AllDigits(s) && (s[0] == '0' ==> |s| == 1)
    ensures Digits(Decimal(s)) == s && (s[0] != '0' ==> Decimal(s) > 0)
    decreases |s|
  {
    var front, last := s[..|s| - 1], s[|s| - 1];
    assert s == front + [last];
    if front == "" {
      assert Decimal(front) == 0;
    } else {
      DigitsOfDecimal(front);
      assert Decimal(s) / 10 == Decimal(front) && Decimal(s) % 10 == DigitOf(last);
    }
  }

  /** What is written for a number is its canonical numeral, and there is no other. */
  lemma FormatIsCanonical(n: int)
    ensures Canonical(Format(n))
    ensures exists sign, digits, size: nat :: Numeral(Format(n), sign, digits, size) && n == Signed(sign, size)
  {
    var size: nat := if n < 0 then -n else n;
    var sign := if n < 0 then "-" else "";
    DigitsCanonical(size);
    DigitsRoundTrip(size);
    MeansIff(Digits(size), size);
    assert IsDigit(Digits(size)[0]);
    assert Format(n) == sign + Digits(size);
    assert n < 0 ==> Format(n)[1..] == Digits(size);
    assert Numeral(Format(n), sign, Digits(size), size) && n == Signed(sign, size);
  }

  lemma CanonicalUnique(s: string, sign: string, digits: string, size: nat)
    requires Canonical(s) && Numeral(s, sign, digits, size)
    ensures s == Format(Signed(sign, size))
  {
    MeansIff(digits, size);
    assert IsDigit(digits[0]);
    assert sign != "" ==> s[0] == sign[0] && s[1..] == digits;
    DigitsOfDecimal(digits);
  }

  // ---------- what is a line ----------

  lemma FormatIsALine(n: int)
    ensures Format(n) != "" && Chomp(Format(n)) == Format(n)
    ensures forall i :: 0 <= i < |Format(n)| ==> Format(n)[i] != '\n'
  {
    var digits := Digits(if n < 0 then -n else n);
    assert IsDigit(digits[|digits| - 1]);
    assert Format(n)[|Format(n)| - 1] == digits[|digits| - 1];
    forall i | 0 <= i < |Format(n)|
      ensures Format(n)[i] != '\n'
    {
      if n < 0 {
        assert i > 0 ==> Format(n)[i] == digits[i - 1] && IsDigit(digits[i - 1]);
      } else {
        assert IsDigit(digits[i]);
      }
    }
  }

  /** A line in front of some text is the first line of the whole. */
  lemma LinesCons(line: string, rest: string)
    requires forall i :: 0 <= i < |line| ==> line[i] != '\n'
    ensures Lines(line + "\n" + rest) == [Text(Chomp(line))] + Lines(rest)
  {
    var all := line + "\n" + rest;
    assert all[|line|] == '\n';
    assert forall i :: 0 <= i < |line| ==> all[i] == line[i];
    assert Break(all) == |line|;
    assert all[..|line|] == line && all[|line| + 1..] == rest;
  }

  /** A line break is a newline, with or without a carriage return before it. */
  lemma LineBreaks(line: string, rest: string)
    requires forall i :: 0 <= i < |line| ==> line[i] != '\n'
    ensures Lines(line + "\r\n" + rest) == [Text(line)] + Lines(rest)
    ensures (line == "" || line[|line| - 1] != '\r') ==> Lines(line + "\n" + rest) == [Text(line)] + Lines(rest)
  {
    var longer := line + "\r";
    assert longer + "\n" + rest == line + "\r\n" + rest;
    LinesCons(longer, rest);
    LinesCons(line, rest);
    assert Chomp(longer) == line;
  }

  /** A last line needs no line break; there is no line after the last one. */
  lemma LastLine(line: string)
    requires forall i :: 0 <= i < |line| ==> line[i] != '\n'
    ensures Lines(line) == if line == "" then [] else [Text(line)]
  {
  }

  lemma {:induction false} RenderedLines(ns: seq<int>)
    ensures |Lines(Render(ns))| == |ns|
    ensures forall i :: 0 <= i < |ns| ==> Lines(Render(ns))[i] == Text(Format(ns[i]))
    decreases |ns|
  {
    if ns != [] {
      FormatIsALine(ns[0]);
      LinesCons(Format(ns[0]), Render(ns[1..]));
      RenderedLines(ns[1..]);
    }
  }

  /** The numbers read are those of the longest prefix of lines that parse. */
  lemma {:induction false} NumbersIsLongestPrefix(lines: seq<Line>)
    ensures var ns := Numbers(lines);
            && |ns| <= |lines|
            && (forall i :: 0 <= i < |ns| ==> ParseLine(lines[i]) == Some(ns[i]) && InRange(ns[i]))
            && (|ns| < |lines| ==> ParseLine(lines[|ns|]).None?)
    decreases |lines|
  {
    if lines != [] && ParseLine(lines[0]).Some? {
      NumbersIsLongestPrefix(lines[1..]);
    }
  }

  lemma {:induction false} NumbersUnique(lines: seq<Line>, ns: seq<int>)
    requires |ns| <= |lines| && (forall i :: 0 <= i < |ns| ==> ParseLine(lines[i]) == Some(ns[i]))
    requires |ns| < |lines| ==> ParseLine(lines[|ns|]).None?
    ensures Numbers(lines) == ns
    decreases |lines|
  {
    if ns != [] {
      NumbersUnique(lines[1..], ns[1..]);
      assert ns == [ns[0]] + ns[1..];
    }
  }

  lemma RenderCons(n: int, ns: seq<int>)
    ensures Render([n] + ns) == Format(n) + "\n" + Render(ns)
  {
    assert ([n] + ns)[1..] == ns;
  }

  lemma Regroup(a: string, b: string, c: string, d: string)
    ensures a + (b + c + d) == (a + b + c) + d
  {
  }

  /** What remains to be written, before and after one turn of the loop. */
  lemma WriteOne(file: string, rest: seq<Line>)
    ensures rest == [] || ParseLine(rest[0]).None? ==> file + Render(Numbers(rest)) == file
    ensures rest != [] && ParseLine(rest[0]).Some? ==>
      (file + Format(ParseLine(rest[0]).value) + "\n") + Render(Numbers(rest[1..])) == file + Render(Numbers(rest))
  {
    if rest != [] && ParseLine(rest[0]).Some? {
      var n := ParseLine(rest[0]).value;
      RenderCons(n, Numbers(rest[1..]));
      Regroup(file, Format(n), "\n", Render(Numbers(rest[1..])));
    }
  }

  /** Reading back a written file yields the numbers written. */
  lemma ReadBack(ns: seq<int>)
    requires forall i :: 0 <= i < |ns| ==> InRange(ns[i])
    ensures Numbers(Lines(Render(ns))) == ns
  {
    RenderedLines(ns);
    forall i | 0 <= i < |ns|
      ensures ParseLine(Lines(Render(ns))[i]) == Some(ns[i])
    {
      FormatParses(ns[i]);
    }
    NumbersUnique(Lines(Render(ns)), ns);
  }

  /** A second run over the output of a first one reproduces it byte for byte. */
  lemma SecondRunIsIdentical(lines: seq<Line>)
    ensures var output := Render(Numbers(lines));
            Render(Numbers(Lines(output))) == output
  {
    NumbersIsLongestPrefix(lines);
    ReadBack(Numbers(lines));
  }
}
