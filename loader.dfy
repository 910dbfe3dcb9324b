/** The line-parsing part of the program loader: a program is a sequence of
    text lines; a line that starts with `#` or is blank is a comment, and
    every other line holds one byte written in base 2 in its first eight
    characters. Parsing follows Python's `int(text, 2)`. */
module Loader {
  import opened Wrappers
  import opened Bits

  /** Why loading stops: a line with no characters at all (indexing its
      first character fails), a field that is not a base-2 numeral, or more
      program bytes than memory cells. */
  datatype LoadError = EmptyLine | NotBinary(field: string) | MemoryFull

  /** A comment line or a blank line, both skipped. */
  predicate IsSkipped(line: string) {
    |line| > 0 && (line[0] == '#' || line[0] == '\n')
  }

  /** `line[0:8]`: the first eight characters, or the whole line if shorter. */
  function Head8(line: string): (r: string)
    ensures |r| == if |line| < 8 then |line| else 8
    ensures r == line[..|r|]
  {
    if |line| <= 8 then line else line[..8]
  }

  // ---------------------------------------------------------- int(text, 2)

  /** The ASCII whitespace `int` ignores around a numeral. */
  predicate IsSpace(c: char) {
    c == ' ' || c == '\t' || c == '\n' || c == '\r' || c as int == 0x0B || c as int == 0x0C
  }

  function TrimLeft(s: string): (r: string)
    ensures |r| <= |s|
    ensures r == s[|s| - |r|..]
    ensures |r| > 0 ==> !IsSpace(r[0])
  {
    if |s| > 0 && IsSpace(s[0]) then TrimLeft(s[1..]) else s
  }

  function TrimRight(s: string): (r: string)
    ensures |r| <= |s|
    ensures r == s[..|r|]
    ensures |r| > 0 ==> !IsSpace(r[|r| - 1])
  {
    if |s| > 0 && IsSpace(s[|s| - 1]) then TrimRight(s[..|s| - 1]) else s
  }

  function Strip(s: string): string {
    TrimRight(TrimLeft(s))
  }

  predicate IsBit(c: char) {
    c == '0' || c == '1'
  }

  /** Binary digits with single underscores between them; after a `0b`
      prefix one underscore may also come first. */
  predicate WellGrouped(d: string, afterPrefix: bool) {
    && |d| > 0
    && (forall k :: 0 <= k < |d| ==> IsBit(d[k]) || d[k] == '_')
    && d[|d| - 1] != '_'
    && (d[0] == '_' ==> afterPrefix)
    && (forall k :: 0 <= k < |d| - 1 ==> d[k] == '_' ==> d[k + 1] != '_')
  }

  /** The value of a string of binary digits, most significant first,
      underscores ignored. */
  function BitsValue(d: string): nat {
    if d == [] then 0
    else if d[|d| - 1] == '_' then BitsValue(d[..|d| - 1])
    else 2 * BitsValue(d[..|d| - 1]) + (if d[|d| - 1] == '1' then 1 else 0)
  }

  function ParseMagnitude(t: string): Option<nat> {
    if |t| >= 2 && t[0] == '0' && (t[1] == 'b' || t[1] == 'B') then
      if WellGrouped(t[2..], true) then Some(BitsValue(t[2..])) else None
    else if WellGrouped(t, false) then Some(BitsValue(t))
    else None
  }

  /** A non-empty string of binary digits only. */
  predicate AllBits(d: string) {
    |d| > 0 && forall k :: 0 <= k < |d| ==> IsBit(d[k])
  }

  /** `int(text, 2)`: surrounding whitespace, an optional sign, an optional
      `0b` prefix, then grouped binary digits; None where Python raises. */
  function ParseBinary(text: string): Option<int> {
    var t := Strip(text);
    if |t| > 0 && t[0] == '-' then
      match ParseMagnitude(t[1..])
      case Some(m) => Some(-(m as int))
      case None => None
    else if |t| > 0 && t[0] == '+' then ParseMagnitude(t[1..])
    else ParseMagnitude(t)
  }

  /** Text with no whitespace at either end is left as it is by `strip`. */
  lemma StripKeeps(t: string)
    requires |t| > 0 && !IsSpace(t[0]) && !IsSpace(t[|t| - 1])
    ensures Strip(t) == t
  {
    assert TrimLeft(t) == t;
  }

  /** Plain binary digits are a well-formed magnitude without a prefix. */
  lemma DigitsMagnitude(d: string)
    requires AllBits(d)
    ensures ParseMagnitude(d) == Some(BitsValue(d))
  {
    assert !(|d| >= 2 && d[0] == '0' && (d[1] == 'b' || d[1] == 'B')) by {
      if |d| >= 2 { assert IsBit(d[1]); }
    }
    assert WellGrouped(d, false) by {
      assert IsBit(d[0]) && IsBit(d[|d| - 1]);
    }
  }

  /** `int(text, 2)` on bare binary digits is their value. */
  lemma ParseBinaryDigits(d: string)
    requires AllBits(d)
    ensures ParseBinary(d) == Some(BitsValue(d))
  {
    assert IsBit(d[0]) && IsBit(d[|d| - 1]);
    StripKeeps(d);
    DigitsMagnitude(d);
  }

  /** `int(text, 2)` on a minus sign followed by binary digits is their
      value negated. */
  lemma ParseBinaryNegative(text: string)
    requires |text| > 1 && text[0] == '-' && AllBits(text[1..])
    ensures ParseBinary(text) == Some(-(BitsValue(text[1..]) as int))
  {
    assert IsBit(text[1..][|text| - 2]);
    StripKeeps(text);
    DigitsMagnitude(text[1..]);
  }

  /** `int(text, 2)` on a plus sign followed by binary digits is their
      value. */
  lemma ParseBinaryPositive(text: string)
    requires |text| > 1 && text[0] == '+' && AllBits(text[1..])
    ensures ParseBinary(text) == Some(BitsValue(text[1..]))
  {
    assert IsBit(text[1..][|text| - 2]);
    StripKeeps(text);
    DigitsMagnitude(text[1..]);
  }

  /** Text that is empty once stripped is refused, as `int('', 2)` is. */
  lemma ParseBinaryBlank(text: string)
    requires Strip(text) == []
    ensures ParseBinary(text).None?
  {
  }

  // --------------------------------------------------------------- loading

  /** The loader loop from the given line on, with `address` the next cell
      to write: comments are skipped, each other line's first eight
      characters are parsed and stored at `address`. */
  function LoadFrom(ram: seq<int>, lines: seq<string>, address: nat): Result<seq<int>, LoadError>
    decreases |lines|
  {
    if lines == [] then Ok(ram)
    else
      var line := lines[0];
      if |line| == 0 then Err(EmptyLine)
      else if IsSkipped(line) then LoadFrom(ram, lines[1..], address)
      else
        match ParseBinary(Head8(line))
        case None => Err(NotBinary(Head8(line)))
        case Some(v) =>
          if address >= |ram| then Err(MemoryFull)
          else LoadFrom(ram[address := v], lines[1..], address + 1)
  }

  /** `load` over the program's lines, writing from address 0. */
  function Load(ram: seq<int>, lines: seq<string>): Result<seq<int>, LoadError> {
    LoadFrom(ram, lines, 0)
  }

  /** The reference reading of a program: the byte values of its code lines
      in order, or the first line that is empty or does not parse. */
  function Program(lines: seq<string>): Result<seq<int>, LoadError>
    decreases |lines|
  {
    if lines == [] then Ok([])
    else
      var line := lines[0];
      if |line| == 0 then Err(EmptyLine)
      else if IsSkipped(line) then Program(lines[1..])
      else
        match ParseBinary(Head8(line))
        case None => Err(NotBinary(Head8(line)))
        case Some(v) =>
          var rest :- Program(lines[1..]);
          Ok([v] + rest)
  }

  // ---------------------------------------------------------------- lemmas

  /** Loading succeeds exactly when every line reads and the program fits
      in memory from `address` on; then the program bytes sit at consecutive
      addresses from `address` and every other cell is unchanged. */
  lemma {:induction false} LoadFromWritesProgram(ram: seq<int>, lines: seq<string>, address: nat)
    requires address <= |ram|
    ensures LoadFrom(ram, lines, address).Ok? <==>
            Program(lines).Ok? && address + |Program(lines).value| <= |ram|
    ensures LoadFrom(ram, lines, address).Ok? ==>
            var vs := Program(lines).value;
            LoadFrom(ram, lines, address).value == ram[..address] + vs + ram[address + |vs|..]
    decreases |lines|
  {
    if lines != [] {
      var line := lines[0];
      if |line| > 0 && IsSkipped(line) {
        LoadFromWritesProgram(ram, lines[1..], address);
      } else if |line| > 0 && ParseBinary(Head8(line)).Some? {
        var v := ParseBinary(Head8(line)).value;
        if address < |ram| {
          LoadFromWritesProgram(ram[address := v], lines[1..], address + 1);
          if LoadFrom(ram, lines, address).Ok? {
            var vs := Program(lines[1..]).value;
            assert ram[address := v][..address + 1] == ram[..address] + [v];
            assert ram[address := v][address + 1 + |vs|..] == ram[address + 1 + |vs|..];
          }
        }
      }
    }
  }

  /** `load` of a program into memory: the bytes land at addresses
      0, 1, 2, ... and the cells after the program keep their contents. */
  lemma LoadWritesProgram(ram: seq<int>, lines: seq<string>)
    ensures Load(ram, lines).Ok? <==> Program(lines).Ok? && |Program(lines).value| <= |ram|
    ensures Load(ram, lines).Ok? ==>
            Load(ram, lines).value == Program(lines).value + ram[|Program(lines).value|..]
  {
    LoadFromWritesProgram(ram, lines, 0);
  }

  /** Inserting a comment or blank line anywhere in a program does not
      change what is loaded, error or not. */
  lemma {:induction false} SkippedLineIrrelevant(ram: seq<int>, before: seq<string>, skipped: string, after: seq<string>, address: nat)
    requires IsSkipped(skipped)
    ensures LoadFrom(ram, before + [skipped] + after, address) == LoadFrom(ram, before + after, address)
    decreases |before|
  {
    if before == [] {
      assert before + [skipped] + after == [skipped] + after;
      assert before + after == after;
      assert ([skipped] + after)[1..] == after;
    } else {
      assert (before + [skipped] + after)[1..] == before[1..] + [skipped] + after;
      assert (before + after)[1..] == before[1..] + after;
      var line := before[0];
      if |line| > 0 && IsSkipped(line) {
        SkippedLineIrrelevant(ram, before[1..], skipped, after, address);
      } else if |line| > 0 && ParseBinary(Head8(line)).Some? && address < |ram| {
        SkippedLineIrrelevant(ram[address := ParseBinary(Head8(line)).value], before[1..], skipped, after, address + 1);
      }
    }
  }

  /** Eight binary digits is at most 255. */
  lemma {:induction false} BitsValueBound(d: string)
    requires forall k :: 0 <= k < |d| ==> IsBit(d[k])
    ensures BitsValue(d) < Pow2(|d|)
    decreases |d|
  {
    if d != [] {
      BitsValueBound(d[..|d| - 1]);
    }
  }

  /** A code line of eight binary digits (and whatever follows them, such as
      a newline or a trailing comment) loads as the byte those digits spell. */
  lemma ParseEightBits(d: string, rest: string)
    requires |d| == 8 && forall k :: 0 <= k < 8 ==> IsBit(d[k])
    ensures !IsSkipped(d + rest)
    ensures Head8(d + rest) == d
    ensures ParseBinary(Head8(d + rest)) == Some(BitsValue(d))
    ensures 0 <= BitsValue(d) < 256
  {
    assert Head8(d + rest) == d;
    assert !IsSpace(d[0]) && !IsSpace(d[7]);
    assert TrimLeft(d) == d;
    assert TrimRight(d) == d;
    assert Strip(d) == d;
    assert !(d[1] == 'b' || d[1] == 'B');
    assert WellGrouped(d, false);
    BitsValueBound(d);
    assert Pow2(8) == 256;
  }
}
