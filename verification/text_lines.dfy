/** Lines of text, as a stream writes and reads them, and decimal numbers in them. */
module TextLines {

  datatype Option<T> = None | Some(value: T)

  const NEWLINE: char := '\n'
  const TAB: char := '\t'
  const RETURN: char := '\r'

  /** The first place of a character, or the length. */
  function IndexOf(text: string, c: char): (index: nat)
    ensures index <= |text|
    ensures index < |text| ==> text[index] == c
    ensures forall k | 0 <= k < index :: text[k] != c
  {
    if text == "" || text[0] == c then 0 else 1 + IndexOf(text[1..], c)
  }

  /** Every line with its newline. */
  function Joined(lines: seq<string>): string {
    if lines == [] then "" else lines[0] + [NEWLINE] + Joined(lines[1..])
  }

  /** Lines as `std::getline` yields them: a last line without a newline still counts. */
  function SplitLines(text: string): seq<string>
    decreases |text|
  {
    if text == "" then []
    else
      var i := IndexOf(text, NEWLINE);
      if i == |text| then [text] else [text[..i]] + SplitLines(text[i + 1..])
  }

  ghost predicate OneLine(text: string) { NEWLINE !in text }

  /** Text without control characters. */
  ghost predicate Plain(text: string) {
    forall i | 0 <= i < |text| :: text[i] >= ' '
  }

  lemma {:induction false} IndexOfSplit(front: string, c: char, back: string)
    requires c !in front
    ensures IndexOf(front + [c] + back, c) == |front|
  {
    var text := front + [c] + back;
    assert text[|front|] == c;
    assert forall k | 0 <= k < |front| :: text[k] == front[k] && front[k] in front;
  }

  /** Reading lines undoes writing them. */
  lemma {:induction false} SplitUndoesJoin(lines: seq<string>)
    requires forall line | line in lines :: OneLine(line)
    ensures SplitLines(Joined(lines)) == lines
  {
    if lines != [] {
      var line, rest := lines[0], Joined(lines[1..]);
      assert line in lines;
      IndexOfSplit(line, NEWLINE, rest);
      var text := line + [NEWLINE] + rest;
      assert text[..|line|] == line && text[|line| + 1..] == rest;
      SplitUndoesJoin(lines[1..]);
    }
  }

  lemma SplitStep(rest: string)
    requires rest != ""
    ensures var end := IndexOf(rest, NEWLINE);
            SplitLines(rest) == [rest[..end]] + SplitLines(if end == |rest| then "" else rest[end + 1..])
  {
    assert rest[..|rest|] == rest;
  }

  lemma {:induction false} JoinedAppends(a: seq<string>, b: seq<string>)
    ensures Joined(a + b) == Joined(a) + Joined(b)
  {
    if a == [] {
      assert a + b == b;
    } else {
      assert (a + b)[1..] == a[1..] + b;
      JoinedAppends(a[1..], b);
    }
  }

  lemma JoinedOne(line: string)
    ensures Joined([line]) == line + [NEWLINE]
  {
    assert [line][1..] == [];
  }

  // ---------------------------------------------------------------- decimal numbers

  const WORD64: nat := 0x1_0000_0000_0000_0000
  const WORD32: nat := 0x1_0000_0000

  type Uint64 = x: int | 0 <= x < 0x1_0000_0000_0000_0000
  type Uint32 = x: int | 0 <= x < 0x1_0000_0000

  predicate IsDigit(c: char) { '0' <= c <= '9' }

  function DigitOf(d: nat): (c: char)
    requires d < 10
    ensures IsDigit(c) && ValueOf(c) == d
  {
    ('0' as int + d) as char
  }

  function ValueOf(c: char): nat
    requires IsDigit(c)
  {
    c as int - '0' as int
  }

  function Digits(n: nat): (text: string)
    ensures text != "" && forall c | c in text :: IsDigit(c)
  {
    if n < 10 then [DigitOf(n)] else Digits(n / 10) + [DigitOf(n % 10)]
  }

  /** Digits up to the first other character, in 64-bit arithmetic. */
  function ParseNumber(text: string, from: Uint64 := 0): Uint64 {
    if text == "" || !IsDigit(text[0]) then from
    else ParseNumber(text[1..], (from * 10 + ValueOf(text[0])) % WORD64)
  }

  lemma {:induction false} ParseAppends(text: string, from: Uint64, c: char)
    requires (forall d | d in text :: IsDigit(d)) && IsDigit(c)
    ensures ParseNumber(text + [c], from) == (ParseNumber(text, from) * 10 + ValueOf(c)) % WORD64
  {
    if text == "" {
      assert [c][1..] == "";
    } else {
      assert (text + [c])[1..] == text[1..] + [c];
      ParseAppends(text[1..], (from * 10 + ValueOf(text[0])) % WORD64, c);
    }
  }

  /** Reading a 64-bit number undoes writing it. */
  lemma {:induction false} ParseUndoesDigits(n: Uint64)
    ensures ParseNumber(Digits(n)) == n
    decreases n
  {
    if n < 10 {
      assert Digits(n)[1..] == "";
    } else {
      ParseUndoesDigits(n / 10);
      ParseAppends(Digits(n / 10), 0, DigitOf(n % 10));
    }
  }
}
