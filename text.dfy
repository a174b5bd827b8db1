/** Kotlin string helpers the core relies on: `isBlank`, `trim`, decimal
    rendering with `%d` / `%02d`, and a scanner that reads the numbers back out
    of formatted text. */
module Text {

  /** Kotlin's `Char.isWhitespace()`: `Character.isWhitespace(c) || Character.isSpaceChar(c)`. */
  function IsWhitespace(c: char): (r: bool)
    ensures c == ' ' || c == '\t' || c == '\n' || c == '\r' ==> r
    ensures IsDigit(c) ==> !r
  {
    ('\t' <= c <= '\r') || ('\U{1C}' <= c <= '\U{1F}') || c == ' ' || c == '\U{A0}'
    || c == '\U{1680}' || ('\U{2000}' <= c <= '\U{200A}') || c == '\U{2028}' || c == '\U{2029}'
    || c == '\U{202F}' || c == '\U{205F}' || c == '\U{3000}'
  }

  /** `CharSequence.isBlank()`: empty or whitespace only. */
  function IsBlank(s: string): (r: bool)
    ensures s == [] ==> r
    ensures r ==> forall i :: 0 <= i < |s| ==> !IsDigit(s[i])
  {
    forall i :: 0 <= i < |s| ==> IsWhitespace(s[i])
  }

  function TrimStart(s: string): (r: string)
    ensures r == [] || !IsWhitespace(r[0])
    ensures |r| <= |s| && r == s[|s| - |r|..]
    ensures IsBlank(s[..|s| - |r|])
  {
    if s != [] && IsWhitespace(s[0]) then
      var r := TrimStart(s[1..]);
      DropOneMore(s, r);
      r
    else s
  }

  function TrimEnd(s: string): (r: string)
    ensures r == [] || !IsWhitespace(r[|r| - 1])
    ensures |r| <= |s| && r == s[..|r|]
    ensures IsBlank(s[|r|..])
  {
    if s != [] && IsWhitespace(s[|s| - 1]) then
      var r := TrimEnd(s[..|s| - 1]);
      CutOneMore(s, r);
      r
    else s
  }

  /** A suffix of the tail that follows a blank stretch is a suffix of the
      whole, after a longer blank stretch when the head is whitespace. */
  lemma DropOneMore(s: string, r: string)
    requires s != [] && IsWhitespace(s[0])
    requires |r| <= |s| - 1 && r == s[1..][|s| - 1 - |r|..]
    requires IsBlank(s[1..][..|s| - 1 - |r|])
    ensures r == s[|s| - |r|..] && IsBlank(s[..|s| - |r|])
  {
    var k := |s| - 1 - |r|;
    assert s[1..][k..] == s[k + 1..];
    assert s[..k + 1] == [s[0]] + s[1..][..k];
    BlankConcat([s[0]], s[1..][..k]);
  }

  /** The mirror image for a whitespace last character. */
  lemma CutOneMore(s: string, r: string)
    requires s != [] && IsWhitespace(s[|s| - 1])
    requires |r| <= |s| - 1 && r == s[..|s| - 1][..|r|]
    requires IsBlank(s[..|s| - 1][|r|..])
    ensures r == s[..|r|] && IsBlank(s[|r|..])
  {
    assert s[..|s| - 1][..|r|] == s[..|r|];
    assert s[|r|..] == s[..|s| - 1][|r|..] + [s[|s| - 1]];
    BlankConcat(s[..|s| - 1][|r|..], [s[|s| - 1]]);
  }

  /** Two blank pieces make a blank whole. */
  lemma BlankConcat(a: string, b: string)
    requires IsBlank(a) && IsBlank(b)
    ensures IsBlank(a + b)
  {
    forall i | 0 <= i < |a + b| ensures IsWhitespace((a + b)[i]) {
      if i >= |a| {
        assert (a + b)[i] == b[i - |a|];
      }
    }
  }

  /** `String.trim()`: drops leading and trailing whitespace. */
  function Trim(s: string): (r: string)
    ensures |r| <= |s|
    ensures r == [] || (!IsWhitespace(r[0]) && !IsWhitespace(r[|r| - 1]))
  {
    TrimEnd(TrimStart(s))
  }

  /** What `trim` promises: the result is a contiguous piece of the input, what
      was cut off on either side is whitespace, and the result neither starts
      nor ends with whitespace. */
  lemma TrimIsInnerSlice(s: string)
    ensures exists i, j :: (0 <= i <= j <= |s| && Trim(s) == s[i..j]
                            && IsBlank(s[..i]) && IsBlank(s[j..]))
    ensures Trim(s) == [] || (!IsWhitespace(Trim(s)[0]) && !IsWhitespace(Trim(s)[|Trim(s)| - 1]))
  {
    var t := TrimStart(s);
    var i := |s| - |t|;
    var r := TrimEnd(t);
    assert t == s[i..];
    assert r == s[i..i + |r|];
    assert s[i + |r|..] == t[|r|..];
  }

  /** Trimming yields nothing exactly when the text is blank, so the
      `isBlank` guard and the `trim().isEmpty()` test agree. */
  lemma {:induction false} TrimEmptyIffBlank(s: string)
    ensures Trim(s) == [] <==> IsBlank(s)
  {
    var t := TrimStart(s);
    var i := |s| - |t|;
    if t == [] {
      assert s[..i] == s;
    } else {
      assert !IsWhitespace(s[i]);
      var r := TrimEnd(t);
      assert IsBlank(t[|r|..]);
      assert r != [];
    }
  }

  /** A trimmed string is already trimmed. */
  lemma TrimIdempotent(s: string)
    ensures Trim(Trim(s)) == Trim(s)
  {
    var r := Trim(s);
    TrimIsInnerSlice(s);
    if r != [] {
      assert TrimStart(r) == r;
      assert TrimEnd(r) == r;
    }
  }

  /** A string with no whitespace at either end is its own trim, and is not blank. */
  lemma TrimKeepsUnpadded(s: string)
    requires s != [] && !IsWhitespace(s[0]) && !IsWhitespace(s[|s| - 1])
    ensures Trim(s) == s && !IsBlank(s)
  {
    assert TrimStart(s) == s;
  }

  // ---------------------------------------------------------------------
  // Decimal rendering (`%d`, `%02d`)

  function DigitChar(d: nat): (c: char)
    requires d < 10
    ensures IsDigit(c)
  {
    ('0' as int + d) as char
  }

  /** Decimal digits of a natural number, most significant first. */
  function NatDec(n: nat): (r: string)
    ensures |r| >= 1
    ensures forall i :: 0 <= i < |r| ==> IsDigit(r[i])
    decreases n
  {
    if n < 10 then [DigitChar(n)] else NatDec(n / 10) + [DigitChar(n % 10)]
  }

  /** `"%d".format(n)` */
  function Dec(n: int): string {
    if n < 0 then "-" + NatDec(-n) else NatDec(n)
  }

  /** `"%02d".format(n)`: zero-padded to width two (a sign counts toward the width). */
  function Pad2(n: int): string {
    if 0 <= n < 10 then "0" + NatDec(n) else Dec(n)
  }

  /** Rendered numbers are single-line: no line break in `%d` or `%02d`. */
  lemma NumbersAreOneLine(n: int)
    ensures '\n' !in Dec(n) && '\n' !in Pad2(n)
  {
    var d := NatDec(if n < 0 then -n else n);
    assert forall i :: 0 <= i < |d| ==> d[i] != '\n';
    if 0 <= n < 10 {
      assert Pad2(n) == "0" + d;
    }
  }

  // ---------------------------------------------------------------------
  // Reading numbers back out of text

  predicate IsDigit(c: char) { '0' <= c <= '9' }

  /** Scanner state: finished numbers, the number being read, whether a number is open. */
  datatype Scan = Scan(runs: seq<nat>, cur: nat, inRun: bool)

  function Step(st: Scan, c: char): Scan {
    if IsDigit(c) then Scan(st.runs, st.cur * 10 + (c as int - '0' as int), true)
    else Close(st)
  }

  /** A non-digit ends the open number, if any. */
  function Close(st: Scan): Scan {
    if st.inRun then Scan(st.runs + [st.cur], 0, false) else st
  }

  function Run(st: Scan, s: string): Scan
    decreases |s|
  {
    if s == [] then st else Run(Step(st, s[0]), s[1..])
  }

  /** The maximal runs of decimal digits in `s`, read as numbers, left to right. */
  function DigitRuns(s: string): seq<nat> {
    Close(Run(Scan([], 0, false), s)).runs
  }

  /** Base-60 value of a list of fields: [h, m, s] means h*3600 + m*60 + s. */
  function Sexagesimal(fields: seq<nat>): nat
    decreases |fields|
  {
    if fields == [] then 0
    else Sexagesimal(fields[..|fields| - 1]) * 60 + fields[|fields| - 1]
  }

  lemma {:induction false} RunAppend(st: Scan, a: string, b: string)
    ensures Run(st, a + b) == Run(Run(st, a), b)
    decreases |a|
  {
    if a != [] {
      assert (a + b)[0] == a[0];
      assert (a + b)[1..] == a[1..] + b;
      RunAppend(Step(st, a[0]), a[1..], b);
    } else {
      assert a + b == b;
    }
  }

  /** Scanning the decimal rendering of `n` from a fresh number reads `n`. */
  lemma {:induction false} RunNatDec(st: Scan, n: nat)
    requires st.cur == 0
    ensures Run(st, NatDec(n)) == Scan(st.runs, n, true)
    decreases n
  {
    if n < 10 {
      assert Run(st, NatDec(n)) == Run(Step(st, DigitChar(n)), []);
    } else {
      RunAppend(st, NatDec(n / 10), [DigitChar(n % 10)]);
      RunNatDec(st, n / 10);
      assert Run(Scan(st.runs, n / 10, true), [DigitChar(n % 10)])
          == Run(Step(Scan(st.runs, n / 10, true), DigitChar(n % 10)), []);
    }
  }

  /** The same for the zero-padded rendering of a field in [0, 60). */
  lemma RunPad2(st: Scan, n: nat)
    requires st.cur == 0
    ensures Run(st, Pad2(n)) == Scan(st.runs, n, true)
  {
    if n < 10 {
      RunAppend(st, "0", NatDec(n));
      assert Run(st, "0") == Run(Step(st, '0'), []);
      RunNatDec(Scan(st.runs, 0, true), n);
    } else {
      RunNatDec(st, n);
    }
  }

  /** A separator without digits ends the open number and reads nothing else. */
  lemma {:induction false} RunSeparator(st: Scan, sep: string)
    requires sep != [] && forall i :: 0 <= i < |sep| ==> !IsDigit(sep[i])
    ensures Run(st, sep) == Close(st)
    decreases |sep|
  {
    if |sep| == 1 {
      assert Run(st, sep) == Run(Step(st, sep[0]), []);
    } else {
      RunSeparator(Close(st), sep[1..]);
    }
  }

  // ---------------------------------------------------------------------
  // Lines

  /** `s` cut at every line break; a text without breaks is one line. */
  function Lines(s: string): (r: seq<string>)
    ensures |r| >= 1
    decreases |s|
  {
    if s == [] then [""]
    else
      var rest := Lines(s[1..]);
      if s[0] == '\n' then [""] + rest else [[s[0]] + rest[0]] + rest[1..]
  }

  /** A text without line breaks is a single line. */
  lemma {:induction false} OneLine(a: string)
    requires '\n' !in a
    ensures Lines(a) == [a]
    decreases |a|
  {
    if a != [] {
      assert '\n' !in a[1..] by {
        forall i | 0 <= i < |a[1..]|
          ensures a[1..][i] != '\n'
        {
          assert a[1..][i] == a[i + 1];
        }
      }
      OneLine(a[1..]);
      assert [a[0]] + a[1..] == a;
    }
  }

  /** A line without breaks followed by a break starts the line list. */
  lemma {:induction false} LinesAfterBreak(a: string, b: string)
    requires '\n' !in a
    ensures Lines(a + "\n" + b) == [a] + Lines(b)
    decreases |a|
  {
    if a == [] {
      assert a + "\n" + b == "\n" + b;
      assert ("\n" + b)[1..] == b;
    } else {
      assert '\n' !in a[1..] by {
        forall i | 0 <= i < |a[1..]|
          ensures a[1..][i] != '\n'
        {
          assert a[1..][i] == a[i + 1];
        }
      }
      LinesAfterBreak(a[1..], b);
      assert (a + "\n" + b)[1..] == a[1..] + "\n" + b;
      assert [a[0]] + a[1..] == a;
    }
  }
}
