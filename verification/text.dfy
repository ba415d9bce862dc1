/**
 Text helpers the reply is built from: `Array.prototype.join` with a newline
 separator and its inverse, splitting text into lines; and the decimal form in
 which a template literal shows an HTTP status code.
 */
module Text {

  const NL: char := '\n'

  /** `parts.join(sep)`. */
  function Join(parts: seq<string>, sep: string): (r: string)
    ensures |parts| == 1 ==> r == parts[0]
  {
    if |parts| == 0 then ""
    else if |parts| == 1 then parts[0]
    else parts[0] + sep + Join(parts[1..], sep)
  }

  /** The text between newlines, in order; text without a newline is one
      line, and so is the empty text. */
  function Lines(s: string): (r: seq<string>)
    ensures |r| == Count(s, NL) + 1
    ensures forall i :: 0 <= i < |r| ==> NL !in r[i]
    decreases |s|
  {
    if |s| == 0 then [""]
    else
      var rest := Lines(s[1..]);
      if s[0] == NL then [""] + rest
      else [[s[0]] + rest[0]] + rest[1..]
  }

  /** How many times `c` occurs in `s`. */
  function Count(s: string, c: char): nat
  {
    if |s| == 0 then 0 else (if s[0] == c then 1 else 0) + Count(s[1..], c)
  }

  /** No part carries a newline of its own. */
  predicate OneLineEach(parts: seq<string>)
  {
    forall i :: 0 <= i < |parts| ==> NL !in parts[i]
  }

  lemma {:induction false} LinesOfOneLine(s: string)
    requires NL !in s
    ensures Lines(s) == [s]
    decreases |s|
  {
    if |s| > 0 {
      LinesOfOneLine(s[1..]);
      assert s == [s[0]] + s[1..];
    }
  }

  /** A line followed by a newline contributes exactly that line. */
  lemma {:induction false} LinesAfterLine(a: string, rest: string)
    requires NL !in a
    ensures Lines(a + [NL] + rest) == [a] + Lines(rest)
    decreases |a|
  {
    if |a| == 0 {
      assert a + [NL] + rest == [NL] + rest;
      assert ([NL] + rest)[1..] == rest;
    } else {
      assert (a + [NL] + rest)[1..] == a[1..] + [NL] + rest;
      LinesAfterLine(a[1..], rest);
      assert [a[0]] + a[1..] == a;
    }
  }

  /** Splitting a newline-join of one-line parts gives the parts back. */
  lemma {:induction false} LinesOfJoin(parts: seq<string>)
    requires |parts| >= 1
    requires OneLineEach(parts)
    ensures Lines(Join(parts, [NL])) == parts
    decreases |parts|
  {
    if |parts| == 1 {
      LinesOfOneLine(parts[0]);
    } else {
      LinesOfJoin(parts[1..]);
      LinesAfterLine(parts[0], Join(parts[1..], [NL]));
      assert [parts[0]] + parts[1..] == parts;
    }
  }

  /** Joining the lines of a text with newlines gives the text back. */
  lemma {:induction false} JoinOfLines(s: string)
    ensures Join(Lines(s), [NL]) == s
    decreases |s|
  {
    if |s| > 0 {
      var rest := Lines(s[1..]);
      JoinOfLines(s[1..]);
      if s[0] == NL {
        assert Lines(s) == [""] + rest;
        assert ([""] + rest)[1..] == rest;
      } else {
        var first := [s[0]] + rest[0];
        assert Lines(s) == [first] + rest[1..];
        if |rest| == 1 {
          assert s == [s[0]] + s[1..];
        } else {
          assert ([first] + rest[1..])[1..] == rest[1..];
          assert Join(rest, [NL]) == rest[0] + [NL] + Join(rest[1..], [NL]);
          assert s == [s[0]] + s[1..];
        }
      }
    }
  }

  /** Appending a part adds one newline and the part. */
  lemma {:induction false} JoinSnoc(parts: seq<string>, last: string)
    requires |parts| >= 1
    ensures Join(parts + [last], [NL]) == Join(parts, [NL]) + [NL] + last
    decreases |parts|
  {
    if |parts| == 1 {
      assert (parts + [last])[1..] == [last];
    } else {
      assert (parts + [last])[1..] == parts[1..] + [last];
      JoinSnoc(parts[1..], last);
    }
  }

  /** Text that ends in a newline ends with an empty line, so a text whose
      last line is not empty has no trailing newline. */
  lemma {:induction false} TrailingNewlineGivesEmptyLine(s: string)
    requires |s| > 0 && s[|s| - 1] == NL
    ensures Lines(s)[|Lines(s)| - 1] == ""
    decreases |s|
  {
    if |s| > 1 {
      TrailingNewlineGivesEmptyLine(s[1..]);
    }
  }

  /** The decimal digit for 0 <= d < 10. */
  function Digit(d: nat): (c: char)
    requires d < 10
    ensures '0' <= c <= '9'
    ensures c as int - '0' as int == d
  {
    ('0' as int + d) as char
  }

  /** `${n}` for a non-negative integer: its decimal digits, most significant
      first, with no leading zero. */
  function Dec(n: nat): (r: string)
    ensures |r| >= 1
    ensures forall i :: 0 <= i < |r| ==> '0' <= r[i] <= '9'
    ensures |r| > 1 ==> r[0] != '0'
  {
    if n < 10 then [Digit(n)] else Dec(n / 10) + [Digit(n % 10)]
  }

  /** The number a string of decimal digits denotes. */
  function ParseDec(s: string): nat
    requires forall i :: 0 <= i < |s| ==> '0' <= s[i] <= '9'
  {
    if |s| == 0 then 0
    else 10 * ParseDec(s[..|s| - 1]) + (s[|s| - 1] as int - '0' as int)
  }

  /** Reading the decimal form back gives the number. */
  lemma {:induction false} ParseDecOfDec(n: nat)
    ensures ParseDec(Dec(n)) == n
  {
    if n >= 10 {
      ParseDecOfDec(n / 10);
      var s := Dec(n);
      assert s[..|s| - 1] == Dec(n / 10);
    }
  }

  /** A decimal number is one line. */
  lemma DecIsOneLine(n: nat)
    ensures NL !in Dec(n)
  {
  }
}
