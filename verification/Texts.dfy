/** Joining, splitting and reading text. */
module Texts {
  import opened Records

  function Join(parts: seq<string>, separator: string): string
  {
    if |parts| == 0 then ""
    else if |parts| == 1 then parts[0]
    else parts[0] + separator + Join(parts[1..], separator)
  }

  // ---- lines -------------------------------------------------------------

  predicate NoBreak(s: string) { '\n' !in s }

  lemma NoBreakConcat(s: string, t: string)
    ensures NoBreak(s + t) <==> NoBreak(s) && NoBreak(t)
  {
  }

  /** The pieces between line feeds; there is always at least one. */
  function SplitLines(s: string): (lines: seq<string>)
    ensures |lines| >= 1
  {
    if |s| == 0 then [""]
    else
      var rest := SplitLines(s[1..]);
      if s[0] == '\n' then [""] + rest else [[s[0]] + rest[0]] + rest[1..]
  }

  lemma {:induction false} LinesHaveNoBreak(s: string)
    ensures forall line | line in SplitLines(s) :: NoBreak(line)
  {
    if |s| > 0 {
      LinesHaveNoBreak(s[1..]);
      assert SplitLines(s[1..])[0] in SplitLines(s[1..]);
    }
  }

  lemma {:induction false} OneLine(s: string)
    requires NoBreak(s)
    ensures SplitLines(s) == [s]
  {
    if |s| > 0 {
      OneLine(s[1..]);
      assert s == [s[0]] + s[1..];
    }
  }

  lemma SplitStep(c: char, s: string)
    ensures SplitLines([c] + s)
            == if c == '\n' then [""] + SplitLines(s)
               else [[c] + SplitLines(s)[0]] + SplitLines(s)[1..]
  {
    assert ([c] + s)[1..] == s;
  }

  lemma Associate<T>(a: seq<T>, b: seq<T>, c: seq<T>)
    ensures a + b + c == a + (b + c)
    ensures |a| > 0 ==> (a + b)[0] == a[0] && (a + b)[1..] == a[1..] + b
  {
  }

  /** A line feed between two texts separates their lines. */
  lemma {:induction false} SplitAtBreak(s: string, t: string)
    ensures SplitLines(s + "\n" + t) == SplitLines(s) + SplitLines(t)
  {
    if |s| == 0 {
      assert s + "\n" + t == ['\n'] + t;
      SplitStep('\n', t);
    } else {
      var tail := s[1..] + "\n" + t;
      assert s + "\n" + t == [s[0]] + tail;
      assert s == [s[0]] + s[1..];
      SplitAtBreak(s[1..], t);
      SplitStep(s[0], tail);
      SplitStep(s[0], s[1..]);
      Associate(SplitLines(s[1..]), SplitLines(t), []);
      Associate([""], SplitLines(s[1..]), SplitLines(t));
      Associate([[s[0]] + SplitLines(s[1..])[0]], SplitLines(s[1..])[1..], SplitLines(t));
    }
  }

  function LinesOfAll(chunks: seq<string>): seq<string>
  {
    if |chunks| == 0 then [] else SplitLines(chunks[0]) + LinesOfAll(chunks[1..])
  }

  /** Chunks joined by line feeds have the lines of the chunks, in order. */
  lemma {:induction false} SplitJoined(chunks: seq<string>)
    requires |chunks| > 0
    ensures SplitLines(Join(chunks, "\n")) == LinesOfAll(chunks)
  {
    if |chunks| == 1 {
      assert LinesOfAll(chunks[1..]) == [];
    } else {
      SplitJoined(chunks[1..]);
      SplitAtBreak(chunks[0], Join(chunks[1..], "\n"));
    }
  }

  lemma {:induction false} LinesOfAllConcat(a: seq<string>, b: seq<string>)
    ensures LinesOfAll(a + b) == LinesOfAll(a) + LinesOfAll(b)
  {
    if |a| == 0 {
      assert a + b == b;
    } else {
      LinesOfAllConcat(a[1..], b);
      Associate(a, b, []);
      Associate(SplitLines(a[0]), LinesOfAll(a[1..]), LinesOfAll(b));
    }
  }

  // ---- trimming ----------------------------------------------------------

  /** White space and line terminators, as ECMAScript's trim removes them. */
  predicate IsSpace(c: char)
  {
    var n := c as int;
    9 <= n <= 13 || n in {0x20, 0xA0, 0x1680, 0x2028, 0x2029, 0x202F, 0x205F, 0x3000, 0xFEFF}
    || 0x2000 <= n <= 0x200A
  }

  function TrimStart(s: string): string
  {
    if |s| > 0 && IsSpace(s[0]) then TrimStart(s[1..]) else s
  }

  function TrimEnd(s: string): string
  {
    if |s| > 0 && IsSpace(s[|s| - 1]) then TrimEnd(s[..|s| - 1]) else s
  }

  function Trim(s: string): string { TrimEnd(TrimStart(s)) }

  predicate EndsWith(s: string, c: char) { |s| > 0 && s[|s| - 1] == c }

  /** Trimming keeps a visible beginning. */
  lemma {:induction false} TrimEndKeeps(s: string, n: nat)
    requires 0 < n <= |s| && !IsSpace(s[n - 1])
    ensures |TrimEnd(s)| >= n && TrimEnd(s)[..n] == s[..n]
  {
    if |s| > n && IsSpace(s[|s| - 1]) {
      TrimEndKeeps(s[..|s| - 1], n);
      assert s[..|s| - 1][..n] == s[..n];
    }
  }

  // ---- reading -----------------------------------------------------------

  /** The text after a prefix, if it begins with it. */
  function Strip(s: string, prefix: string): Option<string>
  {
    if prefix <= s then Some(s[|prefix|..]) else None
  }

  lemma StripConcat(prefix: string, rest: string)
    ensures Strip(prefix + rest, prefix) == Some(rest)
  {
  }

  /** The text up to a character, and what follows that character. */
  function ReadTo(s: string, stop: char): Option<(string, string)>
  {
    if |s| == 0 then None
    else if s[0] == stop then Some(("", s[1..]))
    else
      match ReadTo(s[1..], stop)
      case None => None
      case Some(found) => Some(([s[0]] + found.0, found.1))
  }

  lemma {:induction false} ReadToStop(text: string, stop: char, rest: string)
    requires stop !in text
    ensures ReadTo(text + [stop] + rest, stop) == Some((text, rest))
  {
    var s := text + [stop] + rest;
    if |text| == 0 {
      assert s[1..] == rest;
    } else {
      ReadToStop(text[1..], stop, rest);
      assert s[1..] == text[1..] + [stop] + rest;
      assert [text[0]] + text[1..] == text;
    }
  }

  // ---- numbers -----------------------------------------------------------

  function Digits(n: nat): (s: string)
    ensures |s| >= 1 && forall c | c in s :: '0' <= c <= '9'
  {
    var digit := ['0' + (n % 10) as char];
    if n < 10 then digit else Digits(n / 10) + digit
  }
}
