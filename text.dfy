/** The string operations the parser relies on: splitting the transcript into
    lines (`str::lines`), splitting a line on single spaces (`str::split(' ')`)
    and reading an unsigned 64-bit decimal number (`str::parse::<u64>`). */
module Text {
  import opened Results
  import opened Tree

  /** The pieces of `s` between occurrences of `sep`; consecutive separators
      give empty pieces, and there is always at least one piece. */
  function SplitOn(s: string, sep: char): (r: seq<string>)
    ensures |r| >= 1
    ensures forall k :: 0 <= k < |r| ==> sep !in r[k]
  {
    if s == [] then [""]
    else
      var rest := SplitOn(s[1..], sep);
      if s[0] == sep then [""] + rest
      else [[s[0]] + rest[0]] + rest[1..]
  }

  /** The pieces joined back together with `sep` between each two. */
  function JoinOn(ws: seq<string>, sep: char): string
    requires |ws| >= 1
  {
    if |ws| == 1 then ws[0] else ws[0] + [sep] + JoinOn(ws[1..], sep)
  }

  /** Splitting loses nothing: joining the pieces gives the string back. */
  lemma {:induction false} JoinSplitOn(s: string, sep: char)
    ensures JoinOn(SplitOn(s, sep), sep) == s
    decreases |s|
  {
    if s != [] {
      var rest := SplitOn(s[1..], sep);
      JoinSplitOn(s[1..], sep);
      if s[0] == sep {
        assert SplitOn(s, sep)[1..] == rest;
      } else {
        var r := SplitOn(s, sep);
        assert r[1..] == rest[1..];
        if |rest| == 1 {
          assert JoinOn(r, sep) == [s[0]] + rest[0];
        } else {
          assert rest == [rest[0]] + rest[1..];
          assert JoinOn(rest, sep) == rest[0] + [sep] + JoinOn(rest[1..], sep);
        }
        assert s == [s[0]] + s[1..];
      }
    }
  }

  /** A character other than the separator is glued onto the first piece. */
  lemma SplitOnCons(c: char, t: string, sep: char)
    requires c != sep
    ensures SplitOn([c] + t, sep) == [[c] + SplitOn(t, sep)[0]] + SplitOn(t, sep)[1..]
  {
    assert ([c] + t)[1..] == t;
  }

  /** A prefix free of the separator is glued onto the first piece. */
  lemma {:induction false} SplitOnPrefix(a: string, s: string, sep: char)
    requires sep !in a
    ensures SplitOn(a + s, sep) == [a + SplitOn(s, sep)[0]] + SplitOn(s, sep)[1..]
    decreases |a|
  {
    var r := SplitOn(s, sep);
    if a != [] {
      var t := a[1..] + s;
      assert a + s == [a[0]] + t;
      SplitOnPrefix(a[1..], s, sep);
      SplitOnCons(a[0], t, sep);
      assert [a[0]] + (a[1..] + r[0]) == a + r[0];
    } else {
      assert a + s == s && a + r[0] == r[0];
      assert r == [r[0]] + r[1..];
    }
  }

  /** Splitting undoes joining when no piece holds the separator. */
  lemma {:induction false} SplitJoinOn(ws: seq<string>, sep: char)
    requires |ws| >= 1
    requires forall k :: 0 <= k < |ws| ==> sep !in ws[k]
    ensures SplitOn(JoinOn(ws, sep), sep) == ws
    decreases |ws|
  {
    if |ws| == 1 {
      SplitOnPrefix(ws[0], "", sep);
      assert ws[0] + "" == ws[0];
    } else {
      var tail := JoinOn(ws[1..], sep);
      SplitJoinOn(ws[1..], sep);
      assert ws[0] + [sep] + tail == ws[0] + ([sep] + tail);
      SplitOnPrefix(ws[0], [sep] + tail, sep);
      assert ([sep] + tail)[1..] == tail;
      assert ws[0] + "" == ws[0];
      assert ws == [ws[0]] + ws[1..];
    }
  }

  /** `line.split(' ')`: the space-separated tokens of a line; there is at
      least one, and none holds a space. */
  function Split(line: string): (r: seq<string>)
    ensures |r| >= 1
    ensures forall k :: 0 <= k < |r| ==> ' ' !in r[k]
  {
    SplitOn(line, ' ')
  }

  /** A line of two space-free tokens splits into exactly those tokens. */
  lemma SplitTwo(a: string, b: string)
    requires ' ' !in a && ' ' !in b
    ensures Split(a + " " + b) == [a, b]
  {
    var ws := [a, b];
    assert a + " " + b == JoinOn(ws, ' ');
    SplitJoinOn(ws, ' ');
  }

  /** A line of three space-free tokens splits into exactly those tokens. */
  lemma SplitThree(a: string, b: string, c: string)
    requires ' ' !in a && ' ' !in b && ' ' !in c
    ensures Split(a + " " + b + " " + c) == [a, b, c]
  {
    var ws := [a, b, c];
    assert ws[1..] == [b, c] && ws[1..][1..] == [c];
    assert JoinOn(ws[1..], ' ') == b + " " + c;
    assert a + " " + b + " " + c == JoinOn(ws, ' ');
    SplitJoinOn(ws, ' ');
  }

  /** A line piece with a trailing carriage return removed. */
  function StripCR(p: string): string
  {
    if |p| > 0 && p[|p| - 1] == '\r' then p[..|p| - 1] else p
  }

  /** `input.lines()`: the pieces between line feeds. A piece that a line feed
      ends loses one trailing carriage return; the last piece is kept only when
      it is not empty, so a final line feed adds no empty line. */
  function Lines(input: string): (r: seq<string>)
    ensures forall k :: 0 <= k < |r| ==> '\n' !in r[k]
  {
    var pieces := SplitOn(input, '\n');
    var n := |pieces| - 1;
    var ended := seq(n, i requires 0 <= i < n => StripCR(pieces[i]));
    if pieces[n] == "" then ended else ended + [pieces[n]]
  }

  /** A transcript in which every line is followed by a line feed. */
  function Terminated(lines: seq<string>): string
  {
    if lines == [] then "" else lines[0] + "\n" + Terminated(lines[1..])
  }

  lemma {:induction false} TerminatedIsJoin(lines: seq<string>)
    ensures Terminated(lines) == JoinOn(lines + [""], '\n')
    decreases |lines|
  {
    if lines != [] {
      TerminatedIsJoin(lines[1..]);
      assert (lines + [""])[1..] == lines[1..] + [""];
    }
  }

  /** Reading lines back from a transcript whose lines hold no line feed and do
      not end in a carriage return gives exactly those lines, whatever they are,
      empty lines included. */
  lemma LinesOfTerminated(lines: seq<string>)
    requires forall k :: 0 <= k < |lines| ==> '\n' !in lines[k]
    requires forall k :: 0 <= k < |lines| ==> StripCR(lines[k]) == lines[k]
    ensures Lines(Terminated(lines)) == lines
  {
    TerminatedIsJoin(lines);
    NoLineFeedWithEmpty(lines);
    SplitJoinOn(lines + [""], '\n');
    LinesOfPieces(Terminated(lines), lines);
  }

  lemma NoLineFeedWithEmpty(lines: seq<string>)
    requires forall k :: 0 <= k < |lines| ==> '\n' !in lines[k]
    ensures forall k :: 0 <= k < |lines + [""]| ==> '\n' !in (lines + [""])[k]
  {
    forall k | 0 <= k < |lines + [""]| ensures '\n' !in (lines + [""])[k] {
      if k < |lines| { assert (lines + [""])[k] == lines[k]; }
    }
  }

  lemma LinesOfPieces(input: string, lines: seq<string>)
    requires SplitOn(input, '\n') == lines + [""]
    requires forall k :: 0 <= k < |lines| ==> StripCR(lines[k]) == lines[k]
    ensures Lines(input) == lines
  {
    var pieces := SplitOn(input, '\n');
    var n := |lines|;
    var ended := seq(n, i requires 0 <= i < n => StripCR(pieces[i]));
    forall i | 0 <= i < n ensures ended[i] == lines[i] {
      assert pieces[i] == lines[i];
    }
    assert ended == lines;
  }

  predicate IsDigit(c: char)
  {
    '0' <= c <= '9'
  }

  predicate AllDigits(s: string)
  {
    forall k :: 0 <= k < |s| ==> IsDigit(s[k])
  }

  /** The value of a string of decimal digits, most significant first. */
  function DigitsValue(s: string): nat
    requires AllDigits(s)
  {
    if s == [] then 0
    else DigitsValue(s[..|s| - 1]) * 10 + (s[|s| - 1] as int - '0' as int)
  }

  /** `z` zero digits. */
  function Zeros(z: nat): string
  {
    seq(z, _ => '0')
  }

  /** `s.parse::<u64>()`: exactly the non-empty strings of decimal digits whose
      value fits in 64 bits are numbers, leading zeros allowed. With no
      leading zero the string is exactly the decimal form of the number read
      (`ParseU64Form` gives the general shape). */
  function ParseU64(s: string): (r: Option<U64>)
    ensures r.Some? <==> s != [] && AllDigits(s) && DigitsValue(s) <= U64_MAX
    ensures r.Some? ==> s != [] && AllDigits(s)
    ensures r.Some? && (s[0] != '0' || |s| == 1) ==> NatToString(r.value) == s
  {
    if s != [] && AllDigits(s) && DigitsValue(s) <= U64_MAX then
      DigitsForm(s);
      Some(DigitsValue(s))
    else None
  }

  /** Leading zeros do not change the value of a string of digits. */
  lemma {:induction false} LeadingZeros(z: nat, t: string)
    requires AllDigits(t)
    ensures AllDigits(Zeros(z) + t) && DigitsValue(Zeros(z) + t) == DigitsValue(t)
    decreases |t|
  {
    var s := Zeros(z) + t;
    assert AllDigits(s) by {
      forall k | 0 <= k < |s| ensures IsDigit(s[k]) {
        if k >= z { assert s[k] == t[k - z]; }
      }
    }
    if t == [] {
      assert s == Zeros(z);
      ZerosValue(z);
    } else {
      var n := |t| - 1;
      LeadingZeros(z, t[..n]);
      assert s[..|s| - 1] == Zeros(z) + t[..n];
      assert s[|s| - 1] == t[n];
    }
  }

  lemma {:induction false} ZerosValue(z: nat)
    ensures AllDigits(Zeros(z)) && DigitsValue(Zeros(z)) == 0
  {
    if z > 0 {
      ZerosValue(z - 1);
      assert Zeros(z)[..z - 1] == Zeros(z - 1);
    }
  }

  /** Every non-empty string of digits is some zeros followed by the decimal
      form of its value. */
  lemma {:induction false} DigitsForm(s: string)
    requires s != [] && AllDigits(s)
    ensures |NatToString(DigitsValue(s))| <= |s|
    ensures s == Zeros(|s| - |NatToString(DigitsValue(s))|) + NatToString(DigitsValue(s))
    decreases |s|
  {
    if s[0] != '0' || |s| == 1 {
      NatToStringOfDigits(s);
      assert Zeros(0) + s == s;
    } else {
      var t := s[1..];
      assert s == Zeros(1) + t;
      LeadingZeros(1, t);
      DigitsForm(t);
      var d := NatToString(DigitsValue(t));
      assert Zeros(1) + Zeros(|t| - |d|) == Zeros(|s| - |d|);
    }
  }

  /** A number read is written as zeros followed by its decimal form. */
  lemma ParseU64Form(s: string)
    requires ParseU64(s).Some?
    ensures |NatToString(ParseU64(s).value)| <= |s|
    ensures s == Zeros(|s| - |NatToString(ParseU64(s).value)|) + NatToString(ParseU64(s).value)
  {
    DigitsForm(s);
  }

  /** Any number of leading zeros in front of a 64-bit number's decimal form
      still reads as that number. */
  lemma ParseZeroPadded(z: nat, n: nat)
    requires n <= U64_MAX
    ensures ParseU64(Zeros(z) + NatToString(n)) == Some(n)
  {
    DigitsOfNat(n);
    LeadingZeros(z, NatToString(n));
  }

  /** Reading digits without leading zeros, then writing the value out again,
      gives the digits back. */
  lemma {:induction false} NatToStringOfDigits(s: string)
    requires s != [] && AllDigits(s) && (s[0] != '0' || |s| == 1)
    ensures NatToString(DigitsValue(s)) == s
    decreases |s|
  {
    var n := |s| - 1;
    if n > 0 {
      var front := s[..n];
      assert front[0] == s[0];
      NatToStringOfDigits(front);
      DigitsValuePositive(front);
      var v := DigitsValue(s);
      assert v / 10 == DigitsValue(front) && v % 10 == s[n] as int - '0' as int;
      assert s == front + [s[n]];
    }
  }

  /** Digits that start with a non-zero digit have a positive value. */
  lemma {:induction false} DigitsValuePositive(s: string)
    requires s != [] && AllDigits(s) && s[0] != '0'
    ensures DigitsValue(s) >= 1
    decreases |s|
  {
    var n := |s| - 1;
    if n > 0 {
      assert s[..n][0] == s[0];
      DigitsValuePositive(s[..n]);
    }
  }

  /** The decimal form of a natural number, without leading zeros. */
  function NatToString(n: nat): (r: string)
    ensures |r| >= 1 && AllDigits(r)
  {
    var d := [('0' as int + n % 10) as char];
    if n < 10 then d else NatToString(n / 10) + d
  }

  /** Every number that fits in 64 bits reads back from its decimal form. */
  lemma {:induction false} ParseNatToString(n: nat)
    requires n <= U64_MAX
    ensures ParseU64(NatToString(n)) == Some(n)
  {
    DigitsOfNat(n);
  }

  lemma {:induction false} DigitsOfNat(n: nat)
    ensures DigitsValue(NatToString(n)) == n
  {
    var s := NatToString(n);
    if n >= 10 {
      var front := NatToString(n / 10);
      DigitsOfNat(n / 10);
      assert s[..|s| - 1] == front;
    }
  }

  /** A token that is empty, or holds a character other than a decimal digit,
      is not a number. */
  lemma NotANumber(s: string, k: nat)
    requires s == [] || (k < |s| && !IsDigit(s[k]))
    ensures ParseU64(s) == None
  {
  }
}
