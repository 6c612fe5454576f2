/**
 * How a shell reads a word that began with $': section 2.2.4 (Dollar-Single-Quotes) of POSIX.1-2024
 * XCU. What the section leaves unspecified is None here.
 */
module DollarQuotes {
  import opened Wrappers

  datatype Escaped = Escaped(c: char, used: nat)

  /** What the characters after a backslash stand for, and how many of them do. */
  function Escape(s: string): (r: Option<Escaped>)
    ensures r.Some? ==> 1 <= r.value.used <= |s|
  {
    if s == "" then None
    else
      match s[0]
      case '\"' => Some(Escaped('\"', 1))
      case '\'' => Some(Escaped('\'', 1))
      case '\\' => Some(Escaped('\\', 1))
      case 'a' => Some(Escaped(7 as char, 1))
      case 'b' => Some(Escaped(8 as char, 1))
      case 'e' => Some(Escaped(27 as char, 1))
      case 'f' => Some(Escaped(12 as char, 1))
      case 'n' => Some(Escaped(10 as char, 1))
      case 'r' => Some(Escaped(13 as char, 1))
      case 't' => Some(Escaped(9 as char, 1))
      case 'v' => Some(Escaped(11 as char, 1))
      case 'c' => Control(s)
      case 'x' => Hexadecimal(s)
      case _ => Octal(s)
  }

  /** Control characters; the backslash among them is itself escaped. */
  function Control(s: string): (r: Option<Escaped>)
    ensures r.Some? ==> 1 <= r.value.used <= |s|
  {
    if |s| < 2 then None
    else if s[1] == '\\' then if |s| >= 3 && s[2] == '\\' then Some(Escaped(28 as char, 3)) else None
    else if 'a' <= s[1] <= 'z' then Some(Escaped((s[1] as int - 'a' as int + 1) as char, 2))
    else if 'A' <= s[1] <= '_' then Some(Escaped((s[1] as int - 'A' as int + 1) as char, 2))
    else if s[1] == '?' then Some(Escaped(127 as char, 2))
    else None
  }

  function DigitOf(c: char): Option<nat> {
    if '0' <= c <= '9' then Some(c as int - '0' as int)
    else if 'a' <= c <= 'f' then Some(c as int - 'a' as int + 10)
    else if 'A' <= c <= 'F' then Some(c as int - 'A' as int + 10)
    else None
  }

  /** A digit below the base at position i. */
  predicate DigitAt(s: string, i: nat, base: nat) {
    i < |s| && DigitOf(s[i]).Some? && DigitOf(s[i]).value < base
  }

  /** A byte other than zero. */
  function ByteOf(value: nat, used: nat): Option<Escaped> {
    if 0 < value < 256 then Some(Escaped(value as char, used)) else None
  }

  /** One or two hexadecimal digits; more are unspecified. */
  function Hexadecimal(s: string): (r: Option<Escaped>)
    ensures r.Some? ==> 1 <= r.value.used <= |s|
  {
    if !DigitAt(s, 1, 16) || (DigitAt(s, 2, 16) && DigitAt(s, 3, 16)) then None
    else if DigitAt(s, 2, 16) then ByteOf(16 * DigitOf(s[1]).value + DigitOf(s[2]).value, 3)
    else ByteOf(DigitOf(s[1]).value, 2)
  }

  /** One to three octal digits. */
  function Octal(s: string): (r: Option<Escaped>)
    ensures r.Some? ==> 1 <= r.value.used <= |s|
  {
    if !DigitAt(s, 0, 8) then None
    else
      var a := DigitOf(s[0]).value;
      if !DigitAt(s, 1, 8) then ByteOf(a, 1)
      else
        var b := 8 * a + DigitOf(s[1]).value;
        if !DigitAt(s, 2, 8) then ByteOf(b, 2) else ByteOf(8 * b + DigitOf(s[2]).value, 3)
  }

  /** The text up to the closing quote and what follows it; or the word does not end, or is unspecified. */
  datatype Lexed = Done(text: string, rest: string) | Unterminated | Unspecified

  function Lex(s: string): Lexed
    decreases |s|
  {
    if s == "" then Unterminated
    else if s[0] == '\'' then Done("", s[1..])
    else if s[0] == '\\' then
      match Escape(s[1..])
      case None => Unspecified
      case Some(e) => Put(e.c, Lex(s[1 + e.used..]))
    else Put(s[0], Lex(s[1..]))
  }

  function Put(c: char, l: Lexed): Lexed {
    if l.Done? then Done([c] + l.text, l.rest) else l
  }

  /** Without a single quote and without a backslash. */
  ghost predicate Plain(s: string) {
    forall i :: 0 <= i < |s| ==> s[i] != '\'' && s[i] != '\\'
  }

  /** A plain text ends at the quote after it. */
  lemma {:induction false} PlainReadsBack(s: string, rest: string)
    requires Plain(s)
    ensures Lex(s + "'" + rest) == Done(s, rest)
    decreases |s|
  {
    var all := s + "'" + rest;
    if s == "" {
      assert all[1..] == rest;
    } else {
      PlainReadsBack(s[1..], rest);
      assert all[0] == s[0] && all[1..] == s[1..] + "'" + rest;
      assert s == [s[0]] + s[1..];
    }
  }

  /** A word takes at least one character for each of its text and one for the quote; an escape takes more. */
  lemma {:induction false} LexedIsNotLonger(s: string)
    requires Lex(s).Done?
    ensures |Lex(s).text| + 1 + |Lex(s).rest| <= |s|
    ensures |Lex(s).text| + 1 + |Lex(s).rest| == |s| ==> Plain(Lex(s).text)
    decreases |s|
  {
    if s[0] == '\\' {
      var used := Escape(s[1..]).value.used;
      LexedIsNotLonger(s[1 + used..]);
    } else if s[0] != '\'' {
      LexedIsNotLonger(s[1..]);
    }
  }

  /** A text that reads back as itself is plain. */
  lemma OnlyPlainReadsBack(s: string, rest: string)
    ensures Lex(s + "'" + rest) == Done(s, rest) ==> Plain(s)
  {
    if Lex(s + "'" + rest) == Done(s, rest) {
      LexedIsNotLonger(s + "'" + rest);
    }
  }
}
