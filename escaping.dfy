/**
  The quoting of text values spliced into the SQL of `record_decision`:
  `s.replace("'", "''")` on the way in, and the reading of a `'...'` string
  literal (a doubled quote stands for one quote) on the warehouse side.
 */
module Escaping {

  const Quote: char := '\''

  /** The number of single quotes in `s`. */
  function Quotes(s: string): nat {
    if s == [] then 0 else (if s[0] == Quote then 1 else 0) + Quotes(s[1..])
  }

  /** `s.replace("'", "''")`. */
  function Escape(s: string): (r: string)
    ensures |r| == |s| + Quotes(s)
    ensures Quotes(s) == 0 ==> r == s
  {
    if s == [] then []
    else (if s[0] == Quote then [Quote, Quote] else [s[0]]) + Escape(s[1..])
  }

  /**
    The text a string literal with body `t` denotes: read left to right, a
    doubled quote stands for one quote.
   */
  function Unescape(t: string): (r: string)
    ensures |r| <= |t|
  {
    if t == [] then []
    else if |t| >= 2 && t[0] == Quote && t[1] == Quote then [Quote] + Unescape(t[2..])
    else [t[0]] + Unescape(t[1..])
  }

  /**
    `t` can stand between the quotes of a literal without closing it early:
    every quote in it is part of a doubled pair.
   */
  predicate Paired(t: string) {
    if t == [] then true
    else if t[0] == Quote then |t| >= 2 && t[1] == Quote && Paired(t[2..])
    else Paired(t[1..])
  }

  /** The warehouse stores exactly the text that was escaped. */
  lemma {:induction false} UnescapeEscape(s: string)
    ensures Unescape(Escape(s)) == s
  {
    if s != [] {
      var rest := Escape(s[1..]);
      UnescapeEscape(s[1..]);
      if s[0] == Quote {
        assert Escape(s) == [Quote, Quote] + rest;
        assert Escape(s)[2..] == rest;
      } else {
        assert Escape(s) == [s[0]] + rest;
        assert Escape(s)[1..] == rest;
      }
      assert s == [s[0]] + s[1..];
    }
  }

  /** Escaped text never ends the literal it is placed in. */
  lemma {:induction false} EscapePaired(s: string)
    ensures Paired(Escape(s))
  {
    if s != [] {
      EscapePaired(s[1..]);
      var rest := Escape(s[1..]);
      if s[0] == Quote {
        assert Escape(s) == [Quote, Quote] + rest;
        assert Escape(s)[2..] == rest;
      } else {
        assert Escape(s) == [s[0]] + rest;
        assert Escape(s)[1..] == rest;
      }
    }
  }

  /** Every well-formed literal body is the escaping of the text it denotes. */
  lemma {:induction false} EscapeUnescape(t: string)
    requires Paired(t)
    ensures Escape(Unescape(t)) == t
  {
    if t != [] {
      if t[0] == Quote {
        EscapeUnescape(t[2..]);
        assert t == [Quote, Quote] + t[2..];
        assert Unescape(t) == [Quote] + Unescape(t[2..]);
        assert ([Quote] + Unescape(t[2..]))[1..] == Unescape(t[2..]);
      } else {
        EscapeUnescape(t[1..]);
        assert t == [t[0]] + t[1..];
        assert Unescape(t) == [t[0]] + Unescape(t[1..]);
        assert ([t[0]] + Unescape(t[1..]))[1..] == Unescape(t[1..]);
      }
    }
  }

  /** Escaping doubles every quote. */
  lemma {:induction false} EscapeDoublesQuotes(s: string)
    ensures Quotes(Escape(s)) == 2 * Quotes(s)
  {
    if s != [] {
      EscapeDoublesQuotes(s[1..]);
      var rest := Escape(s[1..]);
      if s[0] == Quote {
        assert Escape(s) == [Quote, Quote] + rest;
        assert Escape(s)[1..] == [Quote] + rest;
        assert Escape(s)[1..][1..] == rest;
      } else {
        assert Escape(s) == [s[0]] + rest;
        assert Escape(s)[1..] == rest;
      }
    }
  }
}
