/** Python-level values the reservation agent passes around: optional values,
    results whose error side is a raised exception, configuration values with
    Python truthiness, and the whitespace stripping `str.strip()` performs. */
module Base {

  datatype Option<+T> = None | Some(value: T)

  datatype Result<+T, +E> = Success(value: T) | Failure(error: E)

  /** A raised Python exception: its class name and its single string argument. */
  datatype Exception = Exception(name: string, message: string)

  /** The quote `repr` puts around a string: a double quote when the string
      holds a single quote and no double quote, a single quote otherwise. */
  function QuoteFor(s: string): (q: char)
    ensures q == '"' || q == '\''
    ensures q == '"' <==> '\'' in s && '"' !in s
    ensures q in s ==> '\'' in s && '"' in s
  {
    if '\'' in s && '"' !in s then '"' else '\''
  }

  /** How `repr` writes one character between the quotes `quote`: a backslash
      and the three usual control characters are escaped, and so is the quote
      itself. */
  function EscapeChar(c: char, quote: char): string
  {
    if c == '\\' then "\\\\"
    else if c == '\n' then "\\n"
    else if c == '\r' then "\\r"
    else if c == '\t' then "\\t"
    else if c == quote then ['\\', c]
    else [c]
  }

  function Escaped(s: string, quote: char): string
  {
    if s == [] then [] else EscapeChar(s[0], quote) + Escaped(s[1..], quote)
  }

  /** `repr(s)` of a string. */
  function StrRepr(s: string): string
  {
    var q := QuoteFor(s);
    [q] + Escaped(s, q) + [q]
  }

  /** `repr(e)` of an exception raised with one string argument, e.g.
      `ValueError('No phone number configured.')`. */
  function Repr(e: Exception): string
  {
    e.name + "(" + StrRepr(e.message) + ")"
  }

  /** Reads the escapes of a string body back. */
  function Unescaped(t: string): string
    decreases |t|
  {
    if t == [] then []
    else if t[0] == '\\' && |t| >= 2 then
      [if t[1] == 'n' then '\n' else if t[1] == 'r' then '\r' else if t[1] == 't' then '\t' else t[1]]
      + Unescaped(t[2..])
    else [t[0]] + Unescaped(t[1..])
  }

  lemma UnescapeOne(c: char, quote: char, rest: string)
    requires quote == '"' || quote == '\''
    ensures Unescaped(EscapeChar(c, quote) + rest) == [c] + Unescaped(rest)
  {
    var e := EscapeChar(c, quote);
    if |e| == 2 {
      assert (e + rest)[2..] == rest;
    } else {
      assert (e + rest)[1..] == rest;
    }
  }

  /** The body of a repr reads back as the string itself, whichever quote
      encloses it. */
  lemma {:induction false} UnescapeEscaped(s: string, quote: char)
    requires quote == '"' || quote == '\''
    ensures Unescaped(Escaped(s, quote)) == s
  {
    if s != [] {
      UnescapeEscaped(s[1..], quote);
      UnescapeOne(s[0], quote, Escaped(s[1..], quote));
    }
  }

  /** `repr(s)` is a quoted literal that reads back as `s`: it opens and
      closes with the quote `QuoteFor` chooses, and its body unescapes to
      `s`. */
  lemma StrReprReadsBack(s: string)
    ensures var t := StrRepr(s);
      && |t| >= 2 && t[0] == QuoteFor(s) && t[|t| - 1] == QuoteFor(s)
      && Unescaped(t[1..|t| - 1]) == s
  {
    var q := QuoteFor(s);
    var t := StrRepr(s);
    assert t[1..|t| - 1] == Escaped(s, q);
    UnescapeEscaped(s, q);
  }

  /** A character `repr` writes as itself between the quotes `quote`. */
  predicate Plain(c: char, quote: char)
  {
    c != '\\' && c != '\n' && c != '\r' && c != '\t' && c != quote
  }

  lemma {:induction false} EscapedPlain(s: string, quote: char)
    requires forall i :: 0 <= i < |s| ==> Plain(s[i], quote)
    ensures Escaped(s, quote) == s
  {
    if s != [] {
      EscapedPlain(s[1..], quote);
    }
  }

  /** A message without backslashes, newlines, carriage returns or tabs is written between
      single quotes unless it holds a single quote and no double quote, and
      then between double quotes; it is written unchanged either way. */
  lemma ReprOfPlainMessage(e: Exception)
    requires forall i :: 0 <= i < |e.message| ==> e.message[i] !in {'\\', '\n', '\r', '\t'}
    requires '\'' !in e.message || '"' !in e.message
    ensures '\'' !in e.message ==> Repr(e) == e.name + "('" + e.message + "')"
    ensures '\'' in e.message ==> Repr(e) == e.name + "(\"" + e.message + "\")"
  {
    var q := QuoteFor(e.message);
    if '\'' in e.message {
      forall i | 0 <= i < |e.message| ensures Plain(e.message[i], '"') {
        assert e.message[i] in e.message;
      }
      EscapedPlain(e.message, '"');
    } else {
      forall i | 0 <= i < |e.message| ensures Plain(e.message[i], '\'') {
        assert e.message[i] in e.message;
      }
      EscapedPlain(e.message, '\'');
    }
  }

  /** What a node or a graph run can fail with: an exception the source raises,
      or the step budget of the model running out (the source has no bound). */
  datatype Fault = Raise(exception: Exception) | NoFuel

  /** A configuration entry: Python `None` or a string. */
  datatype PyValue = PyNone | PyStr(s: string)

  /** Python truthiness of a configuration entry: `None` and `""` are falsy. */
  predicate Truthy(v: PyValue)
  {
    v.PyStr? && v.s != ""
  }

  /** The characters for which Python's `str.isspace()` holds, i.e. those that
      `str.strip()` without arguments removes. */
  predicate IsSpace(c: char)
  {
    || c == ' '
    || ('\t' <= c <= '\r')
    || ('\U{1c}' <= c <= '\U{1f}')
    || c == '\U{85}'
    || c == '\U{a0}'
    || c == '\U{1680}'
    || ('\U{2000}' <= c <= '\U{200a}')
    || c == '\U{2028}'
    || c == '\U{2029}'
    || c == '\U{202f}'
    || c == '\U{205f}'
    || c == '\U{3000}'
  }

  predicate AllSpace(w: string)
  {
    forall i :: 0 <= i < |w| ==> IsSpace(w[i])
  }

  /** Drops leading whitespace: the result is a suffix of `s`, what was dropped
      is all whitespace, and the result does not start with whitespace. */
  function StripLeft(s: string): (r: string)
    ensures |r| <= |s| && r == s[|s| - |r|..]
    ensures AllSpace(s[..|s| - |r|])
    ensures r != [] ==> !IsSpace(r[0])
  {
    if s != [] && IsSpace(s[0]) then StripLeft(s[1..]) else s
  }

  /** Drops trailing whitespace: the result is a prefix of `s`, what was dropped
      is all whitespace, and the result does not end with whitespace. */
  function StripRight(s: string): (r: string)
    ensures |r| <= |s| && r == s[..|r|]
    ensures AllSpace(s[|r|..])
    ensures r != [] ==> !IsSpace(r[|r| - 1])
  {
    if s != [] && IsSpace(s[|s| - 1]) then
      var r := StripRight(s[..|s| - 1]);
      assert s[|r|..] == s[..|s| - 1][|r|..] + [s[|s| - 1]];
      r
    else s
  }

  /** Python's `s.strip()`. */
  function Strip(s: string): string
  {
    StripRight(StripLeft(s))
  }

  /** Stripping the left of a string whose first non-space character is at `i`
      removes exactly `i` characters. */
  lemma {:induction false} StripLeftAt(s: string, i: nat)
    requires i < |s| && !IsSpace(s[i]) && AllSpace(s[..i])
    ensures StripLeft(s) == s[i..]
  {
    if i > 0 {
      assert s[..i][0] == s[0];
      assert s[1..][..i - 1] == s[1..i];
      assert forall j :: 0 <= j < i - 1 ==> s[1..i][j] == s[..i][j + 1];
      StripLeftAt(s[1..], i - 1);
      assert s[1..][i - 1..] == s[i..];
    }
  }

  /** Stripping the right of a string whose only non-space character is its
      first leaves that character alone. */
  lemma {:induction false} StripRightFirst(l: string)
    requires l != [] && !IsSpace(l[0]) && AllSpace(l[1..])
    ensures StripRight(l) == l[..1]
  {
    if |l| > 1 {
      assert l[1..][|l| - 2] == l[|l| - 1];
      var l' := l[..|l| - 1];
      assert forall j :: 0 <= j < |l'| - 1 ==> l'[1..][j] == l[1..][j];
      StripRightFirst(l');
      assert l'[..1] == l[..1];
    }
  }

  /** A `y` surrounded by whitespace strips to `"y"`. */
  lemma StripToY(s: string, i: nat)
    requires i < |s| && s[i] == 'y' && AllSpace(s[..i]) && AllSpace(s[i + 1..])
    ensures Strip(s) == "y"
  {
    StripLeftAt(s, i);
    var l := StripLeft(s);
    assert l[1..] == s[i + 1..];
    StripRightFirst(l);
  }

  /** Whatever strips to `"y"` is a `y` surrounded by whitespace. */
  lemma StrippedToY(s: string) returns (i: nat)
    requires Strip(s) == "y"
    ensures i < |s| && s[i] == 'y' && AllSpace(s[..i]) && AllSpace(s[i + 1..])
  {
    var l := StripLeft(s);
    i := |s| - |l|;
    var r := StripRight(l);
    assert l[0] == 'y';
    assert l[1..] == l[|r|..];
    assert s[i + 1..] == l[1..];
  }

  /** `s.strip() == "y"` holds exactly when `s` is a single `y` surrounded by
      whitespace only. */
  lemma StripIsY(s: string)
    ensures Strip(s) == "y" <==>
      exists i :: 0 <= i < |s| && s[i] == 'y' && AllSpace(s[..i]) && AllSpace(s[i + 1..])
  {
    if Strip(s) == "y" {
      var i := StrippedToY(s);
    }
    if i :| 0 <= i < |s| && s[i] == 'y' && AllSpace(s[..i]) && AllSpace(s[i + 1..]) {
      StripToY(s, i);
    }
  }

  predicate Occurs(s: string, part: string, i: int)
    requires 0 <= i <= |s| - |part|
  {
    s[i..i + |part|] == part
  }

  /** `part` occurs somewhere in `s`. */
  predicate Contains(s: string, part: string)
  {
    exists i :: 0 <= i <= |s| - |part| && Occurs(s, part, i)
  }
}
