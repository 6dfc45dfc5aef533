/** Escaping of artist and title strings. Change detection compares escaped
    strings, so escaping must never identify two different ones. */
module Escaping {

  const BELL := '\U{7}'
  const BACKSPACE := '\U{8}'
  const VTAB := '\U{B}'
  const FORMFEED := '\U{C}'

  const CONTROLS: set<char> := {'\n', '\r', '\t', VTAB, BACKSPACE, FORMFEED, BELL}

  /** What one character becomes. */
  function EscapeChar(c: char): string {
    if c == '\n' then "\\n"
    else if c == '\r' then "\\r"
    else if c == '\t' then "\\t"
    else if c == '\\' then "\\\\"
    else if c == VTAB then "\\v"
    else if c == BACKSPACE then "\\b"
    else if c == FORMFEED then "\\f"
    else if c == BELL then "\\a"
    else [c]
  }

  function EscapeText(s: string): string {
    if s == [] then [] else EscapeChar(s[0]) + EscapeText(s[1..])
  }

  method Escape(s: string) returns (result: string)
    ensures result == EscapeText(s)
  {
    result := [];
    for i := 0 to |s|
      invariant result == EscapeText(s[..i])
    {
      EscapePrefix(s, i);
      var c := s[i];
      if c == '\n' {
        result := result + ['\\', 'n'];
      } else if c == '\r' {
        result := result + ['\\', 'r'];
      } else if c == '\t' {
        result := result + ['\\', 't'];
      } else if c == '\\' {
        result := result + ['\\', '\\'];
      } else if c == VTAB {
        result := result + ['\\', 'v'];
      } else if c == BACKSPACE {
        result := result + ['\\', 'b'];
      } else if c == FORMFEED {
        result := result + ['\\', 'f'];
      } else if c == BELL {
        result := result + ['\\', 'a'];
      } else {
        result := result + [c];
      }
    }
    assert s[..|s|] == s;
  }

  lemma EscapePrefix(s: string, i: nat)
    requires i < |s|
    ensures EscapeText(s[..i + 1]) == EscapeText(s[..i]) + EscapeChar(s[i])
  {
    assert s[..i + 1] == s[..i] + [s[i]];
    assert [s[i]][1..] == [];
    EscapeConcat(s[..i], [s[i]]);
  }

  /** The decoder: reads an escaped string back. */
  function Unescape(t: string): string {
    if t == [] then []
    else if t[0] == '\\' && |t| >= 2 then [Decoded(t[1])] + Unescape(t[2..])
    else [t[0]] + Unescape(t[1..])
  }

  function Decoded(c: char): char {
    match c
    case 'n' => '\n'
    case 'r' => '\r'
    case 't' => '\t'
    case 'v' => VTAB
    case 'b' => BACKSPACE
    case 'f' => FORMFEED
    case 'a' => BELL
    case _ => c
  }

  lemma {:induction false} UnescapeEscape(s: string)
    ensures Unescape(EscapeText(s)) == s
  {
    if s != [] {
      var e, rest := EscapeChar(s[0]), EscapeText(s[1..]);
      UnescapeEscape(s[1..]);
      if |e| == 2 {
        assert (e + rest)[2..] == rest;
      } else {
        assert (e + rest)[1..] == rest;
      }
    }
  }

  /** Comparing escaped strings detects exactly the changes of the raw ones. */
  lemma EscapeIsInjective(s: string, t: string)
    ensures EscapeText(s) == EscapeText(t) <==> s == t
  {
    UnescapeEscape(s);
    UnescapeEscape(t);
  }

  lemma {:induction false} EscapeConcat(s: string, t: string)
    ensures EscapeText(s + t) == EscapeText(s) + EscapeText(t)
  {
    if s == [] {
      assert s + t == t;
    } else {
      assert (s + t)[1..] == s[1..] + t;
      EscapeConcat(s[1..], t);
    }
  }

  /** No control character survives, and a string at most doubles. */
  lemma {:induction false} EscapedShape(s: string)
    ensures forall c | c in EscapeText(s) :: c !in CONTROLS
    ensures |s| <= |EscapeText(s)| <= 2 * |s|
    ensures EscapeText(s) == s <==> forall c | c in s :: c !in CONTROLS && c != '\\'
  {
    if s != [] {
      EscapedShape(s[1..]);
      EscapedChar(s[0]);
      PlainStep(s);
    }
  }

  /** The escapes of the eight characters that have one. */
  lemma EscapeTable(c: char)
    requires c in CONTROLS || c == '\\'
    ensures EscapeText([c]) == ['\\', Letter(c)]
  {
    assert [c][1..] == [];
  }

  function Letter(c: char): char {
    match c
    case '\U{7}' => 'a'
    case '\U{8}' => 'b'
    case '\U{9}' => 't'
    case '\U{A}' => 'n'
    case '\U{B}' => 'v'
    case '\U{C}' => 'f'
    case '\U{D}' => 'r'
    case _ => c
  }

  lemma EscapedChar(c: char)
    ensures forall d | d in EscapeChar(c) :: d !in CONTROLS
    ensures 1 <= |EscapeChar(c)| <= 2
    ensures EscapeChar(c) == [c] <==> c !in CONTROLS && c != '\\'
    ensures EscapeChar(c) != [c] ==> |EscapeChar(c)| == 2
  {
  }

  /** A text stays as it is when its first character and its rest do. */
  lemma PlainStep(s: string)
    requires s != [] && |s[1..]| <= |EscapeText(s[1..])|
    ensures EscapeText(s) == s <==> EscapeChar(s[0]) == [s[0]] && EscapeText(s[1..]) == s[1..]
  {
    EscapedChar(s[0]);
    assert s == [s[0]] + s[1..];
    if EscapeChar(s[0]) == [s[0]] {
      assert EscapeText(s)[1..] == EscapeText(s[1..]);
    } else {
      assert |EscapeText(s)| == 2 + |EscapeText(s[1..])|;
    }
  }
}
