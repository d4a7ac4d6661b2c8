/**
 * The simple alert is shown by running an AppleScript `display alert`
 * command built from the notification's title and body. The `escaped`
 * closure of `showSimpleAlert` doubles backslashes and then escapes double
 * quotes, so that each text becomes the contents of a string literal.
 */
module AppleScript {
  import opened Common
  import opened Text

  /** Seconds before the alert gives up (`kAlertTimeout`), as the script
      spells it. */
  const AlertTimeout: string := "10"

  /** `replacingOccurrences(of: c, with: replacement)` for a one-character pattern. */
  function ReplaceChar(s: string, c: char, replacement: string): string
  {
    if s == [] then [] else (if s[0] == c then replacement else [s[0]]) + ReplaceChar(s[1..], c, replacement)
  }

  lemma {:induction false} ReplaceCharAppend(a: string, b: string, c: char, replacement: string)
    ensures ReplaceChar(a + b, c, replacement) == ReplaceChar(a, c, replacement) + ReplaceChar(b, c, replacement)
    decreases |a|
  {
    if a != [] {
      assert (a + b)[1..] == a[1..] + b;
      ReplaceCharAppend(a[1..], b, c, replacement);
    } else {
      assert a + b == b;
    }
  }

  /** The `escaped` closure: backslashes first, then double quotes. */
  function Escaped(s: string): string
  {
    ReplaceChar(ReplaceChar(s, '\\', "\\\\"), '"', "\\\"")
  }

  /** How one character comes out of `Escaped`. */
  function EscapedChar(c: char): string
  {
    if c == '\\' then "\\\\" else if c == '"' then "\\\"" else [c]
  }

  /** The two passes do not interfere: escaping works character by character. */
  lemma EscapedCons(c: char, s: string)
    ensures Escaped([c] + s) == EscapedChar(c) + Escaped(s)
  {
    var once := ReplaceChar([c] + s, '\\', "\\\\");
    assert ([c] + s)[1..] == s;
    var head := if c == '\\' then "\\\\" else [c];
    assert once == head + ReplaceChar(s, '\\', "\\\\");
    ReplaceCharAppend(head, ReplaceChar(s, '\\', "\\\\"), '"', "\\\"");
    if c == '\\' {
      assert ReplaceChar(head, '"', "\\\"") == "\\\\";
    } else {
      assert ReplaceChar(head, '"', "\\\"") == EscapedChar(c) by {
        assert head[1..] == [];
      }
    }
  }

  /** The meaning of the character after a backslash in an AppleScript
      string literal. */
  function Unescape(c: char): char
  {
    if c == 'n' then '\n' else if c == 't' then '\t' else if c == 'r' then '\r' else c
  }

  /** Reads the contents of a string literal whose opening quote has been
      consumed: the text it denotes and what follows its closing quote, or
      None when the literal is not closed. */
  function ReadLiteral(t: string): Option<(string, string)>
    decreases |t|
  {
    if t == [] then None
    else if t[0] == '"' then Some(([], t[1..]))
    else if t[0] == '\\' then
      if |t| < 2 then None
      else match ReadLiteral(t[2..])
        case None => None
        case Some(r) => Some(([Unescape(t[1])] + r.0, r.1))
    else match ReadLiteral(t[1..])
      case None => None
      case Some(r) => Some(([t[0]] + r.0, r.1))
  }

  /** Reading back an escaped text as a string literal gives the text, and
      the literal ends exactly where the escaped text does: no title or body
      can close the literal early. */
  lemma {:induction false} ReadEscaped(s: string, rest: string)
    ensures ReadLiteral(Escaped(s) + "\"" + rest) == Some((s, rest))
    decreases |s|
  {
    if s == [] {
      assert Escaped(s) == [];
      assert Escaped(s) + "\"" + rest == "\"" + rest;
    } else {
      var c, s' := s[0], s[1..];
      assert s == [c] + s';
      EscapedCons(c, s');
      ReadEscaped(s', rest);
      var tail := Escaped(s') + "\"" + rest;
      var t := Escaped(s) + "\"" + rest;
      assert t == EscapedChar(c) + tail;
      if c == '\\' || c == '"' {
        assert t[0] == '\\' && t[1] == c && t[2..] == tail;
      } else {
        assert t[0] == c && t[1..] == tail;
      }
    }
  }

  const AlertHead: string := "display alert \""
  const MessageHead: string := " message \""
  const GiveUp: string := " giving up after " + AlertTimeout

  /** The script `showSimpleAlert` hands to osascript. */
  function AlertScript(title: string, body: string): string
  {
    AlertHead + Escaped(title) + "\"" + MessageHead + Escaped(body) + "\"" + GiveUp
  }

  /** Two escaped literals between fixed text read back as the texts
      they were made from. */
  lemma TwoLiterals(head: string, title: string, middle: string, body: string, tail: string)
    ensures var script := head + Escaped(title) + "\"" + middle + Escaped(body) + "\"" + tail;
      && StartsWith(script, head)
      && var first := ReadLiteral(script[|head|..]);
      && first.Some? && first.value.0 == title
      && StartsWith(first.value.1, middle)
      && ReadLiteral(first.value.1[|middle|..]) == Some((body, tail))
  {
    var script := head + Escaped(title) + "\"" + middle + Escaped(body) + "\"" + tail;
    var afterBody := Escaped(body) + "\"" + tail;
    var afterTitle := middle + afterBody;
    var literal := Escaped(title) + "\"" + afterTitle;
    assert script == head + literal;
    assert script[..|head|] == head;
    assert script[|head|..] == literal;
    ReadEscaped(title, afterTitle);
    assert afterTitle[..|middle|] == middle;
    assert afterTitle[|middle|..] == afterBody;
    ReadEscaped(body, tail);
  }

  /** The script's two literals denote exactly the title and the body, and
      nothing of either leaks into the command around them. */
  lemma AlertScriptFields(title: string, body: string)
    ensures var script := AlertScript(title, body);
      && StartsWith(script, AlertHead)
      && var first := ReadLiteral(script[|AlertHead|..]);
      && first.Some? && first.value.0 == title
      && StartsWith(first.value.1, MessageHead)
      && ReadLiteral(first.value.1[|MessageHead|..]) == Some((body, GiveUp))
  {
    TwoLiterals(AlertHead, title, MessageHead, body, GiveUp);
  }
}
