/**
 * Keystroke synthesis (`sendKeystroke`, `postKeyEvents`, `postReturnKey`)
 * as the sequence of keyboard events it posts. Each ASCII character of
 * the keystroke becomes a key-down and a key-up event on virtual key 0
 * carrying that character; other characters are skipped; one Return
 * (virtual key 36) press follows.
 */
module Keystrokes {
  import opened Common

  datatype KeyEvent = KeyEvent(virtualKey: int, keyDown: bool, unicode: Option<char>)

  /** The virtual key the character events are posted on. */
  const CharacterKey: int := 0
  /** kVK_Return. */
  const ReturnKey: int := 36

  predicate IsAscii(c: char)
  {
    c <= '\U{7F}'
  }

  /** The characters of `s` that have an ASCII value, in order. */
  function AsciiOnly(s: string): string
  {
    if s == [] then []
    else AsciiOnly(s[..|s| - 1]) + (if IsAscii(s[|s| - 1]) then [s[|s| - 1]] else [])
  }

  function CharPress(c: char): seq<KeyEvent>
  {
    [KeyEvent(CharacterKey, true, Some(c)), KeyEvent(CharacterKey, false, Some(c))]
  }

  const ReturnPress: seq<KeyEvent> := [KeyEvent(ReturnKey, true, None), KeyEvent(ReturnKey, false, None)]

  /** The events `postKeyEvents` posts for `s`. */
  function CharPresses(s: string): seq<KeyEvent>
  {
    if s == [] then []
    else CharPresses(s[..|s| - 1]) + (if IsAscii(s[|s| - 1]) then CharPress(s[|s| - 1]) else [])
  }

  /** One press per ASCII character, in order: event 2i is the key-down
      and event 2i+1 the key-up of the i-th ASCII character. */
  lemma {:induction false} CharPressesLayout(s: string)
    ensures |CharPresses(s)| == 2 * |AsciiOnly(s)|
    ensures forall i :: 0 <= i < |AsciiOnly(s)| ==>
              && CharPresses(s)[2 * i] == KeyEvent(CharacterKey, true, Some(AsciiOnly(s)[i]))
              && CharPresses(s)[2 * i + 1] == KeyEvent(CharacterKey, false, Some(AsciiOnly(s)[i]))
    decreases |s|
  {
    if s != [] {
      var init := s[..|s| - 1];
      CharPressesLayout(init);
      var a, e := AsciiOnly(init), CharPresses(init);
      forall i | 0 <= i < |AsciiOnly(s)|
        ensures CharPresses(s)[2 * i] == KeyEvent(CharacterKey, true, Some(AsciiOnly(s)[i]))
        ensures CharPresses(s)[2 * i + 1] == KeyEvent(CharacterKey, false, Some(AsciiOnly(s)[i]))
      {
        if i < |a| {
          assert AsciiOnly(s)[i] == a[i];
          assert CharPresses(s)[2 * i] == e[2 * i] && CharPresses(s)[2 * i + 1] == e[2 * i + 1];
        }
      }
    }
  }

  /** `postKeyEvents(for:)`: the loop over the characters. */
  method PostKeyEvents(s: string) returns (events: seq<KeyEvent>)
    ensures events == CharPresses(s)
  {
    events := [];
    var i := 0;
    while i < |s|
      invariant 0 <= i <= |s|
      invariant events == CharPresses(s[..i])
    {
      var c := s[i];
      if IsAscii(c) {
        events := events + [KeyEvent(CharacterKey, true, Some(c)), KeyEvent(CharacterKey, false, Some(c))];
      }
      assert s[..i + 1][..i] == s[..i];
      i := i + 1;
    }
    assert s[..i] == s;
  }

  /** The outcome of `sendKeystroke`: without accessibility trust the
      process only prompts for it; with it, Terminal is activated and the
      events are posted. */
  datatype Delivery = PromptedForTrust | Delivered(events: seq<KeyEvent>)

  /** `sendKeystroke(key)` when the process trust is `trusted`. */
  function SendKeystroke(trusted: bool, key: string): (d: Delivery)
    ensures d.PromptedForTrust? <==> !trusted
    ensures d.Delivered? ==>
      && |d.events| == 2 * |AsciiOnly(key)| + 2
      && d.events[|d.events| - 2..] == ReturnPress
      && forall i :: 0 <= i < |AsciiOnly(key)| ==>
           && d.events[2 * i] == KeyEvent(CharacterKey, true, Some(AsciiOnly(key)[i]))
           && d.events[2 * i + 1] == KeyEvent(CharacterKey, false, Some(AsciiOnly(key)[i]))
  {
    if !trusted then PromptedForTrust
    else
      CharPressesLayout(key);
      Delivered(CharPresses(key) + ReturnPress)
  }

  /** No character press is on the Return key, so the Return press that
      `SendKeystroke` appends is the only one. */
  lemma {:induction false} OnlyFinalReturn(s: string)
    ensures forall e :: e in CharPresses(s) ==> e.virtualKey == CharacterKey
    decreases |s|
  {
    if s != [] {
      OnlyFinalReturn(s[..|s| - 1]);
    }
  }

  /** The Yes answer: "y" then Return. */
  lemma SendYes()
    ensures SendKeystroke(true, "y") == Delivered(CharPress('y') + ReturnPress)
  {
    assert "y"[..0] == [];
  }
}
