/**
 * The relay's notification record and its lenient parser (`parse` in
 * Sources/main.swift): a JSON object with optional `title`, `body`, `type`
 * and `options`, or, for any other text, a first-line/rest split.
 */
module Notification {
  import opened Common
  import opened Text
  import opened Json

  /** An option of the notification: the button `label` (named `caption` here,
      `label` being a Dafny keyword) and the keystroke it sends. */
  datatype OptionItem = OptionItem(caption: string, keystroke: string)

  datatype NotificationData = NotificationData(title: string, body: string, kind: string, options: seq<OptionItem>)

  const DefaultTitle: string := "Claude Code"
  const DefaultBody: string := "Action required"
  const DefaultKind: string := "alert"

  /** `json[key] as? String ?? default`. */
  function StringField(fields: map<string, Value>, key: string, default: string): string
  {
    if key in fields && fields[key].Str? then fields[key].s else default
  }

  /** A value that bridges to `[String: String]`: an object whose values are all strings. */
  predicate IsStringDict(v: Value)
  {
    v.Obj? && forall k :: k in v.fields ==> v.fields[k].Str?
  }

  /** A value for which `as? [[String: String]]` succeeds. */
  predicate IsStringDictArray(v: Value)
  {
    v.Arr? && forall i :: 0 <= i < |v.items| ==> IsStringDict(v.items[i])
  }

  predicate AllStringDicts(items: seq<Value>)
  {
    forall i :: 0 <= i < |items| ==> IsStringDict(items[i])
  }

  /** An options entry that has both a `label` and a `keystroke`. */
  predicate Complete(d: Value)
  {
    IsStringDict(d) && "label" in d.fields && "keystroke" in d.fields
  }

  function ItemOf(d: Value): OptionItem
    requires Complete(d)
  {
    OptionItem(d.fields["label"].s, d.fields["keystroke"].s)
  }

  /** What the options loop accumulates over `items`. */
  function OptionsFrom(items: seq<Value>): seq<OptionItem>
    requires AllStringDicts(items)
  {
    if items == [] then []
    else
      var last := items[|items| - 1];
      OptionsFrom(items[..|items| - 1]) + (if Complete(last) then [ItemOf(last)] else [])
  }

  /** The `options` of a decoded object; empty unless the whole array bridges. */
  function OptionsOf(fields: map<string, Value>): seq<OptionItem>
  {
    if "options" in fields && IsStringDictArray(fields["options"]) then OptionsFrom(fields["options"].items) else []
  }

  function FromObject(fields: map<string, Value>): NotificationData
  {
    NotificationData(
      StringField(fields, "title", DefaultTitle),
      StringField(fields, "body", DefaultBody),
      StringField(fields, "type", DefaultKind),
      OptionsOf(fields))
  }

  /** The path taken when the text is not a JSON object. */
  function Fallback(text: string): NotificationData
  {
    var lines := Lines(text);
    var body := Trim(JoinLines(lines[1..]));
    NotificationData(lines[0], if body == "" then DefaultBody else body, DefaultKind, [])
  }

  /** `parse(text)`, where `json` is what JSONSerialization made of `text`. */
  function Parse(text: string, json: Option<Value>): NotificationData
  {
    if json.Some? && json.value.Obj? then FromObject(json.value.fields) else Fallback(text)
  }

  /** The same parser as the source writes it, with the options loop. */
  method ParseText(text: string, json: Option<Value>) returns (n: NotificationData)
    ensures n == Parse(text, json)
  {
    if !(json.Some? && json.value.Obj?) {
      return Fallback(text);
    }
    var fields := json.value.fields;
    var options: seq<OptionItem> := [];
    if "options" in fields && IsStringDictArray(fields["options"]) {
      var items := fields["options"].items;
      var i := 0;
      while i < |items|
        invariant 0 <= i <= |items|
        invariant options == OptionsFrom(items[..i])
      {
        var opt := items[i];
        if "label" in opt.fields && "keystroke" in opt.fields {
          options := options + [OptionItem(opt.fields["label"].s, opt.fields["keystroke"].s)];
        }
        assert items[..i + 1][..i] == items[..i];
        i := i + 1;
      }
      assert items[..i] == items;
    }
    n := NotificationData(
      StringField(fields, "title", DefaultTitle),
      StringField(fields, "body", DefaultBody),
      StringField(fields, "type", DefaultKind),
      options);
  }

  // ---------------------------------------------------------------------
  // Properties of the options loop

  /** The options of a concatenation are the options of each part, in
      order: the loop keeps input order. */
  lemma {:induction false} OptionsFromAppend(a: seq<Value>, b: seq<Value>)
    requires AllStringDicts(a) && AllStringDicts(b)
    ensures AllStringDicts(a + b)
    ensures OptionsFrom(a + b) == OptionsFrom(a) + OptionsFrom(b)
    decreases |b|
  {
    assert AllStringDicts(a + b) by {
      forall i | 0 <= i < |a + b| ensures IsStringDict((a + b)[i]) {
        if i >= |a| { assert (a + b)[i] == b[i - |a|]; }
      }
    }
    if b == [] {
      assert a + b == a;
    } else {
      var b' := b[..|b| - 1];
      OptionsFromAppend(a, b');
      assert (a + b)[..|a + b| - 1] == a + b';
    }
  }

  /** An entry contributes one option when complete and none otherwise. */
  lemma OptionsFromSingle(d: Value)
    requires IsStringDict(d)
    ensures AllStringDicts([d])
    ensures OptionsFrom([d]) == if Complete(d) then [ItemOf(d)] else []
  {
    assert [d][..0] == [];
  }

  /** Every option comes from a complete entry, and every complete entry
      gives an option. */
  lemma {:induction false} OptionsFromMembers(items: seq<Value>)
    requires AllStringDicts(items)
    ensures |OptionsFrom(items)| <= |items|
    ensures forall o :: o in OptionsFrom(items) ==> exists i :: 0 <= i < |items| && Complete(items[i]) && ItemOf(items[i]) == o
    ensures forall i :: 0 <= i < |items| && Complete(items[i]) ==> ItemOf(items[i]) in OptionsFrom(items)
    decreases |items|
  {
    if items != [] {
      var init := items[..|items| - 1];
      OptionsFromMembers(init);
      forall o | o in OptionsFrom(items)
        ensures exists i :: 0 <= i < |items| && Complete(items[i]) && ItemOf(items[i]) == o
      {
        if o in OptionsFrom(init) {
          var i :| 0 <= i < |init| && Complete(init[i]) && ItemOf(init[i]) == o;
          assert items[i] == init[i];
        } else {
          assert items[|items| - 1] == items[|items| - 1];
        }
      }
      forall i | 0 <= i < |items| && Complete(items[i])
        ensures ItemOf(items[i]) in OptionsFrom(items)
      {
        if i < |items| - 1 {
          assert items[i] == init[i];
        }
      }
    }
  }

  // ---------------------------------------------------------------------
  // Properties of parse

  /** When the text is not a JSON object (invalid JSON, or a JSON array,
      string, number...), the title is the text before the first line feed
      (all of it when there is none), the body is the trimmed rest or
      "Action required", and the notification is a plain alert. */
  lemma ParseFallback(text: string, json: Option<Value>)
    requires !(json.Some? && json.value.Obj?)
    ensures var n := Parse(text, json);
      var rest := if '\n' in text then Trim(text[IndexOf(text, '\n') + 1..]) else "";
      && n.title == (if '\n' in text then text[..IndexOf(text, '\n')] else text)
      && '\n' !in n.title
      && n.body == (if rest == "" then DefaultBody else rest)
      && n.body != ""
      && n.kind == DefaultKind
      && n.options == []
  {
    var lines := Lines(text);
    LinesHeadAndTail(text);
    if '\n' in text {
      var i := IndexOf(text, '\n');
      assert JoinLines(lines[1..]) == text[i + 1..];
    } else {
      assert lines[1..] == [];
    }
  }

  /** On a JSON object, a field that is missing or not a string takes its
      default; options keep input order, drop incomplete entries, and are
      empty unless every element is a string-to-string object. */
  lemma ParseObject(text: string, fields: map<string, Value>)
    ensures var n := Parse(text, Some(Obj(fields)));
      && (if "title" in fields && fields["title"].Str? then n.title == fields["title"].s else n.title == DefaultTitle)
      && (if "body" in fields && fields["body"].Str? then n.body == fields["body"].s else n.body == DefaultBody)
      && (if "type" in fields && fields["type"].Str? then n.kind == fields["type"].s else n.kind == DefaultKind)
      && (!("options" in fields && IsStringDictArray(fields["options"])) ==> n.options == [])
      && ("options" in fields && IsStringDictArray(fields["options"]) ==>
            var items := fields["options"].items;
            && |n.options| <= |items|
            && (forall o :: o in n.options ==> exists i :: 0 <= i < |items| && Complete(items[i]) && ItemOf(items[i]) == o)
            && (forall i :: 0 <= i < |items| && Complete(items[i]) ==> ItemOf(items[i]) in n.options))
  {
    if "options" in fields && IsStringDictArray(fields["options"]) {
      OptionsFromMembers(fields["options"].items);
    }
  }

  /** Two lines of plain text: the first is the title and the trimmed
      second the body. */
  lemma ParseTwoLines(first: string, second: string)
    requires '\n' !in first
    ensures var n := Parse(first + "\n" + second, None);
      var rest := Trim(second);
      n == NotificationData(first, if rest == "" then DefaultBody else rest, DefaultKind, [])
  {
    var text := first + "\n" + second;
    assert text[..|first|] == first;
    IndexOfUnique(text, '\n', |first|);
    assert text[..|first|] == first && text[|first| + 1..] == second;
    ParseFallback(text, None);
  }

  /** The malformed-input example: "just some text\nmore text". */
  lemma ParsePlainText()
    ensures Parse("just some text\nmore text", None)
         == NotificationData("just some text", "more text", "alert", [])
  {
    var first, second := "just some text", "more text";
    assert first + "\n" + second == "just some text\nmore text";
    assert TrimStart(second) == second;
    assert TrimEnd(second) == second;
    ParseTwoLines(first, second);
  }
}
