/**
 * The editor plugin (vscode-extension/src/extension.ts): the watcher's
 * filter, the startup scan, `processNotificationFile` with its own
 * seen-set, the choice of dialog, what a chosen button sends, and
 * `getQueueDirectory`.
 *
 * Unlike the menu bar relay, the plugin marks and deletes a file only once
 * it has been read and parsed as JSON; a file that fails stays on disk.
 */
module EditorPlugin {
  import opened Common
  import opened Text
  import opened Json
  import opened FileSystem
  import Relay
  import Notification

  /** The seen-set is emptied when it grows beyond this size. */
  const SeenLimit: nat := 100
  /** Ask dialogs show at most this many option buttons. */
  const MaxOptionButtons: nat := 4
  const OtherButton: string := "Other..."
  /** The default of the `claudePing.watchDirectory` setting. */
  const DefaultWatchDirectory: string := "~/.claude-notifier/queue"

  // ---------------------------------------------------------------------
  // getQueueDirectory

  /** JavaScript's GetSubstitution for a string pattern (no capture
      groups): `$$`, `$&`, `` $` `` and `$'` are expanded, any other `$`
      is kept as is. */
  function Substitution(replacement: string, matched: string, before: string, after: string): string
    decreases |replacement|
  {
    if replacement == [] then []
    else if replacement[0] == '$' && |replacement| >= 2 && replacement[1] in "$&`'" then
      var c := replacement[1];
      (if c == '$' then "$" else if c == '&' then matched else if c == '`' then before else after)
      + Substitution(replacement[2..], matched, before, after)
    else
      [replacement[0]] + Substitution(replacement[1..], matched, before, after)
  }

  lemma {:induction false} SubstitutionPlain(replacement: string, matched: string, before: string, after: string)
    requires '$' !in replacement
    ensures Substitution(replacement, matched, before, after) == replacement
    decreases |replacement|
  {
    if replacement != [] {
      SubstitutionPlain(replacement[1..], matched, before, after);
      assert replacement == [replacement[0]] + replacement[1..];
    }
  }

  /** `s.replace(pattern, replacement)` with a one-character string
      pattern: only the first occurrence is replaced. */
  function ReplaceFirst(s: string, pattern: char, replacement: string): string
  {
    if pattern !in s then s
    else
      var i := IndexOf(s, pattern);
      s[..i] + Substitution(replacement, [pattern], s[..i], s[i + 1..]) + s[i + 1..]
  }

  /** `getQueueDirectory`, given the configured path and the home
      directory. */
  function QueueDirectory(configured: string, home: string): string
  {
    ReplaceFirst(configured, '~', home)
  }

  /** Copy up to the first tilde, put the home directory there, and copy
      the rest unchanged. */
  function ExpandFirstTilde(s: string, home: string): string
  {
    if s == [] then []
    else if s[0] == '~' then home + s[1..]
    else [s[0]] + ExpandFirstTilde(s[1..], home)
  }

  /** For a home directory without `$`, `getQueueDirectory` expands the
      first tilde only; later tildes are kept. */
  lemma {:induction false} QueueDirectoryExpandsFirstTilde(configured: string, home: string)
    requires '$' !in home
    ensures QueueDirectory(configured, home) == ExpandFirstTilde(configured, home)
    decreases |configured|
  {
    if '~' in configured {
      var i := IndexOf(configured, '~');
      SubstitutionPlain(home, "~", configured[..i], configured[i + 1..]);
      if configured[0] != '~' {
        var rest := configured[1..];
        assert '~' in rest by { assert configured[i] == rest[i - 1]; }
        IndexOfUnique(rest, '~', i - 1) by {
          assert rest[..i - 1] == configured[1..i];
        }
        SubstitutionPlain(home, "~", rest[..i - 1], rest[i..]);
        QueueDirectoryExpandsFirstTilde(rest, home);
        assert configured[..i] == [configured[0]] + rest[..i - 1];
        assert configured[i + 1..] == rest[i..];
      }
    } else {
      ExpandWithoutTilde(configured, home);
    }
  }

  lemma {:induction false} ExpandWithoutTilde(s: string, home: string)
    requires '~' !in s
    ensures ExpandFirstTilde(s, home) == s
    decreases |s|
  {
    if s != [] {
      ExpandWithoutTilde(s[1..], home);
      assert s == [s[0]] + s[1..];
    }
  }

  /** The default setting names the queue under the home directory. */
  lemma DefaultQueueDirectory(home: string)
    requires '$' !in home
    ensures QueueDirectory(DefaultWatchDirectory, home) == home + "/.claude-notifier/queue"
  {
    QueueDirectoryExpandsFirstTilde(DefaultWatchDirectory, home);
  }

  // ---------------------------------------------------------------------
  // Which files are processed

  /** The watcher callback's test (line 67): a rename event naming a
      `.json` file. */
  predicate WatchTriggers(eventType: string, filename: Option<string>)
  {
    eventType == "rename" && filename.Some? && filename.value != "" && EndsWith(filename.value, ".json")
  }

  /** The startup scan's test (line 92): any `.json` name, hidden or not. */
  predicate StartupPicks(name: string)
  {
    EndsWith(name, ".json")
  }

  /** `path.join(queueDir, name)`. */
  function JoinPath(dir: string, name: string): string
  {
    dir + "/" + name
  }

  /** The paths the startup scan processes, in listing order; none when the
      directory cannot be listed. */
  function StartupPaths(queueDir: string, listing: Option<seq<string>>): (paths: seq<string>)
    ensures listing.None? ==> paths == []
    ensures listing.Some? ==> forall p :: p in paths <==> exists n :: n in listing.value && StartupPicks(n) && p == JoinPath(queueDir, n)
    decreases if listing.Some? then |listing.value| else 0
  {
    if listing.None? || listing.value == [] then []
    else
      var names := listing.value;
      var rest := StartupPaths(queueDir, Some(names[1..]));
      assert forall n :: n in names <==> n == names[0] || n in names[1..];
      (if StartupPicks(names[0]) then [JoinPath(queueDir, names[0])] else []) + rest
  }

  /** The scan of a listing is the scan of its parts, one after the other:
      paths keep the order of their names in the listing. */
  lemma {:induction false} StartupPathsAppend(queueDir: string, a: seq<string>, b: seq<string>)
    ensures StartupPaths(queueDir, Some(a + b)) == StartupPaths(queueDir, Some(a)) + StartupPaths(queueDir, Some(b))
    decreases |a|
  {
    if a != [] {
      assert (a + b)[0] == a[0];
      assert (a + b)[1..] == a[1..] + b;
      StartupPathsAppend(queueDir, a[1..], b);
    } else {
      assert a + b == b;
    }
  }

  /** Every file the menu bar relay would take, the plugin takes too, and
      the plugin also takes hidden ones. */
  lemma StartupScanIsWider()
    ensures forall n :: Relay.IsQueueFile(n) ==> StartupPicks(n)
    ensures StartupPicks(".draft.json") && !Relay.IsQueueFile(".draft.json")
  {
    assert ".draft.json"[..1] == ".";
    assert ".draft.json"[6..] == ".json";
  }

  // ---------------------------------------------------------------------
  // processNotificationFile

  /** How `processNotificationFile` treats a parsed notification: the
      dialog it opens by `type`. */
  datatype Dialog =
    | AskDialog(options: Option<Value>)   // the raw `options` property
    | PermissionDialog
    | SimpleMessage

  datatype Outcome =
    | AlreadyProcessed
    | Missing
    | ReadOrParseFailed
    | Threw            // `null.type`: a TypeError after the file was marked and deleted
    | Shown(dialog: Dialog)

  /** `readFileSync(path, 'utf8')`: fails when unreadable, decodes invalid
      UTF-8 with replacement characters. */
  function ReadUtf8(c: Content): Option<string>
  {
    match c
    case Unreadable => None
    case Utf8(t) => Some(t)
    case NotUtf8(lossy) => Some(lossy)
  }

  /** The property `key` of a parsed value, None when undefined. */
  function Property(v: Value, key: string): Option<Value>
  {
    if v.Obj? && key in v.fields then Some(v.fields[key]) else None
  }

  /** Lines 126-132: `type === 'ask'`, `type === 'permission'`, otherwise
      a plain message. */
  function DialogFor(v: Value): (d: Dialog)
    ensures d.AskDialog? <==> Property(v, "type") == Some(Str("ask"))
    ensures d.PermissionDialog? <==> Property(v, "type") == Some(Str("permission"))
    ensures d.AskDialog? ==> d.options == Property(v, "options")
  {
    var kind := Property(v, "type");
    if kind == Some(Str("ask")) then AskDialog(Property(v, "options"))
    else if kind == Some(Str("permission")) then PermissionDialog
    else SimpleMessage
  }

  /** The plugin's state: its seen-set of paths and the files on disk. */
  datatype EditorState = EditorState(seen: set<string>, files: map<string, Content>)

  /** `processNotificationFile(path)`, where `parse` stands for JSON.parse. */
  function Process(st: EditorState, path: string, parse: Decoder): (r: (EditorState, Outcome))
    ensures r.1.AlreadyProcessed? <==> path in st.seen
    ensures r.1.AlreadyProcessed? || r.1.Missing? || r.1.ReadOrParseFailed? ==> r.0 == st
    ensures r.1.Threw? || r.1.Shown? ==>
              && path in st.files && path !in st.seen
              && r.0.files == st.files - {path}
              && (path in r.0.seen || r.0.seen == {})
              && r.0.seen <= st.seen + {path}
    ensures r.1.Missing? <==> path !in st.seen && path !in st.files
    ensures r.1.Threw? || r.1.Shown? ==>
              && ReadUtf8(st.files[path]).Some?
              && var v := parse(ReadUtf8(st.files[path]).value);
              && v.Some?
              && r.1 == (if v.value.Null? then Threw else Shown(DialogFor(v.value)))
              && r.0.seen == (if |st.seen + {path}| > SeenLimit then {} else st.seen + {path})
    ensures |st.seen| <= SeenLimit ==> |r.0.seen| <= SeenLimit
  {
    if path in st.seen then (st, AlreadyProcessed)
    else if path !in st.files then (st, Missing)
    else match ReadUtf8(st.files[path])
      case None => (st, ReadOrParseFailed)
      case Some(text) =>
        match parse(text)
        case None => (st, ReadOrParseFailed)
        case Some(v) =>
          var seen := st.seen + {path};
          var st' := EditorState(if |seen| > SeenLimit then {} else seen, st.files - {path});
          (st', if v.Null? then Threw else Shown(DialogFor(v)))
  }

  /** A file is consumed exactly when it is new, readable and parses as
      JSON; otherwise nothing changes and the file stays for a later try. */
  lemma ProcessConsumesIffParsed(st: EditorState, path: string, parse: Decoder)
    ensures var r := Process(st, path, parse);
      (r.1.Threw? || r.1.Shown?) <==>
        (path !in st.seen && path in st.files && ReadUtf8(st.files[path]).Some?
         && parse(ReadUtf8(st.files[path]).value).Some?)
  {
  }

  /** `processNotificationFile` over `paths`, in order. */
  function ProcessAll(st: EditorState, paths: seq<string>, parse: Decoder): (EditorState, seq<Outcome>)
  {
    if paths == [] then (st, [])
    else
      var r := ProcessAll(st, paths[..|paths| - 1], parse);
      var last := Process(r.0, paths[|paths| - 1], parse);
      (last.0, r.1 + [last.1])
  }

  /** A sequence of files keeps the seen-set within bounds and never
      deletes a file outside it. */
  lemma {:induction false} ProcessAllBounds(st: EditorState, paths: seq<string>, parse: Decoder)
    requires |st.seen| <= SeenLimit
    ensures var r := ProcessAll(st, paths, parse);
      && |r.0.seen| <= SeenLimit
      && |r.1| == |paths|
      && forall k :: k in st.files && k !in paths ==> k in r.0.files && r.0.files[k] == st.files[k]
    decreases |paths|
  {
    if paths != [] {
      var init := paths[..|paths| - 1];
      ProcessAllBounds(st, init, parse);
      assert forall k :: k in paths <==> k in init || k == paths[|paths| - 1];
    }
  }

  // ---------------------------------------------------------------------
  // What a chosen button sends

  /** An option of an ask notification; `caption` is its `label`. */
  datatype EditorOption = EditorOption(caption: string, keystroke: string)

  /** The options an ask dialog uses (`options.slice(0, 4)`), when the
      `options` of the notification are an array whose first four entries
      follow the notification schema: objects with string `label` and
      `keystroke`. Entries past the fourth are never looked at. */
  function AskOptions(options: Option<Value>): (r: Option<seq<EditorOption>>)
    ensures r.Some? <==> options.Some? && options.value.Arr?
                         && forall i :: 0 <= i < Min(|options.value.items|, MaxOptionButtons) ==> WellFormedOption(options.value.items[i])
    ensures r.Some? ==> |r.value| == Min(|options.value.items|, MaxOptionButtons)
    ensures r.Some? ==> forall i :: 0 <= i < |r.value| ==>
              r.value[i] == EditorOption(Label(options.value.items[i]), Keystroke(options.value.items[i]))
  {
    if options.Some? && options.value.Arr?
       && forall i :: 0 <= i < Min(|options.value.items|, MaxOptionButtons) ==> WellFormedOption(options.value.items[i])
    then
      var shown := options.value.items[..Min(|options.value.items|, MaxOptionButtons)];
      Some(seq(|shown|, i requires 0 <= i < |shown| && WellFormedOption(shown[i]) =>
                 EditorOption(Label(shown[i]), Keystroke(shown[i]))))
    else None
  }

  predicate WellFormedOption(v: Value)
  {
    v.Obj? && "label" in v.fields && v.fields["label"].Str? && "keystroke" in v.fields && v.fields["keystroke"].Str?
  }

  function Label(v: Value): string
    requires WellFormedOption(v)
  {
    v.fields["label"].s
  }

  function Keystroke(v: Value): string
    requires WellFormedOption(v)
  {
    v.fields["keystroke"].s
  }

  /** The buttons of an ask dialog: the labels of the first four options,
      then "Other...". */
  function AskButtons(options: seq<EditorOption>): (buttons: seq<string>)
    ensures |buttons| == Min(|options|, MaxOptionButtons) + 1
    ensures buttons[|buttons| - 1] == OtherButton
    ensures forall i :: 0 <= i < |buttons| - 1 ==> buttons[i] == options[i].caption
  {
    var shown := options[..Min(|options|, MaxOptionButtons)];
    seq(|shown|, i requires 0 <= i < |shown| => shown[i].caption) + [OtherButton]
  }

  /** `options.find(opt => opt.label === caption)`, as a position. */
  function FindCaption(options: seq<EditorOption>, caption: string): (r: Option<nat>)
    ensures r.Some? ==> r.value < |options| && options[r.value].caption == caption
                        && forall j :: 0 <= j < r.value ==> options[j].caption != caption
    ensures r.None? ==> forall j :: 0 <= j < |options| ==> options[j].caption != caption
  {
    if options == [] then None
    else if options[0].caption == caption then Some(0)
    else match FindCaption(options[1..], caption)
      case None => None
      case Some(k) => Some(k + 1)
  }

  datatype EditorAction =
    | SendText(text: string)   // `sendToTerminal`: the text, then Enter
    | FocusTerminal
    | Nothing

  /** Lines 149-157: "Other..." focuses the terminal even when an option
      has that label; dismissal and an empty label (falsy) send nothing;
      any other label sends the keystroke of the first shown option
      carrying it. */
  function AskSelection(options: seq<EditorOption>, selection: Option<string>): (a: EditorAction)
    ensures selection == Some(OtherButton) <==> a.FocusTerminal?
    ensures selection.None? || selection == Some("") ==> a.Nothing?
    ensures a.SendText? ==>
              exists i :: 0 <= i < Min(|options|, MaxOptionButtons)
                && options[i].caption == selection.value && a.text == options[i].keystroke
                && forall j :: 0 <= j < i ==> options[j].caption != selection.value
    ensures selection.Some? && selection.value != "" && selection.value != OtherButton
            && (exists i :: 0 <= i < Min(|options|, MaxOptionButtons) && options[i].caption == selection.value)
            ==> a.SendText?
  {
    var shown := options[..Min(|options|, MaxOptionButtons)];
    if selection == Some(OtherButton) then FocusTerminal
    else if selection.None? || selection.value == "" then Nothing
    else match FindCaption(shown, selection.value)
      case None => Nothing
      case Some(i) => SendText(shown[i].keystroke)
  }

  /** Lines 168-172: the supplied options are ignored; Yes sends "y", No
      sends "n", anything else nothing. */
  function PermissionSelection(selection: Option<string>): (a: EditorAction)
    ensures !a.FocusTerminal?
    ensures a.SendText? <==> selection == Some("Yes") || selection == Some("No")
    ensures a.SendText? ==> a.text == if selection == Some("Yes") then "y" else "n"
  {
    if selection == Some("Yes") then SendText("y")
    else if selection == Some("No") then SendText("n")
    else Nothing
  }

  /** An ask notification whose shown options follow the schema, from the parsed
      value to the terminal: the `i`-th of the first four entries is shown
      as the `i`-th button, and choosing its label sends its keystroke
      unless an earlier entry carries the same label. */
  lemma AskNotificationFlow(v: Value, i: nat)
    requires Property(v, "type") == Some(Str("ask"))
    requires AskOptions(Property(v, "options")).Some?
    requires var items := Property(v, "options").value.items;
      && i < Min(|items|, MaxOptionButtons)
      && Label(items[i]) != "" && Label(items[i]) != OtherButton
      && forall j :: 0 <= j < i ==> Label(items[j]) != Label(items[i])
    ensures DialogFor(v) == AskDialog(Property(v, "options"))
    ensures var items := Property(v, "options").value.items;
      var opts := AskOptions(DialogFor(v).options).value;
      && AskButtons(opts)[i] == Label(items[i])
      && AskSelection(opts, Some(Label(items[i]))) == SendText(Keystroke(items[i]))
  {
  }

  // ---------------------------------------------------------------------
  // The plugin's state

  class Extension {
    var processedFiles: set<string>

    ghost predicate Valid()
      reads this
    {
      |processedFiles| <= SeenLimit
    }

    constructor ()
      ensures Valid() && processedFiles == {}
    {
      processedFiles := {};
    }

    /** `processNotificationFile(path)`. */
    method ProcessNotificationFile(disk: Directory, path: string, parse: Decoder) returns (outcome: Outcome)
      requires Valid()
      modifies this, disk
      ensures Valid()
      ensures (EditorState(processedFiles, disk.files), outcome)
           == Process(EditorState(old(processedFiles), old(disk.files)), path, parse)
    {
      if path in processedFiles {
        return AlreadyProcessed;
      }
      if path !in disk.files {
        return Missing;
      }
      var content := ReadUtf8(disk.files[path]);
      if content.None? {
        return ReadOrParseFailed;
      }
      var notification := parse(content.value);
      if notification.None? {
        return ReadOrParseFailed;
      }
      processedFiles := processedFiles + {path};
      disk.Remove(path);
      if |processedFiles| > SeenLimit {
        processedFiles := {};
      }
      var v := notification.value;
      outcome := if v.Null? then Threw else Shown(DialogFor(v));
    }

    /** `checkExistingFiles(queueDir)`: `listing` is what `readdirSync`
        returned, None when it threw. */
    method CheckExistingFiles(disk: Directory, queueDir: string, listing: Option<seq<string>>, parse: Decoder)
      returns (outcomes: seq<Outcome>)
      requires Valid()
      modifies this, disk
      ensures Valid()
      ensures (EditorState(processedFiles, disk.files), outcomes)
           == ProcessAll(EditorState(old(processedFiles), old(disk.files)), StartupPaths(queueDir, listing), parse)
    {
      var paths := StartupPaths(queueDir, listing);
      ghost var st0 := EditorState(processedFiles, disk.files);
      outcomes := [];
      var i := 0;
      while i < |paths|
        invariant 0 <= i <= |paths|
        invariant Valid()
        invariant (EditorState(processedFiles, disk.files), outcomes) == ProcessAll(st0, paths[..i], parse)
      {
        assert paths[..i + 1][..i] == paths[..i];
        var o := ProcessNotificationFile(disk, paths[i], parse);
        outcomes := outcomes + [o];
        i := i + 1;
      }
      assert paths[..i] == paths;
    }

    /** The watcher callback followed by the delayed processing. */
    method OnWatchEvent(disk: Directory, queueDir: string, eventType: string, filename: Option<string>, parse: Decoder)
      returns (outcome: Option<Outcome>)
      requires Valid()
      modifies this, disk
      ensures Valid()
      ensures !WatchTriggers(eventType, filename) ==> outcome.None? && unchanged(this) && unchanged(disk)
      ensures WatchTriggers(eventType, filename) ==>
        outcome.Some? &&
        (EditorState(processedFiles, disk.files), outcome.value)
          == Process(EditorState(old(processedFiles), old(disk.files)), JoinPath(queueDir, filename.value), parse)
    {
      if !WatchTriggers(eventType, filename) {
        return None;
      }
      var o := ProcessNotificationFile(disk, JoinPath(queueDir, filename.value), parse);
      outcome := Some(o);
    }
  }

  // ---------------------------------------------------------------------
  // The two relays side by side

  /** A queue file that is not JSON: the menu bar relay consumes it, marks
      it and shows its text as an alert; the plugin leaves it on disk,
      unmarked. */
  lemma PlainTextFileDiffers(
    s: Relay.Scan, st: EditorState, name: string, text: string, decode: Decoder, parse: Decoder, now: int)
    requires name !in s.seen && name in s.files && s.files[name] == Utf8(text) && decode(text).None?
    requires name !in st.seen && name in st.files && st.files[name] == Utf8(text) && parse(text).None?
    ensures var t := Relay.Visit(s, name, decode, now);
      && name !in t.files
      && t.unread == s.unread + 1
      && t.shown == s.shown + [Notification.Fallback(text)]
    ensures Process(st, name, parse) == (st, ReadOrParseFailed)
  {
  }

  /** An unreadable queue file: the menu bar relay deletes it and remembers
      its name; the plugin keeps it and does not. */
  lemma UnreadableFileDiffers(
    s: Relay.Scan, st: EditorState, name: string, decode: Decoder, parse: Decoder, now: int)
    requires name !in s.seen && name in s.files && s.files[name] == Unreadable
    requires name !in st.seen && name in st.files && st.files[name] == Unreadable
    ensures var t := Relay.Visit(s, name, decode, now);
      name !in t.files && name in t.seen && t.unread == s.unread
    ensures Process(st, name, parse) == (st, ReadOrParseFailed)
  {
  }
}
