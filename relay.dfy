/**
 * The relay coordinator (`AppDelegate` in Sources/main.swift): the rescan
 * of the queue directory, the unread counter and history behind the menu
 * bar badge, the reminder timer, and the modal dialogs that focus loss
 * aborts.
 *
 * A rescan is specified by `VisitAll`, a fold of `Visit` over the queue
 * files in processing order; `Coordinator.CheckForNotifications` is proved
 * to compute it, and the lemmas below say what it does to the history, the
 * counter, the seen-set and the directory.
 */
module Relay {
  import opened Common
  import opened Text
  import opened Json
  import opened FileSystem
  import opened Notification
  import opened Dialogs

  /** The history keeps at most this many entries after a rescan. */
  const HistoryLimit: nat := 20
  /** The seen-set is emptied when it grows beyond this size. */
  const SeenLimit: nat := 100

  /** A history entry: title, body and the time it was processed. */
  datatype Entry = Entry(title: string, body: string, date: int)

  /** How a notification is presented (lines 221-228). */
  datatype Presentation =
    | SimpleAlert(title: string, body: string)
    | OptionsAlert(data: NotificationData)
    | PermissionAlert(data: NotificationData)

  function PresentationOf(n: NotificationData): (p: Presentation)
    ensures p.OptionsAlert? <==> n.kind == "ask"
    ensures p.PermissionAlert? <==> n.kind == "permission"
    ensures p.SimpleAlert? ==> p.title == n.title && p.body == n.body
    ensures !p.SimpleAlert? ==> p.data == n
  {
    if n.kind == "ask" then OptionsAlert(n)
    else if n.kind == "permission" then PermissionAlert(n)
    else SimpleAlert(n.title, n.body)
  }

  // ---------------------------------------------------------------------
  // Which files a rescan takes, in which order

  /** A visible `.json` file. */
  predicate IsQueueFile(name: string)
  {
    !StartsWith(name, ".") && EndsWith(name, ".json")
  }

  /** The filter of line 199. */
  function QueueFiles(listing: seq<string>): (r: seq<string>)
    ensures forall x :: x in r <==> x in listing && IsQueueFile(x)
    ensures multiset(r) <= multiset(listing)
  {
    if listing == [] then []
    else
      var rest := QueueFiles(listing[1..]);
      assert listing == [listing[0]] + listing[1..];
      if IsQueueFile(listing[0]) then [listing[0]] + rest else rest
  }

  /** The files of a rescan, in processing order (line 199). */
  function ScanOrder(listing: seq<string>): (r: seq<string>)
    ensures Ascending(r)
    ensures forall x :: x in r <==> x in listing && IsQueueFile(x)
    ensures multiset(r) <= multiset(listing)
  {
    var r := SortNames(QueueFiles(listing));
    assert forall x :: x in r <==> x in multiset(r);
    r
  }

  // ---------------------------------------------------------------------
  // One rescan, as a function

  /** The most recent `HistoryLimit` entries (lines 231-233). */
  function Recent(h: seq<Entry>): (r: seq<Entry>)
    ensures |r| == Min(|h|, HistoryLimit)
    ensures r == h[|h| - |r|..]
  {
    if |h| > HistoryLimit then h[|h| - HistoryLimit..] else h
  }

  /** Trimming first changes nothing about what a later trim keeps. */
  lemma RecentAbsorbs(h: seq<Entry>, x: seq<Entry>)
    ensures Recent(Recent(h) + x) == Recent(h + x)
  {
    var hx := h + x;
    var rx := Recent(h) + x;
    if |h| > HistoryLimit {
      assert rx == hx[|h| - HistoryLimit..];
      assert rx[|rx| - Min(|rx|, HistoryLimit)..] == hx[|hx| - Min(|rx|, HistoryLimit)..];
    }
  }

  /** The state a rescan works on: the seen-set, the history, the unread
      count, the directory, and the notifications shown so far. */
  datatype Scan = Scan(
    seen: set<string>,
    history: seq<Entry>,
    unread: nat,
    files: map<string, Content>,
    shown: seq<NotificationData>)

  /** What `fm.contents(atPath:)` and UTF-8 decoding give for `name`. */
  function ReadText(files: map<string, Content>, name: string): Option<string>
  {
    if name in files && files[name].Utf8? then Some(files[name].text) else None
  }

  /** The history entry of a shown notification. */
  function EntryOf(n: NotificationData, now: int): Entry
  {
    Entry(n.title, n.body, now)
  }

  function EntriesOf(ns: seq<NotificationData>, now: int): (es: seq<Entry>)
    ensures |es| == |ns|
    ensures forall i :: 0 <= i < |ns| ==> es[i] == EntryOf(ns[i], now)
  {
    if ns == [] then [] else EntriesOf(ns[..|ns| - 1], now) + [EntryOf(ns[|ns| - 1], now)]
  }

  /** One iteration of the rescan loop (lines 202-241). A name already
      seen is left alone; a new one is marked and its file deleted; only a
      file that reads as UTF-8 text is parsed, shown, counted and logged. */
  function Visit(s: Scan, name: string, decode: Decoder, now: int): (t: Scan)
    ensures name in s.seen ==> t == s
    ensures name !in s.seen ==> t.files == s.files - {name}
    ensures ReadText(s.files, name).Some? ==> |t.seen| <= SeenLimit || t == s
  {
    if name in s.seen then s
    else
      var seen := s.seen + {name};
      var files := s.files - {name};
      match ReadText(s.files, name)
      case None => s.(seen := seen, files := files)
      case Some(text) =>
        var n := Parse(text, decode(text));
        Scan(
          if |seen| > SeenLimit then {} else seen,
          Recent(s.history + [EntryOf(n, now)]),
          s.unread + 1,
          files,
          s.shown + [n])
  }

  /** The whole loop over `names`, in order. */
  function VisitAll(s: Scan, names: seq<string>, decode: Decoder, now: int): Scan
  {
    if names == [] then s
    else Visit(VisitAll(s, names[..|names| - 1], decode, now), names[|names| - 1], decode, now)
  }

  // ---------------------------------------------------------------------
  // Properties of a rescan

  /** A skipped or unreadable name changes neither the counter, the
      history nor what is shown; a readable new one adds exactly one unread
      notification, shown last and logged last. */
  lemma VisitEffect(s: Scan, name: string, decode: Decoder, now: int)
    ensures var t := Visit(s, name, decode, now);
      && (name in s.seen || ReadText(s.files, name).None? ==>
            t.unread == s.unread && t.history == s.history && t.shown == s.shown)
      && (name !in s.seen && ReadText(s.files, name).None? ==> t.seen == s.seen + {name})
      && (name !in s.seen && ReadText(s.files, name).Some? ==>
            var text := ReadText(s.files, name).value;
            && t.unread == s.unread + 1
            && t.shown == s.shown + [Parse(text, decode(text))]
            && t.history == Recent(s.history + [EntryOf(Parse(text, decode(text)), now)])
            && t.seen == (if |s.seen + {name}| > SeenLimit then {} else s.seen + {name}))
  {
  }

  /** The counter goes up by exactly the number of notifications shown,
      and what was shown before stays first. */
  lemma {:induction false} ScanCounts(s: Scan, names: seq<string>, decode: Decoder, now: int)
    ensures var t := VisitAll(s, names, decode, now);
      && |s.shown| <= |t.shown| <= |s.shown| + |names|
      && t.shown[..|s.shown|] == s.shown
      && t.unread == s.unread + (|t.shown| - |s.shown|)
    decreases |names|
  {
    if names != [] {
      ScanCounts(s, names[..|names| - 1], decode, now);
    }
  }

  /** After a rescan that showed something, the history is the most recent
      `HistoryLimit` of the old history followed by one entry per shown
      notification, in order; a rescan that showed nothing leaves it alone
      (even when `SendTest` left it longer than the limit). */
  lemma {:induction false} ScanHistory(s: Scan, names: seq<string>, decode: Decoder, now: int)
    ensures |s.shown| <= |VisitAll(s, names, decode, now).shown|
    ensures var t := VisitAll(s, names, decode, now);
      var added := t.shown[|s.shown|..];
      t.history == if added == [] then s.history else Recent(s.history + EntriesOf(added, now))
    decreases |names|
  {
    ScanCounts(s, names, decode, now);
    if names != [] {
      var init := names[..|names| - 1];
      var name := names[|names| - 1];
      ScanHistory(s, init, decode, now);
      ScanCounts(s, init, decode, now);
      var m := VisitAll(s, init, decode, now);
      var t := Visit(m, name, decode, now);
      var before := m.shown[|s.shown|..];
      if name !in m.seen && ReadText(m.files, name).Some? {
        var n := t.shown[|t.shown| - 1];
        assert t.shown == m.shown + [n];
        assert t.shown[|s.shown|..] == before + [n];
        HistoryStep(s.history, before, m.history, n, now);
      } else {
        assert t.shown == m.shown && t.history == m.history;
      }
    }
  }

  /** One logged notification extends the trimmed history as if the whole
      history had been trimmed once. */
  lemma HistoryStep(h: seq<Entry>, before: seq<NotificationData>, mh: seq<Entry>, n: NotificationData, now: int)
    requires mh == if before == [] then h else Recent(h + EntriesOf(before, now))
    ensures Recent(mh + [EntryOf(n, now)]) == Recent(h + EntriesOf(before + [n], now))
  {
    var e := EntryOf(n, now);
    var es := EntriesOf(before, now);
    EntriesOfSnoc(before, n, now);
    if before == [] {
      assert h + (es + [e]) == h + [e];
    } else {
      RecentAbsorbs(h + es, [e]);
      assert (h + es) + [e] == h + (es + [e]);
    }
  }

  lemma EntriesOfSnoc(ns: seq<NotificationData>, n: NotificationData, now: int)
    ensures EntriesOf(ns + [n], now) == EntriesOf(ns, now) + [EntryOf(n, now)]
  {
    assert (ns + [n])[..|ns|] == ns;
  }

  /** A rescan that shows at least one notification leaves at most
      `HistoryLimit` entries, the last of them for the last notification. */
  lemma HistoryBound(s: Scan, names: seq<string>, decode: Decoder, now: int)
    requires |VisitAll(s, names, decode, now).shown| > |s.shown|
    ensures var t := VisitAll(s, names, decode, now);
      && 0 < |t.history| <= HistoryLimit
      && t.history[|t.history| - 1] == EntryOf(t.shown[|t.shown| - 1], now)
  {
    ScanHistory(s, names, decode, now);
    var t := VisitAll(s, names, decode, now);
    var added := t.shown[|s.shown|..];
    var all := s.history + EntriesOf(added, now);
    assert all[|all| - 1] == EntryOf(added[|added| - 1], now);
  }

  /** Only files of the rescan are deleted, the others keep their content,
      and every file of the rescan whose name was not seen before is gone.
      The seen-set only ever holds old names and names of the rescan. */
  lemma {:induction false} ScanFiles(s: Scan, names: seq<string>, decode: Decoder, now: int)
    ensures var t := VisitAll(s, names, decode, now);
      && (forall k :: k in t.files ==> k in s.files && t.files[k] == s.files[k])
      && (forall k :: k in s.files && k !in names ==> k in t.files)
      && (forall k :: k in names && k !in s.seen ==> k !in t.files)
      && t.seen <= s.seen + set k | k in names
    decreases |names|
  {
    if names != [] {
      var init := names[..|names| - 1];
      var name := names[|names| - 1];
      ScanFiles(s, init, decode, now);
      var m := VisitAll(s, init, decode, now);
      assert forall k :: k in names <==> k in init || k == name;
    }
  }

  /** When every file of the rescan reads as text, a seen-set of at most
      `SeenLimit` names stays within that bound. */
  lemma {:induction false} SeenBoundWhenReadable(s: Scan, names: seq<string>, decode: Decoder, now: int)
    requires |s.seen| <= SeenLimit
    requires forall i, j :: 0 <= i < j < |names| ==> names[i] != names[j]
    requires forall k :: k in names ==> ReadText(s.files, k).Some?
    ensures |VisitAll(s, names, decode, now).seen| <= SeenLimit
    decreases |names|
  {
    if names != [] {
      var init := names[..|names| - 1];
      var name := names[|names| - 1];
      SeenBoundWhenReadable(s, init, decode, now);
      ScanFiles(s, init, decode, now);
      var m := VisitAll(s, init, decode, now);
      assert name !in init;
      assert name in names;
      assert ReadText(m.files, name) == ReadText(s.files, name);
    }
  }

  /** While the seen-set cannot pass `SeenLimit`, a rescan forgets no
      name: everything remembered before stays remembered, so a name that
      comes back is skipped. */
  lemma {:induction false} SeenPersists(s: Scan, names: seq<string>, decode: Decoder, now: int)
    requires |s.seen| + |names| <= SeenLimit
    ensures s.seen <= VisitAll(s, names, decode, now).seen
    ensures |VisitAll(s, names, decode, now).seen| <= |s.seen| + |names|
    decreases |names|
  {
    if names != [] {
      var init := names[..|names| - 1];
      var name := names[|names| - 1];
      SeenPersists(s, init, decode, now);
      var m := VisitAll(s, init, decode, now);
      assert |m.seen + {name}| <= |m.seen| + 1;
    }
  }

  /** An unreadable new file is still added to the seen-set, and the size
      check that empties it is skipped: a full seen-set grows past the
      bound. */
  lemma UnreadableGrowsSeen(s: Scan, name: string, decode: Decoder, now: int)
    requires |s.seen| == SeenLimit && name !in s.seen
    requires ReadText(s.files, name).None?
    ensures |Visit(s, name, decode, now).seen| == SeenLimit + 1
  {
  }

  /** Processing the same name twice while it is remembered shows one
      dialog: the second visit changes nothing. */
  lemma DedupWithinWindow(s: Scan, name: string, decode: Decoder, now: int)
    requires name !in s.seen && |s.seen| < SeenLimit
    ensures var t := Visit(s, name, decode, now);
      && name in t.seen
      && name !in t.files
      && Visit(t, name, decode, now) == t
  {
  }

  /** The build-finished example: a simple alert, one more unread, no
      dialog to answer. */
  lemma BuildAlertExample(s: Scan, name: string, text: string, decode: Decoder, now: int)
    requires name !in s.seen && name in s.files && s.files[name] == Utf8(text)
    requires decode(text) == Some(Obj(map["title" := Str("Build"), "body" := Str("Done"), "type" := Str("alert")]))
    ensures var t := Visit(s, name, decode, now);
      && t.unread == s.unread + 1
      && PresentationOf(t.shown[|t.shown| - 1]) == SimpleAlert("Build", "Done")
  {
    var fields := map["title" := Str("Build"), "body" := Str("Done"), "type" := Str("alert")];
    assert "options" !in fields;
  }

  // ---------------------------------------------------------------------
  // The coordinator

  /** How a modal dialog ends: a button press (its return code), or the
      user switching to another application first. */
  datatype ModalOutcome = Pressed(returnCode: int) | SwitchedAway

  const TestTitle: string := "Claude Code"
  const TestAlertBody: string := "\U{D14C}\U{C2A4}\U{D2B8} - \U{C54C}\U{B9BC}\U{C774} \U{C815}\U{C0C1} \U{C791}\U{B3D9}\U{D569}\U{B2C8}\U{B2E4}!"
  const TestHistoryBody: string := "\U{D14C}\U{C2A4}\U{D2B8} \U{C54C}\U{B9BC}"

  class Coordinator {
    var processedFiles: set<string>
    var history: seq<Entry>
    var unreadCount: nat
    var reminderEnabled: bool
    /** `reminderTimer != nil`. */
    var reminderActive: bool
    var isProcessingAlert: bool
    /** `currentAlertWindow != nil`. */
    var alertWindowOpen: bool
    var isCheckingNotifications: bool

    /** A running reminder has something to remind of and is wanted; a
        dialog waits for input exactly while its window is recorded. */
    ghost predicate Valid()
      reads this
    {
      && (reminderActive ==> reminderEnabled && unreadCount > 0)
      && (isProcessingAlert <==> alertWindowOpen)
    }

    constructor ()
      ensures Valid()
      ensures processedFiles == {} && history == [] && unreadCount == 0
      ensures reminderEnabled && !reminderActive
      ensures !isProcessingAlert && !alertWindowOpen && !isCheckingNotifications
    {
      processedFiles := {};
      history := [];
      unreadCount := 0;
      reminderEnabled := true;
      reminderActive := false;
      isProcessingAlert := false;
      alertWindowOpen := false;
      isCheckingNotifications := false;
    }

    /** `checkForNotifications`: `listing` is what `contentsOfDirectory`
        returned (None when it threw), `decode` stands for JSONSerialization
        and `now` for the clock. Returns the notifications shown, in order. */
    method CheckForNotifications(dir: Directory, listing: Option<seq<string>>, decode: Decoder, now: int)
      returns (shown: seq<NotificationData>)
      requires Valid()
      modifies this`processedFiles, this`history, this`unreadCount, this`reminderActive, this`isCheckingNotifications, dir
      ensures Valid()
      ensures old(isCheckingNotifications) ==> unchanged(this) && unchanged(dir) && shown == []
      ensures !old(isCheckingNotifications) ==>
        var batch := if listing.Some? then ScanOrder(listing.value) else [];
        var t := VisitAll(Scan(old(processedFiles), old(history), old(unreadCount), old(dir.files), []), batch, decode, now);
        && processedFiles == t.seen && history == t.history && unreadCount == t.unread
        && dir.files == t.files && shown == t.shown
        && !isCheckingNotifications
        && reminderActive == (old(reminderActive) || (batch != [] && reminderEnabled && unreadCount > 0))
    {
      shown := [];
      if isCheckingNotifications {
        return;
      }
      ghost var s0 := Scan(processedFiles, history, unreadCount, dir.files, []);
      isCheckingNotifications := true;
      shown := Rescan(dir, listing, decode, now, s0);
      isCheckingNotifications := false;
    }

    /** The body of `checkForNotifications` inside its guard. */
    method Rescan(dir: Directory, listing: Option<seq<string>>, decode: Decoder, now: int, ghost s0: Scan)
      returns (shown: seq<NotificationData>)
      requires Valid()
      requires s0 == Scan(processedFiles, history, unreadCount, dir.files, [])
      modifies this`processedFiles, this`history, this`unreadCount, this`reminderActive, dir
      ensures Valid()
      ensures
        var batch := if listing.Some? then ScanOrder(listing.value) else [];
        var t := VisitAll(s0, batch, decode, now);
        && processedFiles == t.seen && history == t.history && unreadCount == t.unread
        && dir.files == t.files && shown == t.shown
        && reminderActive == (old(reminderActive) || (batch != [] && reminderEnabled && unreadCount > 0))
    {
      shown := [];
      if listing.None? {
        return;
      }
      var files := ScanOrder(listing.value);
      if files == [] {
        return;
      }
      shown := ProcessFiles(dir, files, decode, now);
      StartReminderIfNeeded();
    }

    /** The loop of lines 202-241 over the sorted queue files. */
    method ProcessFiles(dir: Directory, files: seq<string>, decode: Decoder, now: int)
      returns (shown: seq<NotificationData>)
      requires Valid()
      modifies this`processedFiles, this`history, this`unreadCount, dir
      ensures Valid()
      ensures Scan(processedFiles, history, unreadCount, dir.files, shown)
           == VisitAll(Scan(old(processedFiles), old(history), old(unreadCount), old(dir.files), []), files, decode, now)
    {
      shown := [];
      ghost var s0 := Scan(processedFiles, history, unreadCount, dir.files, []);
      var i := 0;
      while i < |files|
        invariant 0 <= i <= |files|
        invariant Valid()
        invariant VisitAll(s0, files[..i], decode, now) == Scan(processedFiles, history, unreadCount, dir.files, shown)
      {
        assert files[..i + 1][..i] == files[..i];
        shown := ProcessFile(dir, files[i], decode, now, shown);
        i := i + 1;
      }
      assert files[..i] == files;
    }

    /** The body of the rescan loop for one file name; `shown` is what the
        rescan has shown so far. */
    method ProcessFile(dir: Directory, name: string, decode: Decoder, now: int, shown: seq<NotificationData>)
      returns (shown': seq<NotificationData>)
      requires Valid()
      modifies this`processedFiles, this`history, this`unreadCount, dir
      ensures Valid()
      ensures Scan(processedFiles, history, unreadCount, dir.files, shown')
           == Visit(Scan(old(processedFiles), old(history), old(unreadCount), old(dir.files), shown), name, decode, now)
      ensures unreadCount >= old(unreadCount)
    {
      shown' := shown;
      if name in processedFiles {
        return;
      }
      ghost var files := dir.files;
      processedFiles := processedFiles + {name};
      var content := if name in dir.files then dir.files[name] else Unreadable;
      dir.Remove(name);
      if !content.Utf8? {
        assert ReadText(files, name).None?;
        return;
      }
      assert ReadText(files, name) == Some(content.text);
      var n := ParseText(content.text, decode(content.text));
      shown' := shown + [n];
      Record(n, now);
    }

    /** Lines 230-240 for a shown notification: log it, count it, and
        empty an oversized seen-set. */
    method Record(n: NotificationData, now: int)
      requires Valid()
      modifies this`processedFiles, this`history, this`unreadCount
      ensures Valid()
      ensures history == Recent(old(history) + [EntryOf(n, now)])
      ensures unreadCount == old(unreadCount) + 1
      ensures processedFiles == if |old(processedFiles)| > SeenLimit then {} else old(processedFiles)
    {
      history := history + [EntryOf(n, now)];
      if |history| > HistoryLimit {
        history := history[|history| - HistoryLimit..];
      }
      unreadCount := unreadCount + 1;
      if |processedFiles| > SeenLimit {
        processedFiles := {};
      }
    }

    /** `startReminderIfNeeded`: a timer is created only when reminders are
        on, something is unread and no timer runs, so calling it again
        changes nothing. */
    method StartReminderIfNeeded()
      requires Valid()
      modifies this`reminderActive
      ensures Valid()
      ensures reminderActive == (old(reminderActive) || (reminderEnabled && unreadCount > 0))
    {
      if reminderEnabled && unreadCount > 0 && !reminderActive {
        reminderActive := true;
      }
    }

    /** `stopReminder`. */
    method StopReminder()
      modifies this`reminderActive
      ensures !reminderActive
    {
      reminderActive := false;
    }

    /** One firing of the reminder timer: a sound is played iff something is
        unread, which the invariant guarantees for a live timer. */
    method ReminderTick() returns (chime: bool)
      requires Valid() && reminderActive
      ensures chime
    {
      chime := unreadCount > 0;
    }

    /** `toggleReminder`: turning reminders off stops the timer; turning
        them on starts it if something is unread. */
    method ToggleReminder()
      requires Valid()
      modifies this`reminderEnabled, this`reminderActive
      ensures Valid()
      ensures reminderEnabled == !old(reminderEnabled)
      ensures !reminderEnabled ==> !reminderActive
      ensures reminderEnabled ==> reminderActive == (old(reminderActive) || unreadCount > 0)
    {
      reminderEnabled := !reminderEnabled;
      if reminderEnabled {
        StartReminderIfNeeded();
      } else {
        StopReminder();
      }
    }

    /** `clearBadge`: nothing is unread and no reminder runs. */
    method ClearBadge()
      requires Valid()
      modifies this`unreadCount, this`reminderActive
      ensures Valid()
      ensures unreadCount == 0 && !reminderActive
    {
      unreadCount := 0;
      StopReminder();
    }

    /** `sendTest`: a simple alert, one more unread, and a history entry
        appended without trimming. */
    method SendTest(now: int) returns (alert: Presentation)
      requires Valid()
      modifies this`unreadCount, this`history, this`reminderActive
      ensures Valid()
      ensures alert == SimpleAlert(TestTitle, TestAlertBody)
      ensures unreadCount == old(unreadCount) + 1
      ensures history == old(history) + [Entry(TestTitle, TestHistoryBody, now)]
      ensures reminderActive == (old(reminderActive) || reminderEnabled)
    {
      alert := SimpleAlert(TestTitle, TestAlertBody);
      unreadCount := unreadCount + 1;
      history := history + [Entry(TestTitle, TestHistoryBody, now)];
      StartReminderIfNeeded();
    }

    /** `appDidResignActive`: a dialog waiting for input is aborted. */
    method AppDidResignActive() returns (aborted: bool)
      requires Valid()
      modifies this`isProcessingAlert, this`alertWindowOpen
      ensures Valid()
      ensures aborted == old(isProcessingAlert)
      ensures !isProcessingAlert && !alertWindowOpen
    {
      aborted := isProcessingAlert && alertWindowOpen;
      if aborted {
        isProcessingAlert := false;
        alertWindowOpen := false;
      }
    }

    /** Runs one modal dialog: records it (lines 316-317 and 358-359), lets
        it end, and reports whether it was still live when `runModal`
        returned, with the return code. */
    method RunModal(outcome: ModalOutcome) returns (wasProcessing: bool, returnCode: int)
      requires Valid()
      modifies this`isProcessingAlert, this`alertWindowOpen
      ensures Valid() && !isProcessingAlert && !alertWindowOpen
      ensures wasProcessing <==> outcome.Pressed?
      ensures returnCode == if outcome.Pressed? then outcome.returnCode else AbortReturn
    {
      alertWindowOpen := true;
      isProcessingAlert := true;
      match outcome {
        case Pressed(code) =>
          returnCode := code;
        case SwitchedAway =>
          var _ := AppDidResignActive();
          returnCode := AbortReturn;
      }
      wasProcessing := isProcessingAlert;
      isProcessingAlert := false;
      alertWindowOpen := false;
    }

    /** `showPermissionAlert`: a dialog abandoned by switching away sends
        nothing; otherwise the pressed button decides. */
    method ShowPermissionAlert(n: NotificationData, outcome: ModalOutcome) returns (r: Response)
      requires Valid()
      modifies this`isProcessingAlert, this`alertWindowOpen
      ensures Valid() && !isProcessingAlert && !alertWindowOpen
      ensures outcome.SwitchedAway? ==> r == NoResponse
      ensures outcome.Pressed? ==> r == PermissionResponse(n, true, outcome.returnCode)
    {
      var wasProcessing, code := RunModal(outcome);
      r := PermissionResponse(n, wasProcessing, code);
    }

    /** `showOptionsAlert`: likewise, with "Other..." focusing Terminal. */
    method ShowOptionsAlert(n: NotificationData, outcome: ModalOutcome) returns (r: Response)
      requires Valid()
      modifies this`isProcessingAlert, this`alertWindowOpen
      ensures Valid() && !isProcessingAlert && !alertWindowOpen
      ensures outcome.SwitchedAway? ==> r == NoResponse
      ensures outcome.Pressed? ==> r == OptionsResponse(n, true, outcome.returnCode)
    {
      var wasProcessing, code := RunModal(outcome);
      r := OptionsResponse(n, wasProcessing, code);
    }
  }
}
