/**
 * The durable battery recorder (tools/battery_record.py) over device reboots, ring
 * overwrites, and its own death after any character it writes.
 *
 * Boot IDs are taken in boot order; the recorder only compares them for equality.
 */
module Recorder {
  import opened Bytes
  import opened PowerLog

  type BootId = nat

  // ---------------- the files ----------------

  /** A saved row and how many characters its text takes, the final CR included. */
  datatype Saved = Saved(boot: BootId, row: Row, width: nat)

  /** One character of the CSV file: the k-th of a row or of the header, or a line feed. */
  datatype Glyph = LineFeed | HeaderGlyph(k: nat) | RowGlyph(saved: Saved, k: nat)

  const HEADER_WIDTH: nat := 200
  const TAIL: nat := 4096          // how much of the file's end a restart looks at

  datatype Event =
    | FirstBoot(boot: BootId)
    | DeviceReboot(boot: BootId, previous: BootId)
    | MissingSamples(boot: BootId, expected: nat, firstAvailable: nat)

  datatype Disk = Disk(file: seq<Glyph>, events: seq<Event>)

  predicate Fits(s: Saved) { 1 <= s.width < TAIL }

  function RowBody(s: Saved): seq<Glyph> { seq(s.width, k requires k >= 0 => RowGlyph(s, k)) }
  function RowText(s: Saved): seq<Glyph> { RowBody(s) + [LineFeed] }
  function HeaderBody(): seq<Glyph> { seq(HEADER_WIDTH, k requires k >= 0 => HeaderGlyph(k)) }
  function HeaderText(): seq<Glyph> { HeaderBody() + [LineFeed] }

  function RowsText(rows: seq<Saved>): seq<Glyph> {
    if rows == [] then [] else RowsText(rows[..|rows| - 1]) + RowText(rows[|rows| - 1])
  }

  /** The file holding these rows and then the beginning of a line. */
  function FileOf(rows: seq<Saved>, partial: seq<Glyph>): seq<Glyph> {
    HeaderText() + RowsText(rows) + partial
  }

  // ---------------- starting up ----------------

  function LastLineFeed(s: seq<Glyph>): (r: Option<nat>)
    ensures r.Some? ==> r.value < |s| && s[r.value] == LineFeed && LineFeed !in s[r.value + 1..]
    ensures r == None <==> LineFeed !in s
  {
    if s == [] then None
    else if s[|s| - 1] == LineFeed then Some(|s| - 1)
    else
      var front := s[..|s| - 1];
      var r := LastLineFeed(front);
      assert s == front + [s[|s| - 1]];
      assert r.Some? ==> s[r.value + 1..] == front[r.value + 1..] + [s[|s| - 1]];
      r
  }

  /** Cuts off a last line that was not finished; None when the end of the file has no line at all. */
  function Repaired(file: seq<Glyph>): Option<seq<Glyph>> {
    if file == [] || file[|file| - 1] == LineFeed then Some(file) else
      var from := if |file| > TAIL then |file| - TAIL else 0;
      match LastLineFeed(file[from..])
      case None => None
      case Some(p) => Some(file[..from + p + 1])
  }

  function FirstLineFeed(s: seq<Glyph>): (k: nat)
    ensures k <= |s|
    ensures k < |s| ==> s[k] == LineFeed
    ensures LineFeed !in s[..k]
  {
    if s == [] || s[0] == LineFeed then 0 else
      assert s[..1 + FirstLineFeed(s[1..])] == [s[0]] + s[1..][..FirstLineFeed(s[1..])];
      1 + FirstLineFeed(s[1..])
  }

  /** The rows of the lines after the header, None when one is malformed. */
  function ReadRows(s: seq<Glyph>): Option<seq<Saved>>
    decreases |s|
  {
    if s == [] then Some([]) else
      var k := FirstLineFeed(s);
      if k == |s| || k == 0 || !s[0].RowGlyph? || s[..k] != RowBody(s[0].saved) then None else
      match ReadRows(s[k + 1..])
      case None => None
      case Some(rest) => Some([s[0].saved] + rest)
  }

  /** The cursor that a restart rebuilds. */
  datatype Cursor = Cursor(boot: Option<BootId>, last: nat)

  function CursorOf(rows: seq<Saved>): Cursor {
    if rows == [] then Cursor(None, 0)
    else Cursor(Some(rows[|rows| - 1].boot), rows[|rows| - 1].row.seqNo)
  }

  /** A restart: the repaired file and the cursor, None when it refuses the file. */
  function Started(file: seq<Glyph>): Option<(seq<Glyph>, Cursor)> {
    match Repaired(file)
    case None => None
    case Some(f) =>
      if f == [] then Some((f, Cursor(None, 0)))
      else if !(HeaderText() <= f) then None
      else match ReadRows(f[|HeaderText()|..])
           case None => None
           case Some(rows) => Some((f, CursorOf(rows)))
  }

  lemma {:induction false} ReadOneRow(s: Saved, rest: seq<Glyph>)
    requires Fits(s)
    ensures ReadRows(RowText(s) + rest) ==
            match ReadRows(rest) case None => None case Some(r) => Some([s] + r)
  {
    var text := RowText(s) + rest;
    assert text[..s.width] == RowBody(s);
    assert text[s.width + 1..] == rest;
    FirstIs(text, s.width);
  }

  lemma {:induction false} FirstIs(s: seq<Glyph>, k: nat)
    requires k < |s| && s[k] == LineFeed && LineFeed !in s[..k]
    ensures FirstLineFeed(s) == k
    decreases k
  {
    if k > 0 {
      assert s[0] == s[..k][0];
      assert s[1..][..k - 1] == s[..k][1..];
      FirstIs(s[1..], k - 1);
    }
  }

  lemma {:induction false} LastIs(s: seq<Glyph>, k: nat)
    requires k < |s| && s[k] == LineFeed && LineFeed !in s[k + 1..]
    ensures LastLineFeed(s) == Some(k)
    decreases |s|
  {
    if k < |s| - 1 {
      var front := s[..|s| - 1];
      assert s[|s| - 1] == s[k + 1..][|s| - k - 2];
      assert s[k + 1..] == front[k + 1..] + [s[|s| - 1]];
      LastIs(front, k);
    }
  }

  lemma {:induction false} RowsTextCons(rows: seq<Saved>)
    requires rows != []
    ensures RowsText(rows) == RowText(rows[0]) + RowsText(rows[1..])
    decreases |rows|
  {
    if |rows| > 1 {
      RowsTextCons(rows[..|rows| - 1]);
      assert rows[1..][..|rows| - 2] == rows[..|rows| - 1][1..];
      ConcatAssoc(RowText(rows[0]), RowsText(rows[..|rows| - 1][1..]), RowText(rows[|rows| - 1]));
    } else {
      assert rows[..0] == [] && rows[1..] == [];
      ConcatEmpty(RowText(rows[0]));
    }
  }

  /** Reading back what was written. */
  lemma {:induction false} ReadWritten(rows: seq<Saved>)
    requires forall i :: 0 <= i < |rows| ==> Fits(rows[i])
    ensures ReadRows(RowsText(rows)) == Some(rows)
    decreases |rows|
  {
    if rows != [] {
      RowsTextCons(rows);
      ReadWritten(rows[1..]);
      ReadOneRow(rows[0], RowsText(rows[1..]));
      assert [rows[0]] + rows[1..] == rows;
    }
  }

  lemma {:induction false} EndsWithLineFeed(rows: seq<Saved>)
    ensures var f := HeaderText() + RowsText(rows); f[|f| - 1] == LineFeed
  {
  }

  /** A restart drops exactly the unfinished line and resumes after the last whole row. */
  lemma RestartRecovers(rows: seq<Saved>, partial: seq<Glyph>)
    requires forall i :: 0 <= i < |rows| ==> Fits(rows[i])
    requires LineFeed !in partial && |partial| < TAIL
    ensures Started(FileOf(rows, partial)) == Some((FileOf(rows, []), CursorOf(rows)))
  {
    var whole := HeaderText() + RowsText(rows);
    EndsWithLineFeed(rows);
    ConcatEmpty(whole);
    RepairCuts(whole, partial);
    assert whole[|HeaderText()|..] == RowsText(rows);
    ReadWritten(rows);
  }

  lemma TailAfter(whole: seq<Glyph>, partial: seq<Glyph>, from: nat)
    requires whole != [] && whole[|whole| - 1] == LineFeed && LineFeed !in partial && from < |whole|
    ensures LastLineFeed((whole + partial)[from..]) == Some(|whole| - 1 - from)
    ensures (whole + partial)[..|whole|] == whole
  {
    var at := |whole| - 1 - from;
    assert (whole + partial)[from..][at + 1..] == partial;
    LastIs((whole + partial)[from..], at);
  }

  lemma RepairCuts(whole: seq<Glyph>, partial: seq<Glyph>)
    requires whole != [] && whole[|whole| - 1] == LineFeed
    requires LineFeed !in partial && |partial| < TAIL
    ensures Repaired(whole + partial) == Some(whole)
  {
    if partial == [] {
      ConcatEmpty(whole);
    } else {
      var n := |whole + partial|;
      assert (whole + partial)[n - 1] == partial[|partial| - 1];
      hide LastLineFeed;
      TailAfter(whole, partial, if n > TAIL then n - TAIL else 0);
    }
  }

  /** A death inside the very first line leaves a file that no restart accepts. */
  lemma PartialHeaderRefused(n: nat)
    requires 0 < n <= HEADER_WIDTH
    ensures Started(HeaderText()[..n]) == None
  {
    var file := HeaderText()[..n];
    assert forall i :: 0 <= i < n ==> file[i] == HeaderGlyph(i);
  }

  // ---------------- the device and the process ----------------

  /** The samples of every boot so far; the last boot is the running one. */
  datatype World = World(histories: seq<seq<Sample>>)

  function Running(w: World): BootId
    requires w.histories != []
  {
    |w.histories| - 1
  }

  function Fetched(w: World, after: nat): Page
    requires w.histories != []
  {
    PageOf(Running(w), w.histories[Running(w)], after)
  }

  /** The process, between runs, between pages, or with rows of a page still to save. */
  datatype Process = Down | Idle(cursor: Cursor) | Saving(cursor: Cursor, todo: seq<Row>)

  /** `rows`, `partial` and `begun` describe what is in the file, for stating properties. */
  datatype System = System(w: World, disk: Disk, process: Process, rows: seq<Saved>, begun: bool, partial: seq<Glyph>)

  datatype Action =
    | NoteSample(sample: Sample)
    | RebootDevice
    | Poll                          // fetch a page and begin ingesting it
    | Save(width: nat)              // the next row of the page, completely
    | SaveAndDie(width: nat, k: nat)  // killed after k of its effects
    | Finish                        // the page is done
    | Die
    | Restart

  datatype Effect = Logs(event: Event) | Writes(glyph: Glyph)

  function WritesAll(text: seq<Glyph>): (r: seq<Effect>)
    ensures |r| == |text| && forall i :: 0 <= i < |r| ==> r[i] == Writes(text[i])
  {
    seq(|text|, i requires 0 <= i < |text| => Writes(text[i]))
  }

  function LogsAll(events: seq<Event>): (r: seq<Effect>)
    ensures |r| == |events| && forall i :: 0 <= i < |r| ==> r[i] == Logs(events[i])
  {
    seq(|events|, i requires 0 <= i < |events| => Logs(events[i]))
  }

  function GapEvents(cursor: Cursor, row: Row): (r: seq<Event>)
    requires cursor.boot.Some?
    ensures |r| <= 1
  {
    if row.seqNo != cursor.last + 1 then [MissingSamples(cursor.boot.value, cursor.last + 1, row.seqNo)] else []
  }

  /** The header goes into an empty file with the first row. */
  function SavedText(file: seq<Glyph>, saved: Saved): seq<Glyph> {
    (if file == [] then HeaderText() else []) + RowText(saved)
  }

  /** Everything one row's turn of the loop leaves on disk, in order. */
  function SaveEffects(disk: Disk, cursor: Cursor, row: Row, width: nat): seq<Effect>
    requires cursor.boot.Some?
  {
    var gap := GapEvents(cursor, row);
    LogsAll(gap) + WritesAll(SavedText(disk.file, Saved(cursor.boot.value, row, width)))
  }

  function Done(disk: Disk, effects: seq<Effect>): Disk
    decreases effects
  {
    if effects == [] then disk else
      Done(match effects[0]
           case Logs(e) => disk.(events := disk.events + [e])
           case Writes(g) => disk.(file := disk.file + [g]), effects[1..])
  }

  /** How a fetched page is taken up: events, new cursor, rows to save, or the refusal to stand still. */
  datatype Opening = Opening(events: seq<Event>, cursor: Cursor, todo: seq<Row>, stuck: bool)

  function Newer(rows: seq<Row>, last: nat): seq<Row> {
    if rows == [] then [] else
      (if rows[0].seqNo > last then [rows[0]] else []) + Newer(rows[1..], last)
  }

  function Opened(cursor: Cursor, page: Page): Opening {
    if Some(page.boot) != cursor.boot then
      var event := if cursor.boot == None then FirstBoot(page.boot) else DeviceReboot(page.boot, cursor.boot.value);
      var restart := Cursor(Some(page.boot), 0);
      if cursor.last != 0 then Opening([event], restart, [], false)   // fetched with the old boot's cursor
      else Opening([event], restart, Newer(page.rows, 0), Newer(page.rows, 0) == [] && page.latest > 0)
    else
      var todo := Newer(page.rows, cursor.last);
      Opening([], cursor, todo, todo == [] && cursor.last < page.latest)
  }

  /**
   * A page is refused if and only if it offers no row beyond the cursor although it says
   * that there are some, unless it was fetched with another boot's cursor.
   */
  lemma RefusedMeansNoProgress(c: Cursor, p: Page)
    ensures var last := if c.boot == Some(p.boot) then c.last else 0;
            Opened(c, p).stuck <==>
              && (c.boot == Some(p.boot) || c.last == 0)
              && last < p.latest && forall i :: 0 <= i < |p.rows| ==> p.rows[i].seqNo <= last
  {
    NewerIsEmpty(p.rows, if c.boot == Some(p.boot) then c.last else 0);
    hide Newer;
  }

  lemma {:induction false} NewerIsEmpty(rows: seq<Row>, last: nat)
    ensures Newer(rows, last) == [] <==> forall i :: 0 <= i < |rows| ==> rows[i].seqNo <= last
    decreases rows
  {
    if rows != [] {
      NewerIsEmpty(rows[1..], last);
      assert (forall i :: 0 <= i < |rows| ==> rows[i].seqNo <= last) <==>
             rows[0].seqNo <= last && forall i :: 0 <= i < |rows[1..]| ==> rows[1..][i].seqNo <= last by {
        assert forall i :: 0 <= i < |rows[1..]| ==> rows[1..][i] == rows[i + 1];
        if rows[0].seqNo <= last && forall i :: 0 <= i < |rows[1..]| ==> rows[1..][i].seqNo <= last {
          forall i | 0 <= i < |rows| ensures rows[i].seqNo <= last {
            if i > 0 {
              assert rows[i] == rows[1..][i - 1];
            }
          }
        }
      }
    }
  }

  predicate Allowed(s: System, a: Action) {
    match a
    case NoteSample(_) => s.w.histories != []
    case RebootDevice => true
    case Poll => s.process.Idle? && s.w.histories != []
    case Save(width) => s.process.Saving? && s.process.todo != [] && s.process.cursor.boot.Some? && 1 <= width < TAIL
    case SaveAndDie(width, k) =>
      && s.process.Saving? && s.process.todo != [] && s.process.cursor.boot.Some? && 1 <= width < TAIL
      && k <= |SaveEffects(s.disk, s.process.cursor, s.process.todo[0], width)|
    case Finish => s.process.Saving? && s.process.todo == []
    case Die => true
    case Restart => s.process.Down?
  }

  /** What is in the file after n of the characters of a row's turn. */
  function AfterText(s: System, saved: Saved, n: nat): System
    requires n <= |SavedText(s.disk.file, saved)|
  {
    var header := if s.disk.file == [] then |HeaderText()| else 0;
    if n < header then s.(partial := HeaderText()[..n])
    else if n - header == |RowText(saved)| then s.(begun := true, rows := s.rows + [saved], partial := [])
    else s.(begun := s.begun || header > 0, partial := RowText(saved)[..n - header])
  }

  /** What is in the file after k of the effects of saving a row. */
  function Torn(s: System, row: Row, width: nat, k: nat): System
    requires s.process.Saving? && s.process.cursor.boot.Some?
    requires k <= |SaveEffects(s.disk, s.process.cursor, row, width)|
  {
    var gap := |GapEvents(s.process.cursor, row)|;
    AfterText(s, Saved(s.process.cursor.boot.value, row, width), if k <= gap then 0 else k - gap)
  }

  function Acted(s: System, a: Action): System
    requires Allowed(s, a)
  {
    match a
    case NoteSample(x) =>
      s.(w := World(s.w.histories[Running(s.w) := s.w.histories[Running(s.w)] + [x]]))
    case RebootDevice => s.(w := World(s.w.histories + [[]]))
    case Poll =>
      var o := Opened(s.process.cursor, Fetched(s.w, s.process.cursor.last));
      s.(disk := s.disk.(events := s.disk.events + o.events),
         process := if o.stuck then Down else Saving(o.cursor, o.todo))
    case Save(width) =>
      var row, cursor := s.process.todo[0], s.process.cursor;
      var effects := SaveEffects(s.disk, cursor, row, width);
      Torn(s, row, width, |effects|).(
        disk := Done(s.disk, effects),
        process := Saving(Cursor(cursor.boot, row.seqNo), s.process.todo[1..]))
    case SaveAndDie(width, k) =>
      var row := s.process.todo[0];
      Torn(s, row, width, k).(
        disk := Done(s.disk, SaveEffects(s.disk, s.process.cursor, row, width)[..k]),
        process := Down)
    case Finish => s.(process := Idle(s.process.cursor))
    case Die => s.(process := Down)
    case Restart =>
      match Started(s.disk.file)
      case None => s
      case Some(r) => s.(disk := s.disk.(file := r.0), process := Idle(r.1), partial := [])
  }

  predicate Run(s: System, actions: seq<Action>)
    decreases actions
  {
    actions == [] || (Allowed(s, actions[0]) && Run(Acted(s, actions[0]), actions[1..]))
  }

  function End(s: System, actions: seq<Action>): System
    requires Run(s, actions)
    decreases actions
  {
    if actions == [] then s else End(Acted(s, actions[0]), actions[1..])
  }

  // ---------------- what every action keeps ----------------

  /** The number expected of the i-th row: 1 at the start of a boot, else one more than the row before. */
  function Expected(rows: seq<Saved>, i: nat): nat
    requires i <= |rows|
  {
    if i == 0 then 1 else rows[i - 1].row.seqNo + 1
  }

  predicate SameBoot(rows: seq<Saved>, i: nat)
    requires i < |rows|
  {
    i > 0 && rows[i - 1].boot == rows[i].boot
  }

  /** No longer in the ring of a boot that has reached `latest`. */
  predicate Lost(n: nat, latest: nat) { n + CAPACITY <= latest }

  predicate Overwritten(w: World, boot: BootId, n: nat) {
    boot < |w.histories| && Lost(n, |w.histories[boot]|)
  }

  predicate Grown(w: World, w': World) {
    |w.histories| <= |w'.histories| && forall b :: 0 <= b < |w.histories| ==> w.histories[b] <= w'.histories[b]
  }

  predicate NotedAs(w: World, boot: BootId, row: Row) {
    boot < |w.histories| && 1 <= row.seqNo <= |w.histories[boot]| && w.histories[boot][row.seqNo - 1] == row.sample
  }

  /** A row follows on, or an event says which numbers are missing and the device had lost them all. */
  predicate FollowsOn(w: World, events: seq<Event>, boot: BootId, expected: nat, row: Row) {
    && expected <= row.seqNo
    && (expected < row.seqNo ==> MissingSamples(boot, expected, row.seqNo) in events)
    && forall n: nat :: expected <= n < row.seqNo ==> Overwritten(w, boot, n)
  }

  predicate RowOk(w: World, events: seq<Event>, rows: seq<Saved>, i: nat)
    requires i < |rows|
  {
    && Fits(rows[i]) && NotedAs(w, rows[i].boot, rows[i].row)
    && (i > 0 ==> rows[i - 1].boot <= rows[i].boot)
    && FollowsOn(w, events, rows[i].boot, if SameBoot(rows, i) then Expected(rows, i) else 1, rows[i].row)
  }

  predicate RowsOk(w: World, events: seq<Event>, rows: seq<Saved>) {
    forall i :: 0 <= i < |rows| ==> RowOk(w, events, rows, i)
  }

  predicate FileOk(s: System) {
    && (s.begun ==> s.disk.file == FileOf(s.rows, s.partial) && LineFeed !in s.partial && |s.partial| < TAIL)
    && (!s.begun ==> s.rows == [] && s.disk.file == s.partial && s.partial < HeaderText())
    && (!s.process.Down? ==> s.partial == [])
  }

  /** The cursor is where the file ends, or at the start of a boot that has no row yet. */
  predicate CursorOk(s: System, c: Cursor) {
    && (c.last != 0 ==> s.rows != [] && c == CursorOf(s.rows))
    && (c.boot.Some? ==> c.boot.value < |s.w.histories|)
    && (c.last == 0 && s.rows != [] ==> c.boot.Some? && s.rows[|s.rows| - 1].boot < c.boot.value)
  }

  predicate TodoOk(w: World, c: Cursor, todo: seq<Row>) {
    todo != [] ==>
      && c.boot.Some? && c.last < todo[0].seqNo
      && (forall i :: 0 <= i < |todo| ==> NotedAs(w, c.boot.value, todo[i]) && todo[i].seqNo == todo[0].seqNo + i)
      && forall n: nat :: c.last < n < todo[0].seqNo ==> Overwritten(w, c.boot.value, n)
  }

  predicate Inv(s: System) {
    && FileOk(s)
    && RowsOk(s.w, s.disk.events, s.rows)
    && (!s.process.Down? ==> CursorOk(s, s.process.cursor))
    && (s.process.Saving? ==> TodoOk(s.w, s.process.cursor, s.process.todo))
  }

  lemma {:induction false} DoneConcat(disk: Disk, a: seq<Effect>, b: seq<Effect>)
    ensures Done(disk, a + b) == Done(Done(disk, a), b)
    decreases a
  {
    if a == [] {
      ConcatEmpty(b);
    } else {
      assert (a + b)[1..] == a[1..] + b;
      var d := match a[0]
               case Logs(e) => disk.(events := disk.events + [e])
               case Writes(g) => disk.(file := disk.file + [g]);
      DoneConcat(d, a[1..], b);
    }
  }

  lemma {:induction false} DoneWrites(disk: Disk, text: seq<Glyph>)
    ensures Done(disk, WritesAll(text)) == disk.(file := disk.file + text)
    decreases |text|
  {
    if text == [] {
      ConcatEmpty(disk.file);
    } else {
      assert WritesAll(text)[1..] == WritesAll(text[1..]);
      DoneWrites(disk.(file := disk.file + [text[0]]), text[1..]);
      assert disk.file + [text[0]] + text[1..] == disk.file + text;
    }
  }

  lemma DoneLogs(disk: Disk, events: seq<Event>)
    requires |events| <= 1
    ensures Done(disk, LogsAll(events)) == disk.(events := disk.events + events)
  {
    if events == [] {
      ConcatEmpty(disk.events);
    } else {
      assert LogsAll(events)[1..] == [];
      assert events == [events[0]];
    }
  }

  lemma SplitEffects(gap: seq<Event>, text: seq<Glyph>, k: nat)
    requires k <= |gap| + |text|
    ensures var n := if k <= |gap| then 0 else k - |gap|;
            (LogsAll(gap) + WritesAll(text))[..k] == LogsAll(gap[..Min(k, |gap|)]) + WritesAll(text[..n])
  {
  }

  /** After k effects: the event first, then so many characters. */
  lemma DonePart(disk: Disk, cursor: Cursor, row: Row, width: nat, k: nat)
    requires cursor.boot.Some? && k <= |SaveEffects(disk, cursor, row, width)|
    ensures var gap := GapEvents(cursor, row);
            var text := SavedText(disk.file, Saved(cursor.boot.value, row, width));
            var n := if k <= |gap| then 0 else k - |gap|;
            && n <= |text|
            && Done(disk, SaveEffects(disk, cursor, row, width)[..k]) ==
               Disk(disk.file + text[..n], disk.events + gap[..Min(k, |gap|)])
  {
    var gap := GapEvents(cursor, row);
    var text := SavedText(disk.file, Saved(cursor.boot.value, row, width));
    var n := if k <= |gap| then 0 else k - |gap|;
    hide Done, GapEvents, SavedText, LogsAll, WritesAll;
    SplitEffects(gap, text, k);
    var logs := LogsAll(gap[..Min(k, |gap|)]);
    DoneConcat(disk, logs, WritesAll(text[..n]));
    DoneLogs(disk, gap[..Min(k, |gap|)]);
    DoneWrites(Done(disk, logs), text[..n]);
  }

  lemma RowsTextSnoc(rows: seq<Saved>, saved: Saved)
    ensures RowsText(rows + [saved]) == RowsText(rows) + RowText(saved)
  {
    assert (rows + [saved])[..|rows|] == rows;
  }

  lemma FirstText(saved: Saved, n: nat)
    requires Fits(saved) && n <= |HeaderText() + RowText(saved)|
    ensures var text := (HeaderText() + RowText(saved))[..n];
            if n < |HeaderText()| then text == HeaderText()[..n] && text < HeaderText()
            else text == FileOf([], []) + RowText(saved)[..n - |HeaderText()|]
  {
    ConcatEmpty(HeaderText());
    if n < |HeaderText()| {
      assert (HeaderText() + RowText(saved))[..n] == HeaderText()[..n];
    } else {
      assert (HeaderText() + RowText(saved))[..n] == HeaderText() + RowText(saved)[..n - |HeaderText()|];
    }
  }

  lemma FileNotEmpty(rows: seq<Saved>, partial: seq<Glyph>)
    ensures FileOf(rows, partial) != []
  {
  }

  /** The file after n of a row's characters is what the description says. */
  lemma TornText(s: System, saved: Saved, n: nat)
    requires FileOk(s) && s.partial == [] && Fits(saved) && n <= |SavedText(s.disk.file, saved)|
    ensures var file := s.disk.file + SavedText(s.disk.file, saved)[..n];
            FileOk(AfterText(s, saved, n).(disk := s.disk.(file := file), process := Down))
  {
    hide RowsText, HeaderText, RowText, FileOf;
    ConcatEmpty(s.disk.file);
    ConcatEmpty(RowText(saved));
    if s.begun {
      FileNotEmpty(s.rows, s.partial);
      TornRow(s.rows, saved, n);
    } else {
      FirstText(saved, n);
      if n >= |HeaderText()| {
        TornRow([], saved, n - |HeaderText()|);
      }
    }
  }

  lemma TornFile(s: System, row: Row, width: nat, k: nat)
    requires FileOk(s) && s.process.Saving? && s.process.cursor.boot.Some? && 1 <= width < TAIL
    requires k <= |SaveEffects(s.disk, s.process.cursor, row, width)|
    ensures FileOk(Torn(s, row, width, k).(
              disk := Done(s.disk, SaveEffects(s.disk, s.process.cursor, row, width)[..k]), process := Down))
  {
    DonePart(s.disk, s.process.cursor, row, width, k);
    var gap := GapEvents(s.process.cursor, row);
    TornText(s, Saved(s.process.cursor.boot.value, row, width), if k <= |gap| then 0 else k - |gap|);
    hide SaveEffects, Done, SavedText, AfterText, GapEvents;
  }

  lemma TornRow(rows: seq<Saved>, saved: Saved, n: nat)
    requires Fits(saved) && n <= |RowText(saved)|
    ensures FileOf(rows, []) + RowText(saved)[..n] ==
            if n == |RowText(saved)| then FileOf(rows + [saved], []) else FileOf(rows, RowText(saved)[..n])
    ensures n < |RowText(saved)| ==> LineFeed !in RowText(saved)[..n] && |RowText(saved)[..n]| < TAIL
  {
    ConcatEmpty(HeaderText() + RowsText(rows));
    if n == |RowText(saved)| {
      RowsTextSnoc(rows, saved);
      assert RowText(saved)[..n] == RowText(saved);
      ConcatAssoc(HeaderText(), RowsText(rows), RowText(saved));
      ConcatEmpty(HeaderText() + RowsText(rows + [saved]));
    }
  }

  lemma OverwrittenStays(w: World, w': World, b: BootId)
    requires Grown(w, w')
    ensures forall n: nat {:trigger Overwritten(w', b, n)} :: Overwritten(w, b, n) ==> Overwritten(w', b, n)
  {
    if b < |w.histories| {
      assert w.histories[b] <= w'.histories[b];
    }
  }

  lemma RowsOkMonotone(w: World, w': World, events: seq<Event>, more: seq<Event>, rows: seq<Saved>)
    requires RowsOk(w, events, rows)
    requires Grown(w, w')
    ensures RowsOk(w', events + more, rows)
  {
    forall i | 0 <= i < |rows| ensures RowOk(w', events + more, rows, i) {
      assert RowOk(w, events, rows, i);
      OverwrittenStays(w, w', rows[i].boot);
      assert w.histories[rows[i].boot] <= w'.histories[rows[i].boot];
    }
  }

  lemma TodoOkMonotone(w: World, w': World, c: Cursor, todo: seq<Row>)
    requires TodoOk(w, c, todo) && Grown(w, w')
    ensures TodoOk(w', c, todo)
  {
    if todo != [] {
      assert NotedAs(w, c.boot.value, todo[0]);
      OverwrittenStays(w, w', c.boot.value);
      assert w.histories[c.boot.value] <= w'.histories[c.boot.value];
    }
  }

  /** The row in hand follows on from the file. */
  lemma NextRowOk(s: System, row: Row, width: nat)
    requires Inv(s) && s.process.Saving? && s.process.todo != [] && row == s.process.todo[0] && 1 <= width < TAIL
    ensures s.process.cursor.boot.Some?
    ensures RowsOk(s.w, s.disk.events + GapEvents(s.process.cursor, row),
                   s.rows + [Saved(s.process.cursor.boot.value, row, width)])
  {
    var cursor := s.process.cursor;
    var events := s.disk.events + GapEvents(cursor, row);
    var rows := s.rows + [Saved(cursor.boot.value, row, width)];
    RowsOkMonotone(s.w, s.w, s.disk.events, GapEvents(cursor, row), s.rows);
    forall i | 0 <= i < |rows| ensures RowOk(s.w, events, rows, i) {
      if i < |s.rows| {
        assert RowOk(s.w, events, s.rows, i);
      }
    }
  }

  lemma PageFacts(boot: nat, history: seq<Sample>, after: nat)
    ensures var page := PageOf(boot, history, after);
            && (page.rows == [] <==> after >= |history|)
            && (page.rows != [] ==>
                  && after < page.rows[0].seqNo
                  && (forall i :: 0 <= i < |page.rows| ==>
                        page.rows[i].seqNo == page.rows[0].seqNo + i
                        && 1 <= page.rows[i].seqNo <= |history|
                        && page.rows[i].sample == history[page.rows[i].seqNo - 1])
                  && forall n: nat :: after < n < page.rows[0].seqNo ==> Lost(n, |history|))
  {
  }

  lemma {:induction false} NewerAll(rows: seq<Row>, last: nat)
    requires forall i :: 0 <= i < |rows| ==> rows[i].seqNo > last
    ensures Newer(rows, last) == rows
    decreases rows
  {
    if rows != [] {
      NewerAll(rows[1..], last);
      assert [rows[0]] + rows[1..] == rows;
    }
  }

  lemma OpenedFacts(w: World, c: Cursor)
    requires w.histories != [] && (c.boot.Some? ==> c.boot.value < |w.histories|)
    ensures var o := Opened(c, Fetched(w, c.last));
            && !o.stuck && o.cursor.boot == Some(Running(w))
            && (o.cursor == c || (o.cursor.last == 0 && c.boot != o.cursor.boot))
            && TodoOk(w, o.cursor, o.todo)
  {
    var b := Running(w);
    PageFacts(b, w.histories[b], c.last);
    NewerAll(Fetched(w, c.last).rows, c.last);
    hide PageOf;
  }

  /** Taking up a page of this device always makes progress, and leaves rows that follow on. */
  lemma PollKeeps(s: System)
    requires Inv(s) && Allowed(s, Poll)
    ensures Inv(Acted(s, Poll))
    ensures Acted(s, Poll).process.Saving?
  {
    var c := s.process.cursor;
    OpenedFacts(s.w, c);
    var o := Opened(c, Fetched(s.w, c.last));
    RowsOkMonotone(s.w, s.w, s.disk.events, o.events, s.rows);
    hide Opened, Fetched, TodoOk, RowsOk;
  }

  lemma SaveKeeps(s: System, width: nat)
    requires Inv(s) && Allowed(s, Save(width))
    ensures Inv(Acted(s, Save(width)))
  {
    var row, cursor := s.process.todo[0], s.process.cursor;
    var effects := SaveEffects(s.disk, cursor, row, width);
    assert effects[..|effects|] == effects;
    TornFile(s, row, width, |effects|);
    DonePart(s.disk, cursor, row, width, |effects|);
    NextRowOk(s, row, width);
    var gap := GapEvents(cursor, row);
    assert gap[..|gap|] == gap;
  }

  lemma SaveAndDieKeeps(s: System, width: nat, k: nat)
    requires Inv(s) && Allowed(s, SaveAndDie(width, k))
    ensures Inv(Acted(s, SaveAndDie(width, k)))
  {
    var row, cursor := s.process.todo[0], s.process.cursor;
    var gap := GapEvents(cursor, row);
    TornFile(s, row, width, k);
    DonePart(s.disk, cursor, row, width, k);
    NextRowOk(s, row, width);
    RowsOkMonotone(s.w, s.w, s.disk.events, gap[..Min(k, |gap|)], s.rows);
    assert gap[..|gap|] == gap;
  }

  lemma RestartKeeps(s: System)
    requires Inv(s) && Allowed(s, Restart)
    ensures Inv(Acted(s, Restart))
    ensures Acted(s, Restart).process.Down? <==> !s.begun && s.disk.file != []
  {
    if s.begun {
      forall i | 0 <= i < |s.rows| ensures Fits(s.rows[i]) {
        assert RowOk(s.w, s.disk.events, s.rows, i);
      }
      RestartRecovers(s.rows, s.partial);
      assert s.rows != [] ==> RowOk(s.w, s.disk.events, s.rows, |s.rows| - 1);
    } else if s.disk.file != [] {
      assert s.disk.file == HeaderText()[..|s.partial|];
      PartialHeaderRefused(|s.partial|);
    }
  }

  lemma DeviceKeeps(s: System, a: Action)
    requires Inv(s) && Allowed(s, a) && (a.NoteSample? || a.RebootDevice?)
    ensures Inv(Acted(s, a))
  {
    var w' := Acted(s, a).w;
    RowsOkMonotone(s.w, w', s.disk.events, [], s.rows);
    ConcatEmpty(s.disk.events);
    if s.process.Saving? {
      TodoOkMonotone(s.w, w', s.process.cursor, s.process.todo);
    }
    hide TodoOk, RowsOk;
  }

  lemma ActionKeeps(s: System, a: Action)
    requires Inv(s) && Allowed(s, a)
    ensures Inv(Acted(s, a))
  {
    match a
    case NoteSample(x) => DeviceKeeps(s, a);
    case RebootDevice => DeviceKeeps(s, a);
    case Poll => PollKeeps(s);
    case Save(width) => SaveKeeps(s, width);
    case SaveAndDie(width, k) => SaveAndDieKeeps(s, width, k);
    case Restart => RestartKeeps(s);
    case _ =>
  }

  lemma {:induction false} RunKeeps(s: System, actions: seq<Action>)
    requires Inv(s) && Run(s, actions)
    ensures Inv(End(s, actions))
    decreases actions
  {
    if actions != [] {
      ActionKeeps(s, actions[0]);
      RunKeeps(Acted(s, actions[0]), actions[1..]);
    }
  }

  // ---------------- what the file promises its reader ----------------

  /** A device in its first boot, no file yet, the recorder not started. */
  const NEW := System(World([[]]), Disk([], []), Down, [], false, [])

  lemma {:induction false} RowsAscend(w: World, events: seq<Event>, rows: seq<Saved>, i: nat, j: nat)
    requires RowsOk(w, events, rows) && i < j < |rows|
    ensures rows[i].boot < rows[j].boot
            || (rows[i].boot == rows[j].boot && rows[i].row.seqNo < rows[j].row.seqNo)
    decreases j
  {
    assert RowOk(w, events, rows, j);
    if i < j - 1 {
      RowsAscend(w, events, rows, i, j - 1);
    }
  }

  predicate HasRow(rows: seq<Saved>, boot: BootId, n: nat) {
    exists i :: 0 <= i < |rows| && rows[i].boot == boot && rows[i].row.seqNo == n
  }

  predicate ReportedMissing(events: seq<Event>, boot: BootId, n: nat) {
    exists i :: 0 <= i < |events| && events[i].MissingSamples? && events[i].boot == boot
                && events[i].expected <= n < events[i].firstAvailable
  }

  lemma {:induction false} SkippedIsReported(w: World, events: seq<Event>, rows: seq<Saved>, j: nat, n: nat)
    requires RowsOk(w, events, rows) && j < |rows| && 1 <= n < rows[j].row.seqNo
    ensures || HasRow(rows, rows[j].boot, n)
            || (ReportedMissing(events, rows[j].boot, n) && Overwritten(w, rows[j].boot, n))
    decreases j
  {
    assert RowOk(w, events, rows, j);
    if SameBoot(rows, j) && n <= rows[j - 1].row.seqNo {
      if n < rows[j - 1].row.seqNo {
        SkippedIsReported(w, events, rows, j - 1, n);
      }
    } else {
      var expected := if SameBoot(rows, j) then Expected(rows, j) else 1;
      assert MissingSamples(rows[j].boot, expected, rows[j].row.seqNo) in events;
    }
  }

  /**
   * After every run of samples, overwrites, device reboots, fetches and deaths at
   * any character: each row is the sample its boot noted under that number, rows
   * ascend strictly, and a number passed over was reported missing and had already
   * been overwritten in the device.
   */
  lemma RecordIsSound(actions: seq<Action>)
    requires Run(NEW, actions)
    ensures var e := End(NEW, actions);
            && (e.begun ==> e.disk.file == FileOf(e.rows, e.partial))
            && (!e.begun ==> e.rows == [])
            && (forall i :: 0 <= i < |e.rows| ==> NotedAs(e.w, e.rows[i].boot, e.rows[i].row))
            && (forall i, j :: 0 <= i < j < |e.rows| ==>
                  e.rows[i].boot < e.rows[j].boot
                  || (e.rows[i].boot == e.rows[j].boot && e.rows[i].row.seqNo < e.rows[j].row.seqNo))
            && (forall j, n: nat :: 0 <= j < |e.rows| && 1 <= n < e.rows[j].row.seqNo ==>
                  HasRow(e.rows, e.rows[j].boot, n)
                  || (ReportedMissing(e.disk.events, e.rows[j].boot, n) && Overwritten(e.w, e.rows[j].boot, n)))
  {
    RunKeeps(NEW, actions);
    var e := End(NEW, actions);
    forall i | 0 <= i < |e.rows| ensures NotedAs(e.w, e.rows[i].boot, e.rows[i].row) {
      assert RowOk(e.w, e.disk.events, e.rows, i);
    }
    forall i, j | 0 <= i < j < |e.rows|
      ensures e.rows[i].boot < e.rows[j].boot
              || (e.rows[i].boot == e.rows[j].boot && e.rows[i].row.seqNo < e.rows[j].row.seqNo)
    {
      RowsAscend(e.w, e.disk.events, e.rows, i, j);
    }
    forall j, n: nat | 0 <= j < |e.rows| && 1 <= n < e.rows[j].row.seqNo
      ensures HasRow(e.rows, e.rows[j].boot, n)
              || (ReportedMissing(e.disk.events, e.rows[j].boot, n) && Overwritten(e.w, e.rows[j].boot, n))
    {
      SkippedIsReported(e.w, e.disk.events, e.rows, j, n);
    }
  }

  // ---------------- what the events say about boots ----------------

  predicate FirstSeen(events: seq<Event>, boot: BootId) { FirstBoot(boot) in events }

  /** A reboot into the boot, from one no older than `least`, was reported. */
  predicate RebootSeen(events: seq<Event>, boot: BootId, least: nat) {
    exists previous: BootId :: least <= previous < boot && DeviceReboot(boot, previous) in events
  }

  predicate EventTrue(w: World, e: Event) {
    match e
    case FirstBoot(boot) => boot < |w.histories|
    case DeviceReboot(boot, previous) => previous < boot < |w.histories|
    case MissingSamples(boot, expected, first) =>
      expected < first && forall n: nat :: expected <= n < first ==> Overwritten(w, boot, n)
  }

  predicate EventsTrue(w: World, events: seq<Event>) {
    forall i :: 0 <= i < |events| ==> EventTrue(w, events[i])
  }

  /** What must have been reported before a row of the boot may follow these rows. */
  predicate Announced(events: seq<Event>, rows: seq<Saved>, boot: BootId) {
    if rows == [] then FirstSeen(events, boot) || RebootSeen(events, boot, 0)
    else var last := rows[|rows| - 1].boot; last == boot || RebootSeen(events, boot, last)
  }

  predicate RowsAnnounced(events: seq<Event>, rows: seq<Saved>) {
    forall i :: 0 <= i < |rows| ==> Announced(events, rows[..i], rows[i].boot)
  }

  predicate Reported(s: System) {
    && EventsTrue(s.w, s.disk.events)
    && RowsAnnounced(s.disk.events, s.rows)
    && (!s.process.Down? && s.process.cursor.boot.Some? ==>
          Announced(s.disk.events, s.rows, s.process.cursor.boot.value))
  }

  lemma AnnouncedStays(events: seq<Event>, more: seq<Event>, rows: seq<Saved>, boot: BootId)
    requires Announced(events, rows, boot)
    ensures Announced(events + more, rows, boot)
  {
    var least := if rows == [] then 0 else rows[|rows| - 1].boot;
    if RebootSeen(events, boot, least) {
      var previous: BootId :| least <= previous < boot && DeviceReboot(boot, previous) in events;
      assert DeviceReboot(boot, previous) in events + more;
    }
  }

  lemma RowsAnnouncedStay(events: seq<Event>, more: seq<Event>, rows: seq<Saved>)
    requires RowsAnnounced(events, rows)
    ensures RowsAnnounced(events + more, rows)
  {
    forall i | 0 <= i < |rows|
      ensures Announced(events + more, rows[..i], rows[i].boot)
    {
      AnnouncedStays(events, more, rows[..i], rows[i].boot);
    }
  }

  lemma RowsAnnouncedSnoc(events: seq<Event>, rows: seq<Saved>, saved: Saved)
    requires RowsAnnounced(events, rows) && Announced(events, rows, saved.boot)
    ensures RowsAnnounced(events, rows + [saved]) && Announced(events, rows + [saved], saved.boot)
  {
    var all := rows + [saved];
    hide Announced;
    forall i | 0 <= i < |all|
      ensures Announced(events, all[..i], all[i].boot)
    {
      assert all[..i] == rows[..i] && (i == |rows| ==> rows[..i] == rows);
    }
    assert Announced(events, all, saved.boot) by { LastIsAnnounced(events, rows, saved); }
  }

  lemma LastIsAnnounced(events: seq<Event>, rows: seq<Saved>, saved: Saved)
    ensures Announced(events, rows + [saved], saved.boot)
  {
  }

  /** The event of a page from a boot that the cursor does not know is true, and announces its rows. */
  lemma PollReports(s: System)
    requires Inv(s) && Reported(s) && Allowed(s, Poll)
    ensures Reported(Acted(s, Poll))
  {
    var c := s.process.cursor;
    var o := Opened(c, Fetched(s.w, c.last));
    var events := s.disk.events + o.events;
    RowsAnnouncedStay(s.disk.events, o.events, s.rows);
    assert CursorOk(s, c);
    if Some(Running(s.w)) == c.boot {
      AnnouncedStays(s.disk.events, o.events, s.rows, Running(s.w));
    } else {
      var e := o.events[0];
      assert o.events == [e] && e in events && EventTrue(s.w, e);
      assert Announced(events, s.rows, Running(s.w)) by {
        if c.boot.Some? {
          assert e == DeviceReboot(Running(s.w), c.boot.value);
        }
      }
    }
    hide Announced, RowsAnnounced, Inv, Fetched;
  }

  /** A turn of the save loop, whole or cut short, adds at most the row that was announced. */
  lemma SaveReports(s: System, width: nat, k: nat, process: Process)
    requires Inv(s) && Reported(s) && s.process.Saving? && s.process.todo != []
    requires s.process.cursor.boot.Some? && 1 <= width < TAIL
    requires k <= |SaveEffects(s.disk, s.process.cursor, s.process.todo[0], width)|
    requires process.Down? || (process.Saving? && process.cursor.boot == s.process.cursor.boot)
    ensures var row, cursor := s.process.todo[0], s.process.cursor;
            Reported(Torn(s, row, width, k).(
              disk := Done(s.disk, SaveEffects(s.disk, cursor, row, width)[..k]), process := process))
  {
    var row, cursor := s.process.todo[0], s.process.cursor;
    var gap := GapEvents(cursor, row);
    var more := gap[..Min(k, |gap|)];
    hide Announced, RowsAnnounced, Inv, Done, SaveEffects, SavedText;
    DonePart(s.disk, cursor, row, width, k);
    RowsAnnouncedStay(s.disk.events, more, s.rows);
    AnnouncedStays(s.disk.events, more, s.rows, cursor.boot.value);
    RowsAnnouncedSnoc(s.disk.events + more, s.rows, Saved(cursor.boot.value, row, width));
    GapsAreTrue(s.w, s.disk.events, cursor, row, Min(k, |gap|));
    hide EventsTrue, GapEvents, Torn;
    TornRows(s, row, width, k);
  }

  lemma GapsAreTrue(w: World, events: seq<Event>, cursor: Cursor, row: Row, k: nat)
    requires EventsTrue(w, events) && cursor.boot.Some? && k <= |GapEvents(cursor, row)|
    requires cursor.last < row.seqNo
    requires forall n: nat :: cursor.last < n < row.seqNo ==> Overwritten(w, cursor.boot.value, n)
    ensures EventsTrue(w, events + GapEvents(cursor, row)[..k])
  {
    hide Overwritten;
  }

  lemma TornRows(s: System, row: Row, width: nat, k: nat)
    requires s.process.Saving? && s.process.cursor.boot.Some?
    requires k <= |SaveEffects(s.disk, s.process.cursor, row, width)|
    ensures var t := Torn(s, row, width, k);
            t.w == s.w && t.rows in {s.rows, s.rows + [Saved(s.process.cursor.boot.value, row, width)]}
  {
  }

  /** A restart that succeeds resumes behind the file's last row. */
  lemma RestartResumes(s: System)
    requires Inv(s)
    ensures Started(s.disk.file).Some? ==> Started(s.disk.file).value.1 == CursorOf(s.rows)
  {
    if s.begun {
      forall i | 0 <= i < |s.rows| ensures Fits(s.rows[i]) {
        assert RowOk(s.w, s.disk.events, s.rows, i);
      }
      hide Started, HeaderText, RowsText, CursorOf;
      RestartRecovers(s.rows, s.partial);
    } else if s.disk.file != [] {
      assert s.disk.file == HeaderText()[..|s.partial|];
      PartialHeaderRefused(|s.partial|);
    }
  }

  lemma RestartReports(s: System)
    requires Inv(s) && Reported(s) && Allowed(s, Restart)
    ensures Reported(Acted(s, Restart))
  {
    RestartResumes(s);
    hide RowsAnnounced, Inv, EventsTrue, Started;
  }

  lemma EventsStayTrue(w: World, w': World, events: seq<Event>)
    requires EventsTrue(w, events) && Grown(w, w')
    ensures EventsTrue(w', events)
  {
    hide Overwritten;
    forall i | 0 <= i < |events| ensures EventTrue(w', events[i]) {
      assert EventTrue(w, events[i]);
      OverwrittenStays(w, w', events[i].boot);
    }
  }

  lemma ActionReports(s: System, a: Action)
    requires Inv(s) && Reported(s) && Allowed(s, a)
    ensures Reported(Acted(s, a))
  {
    match a
    case Poll => PollReports(s);
    case Save(width) =>
      var row, cursor := s.process.todo[0], s.process.cursor;
      var effects := SaveEffects(s.disk, cursor, row, width);
      assert effects[..|effects|] == effects;
      SaveReports(s, width, |effects|, Saving(Cursor(cursor.boot, row.seqNo), s.process.todo[1..]));
      hide Reported, Torn, SaveEffects, Done, Inv;
    case SaveAndDie(width, k) =>
      SaveReports(s, width, k, Down);
      hide Reported, Torn, SaveEffects, Done, Inv;
    case Restart => RestartReports(s);
    case _ =>
      EventsStayTrue(s.w, Acted(s, a).w, s.disk.events);
      hide Announced, RowsAnnounced, Inv, EventsTrue;
  }

  lemma {:induction false} RunReports(s: System, actions: seq<Action>)
    requires Inv(s) && Reported(s) && Run(s, actions)
    ensures Reported(End(s, actions))
    decreases actions
  {
    if actions != [] {
      hide Reported, Inv;
      ActionKeeps(s, actions[0]);
      ActionReports(s, actions[0]);
      RunReports(Acted(s, actions[0]), actions[1..]);
    }
  }

  /**
   * After every such run the events tell the boots as they were: a reported reboot is
   * from an earlier boot to a later one, a number reported missing had been
   * overwritten in the device, and where the rows of the file pass to another
   * boot a reboot into it was reported, from the boot of the row before or a later one.
   */
  lemma RebootsAreReported(actions: seq<Action>)
    requires Run(NEW, actions)
    ensures var e := End(NEW, actions);
            && (forall boot: BootId, previous: BootId :: DeviceReboot(boot, previous) in e.disk.events ==>
                  previous < boot < |e.w.histories|)
            && (forall n: nat, boot: BootId :: ReportedMissing(e.disk.events, boot, n) ==> Overwritten(e.w, boot, n))
            && (forall i :: 1 <= i < |e.rows| && e.rows[i].boot != e.rows[i - 1].boot ==>
                  e.rows[i - 1].boot < e.rows[i].boot
                  && RebootSeen(e.disk.events, e.rows[i].boot, e.rows[i - 1].boot))
            && (e.rows != [] ==>
                  FirstSeen(e.disk.events, e.rows[0].boot) || RebootSeen(e.disk.events, e.rows[0].boot, 0))
  {
    RunKeeps(NEW, actions);
    RunReports(NEW, actions);
    hide Inv, Reported, Run, End, RebootSeen, FirstSeen, ReportedMissing, Overwritten;
    ReportedReads(End(NEW, actions));
  }

  lemma ReportedReads(s: System)
    requires Inv(s) && Reported(s)
    ensures forall boot: BootId, previous: BootId :: DeviceReboot(boot, previous) in s.disk.events ==>
              previous < boot < |s.w.histories|
    ensures forall n: nat, boot: BootId :: ReportedMissing(s.disk.events, boot, n) ==> Overwritten(s.w, boot, n)
    ensures forall i :: 1 <= i < |s.rows| && s.rows[i].boot != s.rows[i - 1].boot ==>
              s.rows[i - 1].boot < s.rows[i].boot
              && RebootSeen(s.disk.events, s.rows[i].boot, s.rows[i - 1].boot)
    ensures s.rows != [] ==> FirstSeen(s.disk.events, s.rows[0].boot) || RebootSeen(s.disk.events, s.rows[0].boot, 0)
  {
    hide RebootSeen, FirstSeen, Overwritten;
    forall boot: BootId, previous: BootId | DeviceReboot(boot, previous) in s.disk.events
      ensures previous < boot < |s.w.histories|
    {
      assert EventTrue(s.w, DeviceReboot(boot, previous));
    }
    forall i | 1 <= i < |s.rows| && s.rows[i].boot != s.rows[i - 1].boot
      ensures s.rows[i - 1].boot < s.rows[i].boot
              && RebootSeen(s.disk.events, s.rows[i].boot, s.rows[i - 1].boot)
    {
      assert RowOk(s.w, s.disk.events, s.rows, i);
      assert Announced(s.disk.events, s.rows[..i], s.rows[i].boot);
    }
    if s.rows != [] {
      assert Announced(s.disk.events, s.rows[..0], s.rows[0].boot);
    }
  }

  /** A restart succeeds exactly unless the death fell inside the very first line of the file. */
  lemma RestartSucceeds(actions: seq<Action>)
    requires Run(NEW, actions) && End(NEW, actions).process.Down?
    ensures var e := End(NEW, actions);
            Acted(e, Restart).process.Idle? <==> e.disk.file == [] || HeaderText() <= e.disk.file
  {
    RunKeeps(NEW, actions);
    var e := End(NEW, actions);
    RestartKeeps(e);
    HeaderTells(e);
    hide Inv, Started, HeaderText, FileOf, Run, End;
  }

  lemma HeaderTells(s: System)
    requires FileOk(s)
    ensures s.begun <==> HeaderText() <= s.disk.file
  {
    hide HeaderText, RowsText;
    if s.begun {
      ConcatAssoc(HeaderText(), RowsText(s.rows), s.partial);
    }
  }
}
