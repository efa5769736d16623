/**
 * The recorder as it runs (`Recorder` in tools/battery_record.py): fields and an
 * append-only file, updated row by row.
 */
module RecorderTool {
  import opened Bytes
  import opened PowerLog
  import opened Recorder

  type Widths = Row -> nat

  /** Saving the rows of a page one after the other. */
  function SavedAll(disk: Disk, cursor: Cursor, todo: seq<Row>, width: Widths): Disk
    requires cursor.boot.Some?
    decreases todo
  {
    if todo == [] then disk
    else SavedAll(Done(disk, SaveEffects(disk, cursor, todo[0], width(todo[0]))),
                  Cursor(cursor.boot, todo[0].seqNo), todo[1..], width)
  }

  function LastOf(todo: seq<Row>, otherwise: nat): nat {
    if todo == [] then otherwise else todo[|todo| - 1].seqNo
  }

  function SavedRows(boot: BootId, todo: seq<Row>, width: Widths): (r: seq<Saved>)
    ensures |r| == |todo| && forall i :: 0 <= i < |r| ==> r[i] == Saved(boot, todo[i], width(todo[i]))
  {
    seq(|todo|, i requires 0 <= i < |todo| => Saved(boot, todo[i], width(todo[i])))
  }

  /** Rows of a boot's history from one number to its newest. */
  function RowsFrom(history: seq<Sample>, from: nat): (r: seq<Row>)
    requires 1 <= from <= |history| + 1
    ensures |r| == |history| + 1 - from && forall i :: 0 <= i < |r| ==> r[i] == Row(from + i, history[from + i - 1])
  {
    seq(|history| + 1 - from, i requires 0 <= i < |history| + 1 - from => Row(from + i, history[from + i - 1]))
  }

  class Tool {
    var file: seq<Glyph>
    var events: seq<Event>
    var boot: Option<BootId>
    var last: nat
    ghost var rows: seq<Saved>     // saved since the start

    constructor (disk: Disk, cursor: Cursor)
      ensures Stored() == disk && At() == cursor && rows == []
    {
      file, events := disk.file, disk.events;
      boot, last, rows := cursor.boot, cursor.last, [];
    }

    ghost function Stored(): Disk
      reads this
    {
      Disk(file, events)
    }

    ghost function At(): Cursor
      reads this
    {
      Cursor(boot, last)
    }

    /** One row: its event, its text, and only then the cursor. */
    method SaveRow(row: Row, width: nat)
      requires boot.Some?
      modifies this
      ensures Stored() == Done(old(Stored()), SaveEffects(old(Stored()), old(At()), row, width))
      ensures At() == Cursor(old(boot), row.seqNo)
      ensures rows == old(rows) + [Saved(old(boot).value, row, width)]
    {
      ghost var disk, cursor := Stored(), At();
      ghost var effects := SaveEffects(disk, cursor, row, width);
      ghost var gap := GapEvents(cursor, row);
      assert effects[..|effects|] == effects;
      assert gap[..|gap|] == gap;
      DonePart(disk, cursor, row, width, |effects|);
      if row.seqNo != last + 1 {
        events := events + [MissingSamples(boot.value, last + 1, row.seqNo)];
      } else {
        ConcatEmpty(events);
      }
      var text := SavedText(file, Saved(boot.value, row, width));
      assert text[..|text|] == text;
      file := file + text;
      last := row.seqNo;
      rows := rows + [Saved(boot.value, row, width)];
    }

    method SaveAll(todo: seq<Row>, width: Widths)
      requires boot.Some?
      modifies this
      ensures Stored() == SavedAll(old(Stored()), old(At()), todo, width)
      ensures boot == old(boot) && last == LastOf(todo, old(last))
      ensures rows == old(rows) + SavedRows(boot.value, todo, width)
    {
      hide SaveEffects, Done;
      ghost var goal := SavedAll(Stored(), At(), todo, width);
      assert todo[0..] == todo;
      ConcatEmpty(rows);
      for i := 0 to |todo|
        invariant boot == old(boot) && last == LastOf(todo[..i], old(last))
        invariant SavedAll(Stored(), At(), todo[i..], width) == goal
        invariant rows == old(rows) + SavedRows(boot.value, todo[..i], width)
      {
        assert todo[i..][1..] == todo[i + 1..];
        assert todo[..i + 1] == todo[..i] + [todo[i]];
        assert SavedRows(boot.value, todo[..i + 1], width)
            == SavedRows(boot.value, todo[..i], width) + [Saved(boot.value, todo[i], width(todo[i]))];
        SaveRow(todo[i], width(todo[i]));
      }
      assert todo[..|todo|] == todo;
    }

    /** Takes up one page. `stuck` stands for the refusal of a page that makes no progress. */
    method Ingest(page: Page, width: Widths) returns (more: bool, stuck: bool)
      modifies this
      ensures var o := Opened(old(At()), page);
              && o.cursor.boot.Some? && boot == o.cursor.boot && stuck == o.stuck
              && (stuck ==>
                    && Stored() == old(Stored()).(events := old(events) + o.events)
                    && At() == o.cursor && rows == old(rows))
              && (!stuck ==>
                    && Stored() == SavedAll(old(Stored()).(events := old(events) + o.events), o.cursor, o.todo, width)
                    && last == LastOf(o.todo, o.cursor.last)
                    && rows == old(rows) + SavedRows(page.boot, o.todo, width)
                    && more == (last < page.latest))
    {
      ghost var o := Opened(At(), page);
      more, stuck := false, false;
      if boot != Some(page.boot) {
        var previous := last;
        events := events + [if boot == None then FirstBoot(page.boot) else DeviceReboot(page.boot, boot.value)];
        boot, last := Some(page.boot), 0;
        if previous != 0 {
          ConcatEmpty(rows);
          assert SavedRows(page.boot, o.todo, width) == [];
          return page.latest > 0, false;
        }
      } else {
        ConcatEmpty(events);
      }
      var todo := Newer(page.rows, last);
      if todo == [] && last < page.latest {
        return false, true;
      }
      SaveAll(todo, width);
      more := last < page.latest;
    }

    /**
     * Fetching and ingesting until there is no more, from a device that has
     * stopped: it ends, at the newest sample, having saved exactly the samples
     * still held beyond the cursor.
     */
    method CatchUp(log: Ring, width: Widths)
      requires log.Valid()
      requires boot == Some(log.boot) ==> last <= |log.history|
      modifies this
      ensures boot == Some(log.boot) && last == |log.history|
      ensures var after := if old(boot) == Some(log.boot) then old(last) else 0;
              var from := if after + 1 < Oldest(|log.history|) then Oldest(|log.history|) else after + 1;
              rows == old(rows) + SavedRows(log.boot, RowsFrom(log.history, from), width)
    {
      hide Partway, Opened, PageOf, PageUpTo, SavedAll, Kept, Represents;
      ghost var after := if boot == Some(log.boot) then last else 0;
      ghost var from := if after + 1 < Oldest(|log.history|) then Oldest(|log.history|) else after + 1;
      ghost var all := RowsFrom(log.history, from);
      ghost var k: nat := 0;       // how many of them are saved
      StartPartway(At(), rows, log.boot, all, after, width);
      var more := true;
      while more
        invariant log.Valid() && k <= |all|
        invariant Partway(At(), old(rows), rows, log.boot, all, after, k, width)
        invariant !more ==> boot == Some(log.boot) && k == |all|
        decreases if boot == Some(log.boot) then 0 else 1, |all| - k, more
      {
        var page := log.Fetch(last, PAGE_LIMIT);
        PageOfIs(log.boot, log.history, last);
        ghost var c, saved := At(), rows;
        PageIsNext(log.boot, log.history, c, after, from, k, old(rows), rows, width);
        var stuck;
        more, stuck := Ingest(page, width);
        k := k + |Opened(c, page).todo|;
      }
      AllSaved(At(), old(rows), rows, log.boot, log.history, from, after, k, width);
    }
  }

  /** Part of the way through catching up: k of the samples to save are saved. */
  ghost predicate Partway(c: Cursor, rows0: seq<Saved>, rows: seq<Saved>, boot: BootId, all: seq<Row>,
                          after: nat, k: nat, width: Widths)
    requires k <= |all|
  {
    && (c.boot == Some(boot) ==> c.last == if k == 0 then after else all[k - 1].seqNo)
    && (c.boot != Some(boot) ==> k == 0 && after == 0)
    && rows == rows0 + SavedRows(boot, all[..k], width)
  }

  lemma StartPartway(c: Cursor, rows: seq<Saved>, boot: BootId, all: seq<Row>, after: nat, width: Widths)
    requires after == if c.boot == Some(boot) then c.last else 0
    ensures Partway(c, rows, rows, boot, all, after, 0, width)
  {
    assert SavedRows(boot, all[..0], width) == [];
  }

  lemma AllSaved(c: Cursor, rows0: seq<Saved>, rows: seq<Saved>, boot: BootId, history: seq<Sample>,
                 from: nat, after: nat, k: nat, width: Widths)
    requires after <= |history| && from == if after + 1 < Oldest(|history|) then Oldest(|history|) else after + 1
    requires c.boot == Some(boot)
    requires k == |RowsFrom(history, from)| && Partway(c, rows0, rows, boot, RowsFrom(history, from), after, k, width)
    ensures c.last == |history| && rows == rows0 + SavedRows(boot, RowsFrom(history, from), width)
  {
    var all := RowsFrom(history, from);
    assert all[..k] == all;
  }

  lemma SavedRowsSplit(boot: BootId, all: seq<Row>, k: nat, todo: seq<Row>, width: Widths)
    requires k + |todo| <= |all| && todo == all[k..k + |todo|]
    ensures SavedRows(boot, all[..k + |todo|], width) == SavedRows(boot, all[..k], width) + SavedRows(boot, todo, width)
  {
  }

  /** The page of a stopped device: the next samples, at least one while any is left. */
  lemma PageTakesNext(boot: BootId, history: seq<Sample>, c: Cursor, after: nat, from: nat, k: nat)
    requires after <= |history| && from == if after + 1 < Oldest(|history|) then Oldest(|history|) else after + 1
    requires k <= |RowsFrom(history, from)|
    requires c.boot == Some(boot) ==> c.last == if k == 0 then after else RowsFrom(history, from)[k - 1].seqNo
    requires c.boot != Some(boot) ==> k == 0 && after == 0
    ensures var page := PageOf(boot, history, c.last);
            var o, all := Opened(c, page), RowsFrom(history, from);
            && page.boot == boot && page.latest == |history| && !o.stuck && o.cursor.boot == Some(boot)
            && k + |o.todo| <= |all| && o.todo == all[k..k + |o.todo|]
            && (c.boot == Some(boot) ==> o.cursor == c && (k < |all| ==> o.todo != []))
            && (c.boot != Some(boot) ==> o.cursor.last == 0)
  {
    PageFacts(boot, history, c.last);
    NewerAll(PageOf(boot, history, c.last).rows, c.last);
  }

  lemma LastTaken(all: seq<Row>, k: nat, todo: seq<Row>, otherwise: nat)
    requires k + |todo| <= |all| && todo == all[k..k + |todo|]
    ensures LastOf(todo, otherwise) == if todo == [] then otherwise else all[k + |todo| - 1].seqNo
  {
  }

  /** Where the cursor stands says whether all rows are taken. */
  lemma LastIsNewest(history: seq<Sample>, from: nat, after: nat, k: nat)
    requires after <= |history| && from == if after + 1 < Oldest(|history|) then Oldest(|history|) else after + 1
    requires k <= |RowsFrom(history, from)|
    ensures (if k == 0 then after else RowsFrom(history, from)[k - 1].seqNo) < |history|
       <==> k < |RowsFrom(history, from)|
  {
  }

  lemma PageIsNext(boot: BootId, history: seq<Sample>, c: Cursor, after: nat, from: nat, k: nat,
                   rows0: seq<Saved>, rows: seq<Saved>, width: Widths)
    requires after <= |history| && from == if after + 1 < Oldest(|history|) then Oldest(|history|) else after + 1
    requires k <= |RowsFrom(history, from)|
    requires Partway(c, rows0, rows, boot, RowsFrom(history, from), after, k, width)
    ensures var page := PageOf(boot, history, c.last);
            var o, all := Opened(c, page), RowsFrom(history, from);
            var k' := k + |o.todo|;
            && page.boot == boot && !o.stuck && o.cursor.boot == Some(boot) && k' <= |all|
            && Partway(Cursor(Some(boot), LastOf(o.todo, o.cursor.last)),
                       rows0, rows + SavedRows(boot, o.todo, width), boot, all, after, k', width)
            && (c.boot == Some(boot) && k < |all| ==> o.todo != [])
            && (LastOf(o.todo, o.cursor.last) < page.latest <==> k' < |all|)
  {
    var all := RowsFrom(history, from);
    PageTakesNext(boot, history, c, after, from, k);
    hide Opened, PageOf, SavedRows;
    var o := Opened(c, PageOf(boot, history, c.last));
    SavedRowsSplit(boot, all, k, o.todo, width);
    ConcatAssoc(rows0, SavedRows(boot, all[..k], width), SavedRows(boot, o.todo, width));
    LastTaken(all, k, o.todo, o.cursor.last);
    LastIsNewest(history, from, after, k + |o.todo|);
    hide RowsFrom, LastOf;
  }
}
