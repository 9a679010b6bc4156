/** Crash-safe replacement of a JSON file (AtomicJsonFile.h), one flash step at a time. */
module AtomicJsonFile {
  import opened Types

  datatype Path = Current | Temporary | Backup

  /** Torn stands for everything deserializeJson refuses: empty, cut short, garbled. */
  datatype Content<D> = Missing | Torn | Whole(doc: D)

  datatype Files<D> = Files(current: Content<D>, temporary: Content<D>, backup: Content<D>)

  function Get<D>(fs: Files<D>, path: Path): Content<D> {
    match path
    case Current => fs.current
    case Temporary => fs.temporary
    case Backup => fs.backup
  }

  function Put<D>(fs: Files<D>, path: Path, content: Content<D>): Files<D> {
    match path
    case Current => fs.(current := content)
    case Temporary => fs.(temporary := content)
    case Backup => fs.(backup := content)
  }

  function ReadOne<D>(fs: Files<D>, path: Path): Option<D> {
    match Get(fs, path)
    case Whole(doc) => Some(doc)
    case _ => None
  }

  function ReadWithBackup<D>(fs: Files<D>): Option<D> {
    if ReadOne(fs, Current).Some? then ReadOne(fs, Current) else ReadOne(fs, Backup)
  }

  /** What the flash does at each step: true where the step works. `whole` says
      whether every byte landed, `reported` what the byte count and error flag
      claim about it, `reread` whether memory sufficed to read the file back. */
  datatype Weather = Weather(
    removeTemporary: bool, open: bool, whole: bool, reported: bool, cleanUp: bool, reread: bool,
    removeBackup: bool, renameCurrent: bool, renameNew: bool, rollBack: bool, dropBackup: bool)

  function Removed<D>(fs: Files<D>, path: Path, works: bool): Files<D> {
    if works then Put(fs, path, Missing) else fs
  }

  predicate CanRename<D>(fs: Files<D>, from: Path, works: bool) {
    works && !Get(fs, from).Missing?
  }

  /** Renaming replaces the target in one step. */
  function Renamed<D>(fs: Files<D>, from: Path, to: Path, works: bool): Files<D> {
    if CanRename(fs, from, works) then Put(Put(fs, from, Missing), to, Get(fs, from)) else fs
  }

  /** Every state the flash passes through, in order, and what `write` returns. */
  datatype Trace<D> = Trace(states: seq<Files<D>>, ok: bool)

  /** Up to the closed temporary file. */
  function Begun<D>(fs0: Files<D>, doc: D, w: Weather): (states: seq<Files<D>>)
    ensures |states| == 4
    ensures forall fs :: fs in states ==> fs.current == fs0.current && fs.backup == fs0.backup
    ensures ReadOne(states[3], Temporary) == if w.whole then Some(doc) else None
  {
    var fs1 := Removed(fs0, Temporary, w.removeTemporary);
    var fs2 := Put(fs1, Temporary, Torn);
    var fs3 := Put(fs2, Temporary, if w.whole then Whole(doc) else Torn);
    [fs0, fs1, fs2, fs3]
  }

  function Write<D>(fs0: Files<D>, doc: D, w: Weather): Trace<D> {
    if !w.open then Trace([fs0, Removed(fs0, Temporary, w.removeTemporary)], false)
    else
      var begun := Begun(fs0, doc, w);
      if !w.reported || !(w.whole && w.reread) then
        Trace(begun + [Removed(begun[3], Temporary, w.cleanUp)], false)
      else
        var swap := Swap(begun[3], w);
        Trace(begun + swap.states, swap.ok)
  }

  /** The replacement proper, once the temporary file is known to be good. */
  function Swap<D>(fs3: Files<D>, w: Weather): Trace<D> {
    var fs4 := Removed(fs3, Backup, w.removeBackup);
    var hadCurrent := !fs4.current.Missing?;
    var fs5 := Renamed(fs4, Current, Backup, w.renameCurrent);
    var fs6 := Renamed(fs5, Temporary, Current, w.renameNew);
    if hadCurrent && !w.renameCurrent then
      Trace([fs4, fs5, Removed(fs5, Temporary, w.cleanUp)], false)
    else
      var begun := if hadCurrent then [fs4, fs5, fs6] else [fs4, fs6];
      if !CanRename(fs5, Temporary, w.renameNew) then
        Trace(begun + (if hadCurrent then [Renamed(fs6, Backup, Current, w.rollBack)] else []), false)
      else
        Trace(begun + [Removed(fs6, Backup, w.dropBackup)], true)
  }

  function Last<T>(s: seq<T>): T
    requires s != []
  {
    s[|s| - 1]
  }

  /** A write succeeds exactly when the temporary file opens, takes every byte and reads
      back, and the renames work that are needed; then the document is in place, the
      temporary file is gone, and at most the old one is left as backup. */
  lemma SucceedsExactly<D>(fs: Files<D>, doc: D, w: Weather)
    ensures Write(fs, doc, w).ok <==>
            && w.open && w.whole && w.reported && w.reread
            && (fs.current.Missing? || w.renameCurrent) && w.renameNew
    ensures Write(fs, doc, w).ok ==>
              var end := Last(Write(fs, doc, w).states);
              && end.current == Whole(doc) && end.temporary == Missing
              && (w.dropBackup ==> end.backup == Missing)
  {
  }

  ghost predicate ReadsOneOf<D>(states: seq<Files<D>>, before: Option<D>, after: Option<D>) {
    forall fs :: fs in states ==> ReadWithBackup(fs) == before || ReadWithBackup(fs) == after
  }

  /** The promise of the atomic replace: whenever power fails the reader finds
      the old or the new document, and the result says which one it is. */
  ghost predicate Safe<D>(fs: Files<D>, doc: D, w: Weather) {
    var trace := Write(fs, doc, w);
    && ReadsOneOf(trace.states, ReadWithBackup(fs), Some(doc))
    && ReadWithBackup(Last(trace.states)) == if trace.ok then Some(doc) else ReadWithBackup(fs)
  }

  lemma SwapIsSafe<D>(fs: Files<D>, doc: D, w: Weather)
    requires ReadOne(fs, Current).Some? || ReadOne(fs, Backup).None?
    requires ReadOne(fs, Temporary) == Some(doc)
    ensures ReadsOneOf(Swap(fs, w).states, ReadWithBackup(fs), Some(doc))
    ensures ReadWithBackup(Last(Swap(fs, w).states)) ==
            if Swap(fs, w).ok then Some(doc) else ReadWithBackup(fs)
  {
  }

  lemma ReadsConcat<D>(a: seq<Files<D>>, b: seq<Files<D>>, before: Option<D>, after: Option<D>)
    requires ReadsOneOf(a, before, after) && ReadsOneOf(b, before, after)
    ensures ReadsOneOf(a + b, before, after)
    ensures b != [] ==> Last(a + b) == Last(b)
  {
  }

  /** Any crash and any failing step is survived when the write starts from a
      readable main file, or when there is nothing readable to lose. */
  lemma CrashSafe<D>(fs: Files<D>, doc: D, w: Weather)
    requires ReadOne(fs, Current).Some? || ReadOne(fs, Backup).None?
    ensures Safe(fs, doc, w)
  {
    if !w.open {
      assert Write(fs, doc, w).states == [fs, Removed(fs, Temporary, w.removeTemporary)];
    } else {
      var begun := Begun(fs, doc, w);
      BegunReads(fs, doc, w);
      var rest := if w.reported && w.whole && w.reread then Swap(begun[3], w).states
                  else [Removed(begun[3], Temporary, w.cleanUp)];
      if w.reported && w.whole && w.reread {
        SwapIsSafe(begun[3], doc, w);
      }
      ReadsConcat(begun, rest, ReadWithBackup(fs), Some(doc));
      assert Write(fs, doc, w).states == begun + rest;
    }
  }

  /** Filling the temporary file touches nothing the reader looks at. */
  lemma BegunReads<D>(fs: Files<D>, doc: D, w: Weather)
    ensures ReadsOneOf(Begun(fs, doc, w), ReadWithBackup(fs), Some(doc))
    ensures ReadWithBackup(Begun(fs, doc, w)[3]) == ReadWithBackup(fs)
  {
  }

  /** And only then: with the document surviving in the backup alone, a write in
      good weather deletes it before the new file is in place. */
  lemma SafeExactly<D>(fs: Files<D>, doc: D)
    ensures (forall w :: Safe(fs, doc, w)) <==> ReadOne(fs, Current).Some? || ReadOne(fs, Backup).None?
  {
    if ReadOne(fs, Current).Some? || ReadOne(fs, Backup).None? {
      forall w
        ensures Safe(fs, doc, w)
      {
        CrashSafe(fs, doc, w);
      }
    } else {
      var w := Weather(true, true, true, true, true, true, true, true, true, true, true);
      var trace := Write(fs, doc, w);
      assert ReadWithBackup(trace.states[4]) == None;
      assert !Safe(fs, doc, w);
    }
  }

  /** The condition carries over to the next write unless the roll-back rename fails too. */
  lemma ReadableAgain<D>(fs: Files<D>, doc: D, w: Weather)
    requires ReadOne(fs, Current).Some?
    ensures var trace := Write(fs, doc, w);
            var reachedSwap := w.open && w.reported && w.whole && w.reread && w.renameCurrent;
            ReadOne(Last(trace.states), Current).None?
            <==> reachedSwap && !w.renameNew && !w.rollBack
  {
    var fs3 := Begun(fs, doc, w)[3];
    if w.open && w.reported && w.whole && w.reread {
      assert Last(Write(fs, doc, w).states) == Last(Swap(fs3, w).states);
    }
  }

  /** Two crashes in a row can lose everything, from any good start. */
  lemma TwoCrashesLose<D>(fs: Files<D>, first: D, second: D)
    requires ReadOne(fs, Current).Some?
    ensures exists w, i, j ::
              && 0 <= i < |Write(fs, first, w).states|
              && 0 <= j < |Write(Write(fs, first, w).states[i], second, w).states|
              && ReadWithBackup(Write(Write(fs, first, w).states[i], second, w).states[j]) == None
  {
    var w := Weather(true, true, true, true, true, true, true, true, true, true, true);
    var crashed := Write(fs, first, w).states[5];
    assert crashed.current.Missing?;
    assert ReadWithBackup(Write(crashed, second, w).states[4]) == None;
  }

  /** LittleFS with the three files; `trail` records every state on flash. */
  class Storage<D(==)> {
    var files: Files<D>
    ghost var trail: seq<Files<D>>

    method Remove(path: Path, works: bool)
      modifies this
      ensures files == Removed(old(files), path, works) && trail == old(trail) + [files]
    {
      if works {
        files := Put(files, path, Missing);
      }
      trail := trail + [files];
    }

    method Rename(from: Path, to: Path, works: bool) returns (ok: bool)
      modifies this
      ensures ok == CanRename(old(files), from, works)
      ensures files == Renamed(old(files), from, to, works) && trail == old(trail) + [files]
    {
      ok := works && !Get(files, from).Missing?;
      if ok {
        files := Put(Put(files, from, Missing), to, Get(files, from));
      }
      trail := trail + [files];
    }

    method Fill(path: Path, content: Content<D>)
      modifies this
      ensures files == Put(old(files), path, content) && trail == old(trail) + [files]
    {
      files := Put(files, path, content);
      trail := trail + [files];
    }

    method WriteDocument(doc: D, w: Weather) returns (ok: bool)
      requires trail == [files]
      modifies this
      ensures Trace(trail, ok) == Write(old(files), doc, w) && files == Last(trail)
    {
      if !w.open {
        Remove(Temporary, w.removeTemporary);
        return false;
      }
      Begin(doc, w);
      var check := if w.reported && w.reread then ReadOne(files, Temporary) else None;
      if check.None? {
        Remove(Temporary, w.cleanUp);
        ok := false;
      } else {
        ok := SwapIn(w);
      }
    }

    method Begin(doc: D, w: Weather)
      requires trail == [files]
      modifies this
      ensures trail == Begun(old(files), doc, w) && files == trail[3]
    {
      Remove(Temporary, w.removeTemporary);
      Fill(Temporary, Torn);
      Fill(Temporary, if w.whole then Whole(doc) else Torn);
    }

    method SwapIn(w: Weather) returns (ok: bool)
      modifies this
      ensures ok == Swap(old(files), w).ok && trail == old(trail) + Swap(old(files), w).states
      ensures files == Last(trail)
    {
      ghost var start, swap := trail, Swap(files, w);
      Remove(Backup, w.removeBackup);
      ghost var fs4 := files;
      var hadCurrent := !files.current.Missing?;
      if hadCurrent {
        var moved := Rename(Current, Backup, w.renameCurrent);
        if !moved {
          Remove(Temporary, w.cleanUp);
          assert trail == start + swap.states;
          return false;
        }
      }
      assert trail == start + (if hadCurrent then [fs4, files] else [fs4]);
      ok := Place(hadCurrent, w);
      assert trail == start + swap.states;
    }

    method Place(hadCurrent: bool, w: Weather) returns (ok: bool)
      modifies this
      ensures ok == CanRename(old(files), Temporary, w.renameNew)
      ensures var placed := Renamed(old(files), Temporary, Current, w.renameNew);
              trail == old(trail) + [placed] +
              if ok then [Removed(placed, Backup, w.dropBackup)]
              else if hadCurrent then [Renamed(placed, Backup, Current, w.rollBack)]
              else []
      ensures files == Last(trail)
    {
      ok := Rename(Temporary, Current, w.renameNew);
      if ok {
        Remove(Backup, w.dropBackup);
      } else if hadCurrent {
        var _ := Rename(Backup, Current, w.rollBack);
      }
    }
  }
}
