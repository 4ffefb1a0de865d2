/** `FileHandler`: saving and loading transcripts, the automatic save, the
    listing of saved transcripts and the clean-up of the temporary directory.
    A directory is a list of entries in `os.listdir` order; paths are the
    directory path, "/" and the entry name. Dialogs and the clock are inputs. */
module Files {
  import opened Wrappers
  import opened Text
  import opened TimeFormat

  const TextSuffix: string := ".txt"
  /** The name the interactive save dialog suggests starts with this. */
  const DefaultSavePrefix: string := "音声認識結果"
  /** The default prefix of `auto_save_text`. */
  const AutoSavePrefix: string := "auto_save"

  const WarningTitle: string := "警告"
  const DoneTitle: string := "完了"
  const ErrorTitle: string := "エラー"
  const NothingToSaveMessage: string := "保存するテキストがありません。"
  const SavedPrefix: string := "ファイルを保存しました:\n"
  const SaveFailedPrefix: string := "ファイルの保存に失敗しました:\n"
  const LoadFailedPrefix: string := "ファイルの読み込みに失敗しました:\n"

  /** A message box: `showwarning`, `showinfo` or `showerror`. */
  datatype NoticeKind = WarningBox | InfoBox | ErrorBox
  datatype Notice = Notice(kind: NoticeKind, title: string, message: string)

  /** A regular file with its text, or anything `os.path.isfile` rejects
      (a subdirectory, a broken link, a pipe or a socket). */
  datatype EntryKind = RegularFile(content: string) | NotAFile
  /** One directory entry with its modification time. */
  datatype Entry = Entry(name: string, kind: EntryKind, mtime: int)

  /** `not text.strip()`: the content counts as empty. */
  predicate IsBlank(text: string) {
    Strip(text) == []
  }

  /** `os.path.join(directory, name)` */
  function JoinPath(directory: string, name: string): string {
    directory + "/" + name
  }

  // ---------------------------------------------------------------------
  // File names

  /** `f"{prefix}_{timestamp}.txt"` with `timestamp` from `%Y%m%d_%H%M%S`. */
  function StampedName(prefix: string, d: DateTime): (r: string)
    requires ValidDateTime(d)
    ensures |r| == |prefix| + 20 && EndsWith(r, TextSuffix)
  {
    var r := prefix + "_" + FileStamp(d) + TextSuffix;
    assert r[|r| - 4..] == TextSuffix;
    r
  }

  /** Reads the moment back out of a name made by `StampedName(prefix, _)`. */
  function ParseStampedName(prefix: string, name: string): Option<DateTime> {
    if |name| == |prefix| + 20 && name[..|prefix|] == prefix && name[|prefix|] == '_' && EndsWith(name, TextSuffix)
    then ParseFileStamp(name[|prefix| + 1..|prefix| + 16])
    else None
  }

  lemma StampedNameRoundTrip(prefix: string, d: DateTime)
    requires ValidDateTime(d)
    ensures ParseStampedName(prefix, StampedName(prefix, d)) == Some(d)
  {
    var r := StampedName(prefix, d);
    assert r[..|prefix|] == prefix;
    assert r[|prefix| + 1..|prefix| + 16] == FileStamp(d);
    FileStampRoundTrip(d);
  }

  /** Two saves with the same prefix collide exactly when they happen in the
      same second. */
  lemma StampedNamesCollide(prefix: string, d1: DateTime, d2: DateTime)
    requires ValidDateTime(d1) && ValidDateTime(d2)
    ensures StampedName(prefix, d1) == StampedName(prefix, d2) <==> d1 == d2
  {
    if StampedName(prefix, d1) == StampedName(prefix, d2) {
      StampedNameRoundTrip(prefix, d1);
      StampedNameRoundTrip(prefix, d2);
    }
  }

  /** The suggested name of the interactive save. */
  function DefaultSaveName(d: DateTime): string
    requires ValidDateTime(d)
  {
    StampedName(DefaultSavePrefix, d)
  }

  /** The suggested name carries the moment of the save and the ".txt" suffix. */
  lemma DefaultSaveNameReadsBack(d: DateTime)
    requires ValidDateTime(d)
    ensures ParseStampedName(DefaultSavePrefix, DefaultSaveName(d)) == Some(d)
    ensures EndsWith(DefaultSaveName(d), TextSuffix)
  {
    StampedNameRoundTrip(DefaultSavePrefix, d);
  }

  // ---------------------------------------------------------------------
  // Directory contents

  predicate DistinctNames(es: seq<Entry>) {
    forall i, j :: 0 <= i < |es| && 0 <= j < |es| && i != j ==> es[i].name != es[j].name
  }

  /** The entry called `name`, if there is one. */
  function Lookup(es: seq<Entry>, name: string): (r: Option<Entry>)
    ensures r.Some? ==> r.value in es && r.value.name == name
    ensures r.None? ==> forall e :: e in es ==> e.name != name
  {
    if es == [] then None
    else if es[0].name == name then Some(es[0])
    else Lookup(es[1..], name)
  }

  /** Text-mode reading translates newlines: `\r\n` and a lone `\r` both
      read as `\n`, so no `\r` survives, and text without one is unchanged. */
  function NewlinesFolded(s: string): (r: string)
    ensures '\r' !in r
    ensures |r| <= |s|
    ensures '\r' !in s ==> r == s
  {
    if s == [] then []
    else if s[0] == '\r' then
      "\n" + NewlinesFolded(if |s| >= 2 && s[1] == '\n' then s[2..] else s[1..])
    else
      assert '\r' !in s ==> '\r' !in s[1..];
      [s[0]] + NewlinesFolded(s[1..])
  }

  /** What `open(path, 'r').read()` gives: the file's content with its
      newlines folded, or `None` when the name is missing or is not a
      regular file. */
  function ReadFile(es: seq<Entry>, name: string): Option<string> {
    match Lookup(es, name)
    case Some(Entry(_, RegularFile(content), _)) => Some(NewlinesFolded(content))
    case _ => None
  }

  /** `open(path, 'w')` can only open a missing name or a regular file. */
  predicate Writable(es: seq<Entry>, name: string) {
    Lookup(es, name).None? || Lookup(es, name).value.kind.RegularFile?
  }

  /** Whether `open(path, 'w')` raises: the directory is missing, the name
      is not a regular file, or the system refuses (`osFailure`). */
  predicate OpenFails(present: bool, es: seq<Entry>, name: string, osFailure: bool) {
    osFailure || !present || !Writable(es, name)
  }

  /** What the file holds once the `with` block ends: the whole text, or,
      when `file.write` raised (`writeFailure`), what reached the disk
      before it did. The file exists either way, since `open(path, 'w')`
      already created or truncated it. */
  function Written(text: string, writeFailure: Option<string>): string {
    if writeFailure.Some? then writeFailure.value else text
  }

  /** `open(path, 'w').write(content)`: creates or truncates the file. */
  function Write(es: seq<Entry>, name: string, content: string, mtime: int): seq<Entry> {
    if es == [] then [Entry(name, RegularFile(content), mtime)]
    else if es[0].name == name then [Entry(name, RegularFile(content), mtime)] + es[1..]
    else [es[0]] + Write(es[1..], name, content, mtime)
  }

  /** Reading a name back after writing it gives what was written, its
      newlines folded (exactly what was written when it holds no `\r`),
      and every other name reads as before. */
  lemma {:induction false} WriteThenRead(es: seq<Entry>, name: string, content: string, mtime: int)
    ensures Lookup(Write(es, name, content, mtime), name) == Some(Entry(name, RegularFile(content), mtime))
    ensures ReadFile(Write(es, name, content, mtime), name) == Some(NewlinesFolded(content))
    ensures '\r' !in content ==> ReadFile(Write(es, name, content, mtime), name) == Some(content)
    ensures forall n :: n != name ==> Lookup(Write(es, name, content, mtime), n) == Lookup(es, n)
  {
    if es != [] && es[0].name != name {
      WriteThenRead(es[1..], name, content, mtime);
    }
  }

  /** Writing adds the new file and keeps every entry with another name. */
  lemma {:induction false} WriteKeepsEntries(es: seq<Entry>, name: string, content: string, mtime: int)
    ensures Entry(name, RegularFile(content), mtime) in Write(es, name, content, mtime)
    ensures forall e :: e in Write(es, name, content, mtime) ==> e in es || e.name == name
    ensures forall e :: e in es && e.name != name ==> e in Write(es, name, content, mtime)
  {
    if es != [] && es[0].name != name {
      var rest := Write(es[1..], name, content, mtime);
      WriteKeepsEntries(es[1..], name, content, mtime);
      assert Write(es, name, content, mtime) == [es[0]] + rest;
      assert es == [es[0]] + es[1..];
    }
  }

  lemma DistinctTail(es: seq<Entry>)
    requires es != [] && DistinctNames(es)
    ensures DistinctNames(es[1..])
    ensures forall e :: e in es[1..] ==> e.name != es[0].name
  {
    forall i, j | 0 <= i < |es[1..]| && 0 <= j < |es[1..]| && i != j
      ensures es[1..][i].name != es[1..][j].name
    {
      assert es[1..][i] == es[i + 1] && es[1..][j] == es[j + 1];
    }
    forall e | e in es[1..]
      ensures e.name != es[0].name
    {
      var m :| 0 <= m < |es[1..]| && es[1..][m] == e;
      assert es[m + 1] == e;
    }
  }

  lemma DistinctCons(x: Entry, rest: seq<Entry>)
    requires DistinctNames(rest) && forall e :: e in rest ==> e.name != x.name
    ensures DistinctNames([x] + rest)
  {
    var w := [x] + rest;
    forall i, j | 0 <= i < |w| && 0 <= j < |w| && i != j
      ensures w[i].name != w[j].name
    {
      if i > 0 {
        assert w[i] == rest[i - 1];
      }
      if j > 0 {
        assert w[j] == rest[j - 1];
      }
    }
  }

  /** Writing keeps the names in a directory distinct. */
  lemma {:induction false} WriteKeepsDistinct(es: seq<Entry>, name: string, content: string, mtime: int)
    requires DistinctNames(es)
    ensures DistinctNames(Write(es, name, content, mtime))
  {
    if es == [] {
    } else if es[0].name == name {
      DistinctTail(es);
      DistinctCons(Entry(name, RegularFile(content), mtime), es[1..]);
    } else {
      DistinctTail(es);
      WriteKeepsDistinct(es[1..], name, content, mtime);
      WriteKeepsEntries(es[1..], name, content, mtime);
      DistinctCons(es[0], Write(es[1..], name, content, mtime));
    }
  }

  // ---------------------------------------------------------------------
  // Listing the saved transcripts

  /** The entries whose names end in ".txt", in listing order. */
  function TextEntries(es: seq<Entry>): (r: seq<Entry>)
    ensures forall i :: 0 <= i < |r| ==> EndsWith(r[i].name, TextSuffix)
  {
    if es == [] then []
    else
      var init := TextEntries(es[..|es| - 1]);
      if EndsWith(es[|es| - 1].name, TextSuffix) then init + [es[|es| - 1]] else init
  }

  /** The filter keeps exactly the ".txt" entries. */
  lemma {:induction false} TextEntriesExact(es: seq<Entry>)
    ensures forall e :: e in TextEntries(es) <==> e in es && EndsWith(e.name, TextSuffix)
  {
    if es != [] {
      var init := es[..|es| - 1];
      TextEntriesExact(init);
      assert es == init + [es[|es| - 1]];
    }
  }

  /** Newest first, as `sorted(..., key=os.path.getmtime, reverse=True)`. */
  predicate NewestFirst(es: seq<Entry>) {
    forall i, j :: 0 <= i < j < |es| ==> es[i].mtime >= es[j].mtime
  }

  /** Puts `e` in front of the first entry that is not newer than it. */
  function InsertByMtime(e: Entry, sorted: seq<Entry>): (r: seq<Entry>)
    ensures multiset(r) == multiset(sorted) + multiset{e}
    ensures |r| == |sorted| + 1 && (r[0] == e || (sorted != [] && r[0] == sorted[0]))
  {
    if sorted == [] || e.mtime >= sorted[0].mtime then [e] + sorted
    else
      assert sorted == [sorted[0]] + sorted[1..];
      [sorted[0]] + InsertByMtime(e, sorted[1..])
  }

  lemma {:induction false} InsertKeepsOrder(e: Entry, sorted: seq<Entry>)
    requires NewestFirst(sorted)
    ensures NewestFirst(InsertByMtime(e, sorted))
  {
    if sorted != [] && e.mtime < sorted[0].mtime {
      var rest := InsertByMtime(e, sorted[1..]);
      InsertKeepsOrder(e, sorted[1..]);
      var r := [sorted[0]] + rest;
      forall i, j | 0 <= i < j < |r|
        ensures r[i].mtime >= r[j].mtime
      {
        if i == 0 {
          assert r[j] in multiset(rest);
          assert r[j] in multiset(sorted[1..]) + multiset{e};
          if r[j] != e {
            assert r[j] in sorted[1..];
            var k :| 0 <= k < |sorted[1..]| && sorted[1..][k] == r[j];
            assert sorted[k + 1] == r[j];
          }
        } else {
          assert r[i] == rest[i - 1] && r[j] == rest[j - 1];
        }
      }
    }
  }

  /** `sorted(..., key=mtime, reverse=True)` as an insertion sort. */
  function SortNewestFirst(es: seq<Entry>): seq<Entry> {
    if es == [] then [] else InsertByMtime(es[0], SortNewestFirst(es[1..]))
  }

  /** The sort returns the same entries, newest first. */
  lemma {:induction false} SortNewestFirstCorrect(es: seq<Entry>)
    ensures NewestFirst(SortNewestFirst(es))
    ensures multiset(SortNewestFirst(es)) == multiset(es)
  {
    if es != [] {
      SortNewestFirstCorrect(es[1..]);
      InsertKeepsOrder(es[0], SortNewestFirst(es[1..]));
      assert es == [es[0]] + es[1..];
    }
  }

  function PathsOf(directory: string, es: seq<Entry>): seq<string> {
    seq(|es|, i requires 0 <= i < |es| => JoinPath(directory, es[i].name))
  }

  /** The value of `get_output_files_list()` for an existing directory. */
  function OutputListing(directory: string, es: seq<Entry>): seq<string> {
    PathsOf(directory, SortNewestFirst(TextEntries(es)))
  }

  /** The listing names exactly the ".txt" entries of the directory, each
      under the directory path, and lists them newest first. */
  lemma ListingExact(directory: string, es: seq<Entry>)
    ensures var sorted := SortNewestFirst(TextEntries(es));
      && NewestFirst(sorted)
      && OutputListing(directory, es) == PathsOf(directory, sorted)
      && forall e :: e in sorted <==> e in es && EndsWith(e.name, TextSuffix)
    ensures forall p :: p in OutputListing(directory, es) ==> EndsWith(p, TextSuffix)
  {
    var t := TextEntries(es);
    var sorted := SortNewestFirst(t);
    TextEntriesExact(es);
    SortNewestFirstCorrect(t);
    forall e
      ensures e in sorted <==> e in t
    {
      assert e in sorted <==> e in multiset(sorted);
      assert e in t <==> e in multiset(t);
    }
    ListingPathsAreText(directory, sorted);
  }

  /** A path built from a `.txt` name ends in `.txt` too. */
  lemma ListingPathsAreText(directory: string, es: seq<Entry>)
    requires forall e :: e in es ==> EndsWith(e.name, TextSuffix)
    ensures forall p :: p in PathsOf(directory, es) ==> EndsWith(p, TextSuffix)
  {
    forall p | p in PathsOf(directory, es)
      ensures EndsWith(p, TextSuffix)
    {
      var i :| 0 <= i < |es| && p == JoinPath(directory, es[i].name);
      assert es[i] in es;
      assert p[|p| - 4..] == es[i].name[|es[i].name| - 4..];
    }
  }

  /** A file written under a ".txt" name shows up in the next listing. */
  lemma SavedFileListed(directory: string, es: seq<Entry>, name: string, content: string, mtime: int)
    requires EndsWith(name, TextSuffix)
    ensures JoinPath(directory, name) in OutputListing(directory, Write(es, name, content, mtime))
  {
    var w := Write(es, name, content, mtime);
    var e := Entry(name, RegularFile(content), mtime);
    WriteKeepsEntries(es, name, content, mtime);
    ListingExact(directory, w);
    var sorted := SortNewestFirst(TextEntries(w));
    assert e in sorted;
    var i :| 0 <= i < |sorted| && sorted[i] == e;
    assert PathsOf(directory, sorted)[i] == JoinPath(directory, name);
  }

  // ---------------------------------------------------------------------
  // Removing regular files

  predicate RemovalFails(e: Entry, failures: set<string>) {
    e.kind.RegularFile? && e.name in failures
  }

  /** The position of the first regular file whose `os.remove` raises; the
      clean-up loop stops there. */
  function FirstFailure(es: seq<Entry>, failures: set<string>): (k: nat)
    ensures k <= |es|
    ensures forall i :: 0 <= i < k ==> !RemovalFails(es[i], failures)
    ensures k < |es| ==> RemovalFails(es[k], failures)
  {
    if es == [] then 0
    else if RemovalFails(es[0], failures) then 0
    else
      var k := FirstFailure(es[1..], failures);
      assert forall i :: 1 <= i < k + 1 ==> es[i] == es[1..][i - 1];
      k + 1
  }

  /** The entries of `es` that are not regular files. */
  function NonFiles(es: seq<Entry>): (r: seq<Entry>)
    ensures forall i :: 0 <= i < |r| ==> !r[i].kind.RegularFile?
  {
    if es == [] then []
    else
      var init := NonFiles(es[..|es| - 1]);
      if es[|es| - 1].kind.RegularFile? then init else init + [es[|es| - 1]]
  }

  lemma {:induction false} NonFilesExact(es: seq<Entry>)
    ensures forall e :: e in NonFiles(es) <==> e in es && !e.kind.RegularFile?
  {
    if es != [] {
      NonFilesExact(es[..|es| - 1]);
      assert es == es[..|es| - 1] + [es[|es| - 1]];
    }
  }

  /** The directory after `cleanup_temp_files()`: regular files before the
      first failing removal are gone, everything from there on is left. */
  function AfterCleanup(es: seq<Entry>, failures: set<string>): seq<Entry> {
    var k := FirstFailure(es, failures);
    NonFiles(es[..k]) + es[k..]
  }

  /** Nothing but regular files is removed, and when every removal succeeds
      no regular file is left. */
  lemma CleanupKeepsNonFiles(es: seq<Entry>, failures: set<string>)
    ensures forall e :: e in es && !e.kind.RegularFile? ==> e in AfterCleanup(es, failures)
    ensures forall e :: e in AfterCleanup(es, failures) ==> e in es
    ensures failures == {} ==> AfterCleanup(es, failures) == NonFiles(es)
    ensures failures == {} ==> forall e :: e in AfterCleanup(es, failures) ==> !e.kind.RegularFile?
  {
    var k := FirstFailure(es, failures);
    NonFilesExact(es[..k]);
    assert es == es[..k] + es[k..];
    forall e | e in es && !e.kind.RegularFile?
      ensures e in AfterCleanup(es, failures)
    {
      if e !in es[k..] {
        assert e in es[..k];
      }
    }
    if failures == {} {
      assert es[..k] == es;
    }
  }

  /** `os.remove` of the entry called `name`. */
  function RemoveNamed(es: seq<Entry>, name: string): seq<Entry> {
    if es == [] then []
    else if es[0].name == name then es[1..]
    else [es[0]] + RemoveNamed(es[1..], name)
  }

  lemma {:induction false} RemoveNamedAt(xs: seq<Entry>, e: Entry, ys: seq<Entry>)
    requires forall x :: x in xs ==> x.name != e.name
    ensures RemoveNamed(xs + [e] + ys, e.name) == xs + ys
  {
    if xs != [] {
      assert (xs + [e] + ys)[1..] == xs[1..] + [e] + ys;
      RemoveNamedAt(xs[1..], e, ys);
    } else {
      assert xs + [e] + ys == [e] + ys;
    }
  }

  lemma DropKeepsDistinct(xs: seq<Entry>, e: Entry, ys: seq<Entry>)
    requires DistinctNames(xs + [e] + ys)
    ensures DistinctNames(xs + ys)
  {
    var s := xs + [e] + ys;
    var t := xs + ys;
    forall i, j | 0 <= i < |t| && 0 <= j < |t| && i != j
      ensures t[i].name != t[j].name
    {
      var i' := if i < |xs| then i else i + 1;
      var j' := if j < |xs| then j else j + 1;
      assert t[i] == s[i'] && t[j] == s[j'];
    }
  }

  /** Removing the regular file at position `i` of the listing takes the
      directory from the state before `i` to the state after it. */
  lemma RemoveStep(listing: seq<Entry>, i: nat)
    requires i < |listing| && listing[i].kind.RegularFile?
    requires DistinctNames(NonFiles(listing[..i]) + listing[i..])
    ensures var e := listing[i];
      && RemoveNamed(NonFiles(listing[..i]) + listing[i..], e.name) == NonFiles(listing[..i + 1]) + listing[i + 1..]
      && DistinctNames(NonFiles(listing[..i + 1]) + listing[i + 1..])
  {
    var e := listing[i];
    var kept := NonFiles(listing[..i]);
    var d := kept + listing[i..];
    assert listing[..i + 1][..i] == listing[..i];
    assert listing[i..] == [e] + listing[i + 1..];
    assert d == kept + [e] + listing[i + 1..];
    forall x | x in kept
      ensures x.name != e.name
    {
      var k :| 0 <= k < |kept| && kept[k] == x;
      assert d[k] == x && d[|kept|] == e;
    }
    RemoveNamedAt(kept, e, listing[i + 1..]);
    DropKeepsDistinct(kept, e, listing[i + 1..]);
  }

  /** Passing over an entry that is not a regular file changes nothing. */
  lemma KeepStep(listing: seq<Entry>, i: nat)
    requires i < |listing| && !listing[i].kind.RegularFile?
    ensures NonFiles(listing[..i + 1]) + listing[i + 1..] == NonFiles(listing[..i]) + listing[i..]
  {
    assert listing[..i + 1][..i] == listing[..i];
    assert listing[i..] == [listing[i]] + listing[i + 1..];
  }

  // ---------------------------------------------------------------------
  // The file system operations

  /** A directory on disk: whether it exists is fixed for the life of the
      model, since none of the operations here creates or removes one. */
  class Directory {
    const path: string
    const present: bool
    var entries: seq<Entry>

    /** `os.listdir` never lists a name twice. */
    predicate Valid()
      reads this
    {
      DistinctNames(entries)
    }

    constructor(path: string, present: bool, entries: seq<Entry>)
      requires DistinctNames(entries)
      ensures Valid()
      ensures this.path == path && this.present == present && this.entries == entries
    {
      this.path := path;
      this.present := present;
      this.entries := entries;
    }
  }

  /** `save_text_as_file`: `now` is the clock, `chosen` the name returned by
      the save dialog ("" when cancelled), `openFails` an `open` that raises,
      `writeFailure` a `write` that raises (with what reached the file), and
      `osError` the exception's text. Returns whether the text was saved,
      the name suggested to the dialog and the message box shown. */
  method SaveTextAsFile(outputDir: Directory, text: string, now: DateTime, chosen: string, mtime: int,
                        openFails: bool, writeFailure: Option<string>, osError: string)
      returns (saved: bool, suggested: Option<string>, notice: Option<Notice>)
    requires outputDir.Valid() && ValidDateTime(now)
    modifies outputDir
    ensures outputDir.Valid()
    ensures suggested == if IsBlank(text) then None else Some(DefaultSaveName(now))
    ensures var wasOpened := !IsBlank(text) && chosen != "" && !OpenFails(outputDir.present, old(outputDir.entries), chosen, openFails);
      && (saved <==> wasOpened && writeFailure.None?)
      && outputDir.entries == if wasOpened then Write(old(outputDir.entries), chosen, Written(text, writeFailure), mtime)
                              else old(outputDir.entries)
    ensures notice ==
      if IsBlank(text) then Some(Notice(WarningBox, WarningTitle, NothingToSaveMessage))
      else if chosen == "" then None
      else if saved then Some(Notice(InfoBox, DoneTitle, SavedPrefix + JoinPath(outputDir.path, chosen)))
      else Some(Notice(ErrorBox, ErrorTitle, SaveFailedPrefix + osError))
  {
    saved, suggested, notice := false, None, None;
    if IsBlank(text) {
      notice := Some(Notice(WarningBox, WarningTitle, NothingToSaveMessage));
    } else {
      suggested := Some(DefaultSaveName(now));
      if chosen == "" {
      } else if OpenFails(outputDir.present, outputDir.entries, chosen, openFails) {
        notice := Some(Notice(ErrorBox, ErrorTitle, SaveFailedPrefix + osError));
      } else {
        var content := Written(text, writeFailure);
        WriteKeepsDistinct(outputDir.entries, chosen, content, mtime);
        outputDir.entries := Write(outputDir.entries, chosen, content, mtime);
        if writeFailure.Some? {
          notice := Some(Notice(ErrorBox, ErrorTitle, SaveFailedPrefix + osError));
        } else {
          saved := true;
          notice := Some(Notice(InfoBox, DoneTitle, SavedPrefix + JoinPath(outputDir.path, chosen)));
        }
      }
    }
  }

  /** `auto_save_text`: writes the text under a stamped name and returns the
      path, or `None` when the text is blank or the open or the write raises;
      a write that raises still leaves the file behind with what reached it. */
  method AutoSaveText(outputDir: Directory, text: string, now: DateTime, mtime: int,
                      openFails: bool, writeFailure: Option<string>, prefix: string := AutoSavePrefix)
      returns (savedPath: Option<string>)
    requires outputDir.Valid() && ValidDateTime(now)
    modifies outputDir
    ensures outputDir.Valid()
    ensures var name := StampedName(prefix, now);
      var wasOpened := !IsBlank(text) && !OpenFails(outputDir.present, old(outputDir.entries), name, openFails);
      && savedPath == (if wasOpened && writeFailure.None? then Some(JoinPath(outputDir.path, name)) else None)
      && outputDir.entries == if wasOpened then Write(old(outputDir.entries), name, Written(text, writeFailure), mtime)
                              else old(outputDir.entries)
  {
    if IsBlank(text) {
      return None;
    }
    var name := StampedName(prefix, now);
    if OpenFails(outputDir.present, outputDir.entries, name, openFails) {
      return None;
    }
    var content := Written(text, writeFailure);
    WriteKeepsDistinct(outputDir.entries, name, content, mtime);
    outputDir.entries := Write(outputDir.entries, name, content, mtime);
    savedPath := if writeFailure.None? then Some(JoinPath(outputDir.path, name)) else None;
  }

  /** `load_text_from_file`: `chosen` is the name returned by the open dialog
      ("" when cancelled); `readFails`/`osError` stand for an `open` or
      `read` that raises. The text shown is the file's, newlines folded. */
  method LoadTextFromFile(outputDir: Directory, chosen: string, readFails: bool, osError: string)
      returns (text: string, notice: Option<Notice>)
    ensures chosen == "" ==> text == "" && notice == None
    ensures chosen != "" && !readFails && outputDir.present && ReadFile(outputDir.entries, chosen).Some? ==>
      text == ReadFile(outputDir.entries, chosen).value && notice == None
    ensures chosen != "" && (readFails || !outputDir.present || ReadFile(outputDir.entries, chosen).None?) ==>
      text == "" && notice == Some(Notice(ErrorBox, ErrorTitle, LoadFailedPrefix + osError))
    // the text read is in text mode: no carriage return reaches the editor
    ensures '\r' !in text
  {
    if chosen == "" {
      return "", None;
    }
    var content := ReadFile(outputDir.entries, chosen);
    if readFails || !outputDir.present || content.None? {
      return "", Some(Notice(ErrorBox, ErrorTitle, LoadFailedPrefix + osError));
    }
    return content.value, None;
  }

  /** `get_output_files_list`: the ".txt" entries as paths, newest first;
      `[]` when the directory is missing. */
  method GetOutputFilesList(outputDir: Directory) returns (paths: seq<string>)
    ensures paths == if outputDir.present then OutputListing(outputDir.path, outputDir.entries) else []
  {
    if !outputDir.present {
      return [];
    }
    var listing := outputDir.entries;
    var files: seq<Entry> := [];
    var i := 0;
    while i < |listing|
      invariant 0 <= i <= |listing|
      invariant files == TextEntries(listing[..i])
    {
      if EndsWith(listing[i].name, TextSuffix) {
        files := files + [listing[i]];
      }
      assert listing[..i + 1][..i] == listing[..i];
      i := i + 1;
    }
    assert listing[..i] == listing;
    paths := PathsOf(outputDir.path, SortNewestFirst(files));
  }

  /** `cleanup_temp_files`: removes each regular file of the listing in turn;
      a removal that raises (a name in `failures`) ends the loop, and a
      missing directory is left alone. */
  method CleanupTempFiles(tempDir: Directory, failures: set<string>)
    requires tempDir.Valid()
    modifies tempDir
    ensures tempDir.Valid()
    ensures tempDir.entries == if tempDir.present then AfterCleanup(old(tempDir.entries), failures) else old(tempDir.entries)
  {
    if !tempDir.present {
      return;
    }
    var listing := tempDir.entries;
    ghost var stop := FirstFailure(listing, failures);
    var i := 0;
    var stopped := false;
    while i < |listing| && !stopped
      invariant 0 <= i <= stop
      invariant stopped ==> i == stop < |listing|
      invariant tempDir.entries == NonFiles(listing[..i]) + listing[i..]
      invariant DistinctNames(tempDir.entries)
      decreases |listing| - i, if stopped then 0 else 1
    {
      var e := listing[i];
      if e.kind.RegularFile? {
        if e.name in failures {
          stopped := true;
        } else {
          RemoveStep(listing, i);
          tempDir.entries := RemoveNamed(tempDir.entries, e.name);
          i := i + 1;
        }
      } else {
        KeepStep(listing, i);
        i := i + 1;
      }
    }
  }
}
