/**
 * The daily-note store (internal/tools/obsidian/obsidian.go) over an abstract vault: a map from
 * file paths to file contents. The clock is an input, already formatted the three ways the Go code
 * formats it, and each file-system call that can fail is switched by a `Faults` record.
 */
module Obsidian {
  import opened Basics
  import opened Text

  /** `Service`: the vault directory and the file-name prefix. */
  datatype Service = Service(vaultPath: string, prefix: string)

  /** One reading of `Now`, formatted as "2006-01-02", as RFC 3339 and as "15:04:05". */
  datatype Moment = Moment(date: string, stamp: string, clock: string)

  /** The errors the two operations return, one per failing call. */
  datatype NoteError = OpenFailed | HeaderFailed | EntryFailed | ReadFailed | WriteFailed

  /** Which of the file-system calls of one operation fail. */
  datatype Faults = Faults(open: bool, header: bool, entry: bool, read: bool, write: bool)

  const NoFaults := Faults(false, false, false, false, false)

  /** The vault after an operation, and the error it returned. */
  datatype Store = Store(files: map<string, string>, err: Option<NoteError>)

  /** The daily note's file name. */
  function FileName(s: Service, m: Moment): string {
    s.prefix + m.date + ".md"
  }

  function NotePath(s: Service, m: Moment): string {
    PathJoin(s.vaultPath, FileName(s, m))
  }

  /** The front matter written when the day's file is created. */
  function Header(m: Moment): string {
    "---\ndate: " + m.stamp + "\nsource: Bobik\ntags: [voice-note, inbox]\n---\n\n"
  }

  /** One appended entry: a level-2 heading with the time, the content, and a blank line. */
  function Entry(m: Moment, content: string): string {
    "## " + m.clock + "\n" + content + "\n\n"
  }

  /** The entry `RewriteLastNote` puts in place of the last one. */
  function LastEntry(m: Moment, content: string): string {
    "## " + m.clock + "\n" + content + "\n"
  }

  predicate IsHeading(line: string) {
    HasPrefix(line, "## ")
  }

  predicate NoHeading(lines: seq<string>) {
    forall j :: 0 <= j < |lines| ==> !IsHeading(lines[j])
  }

  /**
   * `AppendToDailyNote`. A file that did not exist is created empty by the open and then receives
   * the header; a failed write adds nothing.
   */
  function Appended(files: map<string, string>, path: string, m: Moment, content: string, f: Faults): Store {
    if f.open then Store(files, Some(OpenFailed))
    else if path !in files && f.header then Store(files[path := ""], Some(HeaderFailed))
    else
      var withHeader := if path in files then files[path] else Header(m);
      if f.entry then Store(files[path := withHeader], Some(EntryFailed))
      else Store(files[path := withHeader + Entry(m, content)], None)
  }

  /** The index of the last heading line, -1 when there is none. */
  function LastHeading(lines: seq<string>): (idx: int)
    ensures -1 <= idx < |lines|
    ensures idx >= 0 ==> IsHeading(lines[idx])
    ensures forall j :: idx < j < |lines| ==> !IsHeading(lines[j])
    decreases |lines|
  {
    if lines == [] then -1
    else if IsHeading(lines[|lines| - 1]) then |lines| - 1
    else LastHeading(lines[..|lines| - 1])
  }

  /**
   * `RewriteLastNote`. A missing file, or one without a heading line, falls back to appending;
   * otherwise the lines from the last heading on are replaced by the new entry.
   */
  function Rewritten(files: map<string, string>, path: string, m: Moment, content: string, f: Faults): Store {
    if path !in files then Appended(files, path, m, content, f)
    else if f.read then Store(files, Some(ReadFailed))
    else
      var lines := Split(files[path], '\n');
      var idx := LastHeading(lines);
      if idx == -1 then Appended(files, path, m, content, f)
      else if f.write then Store(files, Some(WriteFailed))
      else Store(files[path := Join(lines[..idx] + [LastEntry(m, content)], "\n")], None)
  }

  // ---------------------------------------------------------------------------------------------
  // Properties

  /** Only the day's file changes, whatever fails. */
  lemma AppendTouchesOnlyItsFile(files: map<string, string>, path: string, m: Moment, content: string, f: Faults)
    ensures var st := Appended(files, path, m, content, f);
            st.files.Keys <= files.Keys + {path}
            && forall p :: p in files && p != path ==> p in st.files && st.files[p] == files[p]
  {
  }

  /** A new day's file starts with the header, then the entry. */
  lemma AppendCreates(files: map<string, string>, path: string, m: Moment, content: string)
    requires path !in files
    ensures Appended(files, path, m, content, NoFaults) == Store(files[path := Header(m) + Entry(m, content)], None)
  {
  }

  /** An existing file keeps its content, gets no second header and gains exactly one entry. */
  lemma AppendExtends(files: map<string, string>, path: string, m: Moment, content: string)
    requires path in files
    ensures Appended(files, path, m, content, NoFaults) == Store(files[path := files[path] + Entry(m, content)], None)
  {
  }

  /** Whatever fails, the prior content of the file survives as a prefix, and an error means no entry. */
  lemma AppendKeepsPrefix(files: map<string, string>, path: string, m: Moment, content: string, f: Faults)
    ensures var st := Appended(files, path, m, content, f);
            (path in files ==> path in st.files && HasPrefix(st.files[path], files[path]))
            && (st.err.None? <==> !f.open && (path in files || !f.header) && !f.entry)
            && (st.err.Some? && path in files ==> st.files[path] == files[path])
  {
  }

  /** Both fallbacks of `RewriteLastNote` are exactly an append. */
  lemma RewriteFallsBack(files: map<string, string>, path: string, m: Moment, content: string, f: Faults)
    requires path !in files || (!f.read && NoHeading(Split(files[path], '\n')))
    ensures Rewritten(files, path, m, content, f) == Appended(files, path, m, content, f)
  {
    if path in files {
      var lines := Split(files[path], '\n');
      assert LastHeading(lines) == -1;
    }
  }

  /** Joining two non-empty runs of parts puts one separator between their joins. */
  lemma {:induction false} JoinConcat(a: seq<string>, b: seq<string>, sep: string)
    requires a != [] && b != []
    ensures Join(a + b, sep) == Join(a, sep) + sep + Join(b, sep)
    decreases |a|
  {
    if |a| == 1 {
      assert (a + b)[1..] == b;
    } else {
      assert (a + b)[1..] == a[1..] + b;
      JoinConcat(a[1..], b, sep);
      AppendAssoc3(a[0], sep, Join(a[1..], sep), sep, Join(b, sep));
    }
  }

  lemma AppendAssoc3(p: string, q: string, r: string, s: string, t: string)
    ensures p + q + (r + s + t) == p + q + r + s + t
  {
  }

  /** Where the rewrite cuts: the offset of line `idx` in the text whose lines are `lines`. */
  function LineOffset(lines: seq<string>, idx: nat): nat
    requires idx <= |lines|
  {
    if idx == 0 then 0 else |Join(lines[..idx], "\n")| + 1
  }

  /**
   * Line `idx` of a split text starts at its offset, and the text before it is the lines before it
   * joined, each followed by its newline.
   */
  lemma LineOffsetSplits(text: string, idx: nat)
    requires idx < |Split(text, '\n')|
    ensures var lines := Split(text, '\n');
            var k := LineOffset(lines, idx);
            k <= |text| && text[k..] == Join(lines[idx..], "\n")
            && text[..k] == (if idx == 0 then "" else Join(lines[..idx], "\n") + "\n")
  {
    var lines := Split(text, '\n');
    JoinSplit(text, '\n');
    assert Join(lines, "\n") == text;
    if idx > 0 {
      assert lines == lines[..idx] + lines[idx..];
      JoinConcat(lines[..idx], lines[idx..], "\n");
    } else {
      assert lines[idx..] == lines;
    }
  }

  /** The rewritten text is the text before line `idx`, then the new entry. */
  lemma CutAtLine(text: string, idx: nat, entry: string)
    requires idx < |Split(text, '\n')|
    ensures var lines := Split(text, '\n');
            var k := LineOffset(lines, idx);
            k <= |text| && Join(lines[..idx] + [entry], "\n") == text[..k] + entry
  {
    var lines := Split(text, '\n');
    LineOffsetSplits(text, idx);
    JoinAppend(lines[..idx], entry, "\n");
  }

  /** The text from the offset of a heading line on starts with that heading. */
  lemma CutStartsWithHeading(text: string, idx: nat)
    requires idx < |Split(text, '\n')| && IsHeading(Split(text, '\n')[idx])
    ensures var k := LineOffset(Split(text, '\n'), idx);
            k <= |text| && IsHeading(text[k..])
  {
    var lines := Split(text, '\n');
    LineOffsetSplits(text, idx);
    var rest := lines[idx..];
    assert rest[0] == lines[idx];
    if |rest| > 1 {
      assert Join(rest, "\n") == rest[0] + ("\n" + Join(rest[1..], "\n"));
    }
    assert HasPrefix(Join(rest, "\n"), rest[0]);
  }

  /**
   * A successful rewrite keeps the text before the last heading line unchanged and puts the new
   * entry in place of everything from that line on; the part dropped starts with the heading, and
   * no later line is a heading.
   */
  lemma RewriteReplacesLastEntry(files: map<string, string>, path: string, m: Moment, content: string)
    requires path in files
    requires LastHeading(Split(files[path], '\n')) >= 0
    ensures var text := files[path];
            var lines := Split(text, '\n');
            var idx := LastHeading(lines);
            var k := LineOffset(lines, idx);
            k <= |text|
            && Rewritten(files, path, m, content, NoFaults) == Store(files[path := text[..k] + LastEntry(m, content)], None)
            && IsHeading(text[k..])
            && forall j :: idx < j < |lines| ==> !IsHeading(lines[j])
  {
    var text := files[path];
    var idx := LastHeading(Split(text, '\n'));
    CutAtLine(text, idx, LastEntry(m, content));
    CutStartsWithHeading(text, idx);
  }

  // ---------------------------------------------------------------------------------------------
  // The vault

  /** The file system the service writes to, as contents by path. */
  class Vault {
    var files: map<string, string>

    constructor (files: map<string, string>)
      ensures this.files == files
    {
      this.files := files;
    }

    /** `AppendToDailyNote`. */
    method AppendToDailyNote(s: Service, m: Moment, content: string, f: Faults) returns (err: Option<NoteError>)
      modifies this
      ensures Store(files, err) == Appended(old(files), NotePath(s, m), m, content, f)
    {
      var path := NotePath(s, m);
      var existed := path in files;
      if f.open {
        return Some(OpenFailed);
      }
      if !existed {
        files := files[path := ""];
        if f.header {
          return Some(HeaderFailed);
        }
        files := files[path := files[path] + Header(m)];
        assert files[path] == Header(m);
      }
      if f.entry {
        return Some(EntryFailed);
      }
      files := files[path := files[path] + Entry(m, content)];
      return None;
    }

    /** `RewriteLastNote`. */
    method RewriteLastNote(s: Service, m: Moment, content: string, f: Faults) returns (err: Option<NoteError>)
      modifies this
      ensures Store(files, err) == Rewritten(old(files), NotePath(s, m), m, content, f)
    {
      var path := NotePath(s, m);
      if path !in files {
        err := AppendToDailyNote(s, m, content, f);
        return;
      }
      if f.read {
        return Some(ReadFailed);
      }
      var lines := Split(files[path], '\n');
      var idx := FindLastHeading(lines);
      if idx == -1 {
        err := AppendToDailyNote(s, m, content, f);
        return;
      }
      var newLines := lines[..idx] + [LastEntry(m, content)];
      if f.write {
        return Some(WriteFailed);
      }
      files := files[path := Join(newLines, "\n")];
      return None;
    }
  }

  /** The backward scan of `RewriteLastNote`: the last heading line, -1 when there is none. */
  method FindLastHeading(lines: seq<string>) returns (idx: int)
    ensures idx == LastHeading(lines)
  {
    idx := -1;
    var i := |lines| - 1;
    while i >= 0
      invariant -1 <= i < |lines|
      invariant idx == -1
      invariant forall j :: i < j < |lines| ==> !IsHeading(lines[j])
    {
      if IsHeading(lines[i]) {
        idx := i;
        break;
      }
      i := i - 1;
    }
  }
}
