/**
 Installing a release over a binary, and rolling it back, over a file system every step of
 which may fail (the Unix path).
 */
module Install {
  import opened Basics

  type Path = string

  const DIGEST_LENGTH := 64

  /** A release: the lines of checksums.txt, each cut into its fields, if there is one and it can
      be fetched; the name of this platform's binary; and the hash. */
  datatype Release = Release(sums: Option<seq<seq<string>>>, asset: string, sha: Bytes -> string)

  // ---- Checksums ----

  function LowerChar(c: char): char {
    if 'A' <= c <= 'Z' then (c as int + 32) as char else c
  }

  function ToLower(s: string): string {
    seq(|s|, i requires 0 <= i < |s| => LowerChar(s[i]))
  }

  /** The name on a line, without the star that marks a binary file. */
  function NameOn(field: string): string {
    if field != "" && field[0] == '*' then field[1..] else field
  }

  predicate IsEntry(line: seq<string>, name: string) {
    |line| == 2 && NameOn(line[1]) == name
  }

  /** What checksums.txt says about a name: the last line about it counts. */
  function Entry(lines: seq<seq<string>>, name: string): Option<string> {
    if lines == [] then None
    else if IsEntry(lines[|lines| - 1], name) then Some(ToLower(lines[|lines| - 1][0]))
    else Entry(lines[..|lines| - 1], name)
  }

  /** A line about a name: a hash and the name, which a star may precede. */
  predicate SpeaksOf(line: seq<string>, name: string) {
    |line| == 2 && (line[1] == "*" + name || (line[1] == name && !(name != "" && name[0] == '*')))
  }

  /** The same text in lower case. */
  predicate InLowerCase(s: string, lower: string) {
    |lower| == |s| && forall i :: 0 <= i < |s| ==>
      if 'A' <= s[i] <= 'Z' then 'a' <= lower[i] <= 'z' && lower[i] - 'a' == s[i] - 'A' else lower[i] == s[i]
  }

  lemma LineSpeaksOf(line: seq<string>, name: string)
    ensures SpeaksOf(line, name) <==> IsEntry(line, name)
    ensures |line| == 2 ==> InLowerCase(line[0], ToLower(line[0]))
  {
    if |line| == 2 && line[1] != "" && line[1][0] == '*' { assert line[1] == "*" + line[1][1..]; }
    if |line| == 2 && line[1] == "*" + name { assert line[1][1..] == name; }
  }

  lemma {:induction false} NoEntryIff(lines: seq<seq<string>>, name: string)
    ensures Entry(lines, name).None? <==> forall i :: 0 <= i < |lines| ==> !SpeaksOf(lines[i], name)
  {
    hide IsEntry, SpeaksOf, ToLower;
    if lines != [] {
      var n := |lines| - 1;
      LineSpeaksOf(lines[n], name);
      NoEntryIff(lines[..n], name);
    }
  }

  lemma {:induction false} LastLineCounts(lines: seq<seq<string>>, name: string, i: nat)
    requires i < |lines| && SpeaksOf(lines[i], name) && forall j :: i < j < |lines| ==> !SpeaksOf(lines[j], name)
    ensures |lines[i]| == 2 && Entry(lines, name).Some? && InLowerCase(lines[i][0], Entry(lines, name).value)
  {
    HasTwo(lines[i], name);
    hide IsEntry, SpeaksOf, ToLower, InLowerCase;
    var n := |lines| - 1;
    LineSpeaksOf(lines[n], name);
    if i < n { LastLineCounts(lines[..n], name, i); }
  }

  /**
   For all lines and names: the entry of a name is what the last line about it says, in lower
   case, and there is none if and only if no line is about it.
   */
  lemma EntryIff(lines: seq<seq<string>>, name: string)
    ensures Entry(lines, name).None? <==> forall i :: 0 <= i < |lines| ==> !SpeaksOf(lines[i], name)
    ensures forall i :: 0 <= i < |lines| && SpeaksOf(lines[i], name) && (forall j :: i < j < |lines| ==> !SpeaksOf(lines[j], name)) ==>
              |lines[i]| == 2 && Entry(lines, name).Some? && InLowerCase(lines[i][0], Entry(lines, name).value)
  {
    NoEntryIff(lines, name);
    hide Entry, SpeaksOf, InLowerCase;
    forall i | 0 <= i < |lines| && SpeaksOf(lines[i], name) && (forall j :: i < j < |lines| ==> !SpeaksOf(lines[j], name))
      ensures |lines[i]| == 2 && Entry(lines, name).Some? && InLowerCase(lines[i][0], Entry(lines, name).value)
    {
      LastLineCounts(lines, name, i);
    }
  }

  lemma HasTwo(line: seq<string>, name: string)
    requires SpeaksOf(line, name)
    ensures |line| == 2
  {
  }

  /** The forms that sha256sum writes, for text and for binary files. */
  lemma WrittenLinesAreRead(lines: seq<seq<string>>, hash: string, name: string, other: string)
    requires name != "" && name[0] != '*' && other != "" && other[0] != '*' && name != other
    ensures forall field :: field in {name, "*" + name} ==>
              && Entry(lines + [[hash, field]], name).Some? && InLowerCase(hash, Entry(lines + [[hash, field]], name).value)
              && Entry(lines + [[hash, field]], other) == Entry(lines, other)
    ensures forall line: seq<string> :: |line| != 2 ==> Entry(lines + [line], name) == Entry(lines, name)
  {
    forall line: seq<string> ensures (lines + [line])[..|lines|] == lines {}
    assert ("*" + name)[1..] == name;
    assert InLowerCase(hash, ToLower(hash));
  }

  method FetchChecksums(lines: seq<seq<string>>) returns (m: map<string, string>)
    ensures forall name :: name in m <==> Entry(lines, name).Some?
    ensures forall name :: name in m ==> Some(m[name]) == Entry(lines, name)
  {
    hide ToLower;
    m := map[];
    for i := 0 to |lines|
      invariant forall name :: name in m <==> Entry(lines[..i], name).Some?
      invariant forall name :: name in m ==> Some(m[name]) == Entry(lines[..i], name)
    {
      assert lines[..i + 1][..i] == lines[..i];
      if |lines[i]| == 2 { m := m[NameOn(lines[i][1]) := ToLower(lines[i][0])]; }
    }
    assert lines[..|lines|] == lines;
  }

  /** The bytes are those that the release promises: their hash is the asset's entry, and that is
      a whole digest. */
  predicate Matches(rel: Release, content: Bytes) {
    && rel.sums.Some?
    && Entry(rel.sums.value, rel.asset) == Some(rel.sha(content))
    && |rel.sha(content)| == DIGEST_LENGTH
  }

  lemma SuffixesDiffer(path: Path, a: string, b: string)
    requires a != b
    ensures path + a != path + b
  {
    assert (path + a)[|path|..] == a && (path + b)[|path|..] == b;
  }

  /** Nothing but the files in `touched` has changed. */
  ghost predicate OnlyTouched(before: map<Path, Bytes>, after: map<Path, Bytes>, touched: set<Path>) {
    forall p :: p !in touched ==> (p in after <==> p in before) && (p in before ==> after[p] == before[p])
  }

  /** A file system. `works` says which of the steps that change files will go well; they are
      numbered as they come; `readable` says which files can be read. `named` records what the
      watched path names after each step. */
  class FileSystem {
    const watched: Path
    const works: nat -> bool
    const readable: Path -> bool
    var files: map<Path, Bytes>
    var step: nat
    ghost var named: seq<Option<Bytes>>

    constructor (files: map<Path, Bytes>, watched: Path, works: nat -> bool, readable: Path -> bool)
      ensures this.files == files && this.watched == watched && this.works == works && this.readable == readable
      ensures step == 0 && named == []
    {
      this.files, this.watched, this.works, this.readable, step, named := files, watched, works, readable, 0, [];
    }

    ghost function Now(): Option<Bytes>
      reads this
    {
      if watched in files then Some(files[watched]) else None
    }

    /** Create or truncate a file and write to it; if that fails, anything may be in it. */
    method Write(path: Path, content: Bytes) returns (ok: bool)
      modifies this
      ensures ok ==> files == old(files)[path := content]
      ensures !ok ==> OnlyTouched(old(files), files, {path})
      ensures named == old(named) + [Now()] && step == old(step) + 1 && ok == works(old(step))
    {
      ok, step := works(step), step + 1;
      if ok {
        files := files[path := content];
      } else {
        var created: bool, part: Bytes := *, *;
        if created { files := files[path := part]; }
      }
      named := named + [Now()];
    }

    method Read(path: Path) returns (content: Option<Bytes>)
      ensures content == if readable(path) && path in files then Some(files[path]) else None
    {
      content := if readable(path) && path in files then Some(files[path]) else None;
    }

    method Remove(path: Path)
      modifies this
      ensures files == if works(old(step)) then old(files) - {path} else old(files)
      ensures named == old(named) + [Now()] && step == old(step) + 1
    {
      var ok := works(step);
      step := step + 1;
      if ok { files := files - {path}; }
      named := named + [Now()];
    }

    /** rename(2): atomic, also over an existing file. */
    method Rename(from: Path, to: Path) returns (ok: bool)
      modifies this
      ensures ok ==> from in old(files) && files == (old(files) - {from})[to := old(files)[from]]
      ensures !ok ==> files == old(files)
      ensures named == old(named) + [Now()] && step == old(step) + 1 && ok == (works(old(step)) && from in old(files))
    {
      ok, step := works(step) && from in files, step + 1;
      if ok { files := (files - {from})[to := files[from]]; }
      named := named + [Now()];
    }
  }

  /** Whatever the watched path has named since is one of these. */
  ghost predicate NamedAmong(before: seq<Option<Bytes>>, after: seq<Option<Bytes>>, good: set<Option<Bytes>>) {
    before <= after && forall i :: |before| <= i < |after| ==> after[i] in good
  }

  /** copyFile: the copy is made beside its destination and renamed over it. */
  method CopyFile(fs: FileSystem, src: Path, dst: Path) returns (ok: bool)
    requires src != dst && src != dst + ".tmp"
    modifies fs
    ensures ok <==> src in old(fs.files) && fs.works(old(fs.step)) && fs.works(old(fs.step) + 1)
    ensures src in old(fs.files) ==> fs.step == old(fs.step) + 2
    ensures src in old(fs.files) && !fs.works(old(fs.step)) && fs.works(old(fs.step) + 1) ==> dst + ".tmp" !in fs.files
    ensures ok ==> dst in fs.files && fs.files[dst] == old(fs.files)[src]
    ensures !ok ==> (dst in fs.files <==> dst in old(fs.files)) && (dst in old(fs.files) ==> fs.files[dst] == old(fs.files)[dst])
    ensures OnlyTouched(old(fs.files), fs.files, {dst, dst + ".tmp"})
    ensures fs.watched !in {dst, dst + ".tmp"} ==> NamedAmong(old(fs.named), fs.named, {old(fs.Now())})
  {
    SuffixesDiffer(dst, "", ".tmp");
    assert dst + "" == dst;
    ok := src in fs.files;
    if !ok { return; }
    var tmp := dst + ".tmp";
    ok := fs.Write(tmp, fs.files[src]);
    if !ok {
      fs.Remove(tmp);
      return;
    }
    ok := fs.Rename(tmp, dst);
  }

  /** verifyReleaseChecksum: a file that can be read is accepted exactly if its hash is the whole
      digest that the release has for this platform's binary. */
  method VerifyChecksum(fs: FileSystem, rel: Release, path: Path) returns (ok: bool)
    ensures ok <==> path in fs.files && fs.readable(path) && Matches(rel, fs.files[path])
  {
    if rel.sums.None? { return false; }
    var checksums := FetchChecksums(rel.sums.value);
    if rel.asset !in checksums { return false; }
    var want := checksums[rel.asset];
    if |want| != DIGEST_LENGTH { return false; }
    var content := fs.Read(path);
    ok := content.Some? && rel.sha(content.value) == want;
  }

  /** Whatever the watched path has named since is the old bytes, or the release's. */
  ghost predicate NamedOldOrNew(rel: Release, was: Bytes, before: seq<Option<Bytes>>, after: seq<Option<Bytes>>) {
    before <= after && forall i :: |before| <= i < |after| ==> after[i].Some? && (after[i].value == was || Matches(rel, after[i].value))
  }

  /**
   installRelease: download, verify, try out, back up, swap. It succeeds if and only if the
   download is written, can be read, matches the release's digest and runs when it is tried out
   (`runs`), and the two steps of the backup and the swap go well. Whatever fails: the path
   always names the old bytes or bytes that match the digest; an error leaves the old ones;
   success leaves the new ones, and the old ones in the backup.
   */
  method InstallRelease(fs: FileSystem, rel: Release, exe: Path, pid: string, download: Bytes, runs: bool) returns (ok: bool)
    requires exe in fs.files && fs.watched == exe
    modifies fs
    ensures ok <==>
      var n := old(fs.step);
      && fs.works(n) && fs.readable(exe + ".new." + pid) && Matches(rel, download) && runs
      && fs.works(n + 1) && fs.works(n + 2) && fs.works(n + 3)
    ensures ok ==> fs.step == old(fs.step) + 4
    ensures exe in fs.files
    ensures ok ==> fs.files[exe] == download && exe + ".bak" in fs.files && fs.files[exe + ".bak"] == old(fs.files)[exe]
    ensures !ok ==> fs.files[exe] == old(fs.files)[exe]
    ensures !ok && (forall n :: fs.works(n)) ==> exe + ".new." + pid !in fs.files
    ensures NamedOldOrNew(rel, old(fs.files)[exe], old(fs.named), fs.named)
  {
    hide Matches, NamedOldOrNew;
    PathsDiffer(exe, pid);
    ok := InstallThrough(fs, rel, exe, exe + ".new." + pid, exe + ".bak", download, runs);
  }

  /** The same, for any temporary file and any name for the backup. */
  method InstallThrough(fs: FileSystem, rel: Release, exe: Path, tmp: Path, bak: Path, download: Bytes, runs: bool) returns (ok: bool)
    requires exe in fs.files && fs.watched == exe
    requires exe !in {tmp, bak, bak + ".tmp"} && tmp !in {bak, bak + ".tmp"} && bak != bak + ".tmp"
    modifies fs
    ensures ok <==>
      var n := old(fs.step);
      && fs.works(n) && fs.readable(tmp) && Matches(rel, download) && runs
      && fs.works(n + 1) && fs.works(n + 2) && fs.works(n + 3)
    ensures ok ==> fs.step == old(fs.step) + 4
    ensures exe in fs.files
    ensures ok ==> fs.files[exe] == download && bak in fs.files && fs.files[bak] == old(fs.files)[exe]
    ensures !ok ==> fs.files[exe] == old(fs.files)[exe]
    ensures !ok && (forall n :: fs.works(n)) ==> tmp !in fs.files
    ensures NamedOldOrNew(rel, old(fs.files)[exe], old(fs.named), fs.named)
  {
    hide Matches;
    ok := fs.Write(tmp, download);
    if ok { ok := VerifyChecksum(fs, rel, tmp); }
    if ok { ok := runs; }
    if ok { ok := BackUpAndSwap(fs, exe, tmp, bak); }
    if !ok { fs.Remove(tmp); }
  }

  /** The last two steps: exe is copied to bak, and tmp renamed over it. */
  method BackUpAndSwap(fs: FileSystem, exe: Path, tmp: Path, bak: Path) returns (ok: bool)
    requires exe in fs.files && tmp in fs.files && fs.watched == exe
    requires exe !in {tmp, bak, bak + ".tmp"} && tmp !in {bak, bak + ".tmp"} && bak != bak + ".tmp"
    modifies fs
    ensures ok <==> fs.works(old(fs.step)) && fs.works(old(fs.step) + 1) && fs.works(old(fs.step) + 2)
    ensures ok ==> fs.step == old(fs.step) + 3
    ensures exe in fs.files && fs.files[exe] == old(fs.files)[if ok then tmp else exe]
    ensures ok ==> bak in fs.files && fs.files[bak] == old(fs.files)[exe]
    ensures NamedAmong(old(fs.named), fs.named, {Some(old(fs.files)[exe]), Some(old(fs.files)[tmp])})
  {
    ok := CopyFile(fs, exe, bak);
    if ok { ok := fs.Rename(tmp, exe); }
  }

  lemma PathsDiffer(exe: Path, pid: string)
    ensures var tmp, bak := exe + ".new." + pid, exe + ".bak";
      exe != tmp && exe != bak && exe != bak + ".tmp" && tmp != bak && tmp != bak + ".tmp" && bak != bak + ".tmp"
  {
    var tmp, bak := exe + ".new." + pid, exe + ".bak";
    assert tmp[|exe| + 1] == 'n' && bak[|exe| + 1] == 'b' && (bak + ".tmp")[|exe| + 1] == 'b';
    assert |tmp| > |exe| && |bak| > |exe| && |bak + ".tmp"| > |bak|;
  }

  // ---- Restart and roll back ----

  datatype Outcome = Running | RolledBack | RollbackFailed | NoBackup

  /**
   The restart helper: the new binary is started, and if it does not come up it is moved aside
   and the backup is copied over it. `n` is the number of the first step of the rollback: the
   backup is restored if and only if the two steps of the copy go well, and the binary is gone
   if and only if they do not and it was moved aside (or there was none).
   */
  method RestartHelper(fs: FileSystem, exe: Path, comesUp: bool, comesUpAgain: bool) returns (outcome: Outcome, restored: bool)
    modifies fs
    ensures comesUp ==> outcome == Running && !restored && fs.files == old(fs.files)
    ensures !comesUp && exe + ".bak" !in old(fs.files) ==> outcome == NoBackup && !restored && fs.files == old(fs.files)
    ensures restored ==> exe + ".bak" in old(fs.files) && exe in fs.files && fs.files[exe] == old(fs.files)[exe + ".bak"]
    ensures !comesUp && exe + ".bak" in old(fs.files) ==>
      var n := old(fs.step);
      && outcome == (if restored && comesUpAgain then RolledBack else RollbackFailed)
      && (restored <==> fs.works(n + 1) && fs.works(n + 2))
      && (exe !in fs.files <==> !restored && (exe in old(fs.files) ==> fs.works(n)))
      && (!restored && exe in fs.files ==> fs.files[exe] == old(fs.files)[exe])
      && (fs.works(n) && exe in old(fs.files) ==> exe + ".failed" in fs.files && fs.files[exe + ".failed"] == old(fs.files)[exe])
    ensures OnlyTouched(old(fs.files), fs.files, {exe, exe + ".failed", exe + ".tmp"})
  {
    restored := false;
    if comesUp { return Running, false; }
    var bak := exe + ".bak";
    if bak !in fs.files { return NoBackup, false; }
    AsideDiffers(exe);
    var aside := fs.Rename(exe, exe + ".failed");
    restored := CopyFile(fs, bak, exe);
    outcome := if restored && comesUpAgain then RolledBack else RollbackFailed;
  }

  function OnlyTheFirst(): nat -> bool { (n: nat) => n == 0 }

  function Everything(): Path -> bool { (path: Path) => true }

  /** A rollback in which the binary is moved aside and the copy of its backup fails: nothing is
      left under its name. */
  method RollbackLosesTheBinary() returns (fs: FileSystem, outcome: Outcome)
    ensures fresh(fs) && outcome == RollbackFailed && "d" !in fs.files
    ensures "d.bak" in fs.files && fs.files["d.bak"] == [1] && "d.failed" in fs.files && fs.files["d.failed"] == [2]
  {
    fs := new FileSystem(map["d" := [2], "d.bak" := [1]], "d", OnlyTheFirst(), Everything());
    assert "d" + ".bak" == "d.bak" && "d" + ".failed" == "d.failed" && "d" + ".tmp" == "d.tmp";
    var restored;
    outcome, restored := RestartHelper(fs, "d", false, false);
  }

  lemma AsideDiffers(exe: Path)
    ensures exe != exe + ".failed" && exe + ".bak" != exe + ".failed" && exe != exe + ".bak" && exe + ".bak" != exe + ".tmp"
    ensures exe + ".failed" != exe + ".tmp"
  {
    assert |exe + ".failed"| > |exe| && |exe + ".bak"| > |exe|;
    SuffixesDiffer(exe, ".failed", ".tmp");
    SuffixesDiffer(exe, ".bak", ".failed");
    SuffixesDiffer(exe, ".bak", ".tmp");
  }

  /**
   An update and a restart: if the install fails nothing has changed; if the new binary does
   not come up and the copy of the backup succeeds, the original bytes are back. So with every
   step going well the path has the new bytes if and only if they match, run and come up, and
   the old bytes if not.
   */
  method UpdateAndRestart(fs: FileSystem, rel: Release, exe: Path, pid: string, download: Bytes,
                          runs: bool, comesUp: bool, comesUpAgain: bool)
    returns (installed: bool, outcome: Outcome, restored: bool)
    requires exe in fs.files && fs.watched == exe
    modifies fs
    ensures !installed ==> exe in fs.files && fs.files[exe] == old(fs.files)[exe]
    ensures installed && comesUp ==> outcome == Running && exe in fs.files && fs.files[exe] == download && Matches(rel, download)
    ensures (forall n :: fs.works(n)) && (forall path :: fs.readable(path)) ==>
              && exe in fs.files
              && fs.files[exe] == (if Matches(rel, download) && runs && comesUp then download else old(fs.files)[exe])
              && (outcome == Running <==> installed && comesUp)
              && (installed <==> Matches(rel, download) && runs)
    ensures installed && !comesUp ==> outcome != NoBackup && outcome != Running
    ensures installed && restored ==> exe in fs.files && fs.files[exe] == old(fs.files)[exe]
    ensures installed && !comesUp && !restored ==> outcome == RollbackFailed
  {
    outcome, restored := NoBackup, false;
    installed := InstallRelease(fs, rel, exe, pid, download, runs);
    if installed { outcome, restored := RestartHelper(fs, exe, comesUp, comesUpAgain); }
  }
}
