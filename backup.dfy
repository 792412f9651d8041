/**
 * The backup procedure: create a `backup_<timestamp>` folder in the backup
 * directory, copy the sources into it with a copy script, keep only the newest
 * `MaxBackups` `backup_*` folders, and append what was created and deleted to
 * the changelog.
 *
 * The host is a value (`HostState`): the listing of the backup directory, the
 * folders whose removal raises, the text files appended to and the files that
 * cannot be opened, and the trace of the steps the run has started.  The
 * clock, the environment and the outcomes of folder creation and of the copy
 * script are parameters.  The `Host` class performs the imperative parts in
 * place.
 */
module Backup {
  import opened Common

  const MaxBackups: nat := 5
  const DefaultBackupDir: string := "/tmp/backups"
  const CandidatePrefix: string := "backup_"

  /** An entry of the backup directory: its name, whether it is a directory,
      and its modification time. */
  datatype Folder = Folder(name: string, isDir: bool, mtime: int)

  // ---------------------------------------------------------------------------
  // Paths
  // ---------------------------------------------------------------------------

  /** os.path.join of a directory and a relative name. */
  function PathJoin(dir: string, name: string): string {
    if dir == "" || HasSuffix(dir, "/") then dir + name else dir + "/" + name
  }

  predicate NoSlash(s: string) {
    forall k :: 0 <= k < |s| ==> s[k] != '/'
  }

  /** os.path.basename: what follows the last '/'. */
  function Basename(p: string): (b: string)
    ensures NoSlash(b) && |b| <= |p|
  {
    if |p| == 0 then ""
    else if p[|p| - 1] == '/' then ""
    else Basename(p[..|p| - 1]) + [p[|p| - 1]]
  }

  lemma {:induction false} BasenameOfSlashless(prefix: string, name: string)
    requires NoSlash(name)
    requires prefix == "" || HasSuffix(prefix, "/")
    ensures Basename(prefix + name) == name
    decreases |name|
  {
    if |name| == 0 {
      assert prefix + name == prefix;
      if prefix != "" {
        assert prefix[|prefix| - 1] == '/';
      }
    } else {
      var init := name[..|name| - 1];
      BasenameOfSlashless(prefix, init);
      assert (prefix + name)[..|prefix + name| - 1] == prefix + init;
    }
  }

  /** The basename of a joined path is the name joined. */
  lemma BasenameOfJoin(dir: string, name: string)
    requires NoSlash(name)
    ensures Basename(PathJoin(dir, name)) == name
  {
    if dir == "" || HasSuffix(dir, "/") {
      BasenameOfSlashless(dir, name);
    } else {
      assert dir + "/" + name == (dir + "/") + name;
      BasenameOfSlashless(dir + "/", name);
    }
  }

  /** BACKUP_DIR, read from the environment with its default. */
  function BackupDirSetting(env: map<string, string>): string {
    if "BACKUP_DIR" in env then env["BACKUP_DIR"] else DefaultBackupDir
  }

  function ChangelogPath(env: map<string, string>): string {
    PathJoin(BackupDirSetting(env), "CHANGELOG")
  }

  /** The file every log() call appends to; an append that fails raises. */
  function LogPath(env: map<string, string>): string {
    PathJoin(BackupDirSetting(env), "backup.log")
  }

  /** The folder create_backup_folder makes: `backup_<timestamp>` in the
      backup directory; it is itself a cleanup candidate. */
  function NewFolderName(stamp: string): (n: string)
    ensures HasPrefix(n, CandidatePrefix)
  {
    CandidatePrefix + stamp
  }

  /** A timestamp without '/' makes a folder name without one. */
  lemma NewFolderNameNoSlash(stamp: string)
    requires NoSlash(stamp)
    ensures NoSlash(NewFolderName(stamp))
  {
    var n := NewFolderName(stamp);
    forall k | 0 <= k < |n|
      ensures n[k] != '/'
    {
      if k < |CandidatePrefix| {
        assert n[k] == CandidatePrefix[k];
      } else {
        assert n[k] == stamp[k - |CandidatePrefix|];
      }
    }
  }

  // ---------------------------------------------------------------------------
  // Candidate selection: a filter, a stable sort by mtime and a slice
  // ---------------------------------------------------------------------------

  predicate IsCandidate(f: Folder) {
    f.isDir && HasPrefix(f.name, CandidatePrefix)
  }

  /** The directories named `backup_*`, in listing order. */
  function Candidates(entries: seq<Folder>): (r: seq<Folder>)
    ensures |r| <= |entries|
  {
    if |entries| == 0 then []
    else if IsCandidate(entries[0]) then [entries[0]] + Candidates(entries[1..])
    else Candidates(entries[1..])
  }

  /** The candidates are exactly the entries that are `backup_*` directories,
      each as often as it is listed. */
  lemma {:induction false} CandidatesSelect(entries: seq<Folder>)
    ensures forall f :: f in Candidates(entries) <==> f in entries && IsCandidate(f)
    ensures forall f :: IsCandidate(f) ==> multiset(Candidates(entries))[f] == multiset(entries)[f]
    ensures forall f :: !IsCandidate(f) ==> f !in multiset(Candidates(entries))
  {
    if |entries| > 0 {
      CandidatesSelect(entries[1..]);
      assert entries == [entries[0]] + entries[1..];
    }
  }

  predicate SortedByMtime(s: seq<Folder>) {
    forall i, j :: 0 <= i < j < |s| ==> s[i].mtime <= s[j].mtime
  }

  /** Puts `x` after every element whose mtime is not later than its own. */
  function Insert(x: Folder, s: seq<Folder>): (r: seq<Folder>)
    ensures multiset(r) == multiset(s) + multiset{x}
    ensures |r| == |s| + 1
  {
    if |s| == 0 then [x]
    else if x.mtime < s[0].mtime then [x] + s
    else
      assert s == [s[0]] + s[1..];
      [s[0]] + Insert(x, s[1..])
  }

  lemma {:induction false} InsertSorted(x: Folder, s: seq<Folder>)
    requires SortedByMtime(s)
    ensures SortedByMtime(Insert(x, s))
  {
    if |s| > 0 && s[0].mtime <= x.mtime {
      InsertSorted(x, s[1..]);
      var r := Insert(x, s[1..]);
      forall f | f in r
        ensures s[0].mtime <= f.mtime
      {
        assert f in multiset(r);
        assert f in multiset(s[1..]) + multiset{x};
      }
    }
  }

  /** Python's `sorted(..., key=mtime)`, as an insertion sort taking the
      elements in order; it only permutes its input. */
  function SortByMtime(s: seq<Folder>): (r: seq<Folder>)
    ensures |r| == |s|
    ensures multiset(r) == multiset(s)
  {
    if |s| == 0 then []
    else
      assert s == s[..|s| - 1] + [s[|s| - 1]];
      Insert(s[|s| - 1], SortByMtime(s[..|s| - 1]))
  }

  /** The sort orders by mtime. */
  lemma {:induction false} SortByMtimeSorted(s: seq<Folder>)
    ensures SortedByMtime(SortByMtime(s))
  {
    if |s| > 0 {
      SortByMtimeSorted(s[..|s| - 1]);
      InsertSorted(s[|s| - 1], SortByMtime(s[..|s| - 1]));
    }
  }

  /** The oldest `len - max` candidates, or none when there are at most `max`. */
  function ToDelete(sorted: seq<Folder>, max: nat): (r: seq<Folder>)
    ensures |sorted| <= max ==> r == []
    ensures max < |sorted| ==> |r| == |sorted| - max && r == sorted[..|sorted| - max]
  {
    if |sorted| <= max then [] else sorted[..|sorted| - max]
  }

  /** Cutting a sorted sequence leaves nothing in the front newer than
      anything in the back. */
  lemma SortedSplit(s: seq<Folder>, n: nat)
    requires SortedByMtime(s) && n <= |s|
    ensures s == s[..n] + s[n..]
    ensures multiset(s[..n]) + multiset(s[n..]) == multiset(s)
    ensures forall d, k :: d in s[..n] && k in s[n..] ==> d.mtime <= k.mtime
  {
    assert s == s[..n] + s[n..];
    forall d, k | d in s[..n] && k in s[n..]
      ensures d.mtime <= k.mtime
    {
      var i :| 0 <= i < n && s[..n][i] == d;
      var j :| 0 <= j < |s| - n && s[n..][j] == k;
      assert s[i] == d && s[n + j] == k;
    }
  }

  /** Only the oldest go: every folder chosen for deletion is no newer than
      every folder kept, exactly `max` are kept when there were more, and the
      two together are the candidates. */
  lemma OldestAreChosen(entries: seq<Folder>, max: nat)
    ensures var sorted := SortByMtime(Candidates(entries));
      var chosen := ToDelete(sorted, max);
      var kept := sorted[|chosen|..];
      && sorted == chosen + kept
      && (max < |sorted| ==> |kept| == max)
      && (forall d, k :: d in chosen && k in kept ==> d.mtime <= k.mtime)
      && multiset(chosen) + multiset(kept) == multiset(Candidates(entries))
  {
    var sorted := SortByMtime(Candidates(entries));
    SortByMtimeSorted(Candidates(entries));
    var n := |ToDelete(sorted, max)|;
    assert ToDelete(sorted, max) == sorted[..n];
    SortedSplit(sorted, n);
  }

  // ---------------------------------------------------------------------------
  // The host and the steps of a run
  // ---------------------------------------------------------------------------

  datatype StepKind = CreateFolder | CopyFiles | Cleanup | WriteChangelog

  datatype HostState = HostState(
    entries: seq<Folder>,
    rmtreeFails: set<string>,
    files: map<string, seq<string>>,
    appendFails: set<string>,
    trace: seq<StepKind>)

  /** The entries left once the folder `name` is removed. */
  function Without(entries: seq<Folder>, name: string): (r: seq<Folder>)
    ensures |r| <= |entries|
  {
    if |entries| == 0 then []
    else if entries[0].name == name then Without(entries[1..], name)
    else [entries[0]] + Without(entries[1..], name)
  }

  lemma {:induction false} WithoutMembers(entries: seq<Folder>, name: string)
    ensures forall f :: f in Without(entries, name) <==> f in entries && f.name != name
  {
    if |entries| > 0 {
      WithoutMembers(entries[1..], name);
      assert entries == [entries[0]] + entries[1..];
    }
  }

  /** The paths the deletion loop removes from `chosen[i..]`, in order:
      those whose rmtree does not raise.  The path is written as
      `os.path.join` writes it, not as pathlib normalises it. */
  function DeletedFrom(chosen: seq<Folder>, i: nat, fails: set<string>, dir: string): (r: seq<string>)
    requires i <= |chosen|
    ensures |r| <= |chosen| - i
    decreases |chosen| - i
  {
    if i == |chosen| then []
    else if chosen[i].name in fails then DeletedFrom(chosen, i + 1, fails, dir)
    else [PathJoin(dir, chosen[i].name)] + DeletedFrom(chosen, i + 1, fails, dir)
  }

  /** The listing after the deletion loop over `chosen[i..]`. */
  function RemainingFrom(entries: seq<Folder>, chosen: seq<Folder>, i: nat, fails: set<string>): seq<Folder>
    requires i <= |chosen|
    decreases |chosen| - i
  {
    if i == |chosen| then entries
    else if chosen[i].name in fails then RemainingFrom(entries, chosen, i + 1, fails)
    else RemainingFrom(Without(entries, chosen[i].name), chosen, i + 1, fails)
  }

  /** One iteration of the deletion loop. */
  lemma DeletionStep(entries: seq<Folder>, chosen: seq<Folder>, i: nat, fails: set<string>, dir: string)
    requires i < |chosen|
    ensures chosen[i].name in fails ==>
      && DeletedFrom(chosen, i, fails, dir) == DeletedFrom(chosen, i + 1, fails, dir)
      && RemainingFrom(entries, chosen, i, fails) == RemainingFrom(entries, chosen, i + 1, fails)
    ensures chosen[i].name !in fails ==>
      && DeletedFrom(chosen, i, fails, dir) == [PathJoin(dir, chosen[i].name)] + DeletedFrom(chosen, i + 1, fails, dir)
      && RemainingFrom(entries, chosen, i, fails) == RemainingFrom(Without(entries, chosen[i].name), chosen, i + 1, fails)
  {
  }

  /** A path the loop reports deleted is a chosen folder whose removal succeeded. */
  lemma {:induction false} DeletedAreChosen(chosen: seq<Folder>, i: nat, fails: set<string>, dir: string, p: string)
    requires i <= |chosen|
    requires p in DeletedFrom(chosen, i, fails, dir)
    ensures exists j :: i <= j < |chosen| && chosen[j].name !in fails && p == PathJoin(dir, chosen[j].name)
    decreases |chosen| - i
  {
    if chosen[i].name in fails || p != PathJoin(dir, chosen[i].name) {
      DeletedAreChosen(chosen, i + 1, fails, dir, p);
    }
  }

  /** Every chosen folder whose removal succeeds is reported deleted. */
  lemma {:induction false} DeletedComplete(chosen: seq<Folder>, i: nat, fails: set<string>, dir: string, j: nat)
    requires i <= j < |chosen| && chosen[j].name !in fails
    ensures PathJoin(dir, chosen[j].name) in DeletedFrom(chosen, i, fails, dir)
    decreases |chosen| - i
  {
    if i < j {
      DeletedComplete(chosen, i + 1, fails, dir, j);
    }
  }

  /** The folders of `chosen[i..]` whose removal succeeds, in loop order. */
  function Removed(chosen: seq<Folder>, i: nat, fails: set<string>): (r: seq<Folder>)
    requires i <= |chosen|
    ensures |r| <= |chosen| - i
    decreases |chosen| - i
  {
    if i == |chosen| then []
    else if chosen[i].name in fails then Removed(chosen, i + 1, fails)
    else [chosen[i]] + Removed(chosen, i + 1, fails)
  }

  lemma {:induction false} RemovedMembers(chosen: seq<Folder>, i: nat, fails: set<string>)
    requires i <= |chosen|
    ensures forall f :: f in Removed(chosen, i, fails) <==> f in chosen[i..] && f.name !in fails
    decreases |chosen| - i
  {
    if i < |chosen| {
      RemovedMembers(chosen, i + 1, fails);
      assert chosen[i..] == [chosen[i]] + chosen[i + 1..];
    }
  }

  /** The paths of the folders under `dir`, in order. */
  function Paths(dir: string, folders: seq<Folder>): (r: seq<string>)
    ensures |r| == |folders|
  {
    if |folders| == 0 then [] else [PathJoin(dir, folders[0].name)] + Paths(dir, folders[1..])
  }

  lemma {:induction false} PathsAt(dir: string, folders: seq<Folder>, k: nat)
    requires k < |folders|
    ensures Paths(dir, folders)[k] == PathJoin(dir, folders[k].name)
  {
    if 0 < k {
      PathsAt(dir, folders[1..], k - 1);
    }
  }

  /** The deletion loop reports the paths of the removed folders, one each,
      in loop order. */
  lemma {:induction false} DeletedArePathsOfRemoved(chosen: seq<Folder>, i: nat, fails: set<string>, dir: string)
    requires i <= |chosen|
    ensures DeletedFrom(chosen, i, fails, dir) == Paths(dir, Removed(chosen, i, fails))
    decreases |chosen| - i
  {
    if i < |chosen| {
      DeletedArePathsOfRemoved(chosen, i + 1, fails, dir);
      if chosen[i].name !in fails {
        var rest := Removed(chosen, i + 1, fails);
        assert ([chosen[i]] + rest)[1..] == rest;
      }
    }
  }

  /** A folder no newer than everything in a sorted sequence can go in front. */
  lemma SortedCons(x: Folder, rest: seq<Folder>)
    requires SortedByMtime(rest)
    requires forall f :: f in rest ==> x.mtime <= f.mtime
    ensures SortedByMtime([x] + rest)
  {
    var r := [x] + rest;
    forall a, b | 0 <= a < b < |r|
      ensures r[a].mtime <= r[b].mtime
    {
      assert r[b] == rest[b - 1] && rest[b - 1] in rest;
      if 0 < a {
        assert r[a] == rest[a - 1];
      }
    }
  }

  /** In a sorted choice, `chosen[i]` is no newer than anything removed after it. */
  lemma HeadNoNewer(chosen: seq<Folder>, i: nat, fails: set<string>)
    requires i < |chosen| && SortedByMtime(chosen)
    ensures forall f :: f in Removed(chosen, i + 1, fails) ==> chosen[i].mtime <= f.mtime
  {
    RemovedMembers(chosen, i + 1, fails);
    forall f | f in Removed(chosen, i + 1, fails)
      ensures chosen[i].mtime <= f.mtime
    {
      var j :| 0 <= j < |chosen| - (i + 1) && chosen[i + 1..][j] == f;
      assert chosen[i + 1 + j] == f;
    }
  }

  /** Removal keeps the order of a sorted choice. */
  lemma {:induction false} RemovedSorted(chosen: seq<Folder>, i: nat, fails: set<string>)
    requires i <= |chosen| && SortedByMtime(chosen)
    ensures SortedByMtime(Removed(chosen, i, fails))
    decreases |chosen| - i
  {
    if i < |chosen| {
      RemovedSorted(chosen, i + 1, fails);
      if chosen[i].name !in fails {
        HeadNoNewer(chosen, i, fails);
        SortedCons(chosen[i], Removed(chosen, i + 1, fails));
      }
    }
  }

  /** A folder whose removal succeeded is gone from the listing afterwards. */
  lemma {:induction false} RemovedAreGone(entries: seq<Folder>, chosen: seq<Folder>, i: nat, fails: set<string>, f: Folder)
    requires i <= |chosen|
    requires f in RemainingFrom(entries, chosen, i, fails)
    ensures f in entries
    ensures forall j :: i <= j < |chosen| && chosen[j].name !in fails ==> f.name != chosen[j].name
    decreases |chosen| - i
  {
    if i < |chosen| {
      if chosen[i].name in fails {
        RemovedAreGone(entries, chosen, i + 1, fails, f);
      } else {
        RemovedAreGone(Without(entries, chosen[i].name), chosen, i + 1, fails, f);
        WithoutMembers(entries, chosen[i].name);
      }
    }
  }

  /** Every other entry survives the deletion loop. */
  lemma {:induction false} OthersRemain(entries: seq<Folder>, chosen: seq<Folder>, i: nat, fails: set<string>, f: Folder)
    requires i <= |chosen|
    requires f in entries
    requires forall j :: i <= j < |chosen| && chosen[j].name !in fails ==> f.name != chosen[j].name
    ensures f in RemainingFrom(entries, chosen, i, fails)
    decreases |chosen| - i
  {
    if i < |chosen| {
      if chosen[i].name in fails {
        OthersRemain(entries, chosen, i + 1, fails, f);
      } else {
        WithoutMembers(entries, chosen[i].name);
        OthersRemain(Without(entries, chosen[i].name), chosen, i + 1, fails, f);
      }
    }
  }

  /** cleanup_old_backups on a listing: the paths deleted and the listing left. */
  function CleanupResult(entries: seq<Folder>, fails: set<string>, dir: string, max: nat): (r: (seq<string>, seq<Folder>)) {
    var chosen := Chosen(entries, max);
    (DeletedFrom(chosen, 0, fails, dir), RemainingFrom(entries, chosen, 0, fails))
  }

  /** The folders cleanup_old_backups tries to remove, oldest first. */
  function Chosen(entries: seq<Folder>, max: nat): seq<Folder> {
    ToDelete(SortByMtime(Candidates(entries)), max)
  }

  /** The chosen folders are sorted oldest first. */
  lemma ChosenSorted(entries: seq<Folder>, max: nat)
    ensures SortedByMtime(Chosen(entries, max))
  {
    var sorted := SortByMtime(Candidates(entries));
    SortByMtimeSorted(Candidates(entries));
    var chosen := Chosen(entries, max);
    forall a, b | 0 <= a < b < |chosen|
      ensures chosen[a].mtime <= chosen[b].mtime
    {
      assert chosen[a] == sorted[a] && chosen[b] == sorted[b];
    }
  }

  /** cleanup_old_backups reports deleted exactly the chosen folders whose
      removal succeeds, each once, oldest first. */
  lemma CleanupDeletesOldestFirst(entries: seq<Folder>, fails: set<string>, dir: string, max: nat)
    ensures var chosen := Chosen(entries, max);
      var deleted := CleanupResult(entries, fails, dir, max).0;
      var removed := Removed(chosen, 0, fails);
      && SortedByMtime(removed)
      && (forall f :: f in removed <==> f in chosen && f.name !in fails)
      && |deleted| == |removed|
      && (forall k :: 0 <= k < |deleted| ==> deleted[k] == PathJoin(dir, removed[k].name))
  {
    var chosen := Chosen(entries, max);
    ChosenSorted(entries, max);
    RemovedSorted(chosen, 0, fails);
    RemovedMembers(chosen, 0, fails);
    assert chosen[0..] == chosen;
    DeletedArePathsOfRemoved(chosen, 0, fails, dir);
    var removed := Removed(chosen, 0, fails);
    forall k | 0 <= k < |removed|
      ensures Paths(dir, removed)[k] == PathJoin(dir, removed[k].name)
    {
      PathsAt(dir, removed, k);
    }
  }

  /** Within the limit nothing is deleted and `[]` is returned. */
  lemma WithinLimitDeletesNothing(s: HostState, dir: string, max: nat)
    requires |Candidates(s.entries)| <= max
    ensures CleanupResult(s.entries, s.rmtreeFails, dir, max) == ([], s.entries)
  {
  }

  function CreatedLine(date: string, newFolder: string): string {
    "[CREATED] " + date + " - " + Basename(newFolder) + "\n"
  }

  function DeletedLine(date: string, folder: string): string {
    "[DELETED] " + date + " - " + Basename(folder) + "\n"
  }

  /** One DELETED line per deleted folder, in order. */
  function DeletedLines(date: string, deleted: seq<string>): (r: seq<string>)
    ensures |r| == |deleted|
  {
    if |deleted| == 0 then []
    else DeletedLines(date, deleted[..|deleted| - 1]) + [DeletedLine(date, deleted[|deleted| - 1])]
  }

  /** The `k`-th DELETED line names the `k`-th deleted folder. */
  lemma {:induction false} DeletedLinesAt(date: string, deleted: seq<string>, k: nat)
    requires k < |deleted|
    ensures DeletedLines(date, deleted)[k] == DeletedLine(date, deleted[k])
  {
    var init := deleted[..|deleted| - 1];
    if k < |init| {
      DeletedLinesAt(date, init, k);
    }
  }

  /** The changelog text: the CREATED line of the new folder, then the
      DELETED lines. */
  function ChangelogLines(date: string, newFolder: string, deleted: seq<string>): (r: seq<string>)
    ensures |r| == |deleted| + 1
    ensures r[0] == CreatedLine(date, newFolder)
    ensures r[1..] == DeletedLines(date, deleted)
  {
    [CreatedLine(date, newFolder)] + DeletedLines(date, deleted)
  }

  /** update_changelog: appends the lines to the changelog, or fails to open it. */
  function ChangelogResult(s: HostState, path: string, lines: seq<string>): (r: (bool, HostState))
    ensures r.0 <==> path !in s.appendFails
    ensures r.1.entries == s.entries && r.1.trace == s.trace
  {
    if path in s.appendFails then (false, s)
    else
      var before := if path in s.files then s.files[path] else [];
      (true, s.(files := s.files[path := before + lines]))
  }

  /** What the run is handed besides the host: the command line, the
      environment, the clock, and the outcomes of the folder creation and of
      the copy script. */
  datatype Inputs = Inputs(
    argv: seq<string>,
    env: map<string, string>,
    stamp: string,
    date: string,
    now: int,
    backupDirFails: bool,
    createFails: bool,
    copyScriptExists: bool,
    copySucceeds: bool)

  datatype RunResult = RunResult(exit: int, host: HostState)

  /** An entry named `name` that is not a directory: makedirs raises even
      with exist_ok, and create_backup_folder returns None. */
  predicate Obstructed(entries: seq<Folder>, name: string) {
    exists k :: 0 <= k < |entries| && entries[k].name == name && !entries[k].isDir
  }

  /** The listing after create_backup_folder made `name` (makedirs with
      exist_ok leaves an existing directory alone). */
  function WithFolder(entries: seq<Folder>, name: string, now: int): seq<Folder> {
    if exists k :: 0 <= k < |entries| && entries[k].name == name then entries
    else entries + [Folder(name, true, now)]
  }

  /** One run of the script.  Whether backup.log can be appended is fixed
      for the run: when it cannot, the unguarded first log() call raises and
      the script exits 1 before any step. */
  function Run(s: HostState, i: Inputs): RunResult
    requires NoSlash(i.stamp)
  {
    if |i.argv| < 4 then RunResult(1, s)
    else if i.backupDirFails then RunResult(1, s)
    else if LogPath(i.env) in s.appendFails then RunResult(1, s)
    else
      var s1 := s.(trace := s.trace + [CreateFolder]);
      if i.createFails || Obstructed(s1.entries, NewFolderName(i.stamp)) then RunResult(1, s1)
      else
        var s2 := s1.(entries := WithFolder(s1.entries, NewFolderName(i.stamp), i.now), trace := s1.trace + [CopyFiles]);
        if !i.copyScriptExists || !i.copySucceeds then RunResult(1, s2)
        else Finish(s2, i.argv[2], i)
  }

  /** The last two steps of a run: cleanup, then the changelog.  A run gets
      here only once backup.log took the first log line, so the later log()
      calls, the last one included, do not raise. */
  function Finish(s: HostState, dir: string, i: Inputs): (r: RunResult)
    requires LogPath(i.env) !in s.appendFails
    ensures r.host.trace == s.trace + [Cleanup, WriteChangelog]
    ensures r.exit == 0 <==> ChangelogPath(i.env) !in s.appendFails
    ensures r.exit == 0 || r.exit == 1
  {
    var newFolder := PathJoin(dir, NewFolderName(i.stamp));
    var s3 := s.(trace := s.trace + [Cleanup]);
    var (deleted, remaining) := CleanupResult(s3.entries, s3.rmtreeFails, dir, MaxBackups);
    var s4 := s3.(entries := remaining, trace := s3.trace + [WriteChangelog]);
    var (ok, s5) := ChangelogResult(s4, ChangelogPath(i.env), ChangelogLines(i.date, newFolder, deleted));
    RunResult(if ok then 0 else 1, s5)
  }

  class Host {
    var entries: seq<Folder>
    const rmtreeFails: set<string>
    var files: map<string, seq<string>>
    const appendFails: set<string>
    var trace: seq<StepKind>

    function State(): HostState
      reads this
    {
      HostState(entries, rmtreeFails, files, appendFails, trace)
    }

    constructor (s: HostState)
      ensures State() == s
    {
      entries, rmtreeFails, files, appendFails, trace := s.entries, s.rmtreeFails, s.files, s.appendFails, s.trace;
    }

    /** shutil.rmtree of one backup folder; false when it raises. */
    method RemoveTree(name: string) returns (ok: bool)
      modifies this
      ensures ok <==> name !in rmtreeFails
      ensures entries == if ok then Without(old(entries), name) else old(entries)
      ensures files == old(files) && trace == old(trace)
    {
      if name in rmtreeFails {
        return false;
      }
      entries := Without(entries, name);
      return true;
    }

    /** cleanup_old_backups: the deletion loop over the chosen folders, which
        logs and skips a folder whose removal raises. */
    method CleanupOldBackups(dir: string, max: nat) returns (deleted: seq<string>)
      modifies this
      ensures (deleted, entries) == CleanupResult(old(entries), rmtreeFails, dir, max)
      ensures files == old(files) && trace == old(trace)
    {
      var chosen := Chosen(entries, max);
      if |chosen| == 0 {
        return [];
      }
      ghost var start := entries;
      deleted := [];
      for i := 0 to |chosen|
        invariant files == old(files) && trace == old(trace)
        invariant deleted + DeletedFrom(chosen, i, rmtreeFails, dir) == DeletedFrom(chosen, 0, rmtreeFails, dir)
        invariant RemainingFrom(entries, chosen, i, rmtreeFails) == RemainingFrom(start, chosen, 0, rmtreeFails)
      {
        DeletionStep(entries, chosen, i, rmtreeFails, dir);
        var ok := RemoveTree(chosen[i].name);
        if ok {
          assert (deleted + [PathJoin(dir, chosen[i].name)]) + DeletedFrom(chosen, i + 1, rmtreeFails, dir)
              == deleted + ([PathJoin(dir, chosen[i].name)] + DeletedFrom(chosen, i + 1, rmtreeFails, dir));
          deleted := deleted + [PathJoin(dir, chosen[i].name)];
        }
      }
      assert DeletedFrom(chosen, |chosen|, rmtreeFails, dir) == [];
      assert deleted + [] == deleted;
    }

    /** update_changelog: one line written per iteration once the file is open. */
    method UpdateChangelog(path: string, date: string, newFolder: string, deleted: seq<string>) returns (ok: bool)
      modifies this
      ensures (ok, State()) == ChangelogResult(old(State()), path, ChangelogLines(date, newFolder, deleted))
    {
      if path in appendFails {
        return false;
      }
      var before := if path in files then files[path] else [];
      var written := [CreatedLine(date, newFolder)];
      for k := 0 to |deleted|
        invariant written == [CreatedLine(date, newFolder)] + DeletedLines(date, deleted[..k])
      {
        assert deleted[..k + 1][..k] == deleted[..k] && deleted[..k + 1][k] == deleted[k];
        written := written + [DeletedLine(date, deleted[k])];
      }
      assert deleted[..|deleted|] == deleted;
      files := files[path := before + written];
      return true;
    }

    /** main: the four steps in order, exiting 1 at the first that fails. */
    method RunBackup(i: Inputs) returns (exit: int)
      requires NoSlash(i.stamp)
      modifies this
      ensures RunResult(exit, State()) == Run(old(State()), i)
    {
      if |i.argv| < 4 {
        return 1;
      }
      var dir := i.argv[2];
      if i.backupDirFails {
        return 1;
      }
      if LogPath(i.env) in appendFails {
        return 1;
      }
      trace := trace + [CreateFolder];
      var name := NewFolderName(i.stamp);
      if i.createFails || Obstructed(entries, name) {
        return 1;
      }
      var newFolder := PathJoin(dir, name);
      entries := WithFolder(entries, name, i.now);
      trace := trace + [CopyFiles];
      if !i.copyScriptExists || !i.copySucceeds {
        return 1;
      }
      trace := trace + [Cleanup];
      var deleted := CleanupOldBackups(dir, MaxBackups);
      trace := trace + [WriteChangelog];
      var ok := UpdateChangelog(ChangelogPath(i.env), i.date, newFolder, deleted);
      if !ok {
        return 1;
      }
      return 0;
    }
  }

  // ---------------------------------------------------------------------------
  // Properties of a run
  // ---------------------------------------------------------------------------

  /** The steps start in the order create, copy, cleanup, changelog; a run
      exits 0 only when all four ran and the changelog was written. */
  lemma StepsInOrder(s: HostState, i: Inputs)
    requires NoSlash(i.stamp)
    ensures var r := Run(s, i);
      var steps := [CreateFolder, CopyFiles, Cleanup, WriteChangelog];
      && |s.trace| <= |r.host.trace| <= |s.trace| + 4
      && r.host.trace == s.trace + steps[..|r.host.trace| - |s.trace|]
      && (r.exit == 0 <==> r.host.trace == s.trace + steps && LogPath(i.env) !in s.appendFails && ChangelogPath(i.env) !in s.appendFails)
      && (r.exit != 0 ==> r.exit == 1)
  {
    var steps := [CreateFolder, CopyFiles, Cleanup, WriteChangelog];
    assert steps[..0] == [] && steps[..1] == [CreateFolder] && steps[..2] == [CreateFolder, CopyFiles];
    assert steps[..3] == [CreateFolder, CopyFiles, Cleanup] && steps[..4] == steps;
  }

  /** Fewer than three arguments: exit 1 before anything happens. */
  lemma UsageExits(s: HostState, i: Inputs)
    requires NoSlash(i.stamp) && |i.argv| < 4
    ensures Run(s, i) == RunResult(1, s)
  {
  }

  /** A log file that cannot be appended, a failed folder creation (a
      non-directory in the way included) or a failed copy exits 1 before any
      cleanup: no folder is removed and the changelog is untouched. */
  lemma EarlyFailureSkipsCleanup(s: HostState, i: Inputs)
    requires NoSlash(i.stamp) && 4 <= |i.argv| && !i.backupDirFails
    requires || LogPath(i.env) in s.appendFails
             || i.createFails || Obstructed(s.entries, NewFolderName(i.stamp))
             || !i.copyScriptExists || !i.copySucceeds
    ensures var r := Run(s, i);
      && r.exit == 1
      && Cleanup !in r.host.trace[|s.trace|..]
      && r.host.files == s.files
      && forall f :: f in s.entries ==> f in r.host.entries
  {
  }

  /** When backup.log cannot be appended the run exits 1 right after making
      the backup directory, before the first step starts. */
  lemma LogFailureStopsFirst(s: HostState, i: Inputs)
    requires NoSlash(i.stamp) && 4 <= |i.argv| && !i.backupDirFails
    requires LogPath(i.env) in s.appendFails
    ensures Run(s, i) == RunResult(1, s)
  {
  }

  /** A non-directory entry already named like the new folder makes the
      folder creation fail: exit 1 with only the first step started and the
      listing unchanged. */
  lemma ObstructedFolderExits(s: HostState, i: Inputs)
    requires NoSlash(i.stamp) && 4 <= |i.argv| && !i.backupDirFails && LogPath(i.env) !in s.appendFails
    requires Obstructed(s.entries, NewFolderName(i.stamp))
    ensures Run(s, i) == RunResult(1, s.(trace := s.trace + [CreateFolder]))
  {
  }

  /** The changelog step appends exactly its lines to the file at `path` and
      touches no other file. */
  lemma ChangelogAppends(s: HostState, path: string, lines: seq<string>)
    requires path !in s.appendFails
    ensures var r := ChangelogResult(s, path, lines);
      var before := if path in s.files then s.files[path] else [];
      && path in r.1.files && r.1.files[path] == before + lines
      && forall p :: p in r.1.files && p != path ==> p in s.files && r.1.files[p] == s.files[p]
  {
  }

  /** The last two steps append the changelog lines for the folders the
      cleanup removed, when the changelog can be opened. */
  lemma FinishWritesChangelog(s: HostState, dir: string, i: Inputs)
    requires LogPath(i.env) !in s.appendFails && ChangelogPath(i.env) !in s.appendFails
    ensures var r := Finish(s, dir, i);
      var path := ChangelogPath(i.env);
      var before := if path in s.files then s.files[path] else [];
      var deleted := CleanupResult(s.entries, s.rmtreeFails, dir, MaxBackups).0;
      && path in r.host.files
      && r.host.files[path] == before + ChangelogLines(i.date, PathJoin(dir, NewFolderName(i.stamp)), deleted)
      && (forall p :: p in r.host.files && p != path ==> p in s.files && r.host.files[p] == s.files[p])
  {
    var s3 := s.(trace := s.trace + [Cleanup]);
    var (deleted, remaining) := CleanupResult(s3.entries, s3.rmtreeFails, dir, MaxBackups);
    var s4 := s3.(entries := remaining, trace := s3.trace + [WriteChangelog]);
    ChangelogAppends(s4, ChangelogPath(i.env), ChangelogLines(i.date, PathJoin(dir, NewFolderName(i.stamp)), deleted));
  }

  /** A run that got past the copy is the last two steps on the host with the
      new folder listed and the first two steps traced. */
  lemma RunFinishes(s: HostState, i: Inputs) returns (s2: HostState)
    requires NoSlash(i.stamp)
    requires 4 <= |i.argv| && !i.backupDirFails && LogPath(i.env) !in s.appendFails
    requires !i.createFails && !Obstructed(s.entries, NewFolderName(i.stamp)) && i.copyScriptExists && i.copySucceeds
    ensures s2 == s.(entries := WithFolder(s.entries, NewFolderName(i.stamp), i.now), trace := s.trace + [CreateFolder, CopyFiles])
    ensures Run(s, i) == Finish(s2, i.argv[2], i)
  {
    s2 := s.(entries := WithFolder(s.entries, NewFolderName(i.stamp), i.now), trace := s.trace + [CreateFolder, CopyFiles]);
  }

  /** A completed run wrote, to the changelog named by BACKUP_DIR and not to
      the backup directory argument, the CREATED line of the new folder
      followed by one DELETED line per removed folder, and no other file
      (backup.log, whose lines are not modelled, apart). */
  lemma ChangelogWritten(s: HostState, i: Inputs)
    requires NoSlash(i.stamp)
    requires Run(s, i).exit == 0
    ensures 4 <= |i.argv|
    ensures var r := Run(s, i);
      var path := ChangelogPath(i.env);
      var before := if path in s.files then s.files[path] else [];
      var deleted := CleanupResult(WithFolder(s.entries, NewFolderName(i.stamp), i.now), s.rmtreeFails, i.argv[2], MaxBackups).0;
      && path in r.host.files
      && r.host.files[path] == before + ChangelogLines(i.date, PathJoin(i.argv[2], NewFolderName(i.stamp)), deleted)
      && r.host.files[path][|before|] == "[CREATED] " + i.date + " - " + NewFolderName(i.stamp) + "\n"
      && (forall p :: p in r.host.files && p != path ==> p in s.files && r.host.files[p] == s.files[p])
  {
    var dir := i.argv[2];
    NewFolderNameNoSlash(i.stamp);
    BasenameOfJoin(dir, NewFolderName(i.stamp));
    var s2 := RunFinishes(s, i);
    FinishWritesChangelog(s2, dir, i);
  }

  /** The new folder is a cleanup candidate, so it counts toward the limit. */
  lemma NewFolderIsCandidate(s: HostState, i: Inputs)
    requires NoSlash(i.stamp)
    requires 4 <= |i.argv| && !i.backupDirFails && !i.createFails
    requires forall k :: 0 <= k < |s.entries| ==> s.entries[k].name != NewFolderName(i.stamp)
    ensures Folder(NewFolderName(i.stamp), true, i.now) in Candidates(WithFolder(s.entries, NewFolderName(i.stamp), i.now))
  {
    var e := WithFolder(s.entries, NewFolderName(i.stamp), i.now);
    CandidatesSelect(e);
    assert e[|e| - 1] == Folder(NewFolderName(i.stamp), true, i.now);
  }
}
