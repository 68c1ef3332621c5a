/**
 Sealed backups. A backup is a new directory of payloads and, written last, the manifest that seals it;
 a check reads the directory back. A digest is represented by the content it names, and the project's
 identity inside the database, which both sides read from the store, is left to the store.
 */
module Backup {
  import opened Prelude
  import opened Ordering

  const FILE_CAP: nat := 256 * 1024 * 1024
  const TOTAL_CAP: nat := 1024 * 1024 * 1024
  const FILE_COUNT: nat := 10000
  const MANIFEST_CAP: nat := 16 * 1024 * 1024
  const CONFIGURATION_CAP: nat := 64 * 1024
  const MARKDOWN_READ_CAP: nat := 2 * 1024 * 1024
  const YAML_READ_CAP: nat := 4 * 1024 * 1024

  const CLI := "program/awr"
  const MCP := "program/awr-mcp"
  const DATABASE := "runtime/state.db"
  const CONFIGURATION := "project.toml"

  datatype File = File(name: string, body: Bytes)

  datatype Blob = Blob(path: string, digest: Bytes, bytes: nat)

  /** A runtime file under its name, or a source under its id. */
  datatype Entry = Entry(name: string, blob: Blob)

  /** `runtime` in ascending order of names. */
  datatype Snapshot = Snapshot(
    database: Blob, program: Blob, companion: Option<Blob>, runtime: seq<Entry>, sources: seq<Entry>)

  /** `bytes` is the length of the serialized manifest. */
  datatype Manifest = Manifest(snapshot: Snapshot, fingerprint: Snapshot, bytes: nat)

  datatype Directory = Directory(files: map<string, Bytes>, manifest: Option<Manifest>)

  const NEW_DIRECTORY := Directory(map[], None)

  datatype Step = Put(path: string, body: Bytes) | Seal(manifest: Manifest)

  // ---------------------------------------------------------------- names

  function Components(s: string): (r: seq<string>)
    ensures r != []
  {
    if s == "" then [""]
    else if s[0] == '/' then [""] + Components(s[1..])
    else
      var rest := Components(s[1..]);
      [[s[0]] + rest[0]] + rest[1..]
  }

  /** Relative, without traversal. */
  predicate Proper(s: string) {
    s != "" && s[0] != '/' && Components(s)[0] != "." && ".." !in Components(s)
  }

  predicate EndsWith(s: string, suffix: string) {
    |suffix| <= |s| && s[|s| - |suffix|..] == suffix
  }

  predicate Excluded(name: string) {
    || name == "state.db" || name == "state.db-wal" || name == "state.db-shm" || name == "state.db-journal"
    || name == "state.db-restore.pending" || EndsWith(name, ".lock")
  }

  /** The walk does not enter an excluded directory. */
  predicate Skipped(name: string) {
    Excluded(name) || exists k :: 0 <= k < |name| && name[k] == '/' && Excluded(name[..k])
  }

  function RuntimePath(name: string): string {
    "runtime/" + name
  }

  function SourcePath(id: string): string {
    "sources/" + id + ".bin"
  }

  function Describe(path: string, body: Bytes): Blob {
    Blob(path, body, |body|)
  }

  // ---------------------------------------------------------------- the inventory

  ghost predicate ByName(fs: seq<File>) {
    forall i, j :: 0 <= i < j < |fs| ==> Before(fs[i].name, fs[j].name)
  }

  ghost predicate DistinctNames(fs: seq<File>) {
    forall i, j :: 0 <= i < j < |fs| ==> fs[i].name != fs[j].name
  }

  function InsertFile(f: File, fs: seq<File>): seq<File> {
    if fs == [] then [f]
    else if f.name == fs[0].name then [f] + fs[1..]
    else if Before(f.name, fs[0].name) then [f] + fs
    else [fs[0]] + InsertFile(f, fs[1..])
  }

  /** The files the walk keeps, by ascending name. */
  function Kept(listing: seq<File>): seq<File> {
    if listing == [] then []
    else
      var f := listing[|listing| - 1];
      var rest := Kept(listing[..|listing| - 1]);
      if Skipped(f.name) then rest else InsertFile(f, rest)
  }

  function Size(fs: seq<File>): nat {
    if fs == [] then 0 else |fs[0].body| + Size(fs[1..])
  }

  predicate Bounded(fs: seq<File>) {
    Size(fs) <= TOTAL_CAP && |fs| <= FILE_COUNT && forall f <- fs :: |f.body| <= FILE_CAP
  }

  function Inventory(listing: seq<File>): Option<seq<File>> {
    if Bounded(Kept(listing)) then Some(Kept(listing)) else None
  }

  lemma {:induction false} InsertKeeps(f: File, fs: seq<File>)
    requires ByName(fs) && forall x <- fs :: x.name != f.name
    ensures ByName(InsertFile(f, fs))
    ensures forall x :: x in InsertFile(f, fs) <==> x == f || x in fs
  {
    if fs != [] && f.name != fs[0].name {
      BeforeTotal(f.name, fs[0].name);
      if Before(f.name, fs[0].name) {
        forall i | 0 < i < |fs|
          ensures Before(f.name, fs[i].name)
        {
          BeforeTransitive(f.name, fs[0].name, fs[i].name);
        }
      } else {
        InsertKeeps(f, fs[1..]);
        var rest := InsertFile(f, fs[1..]);
        assert forall i :: 0 <= i < |rest| ==> rest[i] in rest;
      }
    }
  }

  lemma SnocNames(first: seq<File>, f: File)
    requires DistinctNames(first + [f])
    ensures DistinctNames(first) && forall x <- first :: x.name != f.name
  {
    var all := first + [f];
    assert forall i :: 0 <= i < |first| ==> all[i] == first[i] && all[i].name != all[|first|].name;
  }

  /** The inventory holds exactly the files that are not skipped, ascending. */
  lemma {:induction false} KeptIsExact(listing: seq<File>)
    requires DistinctNames(listing)
    ensures ByName(Kept(listing))
    ensures forall f :: f in Kept(listing) <==> f in listing && !Skipped(f.name)
  {
    if listing != [] {
      var f, first := listing[|listing| - 1], listing[..|listing| - 1];
      assert listing == first + [f];
      SnocNames(first, f);
      KeptIsExact(first);
      if !Skipped(f.name) {
        InsertKeeps(f, Kept(first));
      }
    }
  }

  // ---------------------------------------------------------------- the backup

  /**
   What a backup reads: the runtime directory listed before, the files read again while copying, the
   directory listed after, the program, its companion, the exported database and the sources. `steady`:
   the sources read at the end are those read first. `markdown`: the ids of the sources with a Markdown
   adapter. `otherBytes`: what the manifest takes beyond the least its entries of runtime files take.
   */
  datatype Inputs = Inputs(
    before: seq<File>, copied: map<string, Bytes>, after: seq<File>, program: Bytes, companion: Option<Bytes>,
    database: Bytes, sources: seq<File>, markdown: set<string>, steady: bool, otherBytes: nat)

  function RuntimeFiles(fs: seq<File>): (r: seq<Entry>)
    ensures |r| == |fs|
    ensures forall i :: 0 <= i < |fs| ==> r[i] == Entry(fs[i].name, Describe(RuntimePath(fs[i].name), fs[i].body))
  {
    seq(|fs|, i requires 0 <= i < |fs| => Entry(fs[i].name, Describe(RuntimePath(fs[i].name), fs[i].body)))
  }

  function Copies(fs: seq<File>): (r: seq<Entry>)
    ensures |r| == |fs|
    ensures forall i :: 0 <= i < |fs| ==> r[i] == Entry(fs[i].name, Describe(SourcePath(fs[i].name), fs[i].body))
  {
    seq(|fs|, i requires 0 <= i < |fs| => Entry(fs[i].name, Describe(SourcePath(fs[i].name), fs[i].body)))
  }

  function SnapshotOf(x: Inputs, runtime: seq<File>): Snapshot {
    Snapshot(Describe(DATABASE, x.database), Describe(CLI, x.program),
             if x.companion.Some? then Some(Describe(MCP, x.companion.value)) else None, RuntimeFiles(runtime), Copies(x.sources))
  }

  function Blobs(es: seq<Entry>): (bs: seq<Blob>)
    ensures |bs| == |es| && forall i :: 0 <= i < |es| ==> bs[i] == es[i].blob
  {
    seq(|es|, i requires 0 <= i < |es| => es[i].blob)
  }

  function Payloads(s: Snapshot): seq<Blob> {
    [s.database, s.program] + (if s.companion.Some? then [s.companion.value] else []) + Blobs(s.runtime) + Blobs(s.sources)
  }

  function TotalBytes(bs: seq<Blob>): nat {
    if bs == [] then 0 else TotalBytes(bs[..|bs| - 1]) + bs[|bs| - 1].bytes
  }

  /** The runtime files copied before one is found changed. */
  function Unchanged(fs: seq<File>, copied: map<string, Bytes>): (n: nat)
    ensures n <= |fs|
    ensures forall i :: 0 <= i < n ==> fs[i].name in copied && copied[fs[i].name] == fs[i].body
    ensures n < |fs| ==> fs[n].name !in copied || copied[fs[n].name] != fs[n].body
  {
    if fs == [] || fs[0].name !in copied || copied[fs[0].name] != fs[0].body then 0 else 1 + Unchanged(fs[1..], copied)
  }

  function RuntimePuts(fs: seq<File>): (r: seq<Step>)
    ensures |r| == |fs| && forall i :: 0 <= i < |fs| ==> r[i] == Put(RuntimePath(fs[i].name), fs[i].body)
  {
    seq(|fs|, i requires 0 <= i < |fs| => Put(RuntimePath(fs[i].name), fs[i].body))
  }

  function SourcePuts(fs: seq<File>): (r: seq<Step>)
    ensures |r| == |fs| && forall i :: 0 <= i < |fs| ==> r[i] == Put(SourcePath(fs[i].name), fs[i].body)
  {
    seq(|fs|, i requires 0 <= i < |fs| => Put(SourcePath(fs[i].name), fs[i].body))
  }

  /** No adapter reads more of a source than its cap. */
  function SourceCap(x: Inputs, id: string): nat {
    if id in x.markdown then MARKDOWN_READ_CAP else YAML_READ_CAP
  }

  predicate SourcesBounded(x: Inputs) {
    Size(x.sources) <= TOTAL_CAP && |x.sources| <= FILE_COUNT && forall f <- x.sources :: |f.body| <= SourceCap(x, f.name)
  }

  /** Sources are read through the project's configuration. */
  predicate Configured(runtime: seq<File>) {
    exists f <- runtime :: f.name == CONFIGURATION && |f.body| <= CONFIGURATION_CAP
  }

  function ProgramPuts(x: Inputs): seq<Step> {
    [Put(CLI, x.program)] + (if x.companion.Some? then [Put(MCP, x.companion.value)] else []) + [Put(DATABASE, x.database)]
  }

  /** Inputs that stop a backup before it writes anything. */
  predicate Readable(x: Inputs) {
    && Inventory(x.before).Some? && Configured(Inventory(x.before).value) && SourcesBounded(x) && |x.program| <= FILE_CAP
    && (x.companion.Some? ==> |x.companion.value| <= FILE_CAP)
  }

  /** The last comparison and the caps on everything together. */
  predicate Sealable(x: Inputs, runtime: seq<File>) {
    && Inventory(x.after) == Some(runtime) && x.steady
    && TotalBytes(Payloads(SnapshotOf(x, runtime))) <= TOTAL_CAP && |runtime| + |x.sources| + 3 <= FILE_COUNT
  }

  /** The keys, quotes and indentation of an entry, its digest, and one digit of its size. */
  const ENTRY_BYTES: nat := 143

  /** What the entries of runtime files take in the manifest at least: each has its name twice, a byte or more a character. */
  function EntryBytes(fs: seq<File>): nat {
    if fs == [] then 0 else 2 * |fs[0].name| + ENTRY_BYTES + EntryBytes(fs[1..])
  }

  function ManifestBytes(x: Inputs, runtime: seq<File>): nat {
    x.otherBytes + EntryBytes(runtime)
  }

  function ManifestOf(x: Inputs, runtime: seq<File>): Manifest {
    Manifest(SnapshotOf(x, runtime), SnapshotOf(x, runtime), ManifestBytes(x, runtime))
  }

  function ClosingSteps(x: Inputs, runtime: seq<File>): seq<Step> {
    SourcePuts(x.sources) + (if Sealable(x, runtime) then [Seal(ManifestOf(x, runtime))] else [])
  }

  function CopySteps(x: Inputs, runtime: seq<File>): seq<Step> {
    var n := Unchanged(runtime, x.copied);
    RuntimePuts(runtime[..n]) + (if n < |runtime| then [] else ClosingSteps(x, runtime))
  }

  /** Everything a backup writes; the seal is there only when it completes. */
  function Steps(x: Inputs): seq<Step> {
    if !Readable(x) then []
    else ProgramPuts(x) + (if |x.database| > FILE_CAP then [] else CopySteps(x, Inventory(x.before).value))
  }

  /** Whether a backup completes. */
  predicate Seals(x: Inputs) {
    && Readable(x) && |x.database| <= FILE_CAP
    && Unchanged(Inventory(x.before).value, x.copied) == |Inventory(x.before).value| && Sealable(x, Inventory(x.before).value)
  }

  function Take(d: Directory, step: Step): Directory {
    match step
    case Put(path, body) => d.(files := d.files[path := body])
    case Seal(m) => d.(manifest := Some(m))
  }

  function After(d: Directory, steps: seq<Step>): Directory {
    if steps == [] then d else Take(After(d, steps[..|steps| - 1]), steps[|steps| - 1])
  }

  // ---------------------------------------------------------------- the check

  predicate Laid(s: Snapshot) {
    && s.database.path == DATABASE && s.program.path == CLI && (s.companion.Some? ==> s.companion.value.path == MCP)
    && (forall r <- s.runtime :: Proper(r.name) && !Excluded(r.name) && r.blob.path == RuntimePath(r.name))
    && (exists r <- s.runtime :: r.name == CONFIGURATION)
    && forall c <- s.sources :: c.blob.path == SourcePath(c.name)
  }

  predicate Intact(files: map<string, Bytes>, b: Blob) {
    b.path in files && |files[b.path]| <= FILE_CAP && Describe(b.path, files[b.path]) == b
  }

  predicate DistinctPaths(bs: seq<Blob>) {
    forall i, j :: 0 <= i < j < |bs| ==> bs[i].path != bs[j].path
  }

  predicate PayloadsPass(files: map<string, Bytes>, bs: seq<Blob>) {
    && DistinctPaths(bs) && TotalBytes(bs) <= TOTAL_CAP && |bs| <= FILE_COUNT
    && forall b <- bs :: b.bytes <= FILE_CAP && Intact(files, b)
  }

  predicate NoSidecars(files: map<string, Bytes>) {
    && DATABASE + "-wal" !in files && DATABASE + "-shm" !in files && DATABASE + "-journal" !in files
    && DATABASE + "-restore.pending" !in files
  }

  /** What the check asks of a directory. */
  predicate Passes(d: Directory) {
    d.manifest.Some? &&
    var m := d.manifest.value;
    && m.bytes <= MANIFEST_CAP && m.fingerprint == m.snapshot && Laid(m.snapshot)
    && PayloadsPass(d.files, Payloads(m.snapshot)) && NoSidecars(d.files)
  }

  // ---------------------------------------------------------------- an unsealed directory

  lemma {:induction false} UnsealedAfterPuts(steps: seq<Step>)
    requires forall step <- steps :: step.Put?
    ensures After(NEW_DIRECTORY, steps).manifest.None?
  {
    if steps != [] {
      UnsealedAfterPuts(steps[..|steps| - 1]);
    }
  }

  lemma SealClosesCopy(x: Inputs, runtime: seq<File>)
    ensures var steps := CopySteps(x, runtime);
      var seals := Unchanged(runtime, x.copied) == |runtime| && Sealable(x, runtime);
      && (forall i :: 0 <= i < |steps| - 1 ==> steps[i].Put?)
      && (steps != [] ==> (steps[|steps| - 1].Seal? <==> seals))
      && (seals ==> steps != [])
  {
  }

  /** The seal can only be the last step, and it is there exactly when the backup completes. */
  lemma SealIsLast(x: Inputs)
    ensures forall i :: 0 <= i < |Steps(x)| - 1 ==> Steps(x)[i].Put?
    ensures Steps(x) != [] ==> (Steps(x)[|Steps(x)| - 1].Seal? <==> Seals(x))
    ensures Seals(x) ==> Steps(x) != []
  {
    if Readable(x) && |x.database| <= FILE_CAP {
      SealClosesCopy(x, Inventory(x.before).value);
      var rest := CopySteps(x, Inventory(x.before).value);
      assert Steps(x) == ProgramPuts(x) + rest;
    }
  }

  lemma CutIsAllPuts(x: Inputs, cut: nat)
    requires cut < |Steps(x)| || !Seals(x)
    ensures forall step <- Cut(Steps(x), cut) :: step.Put?
  {
    SealIsLast(x);
    var all := Steps(x);
    var kept := Cut(all, cut);
    forall step | step in kept
      ensures step.Put?
    {
      var i :| 0 <= i < |kept| && kept[i] == step;
      assert all[i] == step;
    }
  }

  /** A backup that stopped anywhere before its seal, by a crash or a refusal, never passes the check. */
  lemma UnsealedNeverPasses(x: Inputs, cut: nat)
    requires cut < |Steps(x)| || !Seals(x)
    ensures !Passes(After(NEW_DIRECTORY, Cut(Steps(x), cut)))
  {
    CutIsAllPuts(x, cut);
    UnsealedAfterPuts(Cut(Steps(x), cut));
  }

  // ---------------------------------------------------------------- a sealed directory

  ghost predicate DistinctPuts(steps: seq<Step>) {
    && (forall step <- steps :: step.Put?)
    && forall i, j :: 0 <= i < j < |steps| ==> steps[i].path != steps[j].path
  }

  /** Distinct files are each written once and stay. */
  lemma {:induction false} FilesAfterPuts(steps: seq<Step>)
    requires DistinctPuts(steps)
    ensures var files := After(NEW_DIRECTORY, steps).files;
      && (forall i :: 0 <= i < |steps| ==> steps[i].path in files && files[steps[i].path] == steps[i].body)
      && forall p <- files :: exists i :: 0 <= i < |steps| && steps[i].path == p
  {
    if steps != [] {
      var first := steps[..|steps| - 1];
      FilesAfterPuts(first);
      var files := After(NEW_DIRECTORY, steps).files;
      forall p | p in files
        ensures exists i :: 0 <= i < |steps| && steps[i].path == p
      {
        if p != steps[|steps| - 1].path {
          var i :| 0 <= i < |first| && first[i].path == p;
          assert steps[i].path == p;
        }
      }
    }
  }

  lemma RuntimePaths(a: string, b: string)
    ensures RuntimePath(a) == RuntimePath(b) ==> a == b
    ensures RuntimePath(a)[0] == 'r'
  {
    assert RuntimePath(a)[8..] == a && RuntimePath(b)[8..] == b;
  }

  lemma SourcePaths(a: string, b: string)
    ensures SourcePath(a) == SourcePath(b) ==> a == b
    ensures SourcePath(a)[0] == 's'
  {
    assert |SourcePath(a)| == 12 + |a| && |SourcePath(b)| == 12 + |b|;
    assert SourcePath(a)[8..8 + |a|] == a && SourcePath(b)[8..8 + |b|] == b;
  }

  lemma Sidecar(suffix: string, name: string)
    requires name != "state.db" + suffix
    ensures RuntimePath(name) != DATABASE + suffix
  {
    assert RuntimePath("state.db") + suffix == RuntimePath("state.db" + suffix);
    RuntimePaths(name, "state.db" + suffix);
  }

  lemma ExcludedSidecars(name: string)
    requires !Excluded(name)
    ensures name != "state.db" + "" && name != "state.db" + "-wal" && name != "state.db" + "-shm"
    ensures name != "state.db" + "-journal" && name != "state.db" + "-restore.pending"
  {
    assert "state.db" + "" == "state.db" && "state.db" + "-wal" == "state.db-wal" && "state.db" + "-shm" == "state.db-shm";
    assert "state.db" + "-journal" == "state.db-journal" && "state.db" + "-restore.pending" == "state.db-restore.pending";
  }

  /** A runtime file that is not excluded is neither the database nor one of its sidecars. */
  lemma NotTheDatabase(name: string)
    requires !Excluded(name)
    ensures RuntimePath(name) != DATABASE
    ensures RuntimePath(name) != DATABASE + "-wal" && RuntimePath(name) != DATABASE + "-shm"
    ensures RuntimePath(name) != DATABASE + "-journal" && RuntimePath(name) != DATABASE + "-restore.pending"
  {
    ExcludedSidecars(name);
    RuntimePaths(name, "state.db");
    Sidecar("-wal", name);
    Sidecar("-shm", name);
    Sidecar("-journal", name);
    Sidecar("-restore.pending", name);
  }

  ghost predicate Distinct(ps: seq<string>) {
    forall i, j :: 0 <= i < j < |ps| ==> ps[i] != ps[j]
  }

  lemma DistinctConcat(a: seq<string>, b: seq<string>)
    requires Distinct(a) && Distinct(b) && forall p <- a :: p !in b
    ensures Distinct(a + b)
  {
    forall i, j | 0 <= i < j < |a + b|
      ensures (a + b)[i] != (a + b)[j]
    {
      if i < |a| <= j {
        assert (a + b)[i] in a && (a + b)[j] in b;
      }
    }
  }

  function RuntimePathsOf(fs: seq<File>): (r: seq<string>)
    ensures |r| == |fs| && forall i :: 0 <= i < |fs| ==> r[i] == RuntimePath(fs[i].name)
  {
    seq(|fs|, i requires 0 <= i < |fs| => RuntimePath(fs[i].name))
  }

  function SourcePathsOf(fs: seq<File>): (r: seq<string>)
    ensures |r| == |fs| && forall i :: 0 <= i < |fs| ==> r[i] == SourcePath(fs[i].name)
  {
    seq(|fs|, i requires 0 <= i < |fs| => SourcePath(fs[i].name))
  }

  /** The files a backup names do not collide with each other, the program or the database. */
  lemma NamedApart(fixed: seq<string>, runtime: seq<File>, sources: seq<File>)
    requires Distinct(fixed) && forall p <- fixed :: p == DATABASE || p == CLI || p == MCP
    requires DistinctNames(runtime) && DistinctNames(sources) && forall f <- runtime :: !Excluded(f.name)
    ensures Distinct(fixed + RuntimePathsOf(runtime) + SourcePathsOf(sources))
  {
    var rs, ss := RuntimePathsOf(runtime), SourcePathsOf(sources);
    forall i, j | 0 <= i < j < |rs|
      ensures rs[i] != rs[j]
    {
      RuntimePaths(runtime[i].name, runtime[j].name);
    }
    forall i, j | 0 <= i < j < |ss|
      ensures ss[i] != ss[j]
    {
      SourcePaths(sources[i].name, sources[j].name);
    }
    forall p | p in fixed
      ensures p !in rs && p !in ss
    {
      NotAmongRuntime(p, runtime);
      NotAmongSources(p, sources);
    }
    DistinctConcat(fixed, rs);
    forall p | p in fixed + rs
      ensures p !in ss
    {
      if p in rs {
        var i :| 0 <= i < |rs| && rs[i] == p;
        RuntimePaths(runtime[i].name, "");
        NotAmongSources(p, sources);
      }
    }
    DistinctConcat(fixed + rs, ss);
  }

  lemma NotAmongRuntime(p: string, runtime: seq<File>)
    requires (p == DATABASE || p == CLI || p == MCP) && forall f <- runtime :: !Excluded(f.name)
    ensures p !in RuntimePathsOf(runtime)
  {
    forall i | 0 <= i < |runtime|
      ensures RuntimePathsOf(runtime)[i] != p
    {
      assert runtime[i] in runtime;
      NotTheDatabase(runtime[i].name);
      RuntimePaths(runtime[i].name, "");
    }
  }

  lemma NotAmongSources(p: string, sources: seq<File>)
    requires p != "" && p[0] != 's'
    ensures p !in SourcePathsOf(sources)
  {
    forall i | 0 <= i < |sources|
      ensures SourcePathsOf(sources)[i] != p
    {
      SourcePaths(sources[i].name, "");
    }
  }

  function AllPuts(x: Inputs, runtime: seq<File>): seq<Step> {
    ProgramPuts(x) + RuntimePuts(runtime) + SourcePuts(x.sources)
  }

  function FixedPuts(x: Inputs): seq<string> {
    [CLI] + (if x.companion.Some? then [MCP] else []) + [DATABASE]
  }

  function FixedBlobs(x: Inputs): seq<string> {
    [DATABASE, CLI] + (if x.companion.Some? then [MCP] else [])
  }

  lemma FixedApart(x: Inputs)
    ensures Distinct(FixedPuts(x)) && Distinct(FixedBlobs(x))
  {
    assert |CLI| != |MCP| && CLI[0] != DATABASE[0] && MCP[0] != DATABASE[0];
  }

  lemma PutPathsAre(x: Inputs, runtime: seq<File>)
    ensures var puts, paths := AllPuts(x, runtime), FixedPuts(x) + RuntimePathsOf(runtime) + SourcePathsOf(x.sources);
      |puts| == |paths| && forall i :: 0 <= i < |puts| ==> puts[i].Put? && puts[i].path == paths[i]
  {
  }

  lemma PutsDistinct(x: Inputs, runtime: seq<File>)
    requires DistinctNames(runtime) && DistinctNames(x.sources) && forall f <- runtime :: !Excluded(f.name)
    ensures DistinctPuts(AllPuts(x, runtime))
  {
    FixedApart(x);
    NamedApart(FixedPuts(x), runtime, x.sources);
    PutPathsAre(x, runtime);
    PutsByPath(AllPuts(x, runtime), FixedPuts(x) + RuntimePathsOf(runtime) + SourcePathsOf(x.sources));
  }

  lemma PutsByPath(puts: seq<Step>, paths: seq<string>)
    requires Distinct(paths) && |puts| == |paths| && forall i :: 0 <= i < |puts| ==> puts[i].Put? && puts[i].path == paths[i]
    ensures DistinctPuts(puts)
  {
  }

  lemma BlobPathsAre(x: Inputs, runtime: seq<File>)
    ensures var bs, paths := Payloads(SnapshotOf(x, runtime)), FixedBlobs(x) + RuntimePathsOf(runtime) + SourcePathsOf(x.sources);
      |bs| == |paths| && forall i :: 0 <= i < |bs| ==> bs[i].path == paths[i]
  {
  }

  lemma BlobsByPath(bs: seq<Blob>, paths: seq<string>)
    requires Distinct(paths) && |bs| == |paths| && forall i :: 0 <= i < |bs| ==> bs[i].path == paths[i]
    ensures DistinctPaths(bs)
  {
  }

  lemma BlobsDistinct(x: Inputs, runtime: seq<File>)
    requires DistinctNames(runtime) && DistinctNames(x.sources) && forall f <- runtime :: !Excluded(f.name)
    ensures DistinctPaths(Payloads(SnapshotOf(x, runtime)))
  {
    FixedApart(x);
    NamedApart(FixedBlobs(x), runtime, x.sources);
    BlobPathsAre(x, runtime);
    BlobsByPath(Payloads(SnapshotOf(x, runtime)), FixedBlobs(x) + RuntimePathsOf(runtime) + SourcePathsOf(x.sources));
  }

  /** Every payload the manifest names was written with the body it describes. */
  lemma BlobsWritten(x: Inputs, runtime: seq<File>, b: Blob)
    requires b in Payloads(SnapshotOf(x, runtime))
    ensures Put(b.path, b.digest) in AllPuts(x, runtime) && b.bytes == |b.digest|
  {
    var s := SnapshotOf(x, runtime);
    if b in Blobs(s.runtime) {
      var i :| 0 <= i < |runtime| && Blobs(s.runtime)[i] == b;
      assert RuntimePuts(runtime)[i] in AllPuts(x, runtime);
    } else if b in Blobs(s.sources) {
      var i :| 0 <= i < |x.sources| && Blobs(s.sources)[i] == b;
      assert SourcePuts(x.sources)[i] in AllPuts(x, runtime);
    } else {
      FixedWritten(x, runtime, b);
    }
  }

  lemma FixedWritten(x: Inputs, runtime: seq<File>, b: Blob)
    requires b in Payloads(SnapshotOf(x, runtime))
    requires b !in Blobs(RuntimeFiles(runtime)) && b !in Blobs(Copies(x.sources))
    ensures Put(b.path, b.digest) in ProgramPuts(x) && b.bytes == |b.digest|
  {
    assert b == Describe(DATABASE, x.database) || b == Describe(CLI, x.program)
      || (x.companion.Some? && b == Describe(MCP, x.companion.value));
    var ps := ProgramPuts(x);
    assert ps[0] == Put(CLI, x.program) && ps[|ps| - 1] == Put(DATABASE, x.database);
    assert x.companion.Some? ==> ps[1] == Put(MCP, x.companion.value);
  }

  lemma AfterSeal(steps: seq<Step>, m: Manifest)
    ensures After(NEW_DIRECTORY, steps + [Seal(m)]) == After(NEW_DIRECTORY, steps).(manifest := Some(m))
  {
    assert (steps + [Seal(m)])[..|steps|] == steps;
  }

  /** A directory listing: no two entries share a name, and names are proper. */
  ghost predicate Listed(fs: seq<File>) {
    DistinctNames(fs) && forall f <- fs :: Proper(f.name)
  }

  lemma SealedCopies(x: Inputs, runtime: seq<File>)
    requires Unchanged(runtime, x.copied) == |runtime| && Sealable(x, runtime)
    ensures CopySteps(x, runtime) == RuntimePuts(runtime) + SourcePuts(x.sources) + [Seal(ManifestOf(x, runtime))]
  {
    assert runtime[..|runtime|] == runtime;
    Regroup(RuntimePuts(runtime), SourcePuts(x.sources), [Seal(ManifestOf(x, runtime))]);
  }

  /** What a completed backup wrote. */
  lemma SealedSteps(x: Inputs)
    requires Seals(x)
    ensures var runtime := Kept(x.before);
      Bounded(runtime) && Sealable(x, runtime) && Steps(x) == AllPuts(x, runtime) + [Seal(ManifestOf(x, runtime))]
  {
    var runtime := Kept(x.before);
    SealedCopies(x, runtime);
    Regroup(ProgramPuts(x), RuntimePuts(runtime), SourcePuts(x.sources));
    Regroup(ProgramPuts(x), RuntimePuts(runtime) + SourcePuts(x.sources), [Seal(ManifestOf(x, runtime))]);
  }

  lemma RuntimeKept(x: Inputs)
    requires Listed(x.before)
    ensures DistinctNames(Kept(x.before)) && forall f <- Kept(x.before) :: !Excluded(f.name) && Proper(f.name)
  {
    KeptIsExact(x.before);
    StringsTotal();
    var fs := Kept(x.before);
    assert forall i, j :: 0 <= i < j < |fs| ==> Before(fs[i].name, fs[j].name);
  }

  /** The directory a completed backup leaves: the files it put there, sealed. */
  lemma SealedDirectory(x: Inputs)
    requires Seals(x)
    ensures After(NEW_DIRECTORY, Steps(x)) == After(NEW_DIRECTORY, AllPuts(x, Kept(x.before))).(
      manifest := Some(ManifestOf(x, Kept(x.before))))
  {
    SealedSteps(x);
    AfterSeal(AllPuts(x, Kept(x.before)), ManifestOf(x, Kept(x.before)));
  }

  ghost predicate Holds(files: map<string, Bytes>, bs: seq<Blob>) {
    forall b <- bs :: b.path in files && files[b.path] == b.digest && b.bytes == |b.digest|
  }

  lemma PutFiles(x: Inputs, runtime: seq<File>)
    requires DistinctNames(runtime) && DistinctNames(x.sources) && forall f <- runtime :: !Excluded(f.name)
    ensures var files := After(NEW_DIRECTORY, AllPuts(x, runtime)).files;
      Holds(files, Payloads(SnapshotOf(x, runtime))) && NoSidecars(files)
  {
    var puts := AllPuts(x, runtime);
    var files := After(NEW_DIRECTORY, puts).files;
    PutsDistinct(x, runtime);
    FilesAfterPuts(puts);
    forall b | b in Payloads(SnapshotOf(x, runtime))
      ensures b.path in files && files[b.path] == b.digest && b.bytes == |b.digest|
    {
      BlobsWritten(x, runtime, b);
      var i :| 0 <= i < |puts| && puts[i] == Put(b.path, b.digest);
    }
    SidecarsAbsent(x, runtime, files);
  }

  lemma SidecarsAbsent(x: Inputs, runtime: seq<File>, files: map<string, Bytes>)
    requires forall f <- runtime :: !Excluded(f.name)
    requires forall p <- files :: exists i :: 0 <= i < |AllPuts(x, runtime)| && AllPuts(x, runtime)[i].path == p
    requires forall step <- AllPuts(x, runtime) :: step.Put?
    ensures NoSidecars(files)
  {
    forall p | p in files
      ensures p != DATABASE + "-wal" && p != DATABASE + "-shm" && p != DATABASE + "-journal" && p != DATABASE + "-restore.pending"
    {
      var i :| 0 <= i < |AllPuts(x, runtime)| && AllPuts(x, runtime)[i].path == p;
      PutPaths(x, runtime, i);
    }
  }

  lemma PutPaths(x: Inputs, runtime: seq<File>, i: nat)
    requires i < |AllPuts(x, runtime)| && forall f <- runtime :: !Excluded(f.name)
    ensures AllPuts(x, runtime)[i].Put?
    ensures var p := AllPuts(x, runtime)[i].path;
      p != DATABASE + "-wal" && p != DATABASE + "-shm" && p != DATABASE + "-journal" && p != DATABASE + "-restore.pending"
  {
    var a, b := |ProgramPuts(x)|, |runtime|;
    if a <= i < a + b {
      assert runtime[i - a] in runtime;
      NotTheDatabase(runtime[i - a].name);
    } else if a + b <= i {
      SourcePaths(x.sources[i - a - b].name, "");
    } else {
      assert AllPuts(x, runtime)[i] == ProgramPuts(x)[i];
    }
  }

  /** A directory whose files are those of its manifest is judged by layout and caps alone. */
  lemma PassesWhenHeld(files: map<string, Bytes>, s: Snapshot, bytes: nat)
    requires Holds(files, Payloads(s)) && NoSidecars(files) && DistinctPaths(Payloads(s))
    requires TotalBytes(Payloads(s)) <= TOTAL_CAP && |Payloads(s)| <= FILE_COUNT
    ensures Passes(Directory(files, Some(Manifest(s, s, bytes)))) <==>
      bytes <= MANIFEST_CAP && Laid(s) && forall b <- Payloads(s) :: b.bytes <= FILE_CAP
  {
    assert forall b <- Payloads(s) :: b.bytes <= FILE_CAP ==> Intact(files, b);
  }

  /**
   A sealed backup passes the check if and only if its manifest is within the manifest cap: the layout, the
   names, the other caps and the bytes always agree.
   */
  lemma SealedPassesIff(x: Inputs)
    requires Seals(x) && Listed(x.before) && DistinctNames(x.sources)
    ensures Passes(After(NEW_DIRECTORY, Steps(x))) <==> ManifestBytes(x, Kept(x.before)) <= MANIFEST_CAP
  {
    var runtime := Kept(x.before);
    SealedSteps(x);
    SealedDirectory(x);
    RuntimeKept(x);
    PutFiles(x, runtime);
    BlobsDistinct(x, runtime);
    SnapshotLaid(x, runtime);
    WithinCaps(x, runtime);
    PassesWhenHeld(After(NEW_DIRECTORY, AllPuts(x, runtime)).files, SnapshotOf(x, runtime), ManifestBytes(x, runtime));
  }

  lemma EntriesLaid(runtime: seq<File>)
    requires forall f <- runtime :: !Excluded(f.name) && Proper(f.name)
    ensures forall r <- RuntimeFiles(runtime) :: Proper(r.name) && !Excluded(r.name) && r.blob.path == RuntimePath(r.name)
  {
    var rs := RuntimeFiles(runtime);
    forall r | r in rs
      ensures Proper(r.name) && !Excluded(r.name) && r.blob.path == RuntimePath(r.name)
    {
      var i :| 0 <= i < |rs| && rs[i] == r;
      assert runtime[i] in runtime;
    }
  }

  lemma SnapshotLaid(x: Inputs, runtime: seq<File>)
    requires Configured(runtime) && forall f <- runtime :: !Excluded(f.name) && Proper(f.name)
    ensures Laid(SnapshotOf(x, runtime))
  {
    EntriesLaid(runtime);
    var i :| 0 <= i < |runtime| && runtime[i].name == CONFIGURATION;
    assert RuntimeFiles(runtime)[i] in RuntimeFiles(runtime);
  }

  /** What a backup reads within the caps of its parts is within the cap of a payload. */
  lemma WithinCaps(x: Inputs, runtime: seq<File>)
    requires Bounded(runtime) && SourcesBounded(x) && |x.database| <= FILE_CAP && |x.program| <= FILE_CAP
    requires x.companion.Some? ==> |x.companion.value| <= FILE_CAP
    requires |runtime| + |x.sources| + 3 <= FILE_COUNT
    ensures |Payloads(SnapshotOf(x, runtime))| <= FILE_COUNT
    ensures forall b <- Payloads(SnapshotOf(x, runtime)) :: b.bytes <= FILE_CAP
  {
    var s := SnapshotOf(x, runtime);
    forall i | 0 <= i < |x.sources|
      ensures Blobs(s.sources)[i].bytes <= FILE_CAP
    {
      assert x.sources[i] in x.sources;
    }
    forall i | 0 <= i < |runtime|
      ensures Blobs(s.runtime)[i].bytes <= FILE_CAP
    {
      assert runtime[i] in runtime;
    }
  }

  /** Whatever passes gives back, for every payload, the bytes its manifest describes. */
  lemma PassingIsExact(d: Directory, b: Blob)
    requires Passes(d) && b in Payloads(d.manifest.value.snapshot)
    ensures b.path in d.files && d.files[b.path] == b.digest
  {
  }

  /** A directory that passes no longer does once any payload's bytes are changed. */
  lemma ChangedPayloadFails(d: Directory, b: Blob, body: Bytes)
    requires Passes(d) && b in Payloads(d.manifest.value.snapshot) && body != d.files[b.path]
    ensures !Passes(d.(files := d.files[b.path := body]))
  {
    var d' := d.(files := d.files[b.path := body]);
    assert !Intact(d'.files, b);
  }

  // ---------------------------------------------------------------- walking, writing, checking

  lemma {:induction false} InsertGrows(f: File, fs: seq<File>)
    requires forall x <- fs :: x.name != f.name
    ensures |InsertFile(f, fs)| == |fs| + 1 && Size(InsertFile(f, fs)) == Size(fs) + |f.body|
    ensures EntryBytes(InsertFile(f, fs)) == EntryBytes(fs) + EntryBytes([f])
  {
    if fs != [] && f.name != fs[0].name {
      if Before(f.name, fs[0].name) {
        assert ([f] + fs)[1..] == fs;
      } else {
        InsertGrows(f, fs[1..]);
        assert ([fs[0]] + InsertFile(f, fs[1..]))[1..] == InsertFile(f, fs[1..]);
      }
    }
  }

  lemma KeptNext(listing: seq<File>, i: nat)
    requires DistinctNames(listing) && i < |listing|
    ensures Kept(listing[..i + 1]) == if Skipped(listing[i].name) then Kept(listing[..i]) else InsertFile(listing[i], Kept(listing[..i]))
    ensures forall x <- Kept(listing[..i]) :: x.name != listing[i].name
  {
    assert listing[..i + 1][..i] == listing[..i];
    KeptIsExact(listing[..i]);
  }

  /** Reading on never brings a listing back within its caps. */
  lemma {:induction false} KeptGrows(listing: seq<File>, i: nat)
    requires DistinctNames(listing) && i <= |listing| && Bounded(Kept(listing))
    ensures Bounded(Kept(listing[..i]))
    decreases |listing| - i
  {
    if i == |listing| {
      assert listing[..i] == listing;
    } else {
      KeptGrows(listing, i + 1);
      KeptNext(listing, i);
      KeptIsExact(listing[..i]);
      if !Skipped(listing[i].name) {
        InsertGrows(listing[i], Kept(listing[..i]));
        InsertKeeps(listing[i], Kept(listing[..i]));
      }
    }
  }

  lemma OneMoreKept(listing: seq<File>, i: nat)
    requires DistinctNames(listing) && i < |listing| && !Skipped(listing[i].name) && Bounded(Kept(listing[..i]))
    ensures var f, files := listing[i], Kept(listing[..i]);
      && Kept(listing[..i + 1]) == InsertFile(f, files) && Size(InsertFile(f, files)) == Size(files) + |f.body|
      && (Bounded(InsertFile(f, files)) <==> |f.body| <= FILE_CAP && Size(files) + |f.body| <= TOTAL_CAP && |files| < FILE_COUNT)
  {
    var f, files := listing[i], Kept(listing[..i]);
    KeptNext(listing, i);
    KeptIsExact(listing[..i]);
    InsertGrows(f, files);
    InsertKeeps(f, files);
  }

  lemma OverCap(listing: seq<File>, i: nat)
    requires DistinctNames(listing) && i <= |listing| && !Bounded(Kept(listing[..i]))
    ensures Inventory(listing).None?
  {
    if Bounded(Kept(listing)) {
      KeptGrows(listing, i);
    }
  }

  method Walk(listing: seq<File>) returns (r: Option<seq<File>>)
    requires DistinctNames(listing)
    ensures r == Inventory(listing)
  {
    var files: seq<File> := [];
    var total := 0;
    for i := 0 to |listing|
      invariant files == Kept(listing[..i]) && total == Size(files) && Bounded(files)
    {
      var f := listing[i];
      if !Skipped(f.name) {
        OneMoreKept(listing, i);
        total := total + |f.body|;
        if |f.body| > FILE_CAP || total > TOTAL_CAP || |files| >= FILE_COUNT {
          OverCap(listing, i + 1);
          return None;
        }
        files := InsertFile(f, files);
      } else {
        KeptNext(listing, i);
      }
    }
    assert listing[..|listing|] == listing;
    r := Some(files);
  }

  // ---------------------------------------------------------------- a sealed backup that fails its check

  lemma {:induction false} OneComponent(s: string)
    requires '/' !in s
    ensures Components(s) == [s]
  {
    if s != "" {
      OneComponent(s[1..]);
      assert s == [s[0]] + s[1..];
    }
  }

  lemma {:induction false} NoDots(s: string)
    requires '.' !in s
    ensures forall c <- Components(s) :: '.' !in c
  {
    if s != "" {
      NoDots(s[1..]);
    }
  }

  /** A name without dots is copied whatever its folders. */
  lemma PlainName(name: string)
    requires name != "" && name[0] != '/' && '.' !in name
    ensures Proper(name) && !Skipped(name)
  {
    NoDots(name);
    assert '.' in "." && '.' in "..";
    NotExcluded(name);
    forall k | 0 <= k < |name|
      ensures !Excluded(name[..k])
    {
      NotExcluded(name[..k]);
    }
  }

  lemma NotExcluded(name: string)
    requires '.' !in name
    ensures !Excluded(name)
  {
    if |name| >= 5 {
      assert name[|name| - 5..][0] == name[|name| - 5] != '.' && ".lock"[0] == '.';
    }
    assert "state.db"[5] == "state.db-wal"[5] == "state.db-shm"[5] == "state.db-journal"[5] == '.';
    assert "state.db-restore.pending"[5] == '.';
  }

  lemma ConfigurationKept()
    ensures Proper(CONFIGURATION) && !Skipped(CONFIGURATION)
  {
    OneComponent(CONFIGURATION);
    assert CONFIGURATION[7..][1] == 't' && ".lock"[1] == 'l';
  }

  const CROWD: nat := 9000

  /** A path of four folders, a thousand characters in all. */
  function Folder(): string {
    seq(1000, i => if i % 250 == 249 then '/' else 'c')
  }

  /** The configuration and nine thousand empty files in the folder, each named by one character. */
  function Crowded(configuration: Bytes): seq<File> {
    [File(CONFIGURATION, configuration)] + Crowd()
  }

  function LongName(i: nat): string
    requires i < CROWD
  {
    Folder() + [(0x4E00 + i) as char]
  }

  function Crowd(): (fs: seq<File>)
    ensures |fs| == CROWD && forall i :: 0 <= i < CROWD ==> fs[i] == File(LongName(i), [])
  {
    seq(CROWD, i requires 0 <= i < CROWD => File(LongName(i), []))
  }

  lemma LongNames(i: nat, j: nat)
    requires i < CROWD && j < CROWD
    ensures |LongName(i)| == 1001 && Proper(LongName(i)) && !Skipped(LongName(i)) && '.' !in LongName(i)
    ensures i != j ==> LongName(i) != LongName(j)
  {
    assert LongName(i)[0] == 'c' && LongName(i)[1000] == (0x4E00 + i) as char && LongName(j)[1000] == (0x4E00 + j) as char;
    PlainName(LongName(i));
  }

  lemma ListedWith(f: File, crowd: seq<File>)
    requires Proper(f.name) && !Skipped(f.name) && '.' in f.name && DistinctNames(crowd)
    requires forall x <- crowd :: '.' !in x.name && Proper(x.name) && !Skipped(x.name)
    ensures Listed([f] + crowd) && forall x <- [f] + crowd :: !Skipped(x.name)
  {
    var fs := [f] + crowd;
    forall i, j | 0 <= i < j < |fs|
      ensures fs[i].name != fs[j].name
    {
      assert fs[j] == crowd[j - 1] && fs[j] in crowd;
      if i > 0 {
        assert fs[i] == crowd[i - 1];
      }
    }
  }

  lemma CrowdedListed(configuration: Bytes)
    ensures Listed(Crowded(configuration)) && forall f <- Crowded(configuration) :: !Skipped(f.name)
  {
    ConfigurationKept();
    assert CONFIGURATION[7] == '.';
    var crowd := Crowd();
    forall i | 0 <= i < |crowd|
      ensures '.' !in crowd[i].name && Proper(crowd[i].name) && !Skipped(crowd[i].name)
      ensures forall j :: i < j < |crowd| ==> crowd[i].name != crowd[j].name
    {
      LongNames(i, i);
      forall j | i < j < |crowd|
        ensures crowd[i].name != crowd[j].name
      {
        LongNames(i, j);
      }
    }
    ListedWith(File(CONFIGURATION, configuration), crowd);
  }

  lemma {:induction false} SizeSnoc(fs: seq<File>, f: File)
    ensures Size(fs + [f]) == Size(fs) + |f.body| && EntryBytes(fs + [f]) == EntryBytes(fs) + EntryBytes([f])
  {
    if fs == [] {
      assert fs + [f] == [f];
    } else {
      SizeSnoc(fs[1..], f);
      assert (fs + [f])[1..] == fs[1..] + [f];
    }
  }

  /** When nothing is skipped the inventory is as large as the listing. */
  lemma {:induction false} AllKept(listing: seq<File>)
    requires DistinctNames(listing) && forall f <- listing :: !Skipped(f.name)
    ensures var fs := Kept(listing);
      |fs| == |listing| && Size(fs) == Size(listing) && EntryBytes(fs) == EntryBytes(listing)
  {
    if listing != [] {
      var f, first := listing[|listing| - 1], listing[..|listing| - 1];
      assert listing == first + [f];
      SnocNames(first, f);
      AllKept(first);
      KeptIsExact(first);
      InsertGrows(f, Kept(first));
      SizeSnoc(first, f);
    }
  }

  lemma {:induction false} EmptyFiles(fs: seq<File>)
    requires forall f <- fs :: f.body == [] && |f.name| == 1001
    ensures Size(fs) == 0 && EntryBytes(fs) == 2145 * |fs|
  {
    if fs != [] {
      assert fs[0] in fs;
      EmptyFiles(fs[1..]);
    }
  }

  function Bodies(fs: seq<File>): map<string, Bytes> {
    if fs == [] then map[] else Bodies(fs[1..])[fs[0].name := fs[0].body]
  }

  lemma {:induction false} BodiesAre(fs: seq<File>)
    requires DistinctNames(fs)
    ensures forall f <- fs :: f.name in Bodies(fs) && Bodies(fs)[f.name] == f.body
  {
    if fs != [] {
      BodiesAre(fs[1..]);
      forall i | 0 < i < |fs|
        ensures fs[i].name != fs[0].name && fs[i].name in Bodies(fs[1..]) && Bodies(fs[1..])[fs[i].name] == fs[i].body
      {
        assert fs[1..][i - 1] == fs[i];
      }
    }
  }

  /** The configuration, and empty files with names of a thousand characters. */
  lemma CrowdKept(listing: seq<File>, crowd: seq<File>, configuration: Bytes)
    requires listing == [File(CONFIGURATION, configuration)] + crowd && |configuration| <= CONFIGURATION_CAP
    requires |crowd| == CROWD && forall f <- crowd :: f.body == [] && |f.name| == 1001
    requires DistinctNames(listing) && forall f <- listing :: !Skipped(f.name)
    ensures var fs := Kept(listing);
      && Bounded(fs) && Configured(fs) && |fs| == CROWD + 1 && Size(fs) == |configuration| && EntryBytes(fs) > MANIFEST_CAP
      && forall f <- fs :: f in listing
  {
    AllKept(listing);
    KeptIsExact(listing);
    EmptyFiles(crowd);
    assert listing[1..] == crowd;
    assert listing[0] in Kept(listing);
    forall f | f in Kept(listing)
      ensures |f.body| <= FILE_CAP
    {
      assert f == listing[0] || f in crowd;
    }
  }

  lemma {:induction false} BlobTotals(bs: seq<Blob>, cs: seq<Blob>)
    ensures TotalBytes(bs + cs) == TotalBytes(bs) + TotalBytes(cs)
  {
    if cs == [] {
      assert bs + cs == bs;
    } else {
      BlobTotals(bs, cs[..|cs| - 1]);
      assert (bs + cs)[..|bs + cs| - 1] == bs + cs[..|cs| - 1];
    }
  }

  lemma {:induction false} RuntimeTotal(fs: seq<File>)
    ensures TotalBytes(Blobs(RuntimeFiles(fs))) == Size(fs)
  {
    if fs != [] {
      var first := fs[..|fs| - 1];
      RuntimeTotal(first);
      SizeSnoc(first, fs[|fs| - 1]);
      assert fs == first + [fs[|fs| - 1]];
      assert Blobs(RuntimeFiles(fs))[..|fs| - 1] == Blobs(RuntimeFiles(first));
    }
  }

  lemma LastTotal(first: seq<Blob>, b: Blob)
    ensures TotalBytes(first + [b]) == TotalBytes(first) + b.bytes
  {
    assert (first + [b])[..|first|] == first;
  }

  lemma PlainTotal(x: Inputs, runtime: seq<File>)
    requires x.companion.None? && x.sources == []
    ensures TotalBytes(Payloads(SnapshotOf(x, runtime))) == |x.database| + |x.program| + Size(runtime)
  {
    var a, b := Describe(DATABASE, x.database), Describe(CLI, x.program);
    var s := SnapshotOf(x, runtime);
    LastTotal([], a);
    LastTotal([a], b);
    assert [] + [a] == [a] && [a] + [b] == [a, b];
    RuntimeTotal(runtime);
    BlobTotals([a, b], Blobs(s.runtime));
    assert Payloads(s) == [a, b] + Blobs(s.runtime);
  }

  lemma AllCopied(fs: seq<File>, listing: seq<File>)
    requires DistinctNames(listing) && forall f <- fs :: f in listing
    ensures Unchanged(fs, Bodies(listing)) == |fs|
  {
    BodiesAre(listing);
    assert forall i :: 0 <= i < |fs| ==> fs[i] in listing;
  }

  /** A directory that stays as it is while it is copied seals, when everything fits. */
  lemma StillSeals(x: Inputs, runtime: seq<File>)
    requires Inventory(x.before) == Some(runtime) && x.after == x.before && x.steady && Configured(runtime)
    requires x.companion.None? && x.sources == [] && |x.program| <= FILE_CAP && |x.database| <= FILE_CAP
    requires Size(runtime) <= FILE_CAP && |runtime| + 3 <= FILE_COUNT && forall f <- runtime :: f in x.before
    requires DistinctNames(x.before) && x.copied == Bodies(x.before)
    ensures Seals(x)
  {
    AllCopied(runtime, x.before);
    PlainTotal(x, runtime);
  }

  function CrowdedInputs(program: Bytes, database: Bytes, configuration: Bytes): Inputs {
    var listing := Crowded(configuration);
    Inputs(listing, Bodies(listing), listing, program, None, database, [], {}, true, 0)
  }

  lemma CrowdFails(x: Inputs, crowd: seq<File>, configuration: Bytes)
    requires x.before == [File(CONFIGURATION, configuration)] + crowd && |configuration| <= CONFIGURATION_CAP
    requires |crowd| == CROWD && forall f <- crowd :: f.body == [] && |f.name| == 1001
    requires Listed(x.before) && forall f <- x.before :: !Skipped(f.name)
    requires x.after == x.before && x.steady && x.copied == Bodies(x.before)
    requires x.companion.None? && x.sources == [] && |x.program| <= FILE_CAP && |x.database| <= FILE_CAP
    ensures Seals(x) && !Passes(After(NEW_DIRECTORY, Steps(x)))
  {
    CrowdKept(x.before, crowd, configuration);
    StillSeals(x, Kept(x.before));
    SealedPassesIff(x);
  }

  /**
   A directory of nine thousand files with long names seals a backup that never passes its check, whatever
   the program, the database and the configuration: the manifest is longer than the check reads.
   */
  lemma LongNamesSealAndFail(program: Bytes, database: Bytes, configuration: Bytes)
    requires |program| <= FILE_CAP && |database| <= FILE_CAP && |configuration| <= CONFIGURATION_CAP
    ensures var x := CrowdedInputs(program, database, configuration);
      Listed(x.before) && Seals(x) && !Passes(After(NEW_DIRECTORY, Steps(x)))
  {
    var x := CrowdedInputs(program, database, configuration);
    CrowdedListed(configuration);
    forall f | f in Crowd()
      ensures f.body == [] && |f.name| == 1001
    {
      var i :| 0 <= i < CROWD && Crowd()[i] == f;
      LongNames(i, i);
    }
    CrowdFails(x, Crowd(), configuration);
  }

  /** The output directory of one backup; `steps` lists what was written. */
  class Output {
    var directory: Directory
    ghost var steps: seq<Step>

    ghost predicate Valid()
      reads this
    {
      directory == After(NEW_DIRECTORY, steps)
    }

    constructor ()
      ensures Valid() && steps == []
    {
      directory, steps := NEW_DIRECTORY, [];
    }

    method Write(path: string, body: Bytes)
      requires Valid()
      modifies this
      ensures Valid() && steps == old(steps) + [Put(path, body)]
    {
      assert (steps + [Put(path, body)])[..|steps|] == steps;
      directory := directory.(files := directory.files[path := body]);
      steps := steps + [Put(path, body)];
    }

    method WriteManifest(m: Manifest)
      requires Valid()
      modifies this
      ensures Valid() && steps == old(steps) + [Seal(m)]
    {
      assert (steps + [Seal(m)])[..|steps|] == steps;
      directory := directory.(manifest := Some(m));
      steps := steps + [Seal(m)];
    }

    method WritePrograms(x: Inputs)
      requires Valid()
      modifies this
      ensures Valid() && steps == old(steps) + ProgramPuts(x)
    {
      Write(CLI, x.program);
      if x.companion.Some? {
        Write(MCP, x.companion.value);
      }
      Write(DATABASE, x.database);
    }

    /** Each file is read again and must not have changed since it was listed. */
    method CopyRuntime(runtime: seq<File>, copied: map<string, Bytes>) returns (same: bool)
      requires Valid()
      modifies this
      ensures Valid() && steps == old(steps) + RuntimePuts(runtime[..Unchanged(runtime, copied)])
      ensures same == (Unchanged(runtime, copied) == |runtime|)
    {
      for i := 0 to |runtime|
        invariant Valid() && i <= Unchanged(runtime, copied) && steps == old(steps) + RuntimePuts(runtime[..i])
      {
        var f := runtime[i];
        if f.name !in copied || copied[f.name] != f.body {
          return false;
        }
        assert RuntimePuts(runtime[..i + 1]) == RuntimePuts(runtime[..i]) + [Put(RuntimePath(f.name), f.body)];
        Write(RuntimePath(f.name), f.body);
      }
      same := true;
    }

    method CopySources(sources: seq<File>)
      requires Valid()
      modifies this
      ensures Valid() && steps == old(steps) + SourcePuts(sources)
    {
      for i := 0 to |sources|
        invariant Valid() && steps == old(steps) + SourcePuts(sources[..i])
      {
        assert SourcePuts(sources[..i + 1]) == SourcePuts(sources[..i]) + [Put(SourcePath(sources[i].name), sources[i].body)];
        Write(SourcePath(sources[i].name), sources[i].body);
      }
      assert sources[..|sources|] == sources;
    }

    /** Sources last; then everything read at the start is compared again before the manifest seals it. */
    method Close(x: Inputs, runtime: seq<File>) returns (sealed: bool)
      requires Valid() && DistinctNames(x.after)
      modifies this
      ensures Valid() && steps == old(steps) + ClosingSteps(x, runtime) && sealed == Sealable(x, runtime)
    {
      CopySources(x.sources);
      var after := Walk(x.after);
      sealed := after == Some(runtime) && x.steady && TotalBytes(Payloads(SnapshotOf(x, runtime))) <= TOTAL_CAP
                && |runtime| + |x.sources| + 3 <= FILE_COUNT;
      if sealed {
        WriteManifest(ManifestOf(x, runtime));
      }
    }

    method Copy(x: Inputs, runtime: seq<File>) returns (sealed: bool)
      requires Valid() && DistinctNames(x.after)
      modifies this
      ensures Valid() && steps == old(steps) + CopySteps(x, runtime)
      ensures sealed == (Unchanged(runtime, x.copied) == |runtime| && Sealable(x, runtime))
    {
      var same := CopyRuntime(runtime, x.copied);
      sealed := false;
      if same {
        sealed := Close(x, runtime);
        Regroup(old(steps), RuntimePuts(runtime[..|runtime|]), ClosingSteps(x, runtime));
      }
    }

    /** `runtime` is the inventory taken at the start. */
    method CreateFrom(x: Inputs, runtime: seq<File>) returns (sealed: bool)
      requires Valid() && DistinctNames(x.after)
      modifies this
      ensures Valid()
      ensures steps == old(steps) + (ProgramPuts(x) + if |x.database| > FILE_CAP then [] else CopySteps(x, runtime))
      ensures sealed == (|x.database| <= FILE_CAP && Unchanged(runtime, x.copied) == |runtime| && Sealable(x, runtime))
    {
      sealed := false;
      WritePrograms(x);
      if |x.database| <= FILE_CAP {
        sealed := Copy(x, runtime);
        Regroup(old(steps), ProgramPuts(x), CopySteps(x, runtime));
      }
    }

    method Create(x: Inputs) returns (sealed: bool)
      requires Valid() && steps == [] && DistinctNames(x.before) && DistinctNames(x.after)
      modifies this
      ensures Valid() && steps == Steps(x) && sealed == Seals(x)
    {
      sealed := false;
      var before := Walk(x.before);
      if before.Some? && Configured(before.value) && SourcesBounded(x) && |x.program| <= FILE_CAP
         && (x.companion.Some? ==> |x.companion.value| <= FILE_CAP) {
        sealed := CreateFrom(x, before.value);
        assert steps == Steps(x);
      }
    }
  }

  lemma Regroup(a: seq<Step>, b: seq<Step>, c: seq<Step>)
    ensures a + b + c == a + (b + c)
  {
  }

  lemma {:induction false} TotalGrows(bs: seq<Blob>, i: nat)
    requires i <= |bs|
    ensures TotalBytes(bs[..i]) <= TotalBytes(bs)
    decreases |bs| - i
  {
    if i == |bs| {
      assert bs[..i] == bs;
    } else {
      TotalGrows(bs, i + 1);
      assert bs[..i + 1][..i] == bs[..i];
    }
  }

  /** The first `i` payloads passed; `names` and `total` are theirs. */
  ghost predicate PassedSoFar(files: map<string, Bytes>, bs: seq<Blob>, i: nat, names: set<string>, total: nat)
    requires i <= |bs|
  {
    && (forall k :: 0 <= k < i ==> bs[k].path in names && bs[k].bytes <= FILE_CAP && Intact(files, bs[k]))
    && (forall p <- names :: exists k :: 0 <= k < i && bs[k].path == p)
    && |names| == i <= FILE_COUNT && total == TotalBytes(bs[..i]) <= TOTAL_CAP && DistinctPaths(bs[..i])
  }

  lemma OneMoreName(bs: seq<Blob>, i: nat, names: set<string>)
    requires i < |bs| && (forall p <- names :: exists k :: 0 <= k < i && bs[k].path == p)
    ensures forall p <- names + {bs[i].path} :: exists k :: 0 <= k < i + 1 && bs[k].path == p
  {
    forall p | p in names + {bs[i].path}
      ensures exists k :: 0 <= k < i + 1 && bs[k].path == p
    {
      if p in names {
        var k :| 0 <= k < i && bs[k].path == p;
      } else {
        assert bs[i].path == p;
      }
    }
  }

  lemma DistinctNext(bs: seq<Blob>, i: nat)
    requires i < |bs| && DistinctPaths(bs[..i]) && forall k :: 0 <= k < i ==> bs[k].path != bs[i].path
    ensures DistinctPaths(bs[..i + 1]) && TotalBytes(bs[..i + 1]) == TotalBytes(bs[..i]) + bs[i].bytes
  {
    var next := bs[..i + 1];
    assert next[..i] == bs[..i];
    forall k, j | 0 <= k < j < |next|
      ensures next[k].path != next[j].path
    {
      if j < i {
        assert bs[..i][k].path != bs[..i][j].path;
      }
    }
  }

  lemma OnePasses(files: map<string, Bytes>, bs: seq<Blob>, i: nat, names: set<string>, total: nat)
    requires i < |bs| && PassedSoFar(files, bs, i, names, total) && bs[i].path !in names
    requires bs[i].bytes <= FILE_CAP && Intact(files, bs[i]) && i < FILE_COUNT && total + bs[i].bytes <= TOTAL_CAP
    ensures PassedSoFar(files, bs, i + 1, names + {bs[i].path}, total + bs[i].bytes)
  {
    OneMoreName(bs, i, names);
    DistinctNext(bs, i);
  }

  lemma OneFails(files: map<string, Bytes>, bs: seq<Blob>, i: nat, names: set<string>, total: nat)
    requires i < |bs| && PassedSoFar(files, bs, i, names, total)
    requires bs[i].path in names || bs[i].bytes > FILE_CAP || !Intact(files, bs[i]) || i >= FILE_COUNT || total + bs[i].bytes > TOTAL_CAP
    ensures !PayloadsPass(files, bs)
  {
    TotalGrows(bs, i + 1);
    assert bs[..i + 1][..i] == bs[..i];
    if bs[i].path in names {
      var k :| 0 <= k < i && bs[k].path == bs[i].path;
    }
  }

  method CheckPayloads(files: map<string, Bytes>, bs: seq<Blob>) returns (ok: bool)
    ensures ok == PayloadsPass(files, bs)
  {
    var names: set<string> := {};
    var total: nat := 0;
    for i := 0 to |bs|
      invariant PassedSoFar(files, bs, i, names, total)
    {
      var b := bs[i];
      ok := b.bytes <= FILE_CAP && b.path !in names && total + b.bytes <= TOTAL_CAP && i < FILE_COUNT && Intact(files, b);
      if !ok {
        OneFails(files, bs, i, names, total);
        return;
      }
      OnePasses(files, bs, i, names, total);
      names, total := names + {b.path}, total + b.bytes;
    }
    assert bs[..|bs|] == bs;
    ok := true;
  }

  method Check(d: Directory) returns (ok: bool)
    ensures ok == Passes(d)
  {
    if d.manifest.None? {
      return false;
    }
    var m := d.manifest.value;
    if m.bytes > MANIFEST_CAP || m.fingerprint != m.snapshot || !Laid(m.snapshot) {
      return false;
    }
    ok := CheckPayloads(d.files, Payloads(m.snapshot));
    ok := ok && NoSidecars(d.files);
  }
}
