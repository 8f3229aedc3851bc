/** The setup state directory as a filesystem with two layers: what running processes
    see, and what the disk holds. Un-synced changes may reach the disk at any time, one
    by one and in any order, or not at all; an fsync forces them. */
module StateDirectory {
  import opened Basics

  /** The three setup files of one version. */
  datatype Contents = Contents(auth: string, operator: string, secrets: string)

  datatype Name = Auth | Operator | Secrets | Manifest | Temp(of: Name)

  /** A file's bytes. A manifest records its version, the version before it and the
      digests of the three files; digests are taken as injective, so the manifest is
      modelled as recording the texts themselves. Garbage is whatever an un-synced file
      holds after a power loss. */
  datatype Blob =
    | Text(text: string)
    | ManifestOf(version: nat, previous: Option<nat>, files: Contents)
    | Garbage

  datatype File = File(data: Blob, disk: Blob)

  /** A version directory, with the number it was created under. Entries name files. */
  datatype Dir = Dir(number: nat, live: map<Name, nat>, disk: map<Name, nat>)

  /** The state directory itself: whether `versions` exists, what it lists, where the
      `current` link points, and which of the four stable links are in place. */
  datatype Layer = Layer(hasRoot: bool, versions: map<nat, nat>, current: Option<nat>, stable: set<Name>)

  datatype FS = FS(files: seq<File>, dirs: seq<Dir>, live: Layer, disk: Layer)

  const Links: set<Name> := {Auth, Operator, Secrets, Manifest}

  function NameAt(i: nat): Name
    requires i < 4
  {
    if i == 0 then Auth else if i == 1 then Operator else if i == 2 then Secrets else Manifest
  }

  function BlobFor(n: Name, c: Contents, version: nat, previous: Option<nat>): Blob {
    match n
    case Auth => Text(c.auth)
    case Operator => Text(c.operator)
    case Secrets => Text(c.secrets)
    case Manifest => ManifestOf(version, previous, c)
    case Temp(_) => Garbage
  }

  // ---- system calls ----

  ghost predicate Shape(fs: FS) {
    && (forall f :: 0 <= f < |fs.files| ==> fs.files[f].disk == Garbage || fs.files[f].disk == fs.files[f].data)
    && (forall d, n :: 0 <= d < |fs.dirs| && n in fs.dirs[d].live ==> fs.dirs[d].live[n] < |fs.files|)
    && (forall d, n :: 0 <= d < |fs.dirs| && n in fs.dirs[d].disk ==> fs.dirs[d].disk[n] < |fs.files|)
    && (forall v :: v in fs.live.versions ==>
          fs.live.versions[v] < |fs.dirs| && fs.dirs[fs.live.versions[v]].number == v)
    && (forall v :: v in fs.disk.versions ==>
          fs.disk.versions[v] < |fs.dirs| && fs.dirs[fs.disk.versions[v]].number == v)
    && (fs.live.versions != map[] ==> fs.live.hasRoot)
  }

  function MakeVersion(fs: FS, v: nat): FS {
    fs.(dirs := fs.dirs + [Dir(v, map[], map[])],
        live := fs.live.(hasRoot := true, versions := fs.live.versions[v := |fs.dirs|]))
  }

  function WriteTemp(fs: FS, d: nat, n: Name, blob: Blob): FS
    requires d < |fs.dirs|
  {
    fs.(files := fs.files + [File(blob, Garbage)],
        dirs := fs.dirs[d := fs.dirs[d].(live := fs.dirs[d].live[Temp(n) := |fs.files|])])
  }

  function SyncFile(fs: FS, f: nat): FS
    requires f < |fs.files|
  {
    fs.(files := fs.files[f := File(fs.files[f].data, fs.files[f].data)])
  }

  function Rename(fs: FS, d: nat, n: Name): FS
    requires d < |fs.dirs| && Temp(n) in fs.dirs[d].live
  {
    var entries := fs.dirs[d].live;
    fs.(dirs := fs.dirs[d := fs.dirs[d].(live := (entries - {Temp(n)})[n := entries[Temp(n)]])])
  }

  function SyncDir(fs: FS, d: nat): FS
    requires d < |fs.dirs|
  {
    fs.(dirs := fs.dirs[d := fs.dirs[d].(disk := fs.dirs[d].live)])
  }

  function SyncRoot(fs: FS): FS { fs.(disk := fs.disk.(versions := fs.live.versions)) }

  function SyncState(fs: FS): FS {
    fs.(disk := fs.live.(versions := fs.disk.versions))
  }

  /** Rename a fresh link over `current`. */
  function PointCurrent(fs: FS, v: nat): FS { fs.(live := fs.live.(current := Some(v))) }

  function MakeLink(fs: FS, n: Name): FS { fs.(live := fs.live.(stable := fs.live.stable + {n})) }

  function Unlink(fs: FS, v: nat, n: Name): FS
    requires v in fs.live.versions && fs.live.versions[v] < |fs.dirs|
  {
    var d := fs.live.versions[v];
    fs.(dirs := fs.dirs[d := fs.dirs[d].(live := fs.dirs[d].live - {n})])
  }

  function RemoveDir(fs: FS, v: nat): FS { fs.(live := fs.live.(versions := fs.live.versions - {v})) }

  // ---- what the disk does on its own ----

  datatype Item =
    | FileData(file: nat)
    | Entry(dir: nat, name: Name)
    | VersionEntry(version: nat)
    | RootEntry
    | CurrentLink
    | StableLink(name: Name)

  function CopyKey<K, V>(from: map<K, V>, to: map<K, V>, k: K): map<K, V> {
    if k in from then to[k := from[k]] else to - {k}
  }

  /** One un-synced change reaches the disk. */
  function Flush(fs: FS, item: Item): FS {
    match item
    case FileData(f) => if f < |fs.files| then SyncFile(fs, f) else fs
    case Entry(d, n) =>
      if d < |fs.dirs|
      then fs.(dirs := fs.dirs[d := fs.dirs[d].(disk := CopyKey(fs.dirs[d].live, fs.dirs[d].disk, n))])
      else fs
    case VersionEntry(v) =>
      fs.(disk := fs.disk.(versions := CopyKey(fs.live.versions, fs.disk.versions, v)))
    case RootEntry => fs.(disk := fs.disk.(hasRoot := fs.live.hasRoot))
    case CurrentLink => fs.(disk := fs.disk.(current := fs.live.current))
    case StableLink(n) =>
      fs.(disk := fs.disk.(stable := if n in fs.live.stable then fs.disk.stable + {n} else fs.disk.stable - {n}))
  }

  function Reboot(d: Dir): Dir { d.(live := d.disk) }

  function Reread(f: File): File { File(f.disk, f.disk) }

  /** Only what the disk holds is left. */
  function PowerLoss(fs: FS): FS {
    var survived := fs.disk.(versions := if fs.disk.hasRoot then fs.disk.versions else map[]);
    FS(seq(|fs.files|, i requires 0 <= i < |fs.files| => Reread(fs.files[i])),
       seq(|fs.dirs|, i requires 0 <= i < |fs.dirs| => Reboot(fs.dirs[i])),
       survived, survived)
  }

  // ---- what processes read ----

  /** Open and read versions/v<version>/<name>. */
  function ReadFile(fs: FS, version: nat, n: Name): Option<Blob> {
    if version in fs.live.versions && fs.live.versions[version] < |fs.dirs| then
      var entries := fs.dirs[fs.live.versions[version]].live;
      if n in entries && entries[n] < |fs.files| then Some(fs.files[entries[n]].data) else None
    else None
  }

  /** read_pointer and pointer_version: the version in the manifest that the marker,
      through `current`, leads to. */
  function ReadPointer(fs: FS): Option<nat> {
    if Manifest in fs.live.stable && fs.live.current.Some? then
      match ReadFile(fs, fs.live.current.value, Manifest)
      case Some(ManifestOf(v, _, _)) => if v >= 1 then Some(v) else None
      case _ => None
    else None
  }

  function ReadContents(fs: FS, version: nat): Option<Contents> {
    match (ReadFile(fs, version, Auth), ReadFile(fs, version, Operator), ReadFile(fs, version, Secrets))
    case (Some(Text(a)), Some(Text(o)), Some(Text(s))) => Some(Contents(a, o, s))
    case _ => None
  }

  /** _validate_version_directory. `ok` stands for the three content validators. */
  predicate ValidVersion(fs: FS, ok: Contents -> bool, version: nat) {
    match (ReadContents(fs, version), ReadFile(fs, version, Manifest))
    case (Some(c), Some(ManifestOf(v, _, files))) => v == version && files == c && ok(c)
    case _ => false
  }

  /** validate_committed_state, when nobody moves meanwhile. */
  predicate ValidState(fs: FS, ok: Contents -> bool) {
    && ReadPointer(fs).Some?
    && fs.live.current.Some? && fs.live.current.value >= 1
    && ValidVersion(fs, ok, fs.live.current.value)
    && fs.live.stable == Links
  }

  /** What every consumer sees through the stable links. */
  function Shown(fs: FS): Option<Contents> {
    if fs.live.current.Some? then ReadContents(fs, fs.live.current.value) else None
  }

  /** The highest version listed, zero for none. */
  ghost function Highest(versions: set<nat>): (h: nat)
    ensures forall v :: v in versions ==> v <= h
    ensures h == 0 || h in versions
  {
    if versions == {} then 0 else
      var v :| v in versions;
      var h := Highest(versions - {v});
      assert forall u :: u in versions ==> u == v || u in versions - {v};
      if v > h then v else h
  }

  // ---- what survives a power loss ----

  /** Nothing of an FS that a power loss would leave has changed. */
  ghost predicate SameAfterPowerLoss(fs: FS, fs': FS) {
    var before, after := PowerLoss(fs), PowerLoss(fs');
    && after.live == before.live && after.disk == before.disk
    && |before.files| <= |after.files| && |before.dirs| <= |after.dirs|
    && (forall f :: 0 <= f < |before.files| ==> after.files[f] == before.files[f])
    && (forall d :: 0 <= d < |before.dirs| ==> after.dirs[d] == before.dirs[d])
  }

  /** No operation reaches the disk before it is synced or written back; a new file holds
      garbage until then, and a new directory nothing. */
  lemma {:induction false} NothingIsDurableUnsynced(fs: FS, v: nat, d: nat, n: Name, blob: Blob)
    requires d < |fs.dirs|
    ensures SameAfterPowerLoss(fs, MakeVersion(fs, v)) && PowerLoss(MakeVersion(fs, v)).dirs[|fs.dirs|].live == map[]
    ensures SameAfterPowerLoss(fs, WriteTemp(fs, d, n, blob))
    ensures PowerLoss(WriteTemp(fs, d, n, blob)).files[|fs.files|].data == Garbage
    ensures Temp(n) in fs.dirs[d].live ==> SameAfterPowerLoss(fs, Rename(fs, d, n))
    ensures SameAfterPowerLoss(fs, PointCurrent(fs, v)) && SameAfterPowerLoss(fs, MakeLink(fs, n))
    ensures SameAfterPowerLoss(fs, RemoveDir(fs, v))
    ensures v in fs.live.versions && fs.live.versions[v] < |fs.dirs| ==> SameAfterPowerLoss(fs, Unlink(fs, v, n))
  {
  }

  /** A sync forces its own part of the directory to the disk, and no other. */
  lemma {:induction false} SyncsAreLocal(fs: FS, f: nat, d: nat)
    requires f < |fs.files| && d < |fs.dirs|
    ensures
      var after := PowerLoss(SyncFile(fs, f));
      && after.files[f].data == fs.files[f].data && after.live == PowerLoss(fs).live && after.dirs == PowerLoss(fs).dirs
      && (forall g :: 0 <= g < |fs.files| && g != f ==> after.files[g] == PowerLoss(fs).files[g])
    ensures
      var after := PowerLoss(SyncDir(fs, d));
      && after.dirs[d].live == fs.dirs[d].live && after.live == PowerLoss(fs).live
      && after.files == PowerLoss(fs).files
      && (forall e :: 0 <= e < |fs.dirs| && e != d ==> after.dirs[e] == PowerLoss(fs).dirs[e])
    ensures
      var after := PowerLoss(SyncRoot(fs));
      && (fs.disk.hasRoot ==> after.live.versions == fs.live.versions)
      && after.live.current == PowerLoss(fs).live.current && after.live.stable == PowerLoss(fs).live.stable
      && after.files == PowerLoss(fs).files && after.dirs == PowerLoss(fs).dirs
    ensures
      var after := PowerLoss(SyncState(fs));
      && after.live.current == fs.live.current && after.live.stable == fs.live.stable
      && (fs.live.hasRoot ==> after.live.versions == fs.disk.versions)
      && after.files == PowerLoss(fs).files && after.dirs == PowerLoss(fs).dirs
  {
  }

  /** Every un-synced change can reach the disk on its own. */
  lemma {:induction false} AnyChangeMayBeWrittenBack(fs: FS, f: nat, d: nat, n: Name, v: nat)
    requires f < |fs.files| && d < |fs.dirs|
    ensures PowerLoss(Flush(fs, FileData(f))).files[f].data == fs.files[f].data
    ensures
      var entries := PowerLoss(Flush(fs, Entry(d, n))).dirs[d].live;
      (n in entries <==> n in fs.dirs[d].live) && (n in entries ==> entries[n] == fs.dirs[d].live[n])
    ensures
      var listed := PowerLoss(Flush(Flush(fs, RootEntry), VersionEntry(v))).live.versions;
      fs.live.hasRoot ==>
        (v in listed <==> v in fs.live.versions) && (v in listed ==> listed[v] == fs.live.versions[v])
    ensures PowerLoss(Flush(fs, CurrentLink)).live.current == fs.live.current
    ensures n in PowerLoss(Flush(fs, StableLink(n))).live.stable <==> n in fs.live.stable
  {
  }
}
