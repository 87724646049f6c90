/**
 What is installed under the managed root, when an installation counts as verified, and what
 a run of setup may leave behind.
 */
module Installation {
  import opened Domain
  import opened ArchivePaths
  import opened ArchiveTree

  /** The directories setup keeps under the managed root. */
  datatype Top = Current | Staging | Previous | Recovery

  /** One of them: its `runtime` subtree, kept apart, and everything else. */
  datatype Home = Home(body: Tree, runtime: Option<Tree>)

  datatype Root = Root(current: Option<Home>, staging: Option<Home>, previous: Option<Home>, recovery: Option<Home>)

  function Get(root: Root, top: Top): Option<Home> {
    match top
    case Current => root.current
    case Staging => root.staging
    case Previous => root.previous
    case Recovery => root.recovery
  }

  function Set(root: Root, top: Top, home: Option<Home>): Root {
    match top
    case Current => root.(current := home)
    case Staging => root.(staging := home)
    case Previous => root.(previous := home)
    case Recovery => root.(recovery := home)
  }

  predicate SoundHome(home: Home) {
    && WellFormed(home.body)
    && (home.runtime.Some? ==> WellFormed(home.runtime.value) && home.body[[]].Dir?)
  }

  predicate Sound(root: Root) {
    && (root.current.Some? ==> SoundHome(root.current.value))
    && (root.staging.Some? ==> SoundHome(root.staging.value))
    && (root.previous.Some? ==> SoundHome(root.previous.value))
    && (root.recovery.Some? ==> SoundHome(root.recovery.value))
  }

  function Ascii(text: string): Bytes {
    seq(|text|, i requires 0 <= i < |text| => text[i] as int % 256)
  }

  const MARKER: Rel := [".impossible-inferences-managed"]
  const MARKER_VALUE: Bytes := Ascii("impossible-inferences-artifacts-v1\n")
  const STATE_FILE: Rel := ["install-state.json"]
  const DOWNLOADS: Rel := ["downloads"]
  const MODEL: Rel := ["model"]

  /** A directory holding only the marker. */
  const MARKED_HOME: Home := Home(map[[] := Dir, MARKER := File(MARKER_VALUE)], None)

  datatype InstallState = InstallState(
    schemaVersion: nat, product: string, profileId: string, target: string,
    runtimeRelease: string, runtimeSha256: Digest, modelRevision: string, modelSha256: Digest,
    runtimeArchive: Rel, runtimeExecutable: Rel, modelFile: Rel)

  datatype Artifact = Artifact(filename: string, size: nat, sha256: Digest)

  datatype Manifest = Manifest(
    product: string, profileId: string, target: string, release: string, revision: string,
    runtime: Artifact, executable: Rel, model: Artifact)

  /** The pinned manifest and the operations whose inside is not modelled. */
  datatype Host = Host(
    manifest: Manifest,
    hash: Bytes -> Digest,
    unpack: Bytes -> Archive,
    encodeState: InstallState -> Bytes,
    decodeState: Bytes -> Option<InstallState>)

  function ArchiveFile(host: Host): Rel {
    DOWNLOADS + [host.manifest.runtime.filename]
  }

  function ModelFile(host: Host): Rel {
    MODEL + [host.manifest.model.filename]
  }

  function StateFor(host: Host): InstallState {
    var m := host.manifest;
    InstallState(1, m.product, m.profileId, m.target, m.release, m.runtime.sha256, m.revision, m.model.sha256,
                 ArchiveFile(host), ["runtime"] + m.executable, ModelFile(host))
  }

  // ---- What verification looks at ----

  /**
   What opening a path for reading yields: links are followed, the path's own and that of the
   directory it lies in. No path opened here is longer.
   */
  function ReadFile(body: Tree, rel: Rel): Option<Bytes> {
    if rel in body then
      match body[rel]
      case File(content) => Some(content)
      case Symlink(LinkedFile(content)) => Some(content)
      case _ => None
    else if |rel| == 2 && rel[..1] in body then
      match body[rel[..1]]
      case Symlink(LinkedDirectory(files)) => if rel[1..] in files then Some(files[rel[1..]]) else None
      case _ => None
    else None
  }

  /** A real directory, not a link to one, whose marker reads as it should. */
  predicate Managed(body: Tree) {
    [] in body && body[[]].Dir? && ReadFile(body, MARKER) == Some(MARKER_VALUE)
  }

  predicate ArtifactAt(host: Host, body: Tree, rel: Rel, artifact: Artifact) {
    var content := ReadFile(body, rel);
    content.Some? && |content.value| == artifact.size && host.hash(content.value) == artifact.sha256
  }

  /** Marker, state, archive and model are in place; nothing is said about the unpacked runtime. */
  predicate Intact(host: Host, body: Tree) {
    && Managed(body)
    && ReadFile(body, STATE_FILE).Some?
    && host.decodeState(ReadFile(body, STATE_FILE).value) == Some(StateFor(host))
    && ArtifactAt(host, body, ArchiveFile(host), host.manifest.runtime)
    && ArtifactAt(host, body, ModelFile(host), host.manifest.model)
  }

  ghost predicate RuntimeMatches(host: Host, archive: Archive, runtime: Tree) {
    && [] in runtime && runtime[[]].Dir? && Regular(runtime, [])
    && host.manifest.executable in runtime && runtime[host.manifest.executable].File?
    && Readable(archive) && host.manifest.executable in Expected(archive)
    && Hashed(host.hash, FilesUnder(runtime, {[]})) == Hashed(host.hash, Expected(archive))
  }

  function ArchiveOf(host: Host, body: Tree): Archive
    requires Intact(host, body)
  {
    host.unpack(ReadFile(body, ArchiveFile(host)).value)
  }

  /** Full verification of an installation. */
  ghost predicate Verified(host: Host, home: Home) {
    && Intact(host, home.body) && home.runtime.Some?
    && RuntimeMatches(host, ArchiveOf(host, home.body), home.runtime.value)
  }

  ghost predicate Ready(host: Host, root: Root) {
    root.current.Some? && Verified(host, root.current.value)
  }

  /** The archive unpacks into a tree with the executable. */
  ghost predicate Unpacks(host: Host, archive: Archive) {
    Readable(archive) && ConflictFree(archive) && host.manifest.executable in Expected(archive)
  }

  /** What unpacking leaves holds the executable exactly when the archive does, and then matches it. */
  lemma UnpackedMatches(host: Host, archive: Archive)
    requires Unpackable(archive) && ConflictFree(archive)
    ensures var tree, executable := TreeOf(Expected(archive), Directories(archive)), host.manifest.executable;
            && (executable in Expected(archive) <==> executable in tree && tree[executable].File?)
            && (Unpacks(host, archive) ==> RuntimeMatches(host, archive, tree))
  {
    if Unpacks(host, archive) { ExtractedTreeVerifies(archive, host.manifest.executable); }
  }

  /**
   Verification leaves no room: two installations verified against one manifest hold the same
   archive, the same model and the same runtime files, if digests do not collide.
   */
  lemma VerifiedIsPinned(host: Host, a: Home, b: Home)
    requires Verified(host, a) && Verified(host, b)
    requires forall x, y :: host.hash(x) == host.hash(y) ==> x == y
    ensures ReadFile(a.body, ArchiveFile(host)) == ReadFile(b.body, ArchiveFile(host))
    ensures ReadFile(a.body, ModelFile(host)) == ReadFile(b.body, ModelFile(host))
    ensures FilesUnder(a.runtime.value, {[]}) == FilesUnder(b.runtime.value, {[]})
    ensures Regular(a.runtime.value, []) && host.manifest.executable in FilesUnder(a.runtime.value, {[]})
  {
    hide Hashed;
    hide Expected;
    hide Readable;
    hide ReadFile;
    SameDigestsSameFiles(host.hash, FilesUnder(a.runtime.value, {[]}), FilesUnder(b.runtime.value, {[]}));
    var root: Rel, executable := [], host.manifest.executable;
    assert root in {root} && IsPrefix(root, executable);
  }

  // ---- Names as the file system resolves them ----

  /** `Path::exists`: a dangling symbolic link does not count. */
  predicate Exists(home: Option<Home>) {
    home.Some? && [] in home.value.body && home.value.body[[]] != Symlink(Dangling)
  }

  /** Absent, or a directory setup may remove. */
  predicate Fresh(home: Option<Home>) {
    home.None? || Managed(home.value.body)
  }

  /** Present and not to be touched: setup refuses it on every run. */
  predicate Blocked(home: Option<Home>) {
    Exists(home) && !Managed(home.value.body)
  }

  predicate Replaceable(runtime: Option<Tree>) {
    runtime.None? || ([] in runtime.value && runtime.value[[]].Dir?)
  }

  // ---- The network ----

  datatype Download = NoResponse | Body(contentLength: Option<nat>, chunks: seq<Bytes>, complete: bool)

  /** The server sends exactly the pinned artifact. */
  predicate Delivers(host: Host, download: Download, artifact: Artifact) {
    && download.Body? && download.complete
    && (download.contentLength.Some? ==> download.contentLength.value == artifact.size)
    && |Concat(download.chunks)| == artifact.size && host.hash(Concat(download.chunks)) == artifact.sha256
  }

  // ---- When a run can succeed ----

  datatype Run = Online(runtime: Download, model: Download) | Offline

  /** Both downloads deliver, and what they deliver unpacks and records its own state. */
  ghost predicate Obtainable(host: Host, run: Run) {
    && run.Online?
    && Delivers(host, run.runtime, host.manifest.runtime) && Delivers(host, run.model, host.manifest.model)
    && Unpacks(host, host.unpack(Concat(run.runtime.chunks)))
    && host.decodeState(host.encodeState(StateFor(host))) == Some(StateFor(host))
  }

  /** The directories in the way of a new installation can be moved out of it. */
  predicate Promotable(root: Root) {
    && Fresh(root.staging) && Fresh(root.current)
    && (Fresh(root.previous) || (root.current.None? && !Exists(root.previous)))
  }

  /** Everything but the unpacked runtime is intact, and the runtime can be rebuilt from it. */
  ghost predicate Recoverable(host: Host, root: Root) {
    && root.current.Some? && Intact(host, root.current.value.body)
    && Unpacks(host, ArchiveOf(host, root.current.value.body))
    && Replaceable(root.current.value.runtime)
    && Fresh(root.recovery)
  }

  ghost predicate Succeeds(host: Host, run: Run, root: Root) {
    || Ready(host, root)
    || (run.Online? && Promotable(root) && Obtainable(host, run))
    || (run.Offline? && Recoverable(host, root))
  }

  // ---- What one run may leave behind, wherever it stops ----

  /** The last installation is in place, or moved aside with its verified successor waiting, or succeeded. */
  ghost predicate NothingLost(host: Host, before: Root, after: Root) {
    || after.current == before.current
    || (&& after.current.None? && after.previous == before.current
        && after.staging.Some? && Verified(host, after.staging.value))
    || Ready(host, after)
  }

  /** An offline run changes nothing but the runtime of the installation and its own scratch directory. */
  predicate OnlyRuntime(before: Root, after: Root) {
    && after.staging == before.staging && after.previous == before.previous
    && (after.current.Some? <==> before.current.Some?)
    && (after.current.Some? ==>
          && after.current.value.body == before.current.value.body
          && (Replaceable(before.current.value.runtime) ==> Replaceable(after.current.value.runtime)))
  }

  ghost predicate CrashSafe(host: Host, run: Run, before: Root, after: Root) {
    && Sound(after)
    && (run.Online? ==>
          && NothingLost(host, before, after) && after.recovery == before.recovery
          && (after.current.Some? ==> after.current == before.current || Ready(host, after)))
    && (run.Offline? ==> OnlyRuntime(before, after))
    && (Blocked(if run.Online? then before.staging else before.recovery) ==> after == before)
  }

  // ---- Many runs, each stopped anywhere ----

  /** `states[i + 1]` is what the i-th run, finished or cut short, left of `states[i]`. */
  ghost predicate Runs(host: Host, runs: seq<Run>, states: seq<Root>) {
    && |states| == |runs| + 1
    && forall i :: 0 <= i < |runs| ==> CrashSafe(host, runs[i], states[i], states[i + 1])
  }

  lemma RunsButLast(host: Host, runs: seq<Run>, states: seq<Root>)
    requires Runs(host, runs, states) && runs != []
    ensures Runs(host, runs[..|runs| - 1], states[..|runs|])
    ensures CrashSafe(host, runs[|runs| - 1], states[|runs| - 1], states[|runs|])
  {
  }

  /** No series of interrupted runs leaves an installation without its marker. */
  lemma {:induction false} MarkerKept(host: Host, runs: seq<Run>, states: seq<Root>)
    requires Runs(host, runs, states) && Fresh(states[0].current)
    ensures Fresh(states[|runs|].current)
  {
    if runs != [] {
      RunsButLast(host, runs, states);
      MarkerKept(host, runs[..|runs| - 1], states[..|runs|]);
    }
  }

  /** After any series of interrupted runs, removable scratch directories are enough for the next online run. */
  lemma OnlineRunsRecover(host: Host, runs: seq<Run>, states: seq<Root>, next: Run)
    requires Runs(host, runs, states) && Fresh(states[0].current) && Obtainable(host, next)
    requires Fresh(states[|runs|].staging) && Fresh(states[|runs|].previous)
    ensures Succeeds(host, next, states[|runs|])
  {
    MarkerKept(host, runs, states);
  }

  /** An offline reconstruction can be interrupted and repeated any number of times. */
  lemma {:induction false} OfflineRunsRepeat(host: Host, runs: seq<Run>, states: seq<Root>)
    requires Runs(host, runs, states) && Recoverable(host, states[0])
    requires forall i :: 0 <= i < |runs| ==> runs[i].Offline?
    ensures var end := states[|runs|];
            && end.current.Some? && end.current.value.body == states[0].current.value.body
            && end.staging == states[0].staging && end.previous == states[0].previous
            && Replaceable(end.current.value.runtime)
            && (Fresh(end.recovery) ==> Recoverable(host, end))
  {
    hide Intact;
    hide Unpacks;
    if runs != [] {
      RunsButLast(host, runs, states);
      OfflineRunsRepeat(host, runs[..|runs| - 1], states[..|runs|]);
    }
  }

  // ---- Promotion cut short ----

  /** `current` has been moved aside and its verified successor has not taken its place. */
  ghost predicate MovedAside(host: Host, root: Root) {
    && root.current.None? && root.staging.Some? && Verified(host, root.staging.value)
    && root.previous.Some? && Managed(root.previous.value.body)
  }

  /** From there no offline run gets ready, and an online run only by downloading everything again. */
  lemma MovedAsideNeedsDownloads(host: Host, run: Run, root: Root)
    requires MovedAside(host, root)
    ensures Succeeds(host, run, root) <==> Obtainable(host, run)
    ensures !Succeeds(host, Offline, root)
  {
    hide RuntimeMatches;
    hide Unpacks;
  }

  /** `before`'s installation is in place, or aside next to a verified successor, or has a verified one after it. */
  ghost predicate Kept(host: Host, before: Root, after: Root) {
    || after.current == before.current
    || (&& after.current.None? && after.staging.Some? && Verified(host, after.staging.value)
        && after.previous.Some? && (after.previous == before.current || Verified(host, after.previous.value)))
    || Ready(host, after)
  }

  /** What one online run promises holds of any number of them, as long as `current` is present between them. */
  lemma {:induction false} PromiseChains(host: Host, runs: seq<Run>, states: seq<Root>)
    requires Runs(host, runs, states) && states[0].current.Some?
    requires forall i :: 0 <= i < |runs| ==> runs[i].Online? && states[i].current.Some?
    ensures Kept(host, states[0], states[|runs|])
  {
    hide Verified;
    if runs != [] {
      RunsButLast(host, runs, states);
      PromiseChains(host, runs[..|runs| - 1], states[..|runs|]);
    }
  }

  /** An unmarked staging directory stops every online run, for ever. */
  lemma {:induction false} BlockedForever(host: Host, runs: seq<Run>, states: seq<Root>)
    requires Runs(host, runs, states) && Blocked(states[0].staging)
    ensures states[|runs|].staging == states[0].staging
    ensures (forall i :: 0 <= i < |runs| ==> runs[i].Online?) ==> states[|runs|] == states[0]
  {
    hide Ready;
    hide NothingLost;
    if runs != [] {
      RunsButLast(host, runs, states);
      BlockedForever(host, runs[..|runs| - 1], states[..|runs|]);
    }
  }

  /** Deleting a managed directory can take the marker first, and a crash then leaves it blocked. */
  lemma RemovalCanBlock(home: Home)
    requires SoundHome(home) && Managed(home.body)
    ensures Below(home.body, MARKER) == {}
    ensures var left := home.(body := home.body - {MARKER});
            SoundHome(left) && Blocked(Some(left))
  {
    forall p | p in home.body && MARKER < p
      ensures false
    {
      UnderSomeChild(home.body, MARKER, p);
    }
    WithoutLeaf(home.body, MARKER);
  }

  // ---- Directory trees losing one leaf ----

  lemma FindLeaf(tree: Tree, p: Rel) returns (leaf: Rel)
    requires p in tree && p != []
    ensures leaf in tree && leaf != [] && Below(tree, leaf) == {}
    decreases Below(tree, p)
  {
    if Below(tree, p) == {} {
      leaf := p;
    } else {
      var q :| q in Below(tree, p);
      assert Below(tree, q) < Below(tree, p) by { assert q in Below(tree, p) && q !in Below(tree, q); }
      leaf := FindLeaf(tree, q);
    }
  }

  lemma WithoutLeaf(tree: Tree, leaf: Rel)
    requires WellFormed(tree) && leaf in tree && leaf != [] && Below(tree, leaf) == {}
    ensures WellFormed(tree - {leaf}) && (tree - {leaf})[[]] == tree[[]]
    ensures |tree - {leaf}| < |tree|
  {
    assert (tree - {leaf}).Keys == tree.Keys - {leaf};
    assert |tree - {leaf}| == |(tree - {leaf}).Keys| && |tree| == |tree.Keys|;
    forall p | p in tree && p != [] && p != leaf
      ensures Parent(p) != leaf
    {
      assert Parent(p) < p;
      assert p !in Below(tree, leaf);
    }
  }
}
