/**
 Staged installation, promotion and offline recovery as file-system steps, with a crash or an
 I/O failure possible at every step.

 A `Disk` records in `crashes` every state its steps pass through, so a property of all
 recorded states is a property of whatever a crash leaves behind.
 */
module Installer {
  import opened Domain
  import opened ArchivePaths
  import opened ArchiveTree
  import opened Installation

  // ---- Recorded states ----

  /** The states recorded since differ from `base` at most in `top`. */
  ghost predicate Pointwise(before: seq<Root>, after: seq<Root>, base: Root, top: Top) {
    && before <= after
    && forall i :: |before| <= i < |after| ==> Sound(after[i]) && after[i] == Set(base, top, Get(after[i], top))
  }

  lemma PointwiseChain(a: seq<Root>, b: seq<Root>, c: seq<Root>, base: Root, mid: Root, top: Top)
    requires Pointwise(a, b, base, top) && Pointwise(b, c, mid, top) && mid == Set(base, top, Get(mid, top))
    ensures Pointwise(a, c, base, top)
  {
    forall i | |a| <= i < |c|
      ensures Sound(c[i]) && c[i] == Set(base, top, Get(c[i], top))
    {
      if i < |b| { assert c[i] == b[i]; }
    }
  }

  /** Every state recorded since is one this run may leave behind. */
  ghost predicate AllSafe(host: Host, run: Run, base: Root, before: seq<Root>, after: seq<Root>) {
    && before <= after
    && forall i :: |before| <= i < |after| ==> CrashSafe(host, run, base, after[i])
  }

  lemma SafeChain(host: Host, run: Run, base: Root, a: seq<Root>, b: seq<Root>, c: seq<Root>)
    requires AllSafe(host, run, base, a, b) && AllSafe(host, run, base, b, c)
    ensures AllSafe(host, run, base, a, c)
  {
    forall i | |a| <= i < |c|
      ensures CrashSafe(host, run, base, c[i])
    {
      if i < |b| { assert c[i] == b[i]; }
    }
  }

  // ---- Single steps ----

  function PartName(name: string): string
  {
    Stem(name) + ".part"
  }

  /** The name without its last extension; a name that starts with its only dot has none. */
  function Stem(name: string): string {
    if exists i :: 0 < i < |name| && name[i] == '.' then name[..LastDot(name)] else name
  }

  function LastDot(name: string): (i: nat)
    requires exists i :: 0 < i < |name| && name[i] == '.'
    ensures 0 < i < |name| && name[i] == '.'
  {
    if name[|name| - 1] == '.' then |name| - 1 else LastDot(name[..|name| - 1])
  }

  function PartOf(rel: Rel): (part: Rel)
    requires rel != []
    ensures part != [] && Parent(part) == Parent(rel)
  {
    Parent(rel) + [PartName(rel[|rel| - 1])]
  }

  /** A file or directory can be created here: its parent is a directory and no directory has its name. */
  predicate Writable(body: Tree, rel: Rel)
    requires rel != []
  {
    && Parent(rel) in body && body[Parent(rel)].Dir?
    && (rel in body ==> body[rel].File?)
  }

  function WithFile(home: Home, rel: Rel, content: Bytes): Home {
    home.(body := home.body[rel := File(content)])
  }

  lemma WithFileIsSound(home: Home, rel: Rel, content: Bytes)
    requires SoundHome(home) && rel != [] && Writable(home.body, rel)
    ensures SoundHome(WithFile(home, rel, content))
  {
  }

  lemma PrefixGrows(chunks: seq<Bytes>, k: nat)
    requires k < |chunks|
    ensures Concat(chunks[..k + 1]) == Concat(chunks[..k]) + chunks[k]
    ensures |Concat(chunks[..k + 1])| <= |Concat(chunks)|
  {
    ConcatAppend(chunks[..k], [chunks[k]]);
    assert chunks[..k + 1] == chunks[..k] + [chunks[k]];
    assert Concat([chunks[k]]) == chunks[k] + Concat([]);
    ConcatAppend(chunks[..k + 1], chunks[k + 1..]);
    assert chunks == chunks[..k + 1] + chunks[k + 1..];
  }

  /** Any one leaf less; nothing when only the top is left. */
  method SmallerTree(tree: Tree) returns (next: Option<Tree>)
    requires WellFormed(tree)
    ensures next.None? ==> tree.Keys == {[]}
    ensures next.Some? ==> WellFormed(next.value) && next.value[[]] == tree[[]] && |next.value| < |tree|
  {
    if tree.Keys == {[]} { return None; }
    assert exists p :: p in tree && p != [];
    ghost var p :| p in tree && p != [];
    ghost var found := FindLeaf(tree, p);
    var leaf :| leaf in tree && leaf != [] && Below(tree, leaf) == {};
    WithoutLeaf(tree, leaf);
    next := Some(tree - {leaf});
  }

  ghost function Size(home: Home): nat {
    (if home.runtime.Some? then 1 + |home.runtime.value| else 0) + |home.body|
  }

  /** Any one leaf less, of the runtime subtree or of the rest. */
  method SmallerHome(home: Home) returns (next: Option<Home>)
    requires SoundHome(home)
    ensures next.None? ==> home.runtime.None?
    ensures next.Some? ==> SoundHome(next.value) && Size(next.value) < Size(home)
  {
    var fromRuntime: bool :| true;
    if home.runtime.Some? && (fromRuntime || home.body.Keys == {[]}) {
      var runtime := SmallerTree(home.runtime.value);
      next := Some(home.(runtime := runtime));
    } else {
      var body := SmallerTree(home.body);
      next := if body.Some? then Some(home.(body := body.value)) else None;
    }
  }

  /** The states in which the runtime is one of these trees. */
  function HalfUnpacked(start: Root, top: Top, home: Home, partials: seq<Tree>): seq<Root> {
    seq(|partials|, i requires 0 <= i < |partials| => Set(start, top, Some(home.(runtime := Some(partials[i])))))
  }

  lemma HalfUnpackedIsSound(before: seq<Root>, start: Root, top: Top, home: Home, partials: seq<Tree>)
    requires Sound(start) && Get(start, top) == Some(home) && [] in home.body && home.body[[]].Dir?
    requires AllWellFormed(partials)
    ensures Pointwise(before, before + HalfUnpacked(start, top, home, partials), start, top)
  {
    hide WellFormed;
  }

  class Disk {
    const host: Host
    const faults: nat -> bool // whether the n-th operation fails
    var root: Root
    var steps: nat
    ghost var crashes: seq<Root>
    ghost var checkedAt: nat // the steps taken when the last full verification succeeded

    constructor (host: Host, faults: nat -> bool, root: Root)
      ensures this.host == host && this.faults == faults && this.root == root && crashes == []
    {
      this.host, this.faults, this.root := host, faults, root;
      steps, crashes, checkedAt := 0, [], 0;
    }

    /** One step replaces one directory, or fails and changes nothing. */
    method Commit(top: Top, home: Option<Home>) returns (ok: bool)
      requires Sound(root) && (home.Some? ==> SoundHome(home.value))
      modifies this
      ensures Sound(root)
      ensures root == if ok then Set(old(root), top, home) else old(root)
      ensures steps == old(steps) + 1
      ensures Faultless(faults) ==> ok
      ensures Pointwise(old(crashes), crashes, old(root), top)
      ensures crashes == if ok then old(crashes) + [root] else old(crashes)
    {
      hide SoundHome;
      ok := !faults(steps);
      steps := steps + 1;
      if ok {
        root := Set(root, top, home);
        crashes := crashes + [root];
      }
    }

    // ---- Verification ----

    /** `assert_managed_directory`. */
    method AssertManaged(top: Top) returns (ok: bool)
      modifies this`steps
      ensures steps == old(steps) + 1
      ensures ok <==> !faults(old(steps)) && Get(root, top).Some? && Managed(Get(root, top).value.body)
    {
      var fault := faults(steps);
      steps := steps + 1;
      var home := Get(root, top);
      if fault || home.None? || [] !in home.value.body { return false; }
      if !home.value.body[[]].Dir? { return false; }
      ok := ReadFile(home.value.body, MARKER) == Some(MARKER_VALUE);
    }

    /** `verify_file` with full verification. */
    method VerifyFile(body: Tree, rel: Rel, artifact: Artifact) returns (ok: bool)
      ensures ok <==> ArtifactAt(host, body, rel, artifact)
    {
      var content := ReadFile(body, rel);
      if content.None? || |content.value| != artifact.size { return false; }
      ok := host.hash(content.value) == artifact.sha256;
    }

    /** The checks an offline recovery starts with: marker, recorded state, archive, model. */
    method VerifyIntact(top: Top) returns (ok: bool)
      modifies this`steps
      ensures steps == old(steps) + 1
      ensures ok <==> !faults(old(steps)) && Get(root, top).Some? && Intact(host, Get(root, top).value.body)
    {
      ok := AssertManaged(top);
      if !ok { return; }
      var body := Get(root, top).value.body;
      var bytes := ReadFile(body, STATE_FILE);
      if bytes.None? { return false; }
      var state := host.decodeState(bytes.value);
      if state.None? || state.value != StateFor(host) { return false; }
      ok := VerifyFile(body, state.value.runtimeArchive, host.manifest.runtime);
      if !ok { return; }
      ok := VerifyFile(body, state.value.modelFile, host.manifest.model);
    }

    /** `verify_current` with full verification. */
    method VerifyCurrent(top: Top) returns (ok: bool)
      requires Sound(root)
      modifies this`steps, this`checkedAt
      ensures steps == old(steps) + 1
      ensures checkedAt == if ok then steps else old(checkedAt)
      ensures ok <==> !faults(old(steps)) && Get(root, top).Some? && Verified(host, Get(root, top).value)
    {
      hide Readable;
      hide Expected;
      hide Regular;
      hide Hashed;
      ok := VerifyIntact(top);
      if !ok { return; }
      var home := Get(root, top).value;
      if home.runtime.None? { return false; }
      var runtime, executable := home.runtime.value, host.manifest.executable;
      if !runtime[[]].Dir? || executable !in runtime || !runtime[executable].File? { return false; }
      ok := VerifyRuntimeTree(ArchiveOf(host, home.body), host.hash, runtime, executable);
      if ok { checkedAt := steps; }
    }

    // ---- Removing and creating directories ----

    /** Deletes one entry after another, leaves first and in any order; a crash leaves some of them. */
    method RemoveDirAll(top: Top) returns (ok: bool)
      requires Sound(root) && Get(root, top).Some?
      modifies this
      ensures Sound(root) && root == Set(old(root), top, Get(root, top))
      ensures ok ==> Get(root, top).None?
      ensures steps >= old(steps)
      ensures Faultless(faults) ==> ok
      ensures Pointwise(old(crashes), crashes, old(root), top)
    {
      var home, done := Get(root, top).value, false;
      while !done
        invariant Sound(root) && (if done then Get(root, top).None? else Get(root, top) == Some(home))
        invariant root == Set(old(root), top, Get(root, top)) && steps >= old(steps)
        invariant Pointwise(old(crashes), crashes, old(root), top)
        decreases !done, Size(home)
      {
        hide SoundHome;
        var next := SmallerHome(home);
        ghost var mid, recorded := root, crashes;
        ok := Commit(top, next);
        PointwiseChain(old(crashes), recorded, crashes, old(root), mid, top);
        if !ok { return; }
        if next.None? { done := true; } else { home := next.value; }
      }
      ok := true;
    }

    /** `remove_managed_directory_if_present`: refuses anything without the marker. */
    method RemoveManagedIfPresent(top: Top) returns (ok: bool)
      requires Sound(root)
      modifies this
      ensures Sound(root) && root == Set(old(root), top, Get(root, top))
      ensures Pointwise(old(crashes), crashes, old(root), top)
      ensures Blocked(Get(old(root), top)) ==> !ok && root == old(root) && crashes == old(crashes)
      ensures ok ==> !Exists(Get(root, top)) && !Blocked(Get(old(root), top))
      ensures !Exists(Get(old(root), top)) ==> ok && root == old(root) && crashes == old(crashes)
      ensures ok && Exists(Get(old(root), top)) ==> Get(root, top).None?
      ensures steps >= old(steps)
      ensures Faultless(faults) && !Blocked(Get(old(root), top)) ==> ok
    {
      if !Exists(Get(root, top)) { return true; }
      ok := AssertManaged(top);
      if ok { ok := RemoveDirAll(top); }
    }

    /** Creates or truncates a file and writes it; a crash can leave any part of the content. */
    method WriteFile(top: Top, rel: Rel, content: Bytes) returns (ok: bool)
      requires Sound(root) && Get(root, top).Some? && rel != []
      modifies this
      ensures Sound(root) && root == Set(old(root), top, Get(root, top))
      ensures Pointwise(old(crashes), crashes, old(root), top)
      ensures ok ==> Get(root, top) == Some(WithFile(Get(old(root), top).value, rel, content))
      ensures Faultless(faults) && Writable(Get(old(root), top).value.body, rel) ==> ok
    {
      var home := Get(root, top).value;
      if !Writable(home.body, rel) { return false; }
      var k: nat :| k <= |content|;
      WithFileIsSound(home, rel, content[..k]);
      WithFileIsSound(home, rel, content);
      hide SoundHome;
      hide WithFile;
      ghost var before := crashes;
      ok := Commit(top, Some(WithFile(home, rel, content[..k])));
      if !ok { return; }
      ghost var mid, recorded := root, crashes;
      ok := Commit(top, Some(WithFile(home, rel, content)));
      PointwiseChain(before, recorded, crashes, old(root), mid, top);
    }

    method MakeDir(top: Top, rel: Rel) returns (ok: bool)
      requires Sound(root) && Get(root, top).Some? && rel != []
      modifies this
      ensures Sound(root) && root == Set(old(root), top, Get(root, top))
      ensures Pointwise(old(crashes), crashes, old(root), top)
      ensures var home := Get(old(root), top).value;
              && (ok ==> Get(root, top) == Some(home.(body := home.body[rel := Dir])))
              && (Faultless(faults) && rel !in home.body && Writable(home.body, rel) ==> ok)
    {
      var home := Get(root, top).value;
      if rel in home.body || !Writable(home.body, rel) { return false; }
      ok := Commit(top, Some(home.(body := home.body[rel := Dir])));
    }

    /** `create_dir` and `write_marker`: between the two the new directory carries no marker. */
    method CreateScratch(top: Top) returns (ok: bool)
      requires Sound(root)
      modifies this
      ensures Sound(root) && root == Set(old(root), top, Get(root, top))
      ensures Pointwise(old(crashes), crashes, old(root), top)
      ensures ok ==> Get(root, top) == Some(MARKED_HOME)
      ensures Get(old(root), top).Some? ==> !ok && root == old(root) && crashes == old(crashes)
      ensures Get(old(root), top).None? && ok ==>
                |crashes| > |old(crashes)| && Blocked(Get(crashes[|old(crashes)|], top))
      ensures Faultless(faults) && Get(old(root), top).None? ==> ok
    {
      if Get(root, top).Some? { return false; }
      var empty := Home(map[[] := Dir], None);
      ghost var before := crashes;
      ok := Commit(top, Some(empty));
      if !ok { return; }
      ghost var mid, recorded := root, crashes;
      ok := WriteFile(top, MARKER, MARKER_VALUE);
      PointwiseChain(before, recorded, crashes, old(root), mid, top);
      assert crashes[|before|] == recorded[|before|] == mid;
      assert WithFile(empty, MARKER, MARKER_VALUE) == MARKED_HOME;
    }

    // ---- Downloading and unpacking ----

    /** The receiving loop: counts, refuses more than the pinned size, writes and hashes. */
    method Receive(top: Top, ghost home: Home, part: Rel, limit: nat, chunks: seq<Bytes>)
      returns (received: Option<Bytes>)
      requires Sound(root) && part != [] && SoundHome(home) && Writable(home.body, part)
      requires Get(root, top) == Some(WithFile(home, part, []))
      modifies this
      ensures Sound(root) && root == Set(old(root), top, Get(root, top))
      ensures Pointwise(old(crashes), crashes, old(root), top)
      ensures received.Some? ==>
                && received.value == Concat(chunks) && |Concat(chunks)| <= limit
                && Get(root, top) == Some(WithFile(home, part, Concat(chunks)))
      ensures Faultless(faults) && |Concat(chunks)| <= limit ==> received.Some?
    {
      hide SoundHome;
      hide Writable;
      var count, written: Bytes := 0, [];
      for k := 0 to |chunks|
        invariant Sound(root) && root == Set(old(root), top, Some(WithFile(home, part, written)))
        invariant Pointwise(old(crashes), crashes, old(root), top)
        invariant count == |written| && written == Concat(chunks[..k])
        invariant count <= limit
      {
        PrefixGrows(chunks, k);
        hide Concat;
        var chunk := chunks[k];
        count := count + |chunk|;
        if count > limit { return None; }
        var longer := written + chunk;
        WithFileIsSound(home, part, longer);
        ghost var mid, recorded := root, crashes;
        var home' := Get(root, top).value;
        assert WithFile(home', part, longer) == WithFile(home, part, longer);
        hide WithFile;
        var ok := Commit(top, Some(WithFile(home', part, longer)));
        PointwiseChain(old(crashes), recorded, crashes, old(root), mid, top);
        if !ok { return None; }
        written := longer;
      }
      assert chunks[..|chunks|] == chunks;
      return Some(written);
    }

    /** `download_verified`: streams into a temporary file, checks size and digest, renames. */
    method DownloadVerified(top: Top, destination: Rel, artifact: Artifact, download: Download) returns (ok: bool)
      requires Sound(root) && Get(root, top).Some? && destination != []
      requires destination !in Get(root, top).value.body && PartOf(destination) !in Get(root, top).value.body
      modifies this
      ensures Sound(root) && root == Set(old(root), top, Get(root, top))
      ensures Pointwise(old(crashes), crashes, old(root), top)
      ensures download.NoResponse? ==> !ok && root == old(root) && crashes == old(crashes)
      ensures ok ==> Delivers(host, download, artifact)
      ensures ok ==> Get(root, top) == Some(WithFile(Get(old(root), top).value, destination, Concat(download.chunks)))
      ensures (Faultless(faults) && Delivers(host, download, artifact)
               && Writable(Get(old(root), top).value.body, destination)) ==> ok
      ensures (&& Faultless(faults) && !ok && download.Body? && download.complete
               && |Concat(download.chunks)| <= artifact.size)
              ==> root == old(root)
    {
      var home := Get(root, top).value;
      if download.NoResponse? { return false; }
      if download.contentLength.Some? && download.contentLength.value != artifact.size { return false; }
      var part := PartOf(destination);
      if !Writable(home.body, part) { return false; }
      assert Writable(home.body, destination);
      hide Concat;
      hide Writable;
      hide PartOf;
      WithFileIsSound(home, part, []);
      hide SoundHome;
      hide Sound;
      hide Pointwise;
      hide WithFile;
      ok := Commit(top, Some(WithFile(home, part, [])));
      if !ok { return; }
      ghost var mid, recorded := root, crashes;
      var received := Receive(top, home, part, artifact.size, download.chunks);
      PointwiseChain(old(crashes), recorded, crashes, old(root), mid, top);
      if received.None? || !download.complete { return false; }
      WithFileIsSound(home, destination, received.value);
      mid, recorded := root, crashes;
      ok := Accept(top, home, destination, artifact, received.value);
      PointwiseChain(old(crashes), recorded, crashes, old(root), mid, top);
    }

    /** The finished download is renamed into place, or removed if it is not the pinned artifact. */
    method Accept(top: Top, home: Home, destination: Rel, artifact: Artifact, content: Bytes) returns (ok: bool)
      requires Sound(root) && SoundHome(home) && SoundHome(WithFile(home, destination, content))
      modifies this
      ensures Sound(root) && root == Set(old(root), top, Get(root, top))
      ensures Pointwise(old(crashes), crashes, old(root), top)
      ensures ok ==> |content| == artifact.size && host.hash(content) == artifact.sha256
      ensures ok ==> Get(root, top) == Some(WithFile(home, destination, content))
      ensures Faultless(faults) && |content| == artifact.size && host.hash(content) == artifact.sha256 ==> ok
      ensures Faultless(faults) && !ok ==> Get(root, top) == Some(home)
    {
      hide SoundHome;
      hide WithFile;
      if |content| != artifact.size || host.hash(content) != artifact.sha256 {
        var removed := Commit(top, Some(home));
        return false;
      }
      ok := Commit(top, Some(WithFile(home, destination, content)));
    }

    /** Unpacks the archive into the directory's `runtime`, which is empty. */
    method ExtractRuntime(top: Top, archive: Archive) returns (ok: bool)
      requires Sound(root) && Get(root, top).Some? && Get(root, top).value.body[[]].Dir?
      modifies this
      ensures Sound(root) && root == Set(old(root), top, Get(root, top))
      ensures Pointwise(old(crashes), crashes, old(root), top)
      ensures Get(root, top).Some? && Get(root, top).value.body == Get(old(root), top).value.body
      ensures ok ==>
                var runtime := Get(root, top).value.runtime;
                && Unpackable(archive) && ConflictFree(archive)
                && runtime == Some(TreeOf(Expected(archive), Directories(archive)))
      ensures Faultless(faults) && Unpackable(archive) && ConflictFree(archive) ==> ok
    {
      hide Unpackable;
      hide ConflictFree;
      hide Expected;
      hide TreeOf;
      ghost var start := root;
      var home, first := Get(root, top).value, steps;
      var extracted;
      ghost var partials;
      extracted, partials := Extract(archive, (n: nat) => faults(first + n));
      if Faultless(faults) { assert Faultless((n: nat) => faults(first + n)); }
      steps := first + 2 * |archive.entries| + 1;
      crashes := crashes + HalfUnpacked(start, top, home, partials);
      HalfUnpackedIsSound(old(crashes), start, top, home, partials);
      hide Pointwise;
      hide HalfUnpacked;
      if extracted.Err? { return false; }
      ghost var recorded := crashes;
      ok := Commit(top, Some(home.(runtime := Some(extracted.value))));
      PointwiseChain(old(crashes), recorded, crashes, start, start, top);
    }

    /** Unpacks the archive and looks for the executable. */
    method UnpackRuntime(top: Top, archive: Archive) returns (ok: bool)
      requires Sound(root) && Get(root, top).Some? && Get(root, top).value.body[[]].Dir?
      modifies this
      ensures Sound(root) && root == Set(old(root), top, Get(root, top))
      ensures Pointwise(old(crashes), crashes, old(root), top)
      ensures Get(root, top).Some? && Get(root, top).value.body == Get(old(root), top).value.body
      ensures ok ==> HoldsRuntime(host, archive, Get(root, top).value.runtime)
      ensures Faultless(faults) && Unpacks(host, archive) ==> ok
    {
      hide Pointwise;
      hide Sound;
      if Unpacks(host, archive) { UnpacksIsUnpackable(host, archive); }
      hide Unpacks;
      hide Unpackable;
      hide ConflictFree;
      hide Expected;
      hide Directories;
      ok := ExtractRuntime(top, archive);
      if !ok { return; }
      UnpackedMatches(host, archive);
      hide TreeOf;
      var extracted := Get(root, top).value.runtime.value;
      ok := host.manifest.executable in extracted && extracted[host.manifest.executable].File?;
    }

    // ---- Online: stage, verify, promote ----

    /** An empty staged installation. */
    method PrepareStaging() returns (ok: bool)
      requires Sound(root)
      modifies this
      ensures Sound(root) && root == Set(old(root), Staging, root.staging)
      ensures Pointwise(old(crashes), crashes, old(root), Staging)
      ensures Blocked(old(root).staging) ==> !ok && root == old(root) && crashes == old(crashes)
      ensures ok ==> Fresh(old(root).staging) && root.staging == Some(PREPARED)
      ensures Faultless(faults) && Fresh(old(root).staging) ==> ok
    {
      ghost var before, start := crashes, root;
      hide Pointwise;
      ok := RemoveManagedIfPresent(Staging);
      if !ok { return; }
      ghost var mid, recorded := root, crashes;
      ok := CreateScratch(Staging);
      PointwiseChain(before, recorded, crashes, start, mid, Staging);
      if !ok { return; }
      mid, recorded := root, crashes;
      ok := MakeDir(Staging, DOWNLOADS);
      PointwiseChain(before, recorded, crashes, start, mid, Staging);
      if !ok { return; }
      mid, recorded := root, crashes;
      var home := root.staging.value;
      ok := Commit(Staging, Some(home.(runtime := Some(map[[] := Dir]))));
      PointwiseChain(before, recorded, crashes, start, mid, Staging);
      if !ok { return; }
      mid, recorded := root, crashes;
      ok := MakeDir(Staging, MODEL);
      PointwiseChain(before, recorded, crashes, start, mid, Staging);
    }

    /** Both downloads, the unpacked runtime and the recorded state. */
    method FillStaging(runtime: Download, model: Download) returns (ok: bool)
      requires Sound(root) && root.staging == Some(PREPARED)
      modifies this
      ensures Sound(root) && root == Set(old(root), Staging, root.staging)
      ensures Pointwise(old(crashes), crashes, old(root), Staging)
      ensures ok ==>
                && Delivers(host, runtime, host.manifest.runtime) && Delivers(host, model, host.manifest.model)
                && root.staging.Some?
                && root.staging.value.body == FilledBody(host, Concat(runtime.chunks), Concat(model.chunks))
                && HoldsRuntime(host, host.unpack(Concat(runtime.chunks)), root.staging.value.runtime)
      ensures runtime.NoResponse? ==> !ok && root == old(root)
      ensures Faultless(faults) && Obtainable(host, Online(runtime, model)) ==> ok
    {
      ghost var before, start := crashes, root;
      PathsApart(host);
      hide Pointwise;
      hide Concat;
      hide Unpacks;
      hide HoldsRuntime;
      hide Sound;
      hide PartOf;
      ok := DownloadVerified(Staging, ArchiveFile(host), host.manifest.runtime, runtime);
      if !ok { return; }
      ghost var mid, recorded := root, crashes;
      ok := DownloadVerified(Staging, ModelFile(host), host.manifest.model, model);
      PointwiseChain(before, recorded, crashes, start, mid, Staging);
      if !ok { return; }
      mid, recorded := root, crashes;
      var archive := host.unpack(root.staging.value.body[ArchiveFile(host)].content);
      ok := UnpackRuntime(Staging, archive);
      PointwiseChain(before, recorded, crashes, start, mid, Staging);
      if !ok { return; }
      mid, recorded := root, crashes;
      ok := WriteFile(Staging, STATE_FILE, host.encodeState(StateFor(host)));
      PointwiseChain(before, recorded, crashes, start, mid, Staging);
    }

    method BuildStaging(runtime: Download, model: Download) returns (ok: bool)
      requires Sound(root)
      modifies this
      ensures Sound(root) && root == Set(old(root), Staging, root.staging)
      ensures Pointwise(old(crashes), crashes, old(root), Staging)
      ensures Blocked(old(root).staging) ==> !ok && root == old(root) && crashes == old(crashes)
      ensures ok ==>
                && Fresh(old(root).staging) && Obtainable(host, Online(runtime, model))
                && root.staging == Some(InstalledBy(host, Online(runtime, model)))
                && Verified(host, root.staging.value)
      ensures Faultless(faults) && Fresh(old(root).staging) && runtime.NoResponse? ==> root.staging == Some(PREPARED)
      ensures Faultless(faults) && Fresh(old(root).staging) && Obtainable(host, Online(runtime, model)) ==> ok
    {
      hide Pointwise;
      hide Unpacks;
      hide HoldsRuntime;
      hide FilledBody;
      hide Verified;
      hide Concat;
      ok := PrepareStaging();
      if !ok { return; }
      ghost var mid, recorded := root, crashes;
      ok := FillStaging(runtime, model);
      PointwiseChain(old(crashes), recorded, crashes, old(root), mid, Staging);
      if !ok { return; }
      StagedVerifies(host, Concat(runtime.chunks), Concat(model.chunks), root.staging.value);
      ghost var run := Online(runtime, model);
      if Obtainable(host, run) { StagedIsInstalled(host, run, root.staging.value); }
      hide InstalledBy;
      ok := VerifyCurrent(Staging);
    }

    /** `fs::rename` of a directory to a name that does not exist. */
    method Move(from: Top, to: Top) returns (ok: bool)
      requires Sound(root) && Get(root, from).Some? && from != to && !Exists(Get(root, to))
      modifies this
      ensures Sound(root)
      ensures ok ==> Get(old(root), to).None? && root == Set(Set(old(root), from, None), to, Get(old(root), from))
      ensures ok ==> crashes == old(crashes) + [root]
      ensures !ok ==> root == old(root) && crashes == old(crashes)
      ensures steps == old(steps) + 1
      ensures ok <==> !faults(old(steps)) && Get(old(root), to).None?
    {
      ok := !faults(steps) && Get(root, to).None?;
      steps := steps + 1;
      if ok {
        root := Set(Set(root, from, None), to, Get(root, from));
        crashes := crashes + [root];
      }
    }

    /** The staged installation is renamed to `current`; if that fails, the one moved aside is renamed back. */
    method TakePlace() returns (ok: bool)
      requires Sound(root) && root.staging.Some? && !Exists(root.current)
      modifies this
      ensures Sound(root) && steps >= old(steps)
      ensures crashes == old(crashes) || crashes == old(crashes) + [root]
      ensures ok ==> old(root).current.None? && root == old(root).(current := old(root).staging, staging := None)
      ensures !ok ==> || root == old(root)
                      || (&& old(root).current.None? && Exists(old(root).previous)
                          && root == old(root).(current := old(root).previous, previous := None))
      ensures !ok && old(root).current.None? && Exists(old(root).previous) ==>
                root.current.Some? || (steps == old(steps) + 2 && faults(steps - 1) && faults(steps - 2))
      ensures Faultless(faults) && old(root).current.None? ==> ok
    {
      ok := Move(Staging, Current);
      if !ok && Exists(root.previous) && !Exists(root.current) {
        var back := Move(Previous, Current);
      }
    }

    /** `promote`: the current installation moves aside, its verified successor takes its place. */
    method Promote(ghost run: Run, ghost base: Root) returns (ok: bool)
      requires Sound(root) && root.staging.Some? && Verified(host, root.staging.value)
      requires run.Online? && !Blocked(base.staging) && root == Set(base, Staging, root.staging)
      modifies this
      ensures CrashSafe(host, run, base, root) && AllSafe(host, run, base, old(crashes), crashes)
      ensures ok ==> && root == base.(current := old(root).staging, staging := None, previous := root.previous)
                     && !Exists(root.previous) && (base.current.Some? ==> root.previous.None?)
      ensures ok ==> Promotable(Set(base, Staging, None))
      ensures !ok && root.current != base.current ==>
                || (root.current == old(root).staging && root.staging.None?)
                || (&& root.current.None? && root.previous == base.current && root.staging == old(root).staging
                    && steps >= old(steps) + 2 && faults(steps - 1) && faults(steps - 2))
      ensures Faultless(faults) && Promotable(Set(base, Staging, None)) ==> ok
    {
      hide Verified;
      hide SoundHome;
      hide Pointwise;
      ok := RemoveManagedIfPresent(Previous);
      AsideIsSafe(host, run, base, old(crashes), crashes, old(root), Previous);
      if !ok { return; }
      if Exists(root.current) {
        ok := AssertManaged(Current);
        if !ok { return; }
        ok := Move(Current, Previous);
        if !ok { return; }
      }
      ghost var recorded := crashes;
      assert AllSafe(host, run, base, old(crashes), crashes);
      ok := TakePlace();
      assert AllSafe(host, run, base, recorded, crashes);
      if !ok { return; }
      SafeChain(host, run, base, old(crashes), recorded, crashes);
      recorded := crashes;
      ghost var mid := root;
      VerifiedIsManaged(host, root.current.value);
      ok := RemoveManagedIfPresent(Previous);
      PromotedIsSafe(host, run, base, recorded, crashes, mid);
      SafeChain(host, run, base, old(crashes), recorded, crashes);
    }

    // ---- Offline: unpack the retained archive again ----

    /** Unpacks the retained archive into the recovery directory. */
    method PrepareRecovery(archive: Archive) returns (ok: bool)
      requires Sound(root)
      modifies this
      ensures Sound(root) && root == Set(old(root), Recovery, root.recovery)
      ensures Pointwise(old(crashes), crashes, old(root), Recovery)
      ensures Blocked(old(root).recovery) ==> !ok && root == old(root) && crashes == old(crashes)
      ensures ok ==> Fresh(old(root).recovery)
      ensures ok ==> root.recovery.Some? && root.recovery.value.body == MARKED_HOME.body
      ensures ok ==> HoldsRuntime(host, archive, root.recovery.value.runtime)
      ensures Faultless(faults) && Fresh(old(root).recovery) && Unpacks(host, archive) ==> ok
    {
      ghost var before, start := crashes, root;
      hide Pointwise;
      hide Unpacks;
      hide HoldsRuntime;
      ok := RemoveManagedIfPresent(Recovery);
      if !ok { return; }
      ghost var mid, recorded := root, crashes;
      ok := CreateScratch(Recovery);
      PointwiseChain(before, recorded, crashes, start, mid, Recovery);
      if !ok { return; }
      mid, recorded := root, crashes;
      ok := Commit(Recovery, Some(MARKED_HOME.(runtime := Some(map[[] := Dir]))));
      PointwiseChain(before, recorded, crashes, start, mid, Recovery);
      if !ok { return; }
      mid, recorded := root, crashes;
      ok := UnpackRuntime(Recovery, archive);
      PointwiseChain(before, recorded, crashes, start, mid, Recovery);
    }

    /** Removes the installed runtime, leaves first, if it is a real directory. */
    method RemoveRuntime(ghost base: Root) returns (ok: bool)
      requires Sound(root) && root.current.Some? && OnlyRuntime(base, root) && !Blocked(base.recovery)
      modifies this
      ensures Sound(root) && OnlyRuntime(base, root) && root == Set(old(root), Current, root.current)
      ensures root.current.Some? && root.current.value.body == old(root).current.value.body
      ensures AllSafe(host, Offline, base, old(crashes), crashes)
      ensures ok && Replaceable(old(root).current.value.runtime) ==> root.current.value.runtime.None?
      ensures ok && !Replaceable(old(root).current.value.runtime) ==>
                root.current == old(root).current && root.current.value.runtime.Some?
                && root.current.value.runtime.value[[]] == Symlink(Dangling)
      ensures Faultless(faults) && Replaceable(old(root).current.value.runtime) ==> ok
    {
      var runtime := root.current.value.runtime;
      if runtime.None? || runtime.value[[]] == Symlink(Dangling) { return true; }
      if !runtime.value[[]].Dir? { return false; }
      while runtime.Some?
        invariant Sound(root) && root.current == Some(Home(old(root).current.value.body, runtime))
        invariant OnlyRuntime(base, root) && root == Set(old(root), Current, root.current)
        invariant Replaceable(runtime)
        invariant AllSafe(host, Offline, base, old(crashes), crashes)
        decreases runtime.Some?, if runtime.Some? then |runtime.value| else 0
      {
        var next := SmallerTree(runtime.value);
        ok := Commit(Current, Some(root.current.value.(runtime := next)));
        if !ok { return; }
        runtime := next;
      }
      ok := true;
    }

    /** `fs::rename` of the unpacked runtime into the installation. */
    method MoveRuntime() returns (ok: bool)
      requires Sound(root) && root.recovery.Some? && root.current.Some? && root.current.value.body[[]].Dir?
      modifies this
      ensures Sound(root)
      ensures ok ==>
                && root == old(root).(
                     current := Some(old(root).current.value.(runtime := old(root).recovery.value.runtime)),
                     recovery := Some(old(root).recovery.value.(runtime := None)))
                && crashes == old(crashes) + [root] && old(root).current.value.runtime.None?
      ensures !ok ==> root == old(root) && crashes == old(crashes)
      ensures Faultless(faults) && root.current.value.runtime.None? ==> ok
    {
      ok := !faults(steps) && root.current.value.runtime.None?;
      steps := steps + 1;
      if ok {
        root := root.(current := Some(root.current.value.(runtime := root.recovery.value.runtime)),
                      recovery := Some(root.recovery.value.(runtime := None)));
        crashes := crashes + [root];
      }
    }

    /** The unpacked runtime takes the place of the installed one, and the recovery directory goes. */
    method ReplaceRuntime(ghost base: Root) returns (ok: bool)
      requires Sound(root) && OnlyRuntime(base, root) && !Blocked(base.recovery)
      requires root.current.Some? && root.current.value.body[[]].Dir?
      requires root.recovery.Some? && root.recovery.value.body == MARKED_HOME.body
      requires root.recovery.value.runtime.Some? && Replaceable(root.recovery.value.runtime)
      modifies this
      ensures CrashSafe(host, Offline, base, root) && AllSafe(host, Offline, base, old(crashes), crashes)
      ensures ok ==>
                && Replaceable(old(root).current.value.runtime) && root.recovery.None? && root.current.Some?
                && root.current.value.body == old(root).current.value.body
                && root.current.value.runtime == old(root).recovery.value.runtime
      ensures Faultless(faults) && Replaceable(old(root).current.value.runtime) ==> ok
    {
      hide Managed;
      MarkedIsManaged();
      ok := RemoveRuntime(base);
      if !ok { return; }
      ghost var recorded := crashes;
      ok := MoveRuntime();
      assert AllSafe(host, Offline, base, recorded, crashes);
      SafeChain(host, Offline, base, old(crashes), recorded, crashes);
      if !ok { return; }
      recorded := crashes;
      ghost var mid := root;
      ok := RemoveManagedIfPresent(Recovery);
      RecoveryIsSafe(host, base, recorded, crashes, mid);
      SafeChain(host, Offline, base, old(crashes), recorded, crashes);
    }

    /** `recover_runtime`. */
    method RecoverRuntime() returns (ok: bool)
      requires Sound(root)
      modifies this
      ensures CrashSafe(host, Offline, old(root), root) && AllSafe(host, Offline, old(root), old(crashes), crashes)
      ensures ok ==> RebuiltFrom(host, old(root), root) && root.recovery.None?
      ensures Faultless(faults) && Recoverable(host, old(root)) ==> ok
    {
      ghost var base := root;
      ok := VerifyIntact(Current);
      if !ok { return; }
      hide Intact;
      hide HoldsRuntime;
      hide Unpacks;
      IntactIsManaged(host, root.current.value.body);
      var archive := ArchiveOf(host, root.current.value.body);
      ok := PrepareRecovery(archive);
      RecoveryIsSafe(host, base, old(crashes), crashes, base);
      if !ok { return; }
      HeldIsDirectory(host, archive, root.recovery.value.runtime);
      ghost var recorded := crashes;
      ok := ReplaceRuntime(base);
      SafeChain(host, Offline, base, old(crashes), recorded, crashes);
    }

    // ---- setup ----

    /** Offline: unpack the retained archive again and verify. */
    method SetupOffline() returns (ready: bool)
      requires Sound(root)
      modifies this
      ensures CrashSafe(host, Offline, old(root), root) && AllSafe(host, Offline, old(root), old(crashes), crashes)
      ensures ready ==> Ready(host, root) && Recoverable(host, old(root))
      ensures ready ==> RebuiltFrom(host, old(root), root) && root.recovery.None?
      ensures ready ==> checkedAt == steps && steps > 0 && !faults(steps - 1)
      ensures Faultless(faults) && Recoverable(host, old(root)) ==> ready
    {
      hide Sound;
      hide Verified;
      hide RebuiltFrom;
      hide Recoverable;
      ready := RecoverRuntime();
      if !ready { return; }
      RebuiltVerifies(host, old(root), root);
      ready := VerifyCurrent(Current);
    }

    /** Online: download, unpack, verify, promote and verify again. */
    method SetupOnline(run: Run) returns (ready: bool)
      requires Sound(root) && run.Online?
      modifies this
      ensures CrashSafe(host, run, old(root), root) && AllSafe(host, run, old(root), old(crashes), crashes)
      ensures ready ==> Ready(host, root) && Promotable(old(root)) && Obtainable(host, run)
      ensures ready ==>
                && Obtainable(host, run) && !Exists(root.previous)
                && root == old(root).(
                     current := Some(InstalledBy(host, run)), staging := None, previous := root.previous)
      ensures ready ==> checkedAt == steps && steps > 0 && !faults(steps - 1)
      ensures root.current.None? && old(root).current.Some? ==> steps >= 2 && faults(steps - 1) && faults(steps - 2)
      ensures Faultless(faults) && Promotable(old(root)) && Obtainable(host, run) ==> ready
      ensures Faultless(faults) && run.runtime.NoResponse? && Fresh(old(root).staging) ==>
                root == Set(old(root), Staging, Some(PREPARED))
    {
      hide Verified;
      hide InstalledBy;
      if run.runtime.NoResponse? { NoResponseObtainsNothing(host, run); }
      hide Obtainable;
      hide Pointwise;
      hide AllSafe;
      ready := BuildStaging(run.runtime, run.model);
      if !Blocked(old(root).staging) { AsideIsSafe(host, run, old(root), old(crashes), crashes, old(root), Staging); }
      if !ready { return; }
      ghost var recorded := crashes;
      ready := Promote(run, old(root));
      SafeChain(host, run, old(root), old(crashes), recorded, crashes);
      if !ready { return; }
      ready := VerifyCurrent(Current);
    }

    /** `setup`, after the platform, manifest and lock checks. */
    method Setup(run: Run) returns (ready: bool)
      requires Sound(root)
      modifies this
      ensures CrashSafe(host, run, old(root), root) && AllSafe(host, run, old(root), old(crashes), crashes)
      ensures ready ==> Ready(host, root)
      ensures ready ==> Succeeds(host, run, old(root))
      ensures Faultless(faults) && Succeeds(host, run, old(root)) ==> ready
      ensures ready ==> checkedAt == steps && steps > 0 && !faults(steps - 1)
      ensures ready && run.Online? && (faults(old(steps)) || !Ready(host, old(root))) ==>
                && Obtainable(host, run) && !Exists(root.previous)
                && root == old(root).(
                     current := Some(InstalledBy(host, run)), staging := None, previous := root.previous)
      ensures ready && run.Offline? && (faults(old(steps)) || !Ready(host, old(root))) ==>
                RebuiltFrom(host, old(root), root) && root.recovery.None?
      ensures run.Online? && root.current.None? && old(root).current.Some? ==>
                steps >= 2 && faults(steps - 1) && faults(steps - 2)
      ensures !faults(old(steps)) && Ready(host, old(root)) ==> ready && root == old(root) && crashes == old(crashes)
      ensures (&& Faultless(faults) && run.Online? && run.runtime.NoResponse?
               && !Ready(host, old(root)) && Fresh(old(root).staging))
              ==> root == Set(old(root), Staging, Some(PREPARED))
    {
      hide Verified;
      hide Promotable;
      hide Obtainable;
      hide Recoverable;
      hide RebuiltFrom;
      hide InstalledBy;
      ready := VerifyCurrent(Current);
      if ready { return; }
      if run.Offline? {
        ready := SetupOffline();
      } else {
        ready := SetupOnline(run);
      }
    }
  }

  /**
   A promotion that was cut short is not resumed: an online run that meets no fault but an
   unreachable server throws the verified successor away, and the promise made for `current` is
   lost. So `PromiseChains` cannot do without its condition.
   */
  method PromotionIsNotResumed(host: Host, root: Root) returns (after: Root)
    requires Sound(root) && MovedAside(host, root)
    ensures after == Set(root, Staging, Some(PREPARED)) && !Verified(host, PREPARED)
    ensures CrashSafe(host, Online(NoResponse, NoResponse), root, after)
    ensures forall before: Root :: before.current.Some? ==> !Kept(host, before, after)
  {
    VerifiedIsManaged(host, root.staging.value);
    PreparedIsNotVerified(host);
    hide Verified;
    hide InstalledBy;
    hide RebuiltFrom;
    hide Obtainable;
    hide Recoverable;
    hide Sound;
    var disk := new Disk(host, _ => false, root);
    var ready := disk.Setup(Online(NoResponse, NoResponse));
    after := disk.root;
  }

  lemma PreparedIsNotVerified(host: Host)
    ensures !Verified(host, PREPARED)
  {
    assert ReadFile(PREPARED.body, STATE_FILE).None?;
  }

  /** A staged installation before anything is downloaded. */
  const PREPARED: Home :=
    Home(map[[] := Dir, MARKER := File(MARKER_VALUE), DOWNLOADS := Dir, MODEL := Dir], Some(map[[] := Dir]))

  function FilledBody(host: Host, archive: Bytes, model: Bytes): Tree {
    PREPARED.body[ArchiveFile(host) := File(archive)][ModelFile(host) := File(model)]
      [STATE_FILE := File(host.encodeState(StateFor(host)))]
  }

  /** What unpacking and the check for the executable leave. */
  ghost predicate HoldsRuntime(host: Host, archive: Archive, runtime: Option<Tree>) {
    && Unpackable(archive) && ConflictFree(archive)
    && runtime == Some(TreeOf(Expected(archive), Directories(archive)))
    && host.manifest.executable in Expected(archive)
  }

  /** What a successful online run installs: the marker, both downloads, the state and the unpacked archive. */
  ghost function InstalledBy(host: Host, run: Run): Home
    requires Obtainable(host, run)
  {
    var archive := host.unpack(Concat(run.runtime.chunks));
    Home(FilledBody(host, Concat(run.runtime.chunks), Concat(run.model.chunks)),
         Some(TreeOf(Expected(archive), Directories(archive))))
  }

  lemma StagedIsInstalled(host: Host, run: Run, home: Home)
    requires Obtainable(host, run)
    requires home.body == FilledBody(host, Concat(run.runtime.chunks), Concat(run.model.chunks))
    requires HoldsRuntime(host, host.unpack(Concat(run.runtime.chunks)), home.runtime)
    ensures home == InstalledBy(host, run)
  {
  }

  /** The installation's own archive, unpacked again, is its runtime; nothing else of it has changed. */
  ghost predicate RebuiltFrom(host: Host, before: Root, after: Root) {
    && before.current.Some? && Intact(host, before.current.value.body) && Fresh(before.recovery)
    && Replaceable(before.current.value.runtime)
    && after.current.Some? && after.current.value.body == before.current.value.body
    && HoldsRuntime(host, ArchiveOf(host, before.current.value.body), after.current.value.runtime)
  }

  /** A rebuilt installation verifies exactly when it could be recovered. */
  lemma RebuiltVerifies(host: Host, before: Root, after: Root)
    requires RebuiltFrom(host, before, after)
    ensures Ready(host, after) <==> Recoverable(host, before)
  {
    HeldMatches(host, ArchiveOf(host, before.current.value.body), after.current.value.runtime);
    hide HoldsRuntime;
    hide Unpacks;
    hide RuntimeMatches;
    hide Intact;
  }

  lemma HeldIsDirectory(host: Host, archive: Archive, runtime: Option<Tree>)
    requires HoldsRuntime(host, archive, runtime)
    ensures Replaceable(runtime)
  {
    ExpectedHoused(archive);
    TopIsDirectory(Expected(archive), Directories(archive));
  }

  lemma HeldMatches(host: Host, archive: Archive, runtime: Option<Tree>)
    requires HoldsRuntime(host, archive, runtime)
    ensures Readable(archive) <==> Unpacks(host, archive)
    ensures Readable(archive) <==> RuntimeMatches(host, archive, runtime.value)
  {
    UnpackedMatches(host, archive);
    hide Unpackable;
    hide Expected;
    hide Directories;
    hide TreeOf;
    hide FilesUnder;
    hide Regular;
    hide Hashed;
  }

  lemma NoResponseObtainsNothing(host: Host, run: Run)
    requires run.Online? && run.runtime.NoResponse?
    ensures !Obtainable(host, run)
  {
  }

  lemma MarkedIsManaged()
    ensures Managed(MARKED_HOME.body)
  {
  }

  lemma TopIsDirectory(files: map<Rel, Bytes>, dirs: set<Rel>)
    requires Housed(files, dirs)
    ensures Replaceable(Some(TreeOf(files, dirs)))
  {
  }

  lemma UnpacksIsUnpackable(host: Host, archive: Archive)
    requires Unpacks(host, archive)
    ensures Unpackable(archive) && ConflictFree(archive) && host.manifest.executable in Expected(archive)
  {
  }

  lemma PathsApart(host: Host)
    ensures Parent(ArchiveFile(host)) == DOWNLOADS && Parent(ModelFile(host)) == MODEL && Parent(STATE_FILE) == []
    ensures ArchiveFile(host) !in PREPARED.body && ModelFile(host) !in PREPARED.body && STATE_FILE !in PREPARED.body
    ensures PartOf(ArchiveFile(host)) !in PREPARED.body
    ensures ArchiveFile(host) != ModelFile(host) && ArchiveFile(host) != PartOf(ModelFile(host))
    ensures PartOf(ModelFile(host)) !in PREPARED.body
    ensures STATE_FILE != ArchiveFile(host) && STATE_FILE != ModelFile(host)
  {
  }

  lemma FilledIsIntact(host: Host, archive: Bytes, model: Bytes)
    requires |archive| == host.manifest.runtime.size && host.hash(archive) == host.manifest.runtime.sha256
    requires |model| == host.manifest.model.size && host.hash(model) == host.manifest.model.sha256
    ensures var body := FilledBody(host, archive, model);
            && (Intact(host, body) <==> host.decodeState(host.encodeState(StateFor(host))) == Some(StateFor(host)))
            && (Intact(host, body) ==> ArchiveOf(host, body) == host.unpack(archive))
  {
    PathsApart(host);
  }

  /** A staged installation verifies exactly when its archive unpacks for verification and its state reads back. */
  lemma StagedVerifies(host: Host, archive: Bytes, model: Bytes, home: Home)
    requires |archive| == host.manifest.runtime.size && host.hash(archive) == host.manifest.runtime.sha256
    requires |model| == host.manifest.model.size && host.hash(model) == host.manifest.model.sha256
    requires home.body == FilledBody(host, archive, model) && HoldsRuntime(host, host.unpack(archive), home.runtime)
    ensures Verified(host, home)
            <==> Unpacks(host, host.unpack(archive))
                 && host.decodeState(host.encodeState(StateFor(host))) == Some(StateFor(host))
  {
    FilledIsIntact(host, archive, model);
    HeldMatches(host, host.unpack(archive), home.runtime);
    hide Intact;
    hide FilledBody;
    hide RuntimeMatches;
    hide Unpacks;
  }

  lemma MatchingIsReadable(host: Host)
    ensures forall archive, tree :: RuntimeMatches(host, archive, tree) ==> Readable(archive)
    ensures forall archive :: Unpacks(host, archive) ==> Readable(archive)
  {
  }

  lemma VerifiedIsManaged(host: Host, home: Home)
    requires Verified(host, home)
    ensures Managed(home.body)
  {
  }

  /** An online run may do anything to its scratch directories while `current` stays. */
  lemma AsideIsSafe(host: Host, run: Run, base: Root, before: seq<Root>, after: seq<Root>, mid: Root, top: Top)
    requires run.Online? && !Blocked(base.staging) && top in {Staging, Previous}
    requires mid.current == base.current && mid.recovery == base.recovery
    requires Pointwise(before, after, mid, top)
    ensures AllSafe(host, run, base, before, after)
  {
    hide Sound;
    hide Ready;
  }

  /** Once the new installation is in place, clearing the previous one is safe. */
  lemma PromotedIsSafe(host: Host, run: Run, base: Root, before: seq<Root>, after: seq<Root>, mid: Root)
    requires run.Online? && !Blocked(base.staging) && mid.recovery == base.recovery && Ready(host, mid)
    requires Pointwise(before, after, mid, Previous)
    ensures AllSafe(host, run, base, before, after)
  {
    hide Sound;
    hide Verified;
  }

  lemma IntactIsManaged(host: Host, body: Tree)
    requires Intact(host, body)
    ensures Managed(body)
  {
  }

  /** An offline run may do anything to its own scratch directory. */
  lemma RecoveryIsSafe(host: Host, base: Root, before: seq<Root>, after: seq<Root>, mid: Root)
    requires OnlyRuntime(base, mid) && Pointwise(before, after, mid, Recovery)
    requires !Blocked(base.recovery) || before == after
    ensures AllSafe(host, Offline, base, before, after)
  {
    hide Sound;
  }
}
