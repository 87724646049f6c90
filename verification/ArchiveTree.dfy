/**
 The two readings of one runtime archive - extraction to disk, and the digest map used to
 verify an installation - and the reading of an installed tree they are compared with.
 */
module ArchiveTree {
  import opened Domain
  import opened ArchivePaths

  type Digest = string

  datatype Format = Zip | TarGz

  datatype Kind =
    | DirectoryEntry
    | FileEntry(content: Bytes)
    | LinkEntry(target: Option<Path>)
    | OtherEntry

  /** One archive member; no path or no link target stands for one the reader rejects. */
  datatype Entry = Entry(path: Option<Path>, kind: Kind)

  datatype Archive = Archive(format: Format, prefix: Rel, entries: seq<Entry>)

  datatype Node = Dir | File(content: Bytes) | Symlink(target: Target) | Special

  /** What following a symbolic link to its end finds; a directory by the files below it. */
  datatype Target = Dangling | LinkedFile(content: Bytes) | LinkedDirectory(files: map<Rel, Bytes>) | LinkedOther

  /** A directory on disk, by paths relative to it; `[]` is the directory itself. */
  type Tree = map<Rel, Node>

  // ---- The listing both readings build ----

  /** Regular files, links and required directories among the entries read so far. */
  datatype Listing = Listing(files: map<Rel, Bytes>, links: Links, dirs: set<Rel>)

  const EMPTY_LISTING: Listing := Listing(map[], map[], {})

  predicate IsPrefix(q: Rel, rel: Rel) {
    q <= rel
  }

  /** A path and its ancestors, without the root. */
  function Prefixes(rel: Rel): (r: set<Rel>)
    ensures forall q :: q in r <==> q != [] && IsPrefix(q, rel)
    decreases |rel|
  {
    if rel == [] then {}
    else
      PrefixOrParent(rel);
      Prefixes(Parent(rel)) + {rel}
  }

  lemma PrefixOrParent(rel: Rel)
    requires rel != []
    ensures forall q :: IsPrefix(q, rel) <==> q == rel || IsPrefix(q, Parent(rel))
  {
    forall q
      ensures IsPrefix(q, rel) <==> q == rel || IsPrefix(q, Parent(rel))
    {
      if |q| < |rel| { assert rel[..|q|] == Parent(rel)[..|q|]; }
    }
  }

  /** Directories, files and, in a tar archive, links with a relative target. */
  predicate KindTaken(format: Format, kind: Kind) {
    || kind.DirectoryEntry?
    || kind.FileEntry?
    || (kind.LinkEntry? && format.TarGz? && kind.target.Some? && !IsAbsolute(kind.target.value))
  }

  /** A later file or link at the same path replaces the earlier one. */
  function AddedAt(listing: Listing, rel: Rel, kind: Kind): Listing {
    match kind
    case DirectoryEntry => listing.(dirs := listing.dirs + Prefixes(rel))
    case FileEntry(content) =>
      listing.(files := listing.files[rel := content], dirs := listing.dirs + Prefixes(Parent(rel)))
    case LinkEntry(Some(target)) => listing.(links := listing.links[rel := target])
    case _ => listing
  }

  function AddEntry(archive: Archive, listing: Listing, entry: Entry): Result<Listing, ArchiveError> {
    if entry.path.None? then Err(ReaderRejected)
    else match StripPrefix(entry.path.value, archive.prefix)
      case Err(e) => Err(e)
      case Ok(None) => Ok(listing)
      case Ok(Some(rel)) =>
        if KindTaken(archive.format, entry.kind) then Ok(AddedAt(listing, rel, entry.kind))
        else Err(if entry.kind.LinkEntry? && archive.format.TarGz? then LinkRejected else UnsupportedEntry)
  }

  function Scan(archive: Archive, listing: Listing, entries: seq<Entry>): Result<Listing, ArchiveError>
    decreases |entries|
  {
    if entries == [] then Ok(listing)
    else match AddEntry(archive, listing, entries[0])
      case Err(e) => Err(e)
      case Ok(next) => Scan(archive, next, entries[1..])
  }

  /** A link stands for the regular file its chain ends at. */
  predicate LinkUsable(listing: Listing, link: Rel) {
    Resolve(listing.links, link).Ok? && Resolve(listing.links, link).value in listing.files
  }

  predicate AllUsable(listing: Listing, links: set<Rel>) {
    forall link :: link in links ==> LinkUsable(listing, link)
  }

  function CopyOf(listing: Listing, link: Rel): Bytes
    requires LinkUsable(listing, link)
  {
    listing.files[Resolve(listing.links, link).value]
  }

  function Copies(listing: Listing, links: set<Rel>): (r: map<Rel, Bytes>)
    requires AllUsable(listing, links)
    ensures r.Keys == links
  {
    map link | link in links :: CopyOf(listing, link)
  }

  function LinkDirs(links: set<Rel>): set<Rel> {
    set link, q | link in links && q in Prefixes(Parent(link)) :: q
  }

  function Listed(archive: Archive): Result<Listing, ArchiveError> {
    Scan(archive, EMPTY_LISTING, archive.entries)
  }

  /** Every entry can be taken and every link leads to a file. */
  predicate Unpackable(archive: Archive) {
    Listed(archive).Ok? && AllUsable(Listed(archive).value, Listed(archive).value.links.Keys)
  }

  /** The files an archive stands for, links replaced by the files they lead to. */
  function Expected(archive: Archive): map<Rel, Bytes>
    requires Unpackable(archive)
  {
    var listing := Listed(archive).value;
    listing.files + Copies(listing, listing.links.Keys)
  }

  function Directories(archive: Archive): set<Rel>
    requires Unpackable(archive)
  {
    var listing := Listed(archive).value;
    listing.dirs + LinkDirs(listing.links.Keys)
  }

  /** No file or link path is a directory entry or lies above another entry. */
  predicate ConflictFree(archive: Archive)
    requires Unpackable(archive)
  {
    Expected(archive).Keys !! Directories(archive)
  }

  function Hashed(hash: Bytes -> Digest, files: map<Rel, Bytes>): map<Rel, Digest> {
    map rel | rel in files :: hash(files[rel])
  }

  // ---- What a listing says of the entries ----

  /** The entry's path is the archive's prefix followed by `rel`. */
  predicate PlacedAt(archive: Archive, entry: Entry, rel: Rel) {
    entry.path.Some? && rel != [] && entry.path.value == ToPath(archive.prefix + rel)
  }

  predicate IsPrefixEntry(archive: Archive, entry: Entry) {
    entry.path.Some? && archive.prefix != [] && entry.path.value == ToPath(archive.prefix)
  }

  /** The entry of the prefix itself is skipped, whatever it is; any other lies below it and has a known kind. */
  ghost predicate Taken(archive: Archive, entry: Entry) {
    || IsPrefixEntry(archive, entry)
    || ((exists rel :: PlacedAt(archive, entry, rel)) && KindTaken(archive.format, entry.kind))
  }

  predicate FileAt(archive: Archive, entries: seq<Entry>, i: nat, rel: Rel) {
    i < |entries| && PlacedAt(archive, entries[i], rel) && entries[i].kind.FileEntry?
  }

  predicate LinkAt(archive: Archive, entries: seq<Entry>, i: nat, rel: Rel) {
    i < |entries| && PlacedAt(archive, entries[i], rel) && entries[i].kind.LinkEntry?
  }

  /** The entry makes `q` a directory: it is a directory at or below `q`, or a file below it. */
  ghost predicate Needs(archive: Archive, entry: Entry, q: Rel) {
    exists rel :: PlacedAt(archive, entry, rel)
                  && ((entry.kind.DirectoryEntry? && q <= rel) || (entry.kind.FileEntry? && q < rel))
  }

  ghost predicate FilesOf(archive: Archive, entries: seq<Entry>, files: map<Rel, Bytes>) {
    && (forall rel :: rel in files <==> exists i: nat :: FileAt(archive, entries, i, rel))
    && (forall i: nat, rel :: FileAt(archive, entries, i, rel)
                              && (forall j: nat :: FileAt(archive, entries, j, rel) ==> j <= i)
                              ==> rel in files && files[rel] == entries[i].kind.content)
  }

  ghost predicate LinksOf(archive: Archive, entries: seq<Entry>, links: Links) {
    && (forall rel :: rel in links <==> exists i: nat :: LinkAt(archive, entries, i, rel))
    && (forall i: nat, rel :: LinkAt(archive, entries, i, rel)
                              && (forall j: nat :: LinkAt(archive, entries, j, rel) ==> j <= i)
                              ==> rel in links && Some(links[rel]) == entries[i].kind.target)
  }

  ghost predicate DirsOf(archive: Archive, entries: seq<Entry>, dirs: set<Rel>) {
    forall q :: q in dirs <==> q != [] && exists entry :: entry in entries && Needs(archive, entry, q)
  }

  /** The last file and the last link at each path, and the directories they need. */
  ghost predicate Describes(archive: Archive, entries: seq<Entry>, listing: Listing) {
    && FilesOf(archive, entries, listing.files)
    && LinksOf(archive, entries, listing.links)
    && DirsOf(archive, entries, listing.dirs)
  }

  lemma PlaceIsUnique(archive: Archive, entry: Entry, rel: Rel, other: Rel)
    requires PlacedAt(archive, entry, rel) && PlacedAt(archive, entry, other)
    ensures rel == other
  {
    SafeRelativeOfRel(archive.prefix + rel);
    SafeRelativeOfRel(archive.prefix + other);
    assert rel == (archive.prefix + rel)[|archive.prefix|..];
    assert other == (archive.prefix + other)[|archive.prefix|..];
  }

  /** What becomes of one entry, by its path and kind alone. */
  lemma AddedExactly(archive: Archive, listing: Listing, entry: Entry)
    ensures AddEntry(archive, listing, entry).Ok? <==> Taken(archive, entry)
    ensures IsPrefixEntry(archive, entry) ==>
              AddEntry(archive, listing, entry) == Ok(listing) && forall rel :: !PlacedAt(archive, entry, rel)
    ensures forall rel :: AddEntry(archive, listing, entry).Ok? && PlacedAt(archive, entry, rel) ==>
                            AddEntry(archive, listing, entry) == Ok(AddedAt(listing, rel, entry.kind))
  {
    hide AddedAt;
    if entry.path.Some? {
      var path := entry.path.value;
      forall rel
        ensures PlacedAt(archive, entry, rel) <==> StripPrefix(path, archive.prefix) == Ok(Some(rel))
        ensures IsPrefixEntry(archive, entry) <==> StripPrefix(path, archive.prefix) == Ok(None)
      {
        StripPrefixExact(path, archive.prefix, rel);
      }
      StripPrefixExact(path, archive.prefix, []);
      hide StripPrefix;
      hide ToPath;
      hide PlacedAt;
      hide IsPrefixEntry;
      if StripPrefix(path, archive.prefix).Ok? && StripPrefix(path, archive.prefix).value.Some? {
        assert PlacedAt(archive, entry, StripPrefix(path, archive.prefix).value.value);
      }
    }
  }

  lemma FileAtGrows(archive: Archive, entries: seq<Entry>, entry: Entry, rel: Rel)
    requires PlacedAt(archive, entry, rel)
    ensures forall i: nat, r :: FileAt(archive, entries + [entry], i, r)
                                <==> || FileAt(archive, entries, i, r)
                                     || (i == |entries| && r == rel && entry.kind.FileEntry?)
    ensures forall i: nat, r :: FileAt(archive, entries, i, r) ==> i < |entries|
  {
    hide ToPath;
    forall r | PlacedAt(archive, entry, r)
      ensures r == rel
    {
      PlaceIsUnique(archive, entry, rel, r);
    }
    hide PlacedAt;
  }

  lemma FilesGrow(archive: Archive, entries: seq<Entry>, files: map<Rel, Bytes>, entry: Entry, rel: Rel)
    requires FilesOf(archive, entries, files) && PlacedAt(archive, entry, rel)
    ensures entry.kind.FileEntry? ==> FilesOf(archive, entries + [entry], files[rel := entry.kind.content])
    ensures !entry.kind.FileEntry? ==> FilesOf(archive, entries + [entry], files)
  {
    FileAtGrows(archive, entries, entry, rel);
    hide FileAt;
    hide PlacedAt;
    var more := entries + [entry];
    assert entry.kind.FileEntry? ==> FileAt(archive, more, |entries|, rel) && more[|entries|] == entry;
    assert forall i: nat, r :: FileAt(archive, entries, i, r) ==>
                                 FileAt(archive, more, i, r) && more[i] == entries[i];
  }

  lemma LinkAtGrows(archive: Archive, entries: seq<Entry>, entry: Entry, rel: Rel)
    requires PlacedAt(archive, entry, rel)
    ensures forall i: nat, r :: LinkAt(archive, entries + [entry], i, r)
                                <==> || LinkAt(archive, entries, i, r)
                                     || (i == |entries| && r == rel && entry.kind.LinkEntry?)
    ensures forall i: nat, r :: LinkAt(archive, entries, i, r) ==> i < |entries|
  {
    hide ToPath;
    forall r | PlacedAt(archive, entry, r)
      ensures r == rel
    {
      PlaceIsUnique(archive, entry, rel, r);
    }
    hide PlacedAt;
  }

  lemma LinksGrow(archive: Archive, entries: seq<Entry>, links: Links, entry: Entry, rel: Rel)
    requires LinksOf(archive, entries, links) && PlacedAt(archive, entry, rel)
    ensures entry.kind.LinkEntry? && entry.kind.target.Some? ==>
              LinksOf(archive, entries + [entry], links[rel := entry.kind.target.value])
    ensures !entry.kind.LinkEntry? ==> LinksOf(archive, entries + [entry], links)
  {
    LinkAtGrows(archive, entries, entry, rel);
    hide LinkAt;
    hide PlacedAt;
    var more := entries + [entry];
    assert entry.kind.LinkEntry? ==> LinkAt(archive, more, |entries|, rel) && more[|entries|] == entry;
    assert forall i: nat, r :: LinkAt(archive, entries, i, r) ==>
                                 LinkAt(archive, more, i, r) && more[i] == entries[i];
  }

  lemma DirsGrow(archive: Archive, entries: seq<Entry>, dirs: set<Rel>, entry: Entry, rel: Rel)
    requires DirsOf(archive, entries, dirs) && PlacedAt(archive, entry, rel)
    ensures entry.kind.DirectoryEntry? ==> DirsOf(archive, entries + [entry], dirs + Prefixes(rel))
    ensures entry.kind.FileEntry? ==> DirsOf(archive, entries + [entry], dirs + Prefixes(Parent(rel)))
    ensures !entry.kind.DirectoryEntry? && !entry.kind.FileEntry? ==> DirsOf(archive, entries + [entry], dirs)
  {
    hide Prefixes;
    hide ToPath;
    PrefixOrParent(rel);
    assert entry in entries + [entry];
    forall r | PlacedAt(archive, entry, r)
      ensures r == rel
    {
      PlaceIsUnique(archive, entry, rel, r);
    }
    hide PlacedAt;
    assert forall q :: Needs(archive, entry, q)
                       <==> (entry.kind.DirectoryEntry? && IsPrefix(q, rel))
                            || (entry.kind.FileEntry? && IsPrefix(q, Parent(rel)));
    hide Needs;
    assert forall e :: e in entries + [entry] <==> e in entries || e == entry;
  }

  lemma SkippedChangesNothing(archive: Archive, entries: seq<Entry>, listing: Listing, entry: Entry)
    requires Describes(archive, entries, listing) && forall rel :: !PlacedAt(archive, entry, rel)
    ensures Describes(archive, entries + [entry], listing)
  {
    var more := entries + [entry];
    hide PlacedAt;
    assert forall i: nat, r :: FileAt(archive, more, i, r) <==> FileAt(archive, entries, i, r);
    assert forall i: nat, r :: LinkAt(archive, more, i, r) <==> LinkAt(archive, entries, i, r);
    assert FilesOf(archive, more, listing.files) && LinksOf(archive, more, listing.links);
    assert forall q :: !Needs(archive, entry, q);
    hide Needs;
    assert forall e :: e in more <==> e in entries || e == entry;
  }

  lemma AddDescribes(archive: Archive, entries: seq<Entry>, listing: Listing, entry: Entry)
    requires Describes(archive, entries, listing) && AddEntry(archive, listing, entry).Ok?
    ensures Describes(archive, entries + [entry], AddEntry(archive, listing, entry).value)
  {
    AddedExactly(archive, listing, entry);
    assert KindTaken(archive.format, entry.kind) || IsPrefixEntry(archive, entry);
    hide AddEntry;
    hide FilesOf;
    hide LinksOf;
    hide DirsOf;
    hide PlacedAt;
    hide IsPrefixEntry;
    if rel :| PlacedAt(archive, entry, rel) {
      FilesGrow(archive, entries, listing.files, entry, rel);
      LinksGrow(archive, entries, listing.links, entry, rel);
      DirsGrow(archive, entries, listing.dirs, entry, rel);
    } else {
      SkippedChangesNothing(archive, entries, listing, entry);
    }
  }

  lemma {:induction false} ScanDescribes(archive: Archive, before: seq<Entry>, listing: Listing, entries: seq<Entry>)
    requires Describes(archive, before, listing)
    ensures Scan(archive, listing, entries).Ok? <==> forall entry :: entry in entries ==> Taken(archive, entry)
    ensures Scan(archive, listing, entries).Ok? ==>
              Describes(archive, before + entries, Scan(archive, listing, entries).value)
    decreases |entries|
  {
    hide AddEntry;
    hide Describes;
    hide Taken;
    if entries == [] {
      assert before + entries == before;
    } else {
      AddedExactly(archive, listing, entries[0]);
      assert forall entry :: entry in entries <==> entry == entries[0] || entry in entries[1..];
      if AddEntry(archive, listing, entries[0]).Ok? {
        AddDescribes(archive, before, listing, entries[0]);
        ScanDescribes(archive, before + [entries[0]], AddEntry(archive, listing, entries[0]).value, entries[1..]);
        assert before + [entries[0]] + entries[1..] == before + entries;
      }
    }
  }

  lemma NothingListed(archive: Archive)
    ensures Describes(archive, [], EMPTY_LISTING)
  {
  }

  /**
   A listing is made exactly of archives all of whose entries can be taken, and holds the last
   file and the last link at each path, and the directories that entries name or lie in.
   */
  lemma ListedExactly(archive: Archive)
    ensures Listed(archive).Ok? <==> forall entry :: entry in archive.entries ==> Taken(archive, entry)
    ensures Listed(archive).Ok? ==> Describes(archive, archive.entries, Listed(archive).value)
  {
    NothingListed(archive);
    ScanDescribes(archive, [], EMPTY_LISTING, archive.entries);
    assert [] + archive.entries == archive.entries;
  }

  ghost predicate LastFileAt(archive: Archive, entries: seq<Entry>, i: nat, rel: Rel) {
    FileAt(archive, entries, i, rel) && forall j: nat :: FileAt(archive, entries, j, rel) ==> j <= i
  }

  lemma ExpectedContents(archive: Archive, i: nat, rel: Rel)
    requires Unpackable(archive) && LastFileAt(archive, archive.entries, i, rel)
    ensures rel in Listed(archive).value.files
    ensures Listed(archive).value.files[rel] == archive.entries[i].kind.content
  {
    ListedExactly(archive);
  }

  /**
   An archive stands for the paths of its files and links: the last file at each path that is
   no link, and at a link the last file where its chain ends. Its directories are those named
   by an entry and those above an entry.
   */
  lemma ExpectedExactly(archive: Archive)
    requires Unpackable(archive)
    ensures forall rel :: rel in Expected(archive) <==>
                            exists i: nat :: || FileAt(archive, archive.entries, i, rel)
                                             || LinkAt(archive, archive.entries, i, rel)
    ensures forall i: nat, rel ::
              LastFileAt(archive, archive.entries, i, rel)
              && (forall j: nat :: !LinkAt(archive, archive.entries, j, rel))
              ==> rel in Expected(archive) && Expected(archive)[rel] == archive.entries[i].kind.content
    ensures forall i: nat, j: nat, rel, end ::
              LinkAt(archive, archive.entries, i, rel) && EndsAt(Listed(archive).value.links, rel, end)
              && LastFileAt(archive, archive.entries, j, end)
              ==> rel in Expected(archive) && Expected(archive)[rel] == archive.entries[j].kind.content
    ensures forall q :: q in Directories(archive) <==>
                          q != []
                          && ((exists entry :: entry in archive.entries && Needs(archive, entry, q))
                              || (exists i: nat, rel :: LinkAt(archive, archive.entries, i, rel) && q < rel))
  {
    ListedExactly(archive);
    var entries, listing := archive.entries, Listed(archive).value;
    hide Listed;
    hide FileAt;
    hide LinkAt;
    hide Prefixes;
    hide Needs;
    forall i: nat, j: nat, rel, end
      | LinkAt(archive, entries, i, rel) && EndsAt(listing.links, rel, end) && LastFileAt(archive, entries, j, end)
      ensures rel in Expected(archive) && Expected(archive)[rel] == entries[j].kind.content
    {
      ResolveExact(listing.links, rel);
      ExpectedContents(archive, j, end);
    }
    hide Resolve;
    hide EndsAt;
    forall q
      ensures q in LinkDirs(listing.links.Keys)
              <==> q != [] && exists i: nat, rel :: LinkAt(archive, entries, i, rel) && q < rel
    {
      AboveLinks(archive, listing.links, q);
    }
    hide LinksOf;
    hide FilesOf;
  }

  lemma AboveLinks(archive: Archive, links: Links, q: Rel)
    requires LinksOf(archive, archive.entries, links)
    ensures q in LinkDirs(links.Keys)
            <==> q != [] && exists i: nat, rel :: LinkAt(archive, archive.entries, i, rel) && q < rel
  {
    LinkDirsAbove(links.Keys, q);
    hide LinkDirs;
    hide LinkAt;
    if link :| link in links && StrictPrefix(q, link) {
      var i: nat :| LinkAt(archive, archive.entries, i, link);
      assert q < link;
    }
    if i: nat, rel :| LinkAt(archive, archive.entries, i, rel) && q < rel {
      assert rel in links && StrictPrefix(q, rel);
    }
  }

  predicate StrictPrefix(q: Rel, rel: Rel) {
    q < rel
  }

  lemma LinkDirsAbove(links: set<Rel>, q: Rel)
    ensures q in LinkDirs(links) <==> q != [] && exists link :: link in links && StrictPrefix(q, link)
  {
    forall link | link in links
      ensures q in Prefixes(Parent(link)) <==> q != [] && StrictPrefix(q, link)
    {
      hide Prefixes;
      if link != [] { PrefixOrParent(link); }
      assert IsPrefix(q, link) <==> q <= link;
    }
    hide Prefixes;
    hide Parent;
    hide StrictPrefix;
  }

  /** No path is given to two files, to two links, or to a file and a link. */
  ghost predicate Distinct(archive: Archive, entries: seq<Entry>) {
    && (forall i: nat, j: nat, rel :: FileAt(archive, entries, i, rel) && FileAt(archive, entries, j, rel) ==> i == j)
    && (forall i: nat, j: nat, rel :: LinkAt(archive, entries, i, rel) && LinkAt(archive, entries, j, rel) ==> i == j)
    && (forall i: nat, j: nat, rel :: !(FileAt(archive, entries, i, rel) && LinkAt(archive, entries, j, rel)))
  }

  /** What the digest readings accept: an archive that can be unpacked and gives no path twice. */
  ghost predicate Readable(archive: Archive) {
    Unpackable(archive) && Distinct(archive, archive.entries)
  }

  // ---- tar_tree_digests and zip_tree_digests ----

  method TreeDigests(archive: Archive, hash: Bytes -> Digest) returns (r: Result<map<Rel, Digest>, ArchiveError>)
    ensures r.Ok? <==> Readable(archive)
    ensures r.Ok? ==> r.value == Hashed(hash, Expected(archive))
  {
    var state := Digested(map[], map[]);
    ghost var listing := EMPTY_LISTING;
    NothingListed(archive);
    for k := 0 to |archive.entries|
      invariant DigestsOf(state, hash, listing)
      invariant Scan(archive, listing, archive.entries[k..]) == Listed(archive)
      invariant Describes(archive, archive.entries[..k], listing) && OnePerKind(archive, archive.entries[..k])
    {
      hide Describes;
      hide OnePerKind;
      hide AddEntry;
      assert archive.entries[k..][1..] == archive.entries[k + 1..];
      var next := DigestEntry(archive, state, k, hash, listing);
      if next.Err? { return Err(next.error); }
      NextDescribes(archive, listing, k);
      state := next.value;
      listing := AddEntry(archive, listing, archive.entries[k]).value;
    }
    assert archive.entries[..|archive.entries|] == archive.entries;
    FilesAndLinksApart(archive, archive.entries, listing);
    hide Describes;
    r := DigestLinks(listing, hash, state.files, state.links);
  }

  /** The digests and links a digest reading has collected so far. */
  datatype Digested = Digested(files: map<Rel, Digest>, links: Links)

  predicate DigestsOf(state: Digested, hash: Bytes -> Digest, listing: Listing) {
    state.links == listing.links && state.files == Hashed(hash, listing.files)
  }

  /** Reads one entry; unlike unpacking it refuses a second file or link at the same path. */
  method DigestEntry(archive: Archive, state: Digested, k: nat, hash: Bytes -> Digest, ghost listing: Listing)
    returns (r: Result<Digested, ArchiveError>)
    requires k < |archive.entries| && DigestsOf(state, hash, listing)
    requires Describes(archive, archive.entries[..k], listing) && OnePerKind(archive, archive.entries[..k])
    ensures r.Ok? ==> && AddEntry(archive, listing, archive.entries[k]).Ok?
                      && DigestsOf(r.value, hash, AddEntry(archive, listing, archive.entries[k]).value)
                      && OnePerKind(archive, archive.entries[..k + 1])
    ensures r.Err? ==> AddEntry(archive, listing, archive.entries[k]).Err? || !Distinct(archive, archive.entries)
  {
    hide StripPrefix;
    hide Prefixes;
    hide Describes;
    hide OnePerKind;
    hide Distinct;
    var entry := archive.entries[k];
    if entry.path.None? { return Err(ReaderRejected); }
    var stripped := StripPrefix(entry.path.value, archive.prefix);
    if stripped.Err? { return Err(stripped.error); }
    if stripped.value.None? {
      NextSkipped(archive, k);
      return Ok(state);
    }
    var rel := stripped.value.value;
    StripPrefixExact(entry.path.value, archive.prefix, rel);
    NextRepeats(archive, listing, k, rel);
    match entry.kind {
      case DirectoryEntry =>
        return Ok(state);
      case FileEntry(content) =>
        if rel in state.files { return Err(DuplicateEntry); }
        return Ok(state.(files := state.files[rel := hash(content)]));
      case LinkEntry(target) =>
        if archive.format.Zip? { return Err(UnsupportedEntry); }
        if target.None? || IsAbsolute(target.value) || rel in state.links { return Err(LinkRejected); }
        return Ok(state.(links := state.links[rel := target.value]));
      case OtherEntry => return Err(UnsupportedEntry);
    }
  }

  ghost predicate OnePerKind(archive: Archive, entries: seq<Entry>) {
    && (forall i: nat, j: nat, rel :: FileAt(archive, entries, i, rel) && FileAt(archive, entries, j, rel) ==> i == j)
    && (forall i: nat, j: nat, rel :: LinkAt(archive, entries, i, rel) && LinkAt(archive, entries, j, rel) ==> i == j)
  }

  lemma NextDescribes(archive: Archive, listing: Listing, k: nat)
    requires k < |archive.entries| && Describes(archive, archive.entries[..k], listing)
    requires AddEntry(archive, listing, archive.entries[k]).Ok?
    ensures Describes(archive, archive.entries[..k + 1], AddEntry(archive, listing, archive.entries[k]).value)
  {
    hide Describes;
    hide AddEntry;
    AddDescribes(archive, archive.entries[..k], listing, archive.entries[k]);
    assert archive.entries[..k] + [archive.entries[k]] == archive.entries[..k + 1];
  }

  /** One entry more at `rel` is one more file or link there, if it is one. */
  lemma AtNext(archive: Archive, k: nat, rel: Rel, i: nat, r: Rel)
    requires k < |archive.entries| && PlacedAt(archive, archive.entries[k], rel)
    ensures FileAt(archive, archive.entries[..k + 1], i, r)
            <==> || FileAt(archive, archive.entries[..k], i, r)
                 || (i == k && r == rel && archive.entries[k].kind.FileEntry?)
    ensures LinkAt(archive, archive.entries[..k + 1], i, r)
            <==> || LinkAt(archive, archive.entries[..k], i, r)
                 || (i == k && r == rel && archive.entries[k].kind.LinkEntry?)
    ensures FileAt(archive, archive.entries[..k], i, r) ==> FileAt(archive, archive.entries, i, r) && i < k
    ensures LinkAt(archive, archive.entries[..k], i, r) ==> LinkAt(archive, archive.entries, i, r) && i < k
  {
    if PlacedAt(archive, archive.entries[k], r) { PlaceIsUnique(archive, archive.entries[k], rel, r); }
  }

  /** A file or link repeats an earlier one exactly when its path is already listed. */
  lemma NextRepeats(archive: Archive, listing: Listing, k: nat, rel: Rel)
    requires k < |archive.entries| && Describes(archive, archive.entries[..k], listing)
    requires PlacedAt(archive, archive.entries[k], rel) && OnePerKind(archive, archive.entries[..k])
    ensures var kind := archive.entries[k].kind;
            if (kind.FileEntry? && rel in listing.files) || (kind.LinkEntry? && rel in listing.links)
            then !Distinct(archive, archive.entries)
            else OnePerKind(archive, archive.entries[..k + 1])
  {
    var entries, before, after := archive.entries, archive.entries[..k], archive.entries[..k + 1];
    var kind := archive.entries[k].kind;
    assert kind.FileEntry? ==> FileAt(archive, entries, k, rel);
    assert kind.LinkEntry? ==> LinkAt(archive, entries, k, rel);
    hide FileAt;
    hide LinkAt;
    hide PlacedAt;
    hide DirsOf;
    forall i: nat, r
      ensures FileAt(archive, after, i, r) <==> FileAt(archive, before, i, r) || (i == k && r == rel && kind.FileEntry?)
      ensures LinkAt(archive, after, i, r) <==> LinkAt(archive, before, i, r) || (i == k && r == rel && kind.LinkEntry?)
      ensures FileAt(archive, before, i, r) ==> FileAt(archive, entries, i, r) && i < k
      ensures LinkAt(archive, before, i, r) ==> LinkAt(archive, entries, i, r) && i < k
    {
      AtNext(archive, k, rel, i, r);
    }
  }

  lemma NextSkipped(archive: Archive, k: nat)
    requires k < |archive.entries| && archive.entries[k].path.Some?
    requires StripPrefix(archive.entries[k].path.value, archive.prefix) == Ok(None)
    requires OnePerKind(archive, archive.entries[..k])
    ensures OnePerKind(archive, archive.entries[..k + 1])
  {
    AddedExactly(archive, EMPTY_LISTING, archive.entries[k]);
    StripPrefixExact(archive.entries[k].path.value, archive.prefix, []);
    assert IsPrefixEntry(archive, archive.entries[k]);
    hide PlacedAt;
    var before, after := archive.entries[..k], archive.entries[..k + 1];
    assert forall i: nat, r :: FileAt(archive, after, i, r) <==> FileAt(archive, before, i, r);
    assert forall i: nat, r :: LinkAt(archive, after, i, r) <==> LinkAt(archive, before, i, r);
  }

  lemma FilesAndLinksApart(archive: Archive, entries: seq<Entry>, listing: Listing)
    requires Describes(archive, entries, listing) && OnePerKind(archive, entries)
    ensures listing.files.Keys !! listing.links.Keys <==> Distinct(archive, entries)
  {
    hide FileAt;
    hide LinkAt;
    hide DirsOf;
    if rel :| rel in listing.files && rel in listing.links {
      var i: nat :| FileAt(archive, entries, i, rel);
      var j: nat :| LinkAt(archive, entries, j, rel);
    }
  }

  lemma MoveOne<T>(all: set<T>, remaining: set<T>, x: T)
    requires x in remaining && remaining <= all
    ensures all - (remaining - {x}) == (all - remaining) + {x}
  {
  }

  lemma UsableOneMore(listing: Listing, done: set<Rel>, link: Rel, all: set<Rel>)
    ensures LinkUsable(listing, link) ==> Resolve(listing.links, link).Ok?
    ensures LinkUsable(listing, link) && AllUsable(listing, done) ==> AllUsable(listing, done + {link})
    ensures !LinkUsable(listing, link) && link in all ==> !AllUsable(listing, all)
  {
  }

  lemma NoCopies(listing: Listing)
    ensures AllUsable(listing, {}) && listing.files + Copies(listing, {}) == listing.files
    ensures listing.dirs + LinkDirs({}) == listing.dirs
  {
  }

  lemma SourceIsNoLink(links: Links, link: Rel)
    requires Resolve(links, link).Ok?
    ensures Resolve(links, link).value !in links
  {
    ResolveExact(links, link);
    assert EndsAt(links, link, Resolve(links, link).value);
  }

  lemma DigestOneMore(listing: Listing, hash: Bytes -> Digest, done: set<Rel>, link: Rel)
    requires done <= listing.links.Keys && link in listing.links && link !in done && Resolve(listing.links, link).Ok?
    requires AllUsable(listing, done)
    ensures var files := Hashed(hash, listing.files + Copies(listing, done));
            var source := Resolve(listing.links, link).value;
            && (LinkUsable(listing, link) <==> source in files)
            && (link in listing.files <==> link in files)
            && (LinkUsable(listing, link) && link !in files ==>
                  files[link := files[source]] == Hashed(hash, listing.files + Copies(listing, done + {link})))
  {
    SourceIsNoLink(listing.links, link);
    hide Resolve;
    if LinkUsable(listing, link) { CopiedOneMore(listing, done, link); }
  }

  /** Gives every link the digest of the file it leads to, in any order. */
  method DigestLinks(ghost listing: Listing, hash: Bytes -> Digest, read: map<Rel, Digest>, links: Links)
    returns (r: Result<map<Rel, Digest>, ArchiveError>)
    requires links == listing.links && read == Hashed(hash, listing.files)
    ensures r.Ok? <==> AllUsable(listing, links.Keys) && listing.files.Keys !! links.Keys
    ensures r.Ok? ==> r.value == Hashed(hash, listing.files + Copies(listing, links.Keys))
  {
    NoCopies(listing);
    hide Resolve;
    hide Copies;
    hide Hashed;
    hide LinkUsable;
    hide AllUsable;
    var files, remaining := read, links.Keys;
    ghost var done: set<Rel> := {};
    while remaining != {}
      invariant remaining <= links.Keys && done == links.Keys - remaining
      invariant AllUsable(listing, done) && done !! listing.files.Keys
      invariant files == Hashed(hash, listing.files + Copies(listing, done))
      decreases remaining
    {
      var link :| link in remaining;
      var source := ResolveLinkSource(link, links);
      UsableOneMore(listing, done, link, links.Keys);
      if source.Err? { return Err(source.error); }
      DigestOneMore(listing, hash, done, link);
      if source.value !in files { return Err(LinkNotAFile); }
      if link in files { return Err(DuplicateEntry); }
      files := files[link := files[source.value]];
      MoveOne(links.Keys, remaining, link);
      remaining, done := remaining - {link}, done + {link};
    }
    assert done == links.Keys;
    return Ok(files);
  }

  // ---- extract_tar_gz and extract_zip ----

  /** The tree that holds exactly these files and directories. */
  function TreeOf(files: map<Rel, Bytes>, dirs: set<Rel>): Tree {
    (map d | d in dirs + {[]} :: Dir) + (map f | f in files :: File(files[f]))
  }

  predicate CanCreateDir(tree: Tree, rel: Rel) {
    forall q :: q in Prefixes(rel) && q in tree ==> tree[q].Dir?
  }

  function CreateDirAll(tree: Tree, rel: Rel): Tree {
    tree + map q | q in Prefixes(rel) :: Dir
  }

  /** Creating, overwriting or copying over a file works unless a directory is in the way. */
  predicate CanWriteFile(tree: Tree, rel: Rel) {
    rel in tree ==> tree[rel].File?
  }

  /** The entries read so far fit together on disk. */
  predicate Fits(files: map<Rel, Bytes>, dirs: set<Rel>) {
    files.Keys !! dirs && [] !in files
  }

  lemma MoreDirs(files: map<Rel, Bytes>, dirs: set<Rel>, more: set<Rel>)
    requires Fits(files, dirs) && files.Keys !! more
    ensures TreeOf(files, dirs) + (map q | q in more :: Dir) == TreeOf(files, dirs + more)
  {
  }

  lemma PlaceDirs(files: map<Rel, Bytes>, dirs: set<Rel>, rel: Rel)
    requires Fits(files, dirs)
    ensures CanCreateDir(TreeOf(files, dirs), rel) <==> Fits(files, dirs + Prefixes(rel))
    ensures Fits(files, dirs + Prefixes(rel)) ==>
              CreateDirAll(TreeOf(files, dirs), rel) == TreeOf(files, dirs + Prefixes(rel))
  {
    hide Prefixes;
    var tree, more := TreeOf(files, dirs), Prefixes(rel);
    if q :| q in files.Keys && q in more {
      assert q in tree && tree[q].File?;
    } else {
      MoreDirs(files, dirs, more);
    }
  }

  lemma PlaceFile(files: map<Rel, Bytes>, dirs: set<Rel>, rel: Rel, content: Bytes)
    requires Fits(files, dirs) && rel != []
    ensures CanWriteFile(TreeOf(files, dirs), rel) <==> Fits(files[rel := content], dirs)
    ensures Fits(files[rel := content], dirs) ==>
              TreeOf(files, dirs)[rel := File(content)] == TreeOf(files[rel := content], dirs)
  {
  }

  /** On a disk every entry lies in a directory. */
  predicate WellFormed(tree: Tree) {
    [] in tree && forall p :: p in tree && p != [] ==> Parent(p) in tree && tree[Parent(p)].Dir?
  }

  lemma DirsKeepWellFormed(tree: Tree, rel: Rel)
    requires WellFormed(tree) && tree[[]].Dir? && CanCreateDir(tree, rel)
    ensures var grown := CreateDirAll(tree, rel);
            && WellFormed(grown) && grown[[]].Dir?
            && (rel in grown && grown[rel].Dir?)
  {
    hide Prefixes;
    var grown := CreateDirAll(tree, rel);
    forall p | p in Prefixes(rel) && Parent(p) != []
      ensures Parent(p) in Prefixes(rel)
    {
      assert Parent(p) == rel[..|p| - 1] && IsPrefix(Parent(p), rel);
    }
    if rel != [] { assert IsPrefix(rel, rel); }
  }

  /** One file below the destination: its parents first, then the file. */
  method Place(tree: Tree, rel: Rel, content: Bytes, fault: bool, ghost files: map<Rel, Bytes>, ghost dirs: set<Rel>)
    returns (r: Option<Tree>, ghost partial: Tree)
    requires rel != [] && WellFormed(tree) && tree[[]].Dir?
    requires Fits(files, dirs) && tree == TreeOf(files, dirs)
    ensures WellFormed(partial)
    ensures r.Some? ==> WellFormed(r.value) && r.value[[]].Dir?
    ensures r.Some? <==> !fault && Fits(files[rel := content], dirs + Prefixes(Parent(rel)))
    ensures r.Some? ==> r.value == TreeOf(files[rel := content], dirs + Prefixes(Parent(rel)))
  {
    partial := tree;
    PlaceDirs(files, dirs, Parent(rel));
    if !CanCreateDir(tree, Parent(rel)) {
      NoRoom(files, dirs + Prefixes(Parent(rel)), rel, content);
      return None, partial;
    }
    DirsKeepWellFormed(tree, Parent(rel));
    var withParents := CreateDirAll(tree, Parent(rel));
    partial := withParents;
    PlaceFile(files, dirs + Prefixes(Parent(rel)), rel, content);
    if fault || !CanWriteFile(withParents, rel) {
      return None, partial;
    }
    return Some(withParents[rel := File(content)]), partial;
  }

  lemma NoRoom(files: map<Rel, Bytes>, dirs: set<Rel>, rel: Rel, content: Bytes)
    requires !Fits(files, dirs)
    ensures !Fits(files[rel := content], dirs)
  {
    assert files.Keys <= files[rel := content].Keys;
  }

  ghost predicate Faultless(faults: nat -> bool) {
    forall n :: !faults(n)
  }

  /** The tree and links an unpacking has produced so far. */
  datatype Unpacked = Unpacked(tree: Tree, links: Links)

  predicate Matches(state: Unpacked, listing: Listing) {
    && state.links == listing.links
    && Fits(listing.files, listing.dirs) && state.tree == TreeOf(listing.files, listing.dirs)
  }

  /** Unpacks one entry; duplicates overwrite and only links are set aside for later. */
  method UnpackEntry(archive: Archive, state: Unpacked, entry: Entry, fault: bool, ghost listing: Listing)
    returns (r: Result<Unpacked, ArchiveError>, ghost partial: Tree)
    requires [] !in state.links && WellFormed(state.tree) && state.tree[[]].Dir?
    requires Matches(state, listing)
    ensures WellFormed(partial)
    ensures r.Ok? ==> [] !in r.value.links && WellFormed(r.value.tree) && r.value.tree[[]].Dir?
    ensures r.Ok? ==> AddEntry(archive, listing, entry).Ok?
                      && Matches(r.value, AddEntry(archive, listing, entry).value)
    ensures r.Err? && AddEntry(archive, listing, entry).Ok? ==>
              var next := AddEntry(archive, listing, entry).value;
              fault || ([] !in next.files && !Fits(next.files, next.dirs))
  {
    hide StripPrefix;
    hide Prefixes;
    hide TreeOf;
    partial := state.tree;
    if entry.path.None? { return Err(ReaderRejected), partial; }
    var stripped := StripPrefix(entry.path.value, archive.prefix);
    if stripped.Err? { return Err(stripped.error), partial; }
    if stripped.value.None? { return Ok(state), partial; }
    var rel := stripped.value.value;
    StripPrefixExact(entry.path.value, archive.prefix, rel);
    match entry.kind {
      case DirectoryEntry =>
        PlaceDirs(listing.files, listing.dirs, rel);
        if fault || !CanCreateDir(state.tree, rel) { return Err(WriteFailed), partial; }
        DirsKeepWellFormed(state.tree, rel);
        return Ok(state.(tree := CreateDirAll(state.tree, rel))), partial;
      case FileEntry(content) =>
        var placed;
        placed, partial := Place(state.tree, rel, content, fault, listing.files, listing.dirs);
        if placed.None? { return Err(WriteFailed), partial; }
        return Ok(state.(tree := placed.value)), partial;
      case LinkEntry(target) =>
        if archive.format.Zip? { return Err(UnsupportedEntry), partial; }
        if target.None? || IsAbsolute(target.value) { return Err(LinkRejected), partial; }
        return Ok(state.(links := state.links[rel := target.value])), partial;
      case OtherEntry => return Err(UnsupportedEntry), partial;
    }
  }

  ghost predicate AllWellFormed(trees: seq<Tree>) {
    forall i :: 0 <= i < |trees| ==> WellFormed(trees[i])
  }

  lemma OneMoreTree(trees: seq<Tree>, tree: Tree)
    requires AllWellFormed(trees) && WellFormed(tree)
    ensures AllWellFormed(trees + [tree])
  {
    hide WellFormed;
  }

  /**
   Unpacks into an empty directory; `faults` says which writes fail and `partials` records
   the trees a crash could leave behind.
   */
  method Extract(archive: Archive, faults: nat -> bool)
    returns (r: Result<Tree, ArchiveError>, ghost partials: seq<Tree>)
    ensures r.Ok? ==> Unpackable(archive) && ConflictFree(archive)
                      && r.value == TreeOf(Expected(archive), Directories(archive))
    ensures Faultless(faults) && Unpackable(archive) && ConflictFree(archive) ==> r.Ok?
    ensures r.Ok? ==> WellFormed(r.value) && r.value[[]].Dir?
    ensures AllWellFormed(partials)
  {
    var state := Unpacked(map[[] := Dir], map[]);
    ghost var listing := EMPTY_LISTING;
    partials := [state.tree];
    assert state.tree == TreeOf(map[], {});
    hide Expected;
    hide Directories;
    for k := 0 to |archive.entries|
      invariant [] !in state.links && WellFormed(state.tree) && state.tree[[]].Dir?
      invariant AllWellFormed(partials)
      invariant Matches(state, listing) && Scan(archive, listing, archive.entries[k..]) == Listed(archive)
    {
      hide AddEntry;
      hide TreeOf;
      hide WellFormed;
      hide Matches;
      hide Unpackable;
      hide ConflictFree;
      assert archive.entries[k..][1..] == archive.entries[k + 1..];
      ghost var next := AddEntry(archive, listing, archive.entries[k]);
      var unpacked;
      ghost var partial;
      unpacked, partial := UnpackEntry(archive, state, archive.entries[k], faults(k), listing);
      hide AllWellFormed;
      OneMoreTree(partials, partial);
      partials := partials + [partial];
      if unpacked.Err? {
        if Unpackable(archive) && !faults(k) { EntryConflicts(archive, listing, k); }
        return Err(unpacked.error), partials;
      }
      state := unpacked.value;
      OneMoreTree(partials, state.tree);
      partials := partials + [state.tree];
      listing := next.value;
    }
    assert Listed(archive) == Ok(listing);
    if Faultless(faults) { assert Faultless((n: nat) => faults(|archive.entries| + n)); }
    r, partials := CopyLinks(archive, state.tree, state.links, partials, (n: nat) => faults(|archive.entries| + n));
  }

  lemma EntryConflicts(archive: Archive, listing: Listing, k: nat)
    requires k < |archive.entries| && Scan(archive, listing, archive.entries[k..]) == Listed(archive)
    requires Unpackable(archive)
    requires AddEntry(archive, listing, archive.entries[k]).Ok? ==>
               var next := AddEntry(archive, listing, archive.entries[k]).value;
               [] !in next.files && !Fits(next.files, next.dirs)
    ensures !ConflictFree(archive)
  {
    assert archive.entries[k..][1..] == archive.entries[k + 1..];
    var next := AddEntry(archive, listing, archive.entries[k]);
    hide AddEntry;
    ScanGrows(archive, next.value, archive.entries[k + 1..]);
    ListedBelowExpected(archive);
    EarlyConflict(archive, next.value.files, next.value.dirs);
  }

  lemma ListedBelowExpected(archive: Archive)
    requires Unpackable(archive)
    ensures Listed(archive).value.files.Keys <= Expected(archive).Keys
    ensures Listed(archive).value.dirs <= Directories(archive)
  {
  }

  /** The tree after the links in `done` have been copied. */
  ghost predicate Copied(listing: Listing, done: set<Rel>, tree: Tree)
    requires AllUsable(listing, done)
  {
    var files, dirs := listing.files + Copies(listing, done), listing.dirs + LinkDirs(done);
    Fits(files, dirs) && tree == TreeOf(files, dirs)
  }

  lemma CopiedOneMore(listing: Listing, done: set<Rel>, link: Rel)
    requires LinkUsable(listing, link) && AllUsable(listing, done)
    ensures listing.files + Copies(listing, done + {link})
            == (listing.files + Copies(listing, done))[link := CopyOf(listing, link)]
    ensures listing.dirs + LinkDirs(done + {link}) == listing.dirs + LinkDirs(done) + Prefixes(Parent(link))
  {
    LinkDirsOneMore(done, link);
    UnionAssociates(listing.dirs, LinkDirs(done), Prefixes(Parent(link)));
    hide LinkDirs;
    hide Prefixes;
    hide Resolve;
    hide CopyOf;
    assert Copies(listing, done + {link}) == Copies(listing, done)[link := CopyOf(listing, link)];
    hide Copies;
    MergeUpdates(listing.files, Copies(listing, done), link, CopyOf(listing, link));
  }

  lemma LinkDirsOneMore(done: set<Rel>, link: Rel)
    ensures LinkDirs(done + {link}) == LinkDirs(done) + Prefixes(Parent(link))
  {
    hide Prefixes;
  }

  lemma UnionAssociates<T>(a: set<T>, b: set<T>, c: set<T>)
    ensures a + (b + c) == a + b + c
  {
  }

  lemma MergeUpdates<K, V>(a: map<K, V>, b: map<K, V>, key: K, value: V)
    ensures a + b[key := value] == (a + b)[key := value]
  {
  }

  /** A link's source is no link, so copying links never makes, changes or removes it. */
  lemma SourceStays(listing: Listing, done: set<Rel>, link: Rel, tree: Tree)
    requires Resolve(listing.links, link).Ok? && done <= listing.links.Keys
    requires AllUsable(listing, done) && Copied(listing, done, tree)
    ensures var source := Resolve(listing.links, link).value;
            && (LinkUsable(listing, link) <==> source in tree && tree[source].File?)
            && (LinkUsable(listing, link) ==> tree[source].content == CopyOf(listing, link))
  {
    SourceIsNoLink(listing.links, link);
    hide Resolve;
  }

  /** Files and directories only accumulate, so an early conflict is a conflict of the whole archive. */
  lemma {:induction false} ScanGrows(archive: Archive, listing: Listing, entries: seq<Entry>)
    ensures Scan(archive, listing, entries).Ok? ==>
              var end := Scan(archive, listing, entries).value;
              listing.files.Keys <= end.files.Keys && listing.dirs <= end.dirs
    decreases |entries|
  {
    if entries != [] {
      var next := AddEntry(archive, listing, entries[0]);
      if next.Ok? { ScanGrows(archive, next.value, entries[1..]); }
    }
  }

  lemma EarlyConflict(archive: Archive, files: map<Rel, Bytes>, dirs: set<Rel>)
    requires Unpackable(archive)
    requires files.Keys <= Expected(archive).Keys && dirs <= Directories(archive)
    requires [] !in files && !Fits(files, dirs)
    ensures !ConflictFree(archive)
  {
  }

  /** Materialises the links as copies, in any order. */
  method CopyLinks(archive: Archive, unpacked: Tree, links: Links, ghost before: seq<Tree>, faults: nat -> bool)
    returns (r: Result<Tree, ArchiveError>, ghost partials: seq<Tree>)
    requires [] !in links && WellFormed(unpacked) && [] in unpacked && unpacked[[]].Dir?
    requires AllWellFormed(before)
    requires Listed(archive).Ok? && Matches(Unpacked(unpacked, links), Listed(archive).value)
    ensures r.Ok? ==> Unpackable(archive) && ConflictFree(archive)
                      && r.value == TreeOf(Expected(archive), Directories(archive))
    ensures Faultless(faults) && Unpackable(archive) && ConflictFree(archive) ==> r.Ok?
    ensures r.Ok? ==> WellFormed(r.value) && r.value[[]].Dir?
    ensures AllWellFormed(partials)
  {
    hide WellFormed;
    hide TreeOf;
    hide Prefixes;
    hide Resolve;
    hide LinkUsable;
    var tree, remaining := unpacked, links.Keys;
    ghost var done: set<Rel>, listing := {}, Listed(archive).value;
    partials := before;
    NoCopies(listing);
    while remaining != {}
      invariant remaining <= links.Keys && done == links.Keys - remaining
      invariant AllUsable(listing, done) && Copied(listing, done, tree)
      invariant WellFormed(tree) && [] in tree && tree[[]].Dir?
      invariant AllWellFormed(partials)
      decreases remaining
    {
      var link :| link in remaining;
      var source := ResolveLinkSource(link, links);
      UsableOneMore(listing, done, link, links.Keys);
      if source.Err? { return Err(source.error), partials; }
      SourceStays(listing, done, link, tree);
      if source.value !in tree || !tree[source.value].File? { return Err(LinkNotAFile), partials; }
      ghost var partial;
      r, partial := CopyLink(archive, tree, link, tree[source.value].content, faults(|remaining|), done);
      hide AllWellFormed;
      OneMoreTree(partials, partial);
      partials := partials + [partial];
      if r.Err? { return r, partials; }
      tree := r.value;
      OneMoreTree(partials, tree);
      partials := partials + [tree];
      MoveOne(links.Keys, remaining, link);
      remaining, done := remaining - {link}, done + {link};
    }
    assert done == links.Keys;
    return Ok(tree), partials;
  }

  /** Copies one link's source over the link. */
  method CopyLink(archive: Archive, tree: Tree, link: Rel, content: Bytes, fault: bool, ghost done: set<Rel>)
    returns (r: Result<Tree, ArchiveError>, ghost partial: Tree)
    requires link != [] && WellFormed(tree) && [] in tree && tree[[]].Dir?
    requires Listed(archive).Ok? && link in Listed(archive).value.links && done <= Listed(archive).value.links.Keys
    requires AllUsable(Listed(archive).value, done) && Copied(Listed(archive).value, done, tree)
    requires LinkUsable(Listed(archive).value, link) && content == CopyOf(Listed(archive).value, link)
    ensures r.Ok? ==> AllUsable(Listed(archive).value, done + {link})
                      && Copied(Listed(archive).value, done + {link}, r.value)
    ensures r.Err? ==> fault || !Unpackable(archive) || !ConflictFree(archive)
    ensures WellFormed(partial)
    ensures r.Ok? ==> WellFormed(r.value) && [] in r.value && r.value[[]].Dir?
  {
    hide TreeOf;
    hide Prefixes;
    hide Resolve;
    hide Listed;
    ghost var listing := Listed(archive).value;
    ghost var files, dirs := listing.files + Copies(listing, done), listing.dirs + LinkDirs(done);
    CopiedOneMore(listing, done, link);
    var placed;
    placed, partial := Place(tree, link, content, fault, files, dirs);
    if placed.None? {
      if Unpackable(archive) && !fault {
        CopiesBelowExpected(archive, done + {link});
        EarlyConflict(archive, files[link := content], dirs + Prefixes(Parent(link)));
      }
      return Err(WriteFailed), partial;
    }
    return Ok(placed.value), partial;
  }

  lemma CopiesBelowExpected(archive: Archive, done: set<Rel>)
    requires Unpackable(archive) && done <= Listed(archive).value.links.Keys
    ensures var listing := Listed(archive).value;
            && (listing.files + Copies(listing, done)).Keys <= Expected(archive).Keys
            && listing.dirs + LinkDirs(done) <= Directories(archive)
  {
  }

  // ---- collect_tree_digests and verify_runtime_tree ----

  function Below(tree: Tree, dir: Rel): set<Rel> {
    set p | p in tree && dir < p
  }

  function Children(tree: Tree, dir: Rel): set<Rel> {
    set p | p in tree && dir < p && |p| == |dir| + 1
  }

  /** The regular files under any of these paths. */
  function FilesUnder(tree: Tree, tops: set<Rel>): map<Rel, Bytes> {
    map p | p in tree && tree[p].File? && (exists top :: top in tops && IsPrefix(top, p)) :: tree[p].content
  }

  /** Nothing but directories and regular files from here down. */
  predicate Regular(tree: Tree, top: Rel) {
    forall p :: p in tree && top <= p ==> tree[p].Dir? || tree[p].File?
  }

  lemma {:induction false} UnderSomeChild(tree: Tree, dir: Rel, p: Rel)
    requires WellFormed(tree) && p in tree && dir < p
    ensures dir in tree && tree[dir].Dir?
    ensures p[..|dir| + 1] in Children(tree, dir)
    decreases |p|
  {
    if |p| == |dir| + 1 {
      assert p[..|dir| + 1] == p && Parent(p) == dir;
    } else {
      var q := Parent(p);
      assert dir < q && q[..|dir| + 1] == p[..|dir| + 1];
      UnderSomeChild(tree, dir, q);
    }
  }

  lemma ChildIsSmaller(tree: Tree, dir: Rel, child: Rel)
    requires child in Children(tree, dir)
    ensures Below(tree, child) < Below(tree, dir)
  {
    assert child in Below(tree, dir) && child !in Below(tree, child);
  }

  predicate AllRegular(tree: Tree, tops: set<Rel>) {
    forall top :: top in tops ==> Regular(tree, top)
  }

  lemma ChildRegular(tree: Tree, dir: Rel, child: Rel, done: set<Rel>)
    requires child in Children(tree, dir)
    ensures child in tree && dir < child
    ensures Regular(tree, dir) ==> Regular(tree, child) && (tree[child].Dir? || tree[child].File?)
    ensures AllRegular(tree, done) && Regular(tree, child) ==> AllRegular(tree, done + {child})
  {
    assert child <= child;
  }

  /** Reading all children is reading the directory. */
  lemma DirectoryRead(tree: Tree, dir: Rel)
    requires WellFormed(tree) && dir in tree && tree[dir].Dir? && AllRegular(tree, Children(tree, dir))
    ensures Regular(tree, dir)
    ensures FilesUnder(tree, Children(tree, dir)) == FilesUnder(tree, {dir})
  {
    var done := Children(tree, dir);
    forall p | p in tree && dir <= p
      ensures tree[p].Dir? || tree[p].File?
      ensures tree[p].File? ==> exists top :: top in done && IsPrefix(top, p)
    {
      if p != dir { UnderSomeChild(tree, dir, p); assert p[..|dir| + 1] in done && IsPrefix(p[..|dir| + 1], p); }
    }
  }

  /** Reads a directory recursively, in any order; fails on anything but directories and files. */
  method CollectTreeDigests(tree: Tree, hash: Bytes -> Digest, dir: Rel, before: map<Rel, Digest>)
    returns (r: Result<map<Rel, Digest>, ArchiveError>)
    requires WellFormed(tree) && dir in tree
    requires forall p :: p in before ==> !IsPrefix(dir, p)
    ensures r.Ok? <==> tree[dir].Dir? && Regular(tree, dir)
    ensures r.Ok? ==> r.value == before + Hashed(hash, FilesUnder(tree, {dir}))
    decreases Below(tree, dir)
  {
    if !tree[dir].Dir? { return Err(UnsupportedEntry); }
    var children := Children(tree, dir);
    var files, remaining := before, children;
    ghost var done: set<Rel> := {};
    NothingUnder(tree, hash, before);
    while remaining != {}
      invariant remaining <= children && done == children - remaining
      invariant AllRegular(tree, done)
      invariant files == before + Hashed(hash, FilesUnder(tree, done))
      decreases remaining
    {
      var child :| child in remaining;
      ghost var soFar := files;
      ChildrenAreApart(tree, dir, child, done);
      ChildRegular(tree, dir, child, done);
      hide Regular;
      hide AllRegular;
      hide Children;
      if tree[child].Dir? {
        ChildIsSmaller(tree, dir, child);
        var inner := CollectTreeDigests(tree, hash, child, files);
        if inner.Err? { return Err(UnsupportedEntry); }
        files := inner.value;
      } else if tree[child].File? {
        FileDigest(tree, hash, child, files);
        files := files[child := hash(tree[child].content)];
      } else {
        return Err(UnsupportedEntry);
      }
      hide FilesUnder;
      hide Hashed;
      assert files == soFar + Hashed(hash, FilesUnder(tree, {child}));
      UnderOneMore(tree, hash, done, child);
      MergeAssociates(before, Hashed(hash, FilesUnder(tree, done)), Hashed(hash, FilesUnder(tree, {child})));
      MoveOne(children, remaining, child);
      remaining, done := remaining - {child}, done + {child};
    }
    assert done == children;
    DirectoryRead(tree, dir);
    hide FilesUnder;
    hide Hashed;
    hide Children;
    return Ok(files);
  }

  lemma MergeAssociates<K, V>(a: map<K, V>, b: map<K, V>, c: map<K, V>)
    ensures (a + b) + c == a + (b + c)
  {
  }

  lemma NothingUnder(tree: Tree, hash: Bytes -> Digest, before: map<Rel, Digest>)
    ensures before + Hashed(hash, FilesUnder(tree, {})) == before
  {
    assert FilesUnder(tree, {}) == map[];
  }

  lemma FileDigest(tree: Tree, hash: Bytes -> Digest, file: Rel, before: map<Rel, Digest>)
    requires WellFormed(tree) && file in tree && tree[file].File?
    ensures before[file := hash(tree[file].content)] == before + Hashed(hash, FilesUnder(tree, {file}))
    ensures Regular(tree, file)
  {
    FileIsLeaf(tree, file);
    assert Hashed(hash, FilesUnder(tree, {file})) == map[file := hash(tree[file].content)];
  }

  lemma ChildrenAreApart(tree: Tree, dir: Rel, child: Rel, done: set<Rel>)
    requires child in Children(tree, dir) && done <= Children(tree, dir) && child !in done
    ensures forall p :: p in FilesUnder(tree, done) ==> !IsPrefix(child, p)
  {
    forall p | p in FilesUnder(tree, done)
      ensures !IsPrefix(child, p)
    {
      var top :| top in done && IsPrefix(top, p);
      if child <= p { SameLengthPrefixes(child, top, p); }
    }
  }

  lemma SameLengthPrefixes(a: Rel, b: Rel, p: Rel)
    requires a <= p && b <= p && |a| == |b|
    ensures a == b
  {
    assert a == p[..|a|];
  }

  lemma FileIsLeaf(tree: Tree, file: Rel)
    requires WellFormed(tree) && file in tree && tree[file].File?
    ensures FilesUnder(tree, {file}) == map[file := tree[file].content]
    ensures Regular(tree, file)
  {
    forall p | p in tree && file <= p
      ensures p == file
    {
      if p != file { UnderSomeChild(tree, file, p); }
    }
  }

  lemma UnderOneMore(tree: Tree, hash: Bytes -> Digest, done: set<Rel>, child: Rel)
    ensures Hashed(hash, FilesUnder(tree, done + {child}))
            == Hashed(hash, FilesUnder(tree, done)) + Hashed(hash, FilesUnder(tree, {child}))
  {
    forall p | p in tree
      ensures (exists top :: top in done + {child} && IsPrefix(top, p))
              <==> ((exists top :: top in done && IsPrefix(top, p)) || IsPrefix(child, p))
    {
      if IsPrefix(child, p) { assert child in done + {child} && child in {child}; }
      if top :| top in done && IsPrefix(top, p) { assert top in done + {child}; }
    }
  }

  ghost predicate SameFiles(archive: Archive, tree: Tree, executable: Rel)
  {
    && Readable(archive) && executable in Expected(archive)
    && [] in tree && tree[[]].Dir? && Regular(tree, [])
    && FilesUnder(tree, {[]}) == Expected(archive)
  }

  /** Both readings made and compared; with distinct digests for distinct contents this is equality of the files. */
  method VerifyRuntimeTree(archive: Archive, hash: Bytes -> Digest, tree: Tree, executable: Rel) returns (ok: bool)
    requires WellFormed(tree)
    ensures ok <==>
              && Readable(archive) && executable in Expected(archive)
              && tree[[]].Dir? && Regular(tree, [])
              && Hashed(hash, FilesUnder(tree, {[]})) == Hashed(hash, Expected(archive))
    ensures SameFiles(archive, tree, executable) ==> ok
    ensures ok && (forall a, b :: hash(a) == hash(b) ==> a == b) ==> SameFiles(archive, tree, executable)
  {
    var expected := TreeDigests(archive, hash);
    if expected.Err? || executable !in expected.value { return false; }
    var actual := CollectTreeDigests(tree, hash, [], map[]);
    if actual.Err? { return false; }
    assert map[] + Hashed(hash, FilesUnder(tree, {[]})) == Hashed(hash, FilesUnder(tree, {[]}));
    ok := expected.value == actual.value;
    if ok && (forall a, b :: hash(a) == hash(b) ==> a == b) {
      SameDigestsSameFiles(hash, FilesUnder(tree, {[]}), Expected(archive));
    }
  }

  lemma SameDigestsSameFiles(hash: Bytes -> Digest, a: map<Rel, Bytes>, b: map<Rel, Bytes>)
    requires forall x, y :: hash(x) == hash(y) ==> x == y
    requires Hashed(hash, a) == Hashed(hash, b)
    ensures a == b
  {
    assert a.Keys == Hashed(hash, a).Keys == Hashed(hash, b).Keys == b.Keys;
    forall k | k in a
      ensures a[k] == b[k]
    {
      assert Hashed(hash, a)[k] == Hashed(hash, b)[k];
    }
  }

  /** The required directories contain all ancestors of everything listed. */
  predicate Housed(files: map<Rel, Bytes>, dirs: set<Rel>) {
    && (forall d :: d in dirs ==> Prefixes(d) <= dirs)
    && (forall f :: f in files ==> f != [] && Prefixes(Parent(f)) <= dirs)
  }

  lemma HousedGrows(files: map<Rel, Bytes>, dirs: set<Rel>, rel: Rel)
    requires Housed(files, dirs)
    ensures Housed(files, dirs + Prefixes(rel))
  {
    hide Prefixes;
    forall d | d in Prefixes(rel)
      ensures Prefixes(d) <= Prefixes(rel)
    {
      forall q | IsPrefix(q, d)
        ensures IsPrefix(q, rel)
      {
        assert q == d[..|q|] == rel[..|d|][..|q|];
      }
    }
  }

  lemma {:induction false} ScanHoused(archive: Archive, listing: Listing, entries: seq<Entry>)
    requires Housed(listing.files, listing.dirs) && [] !in listing.links
    ensures Scan(archive, listing, entries).Ok? ==>
              var end := Scan(archive, listing, entries).value;
              Housed(end.files, end.dirs) && [] !in end.links
    decreases |entries|
  {
    hide Prefixes;
    if entries != [] {
      var next := AddEntry(archive, listing, entries[0]);
      if next.Ok? {
        var stripped := StripPrefix(entries[0].path.value, archive.prefix);
        if stripped.value.Some? {
          var rel := stripped.value.value;
          StripPrefixExact(entries[0].path.value, archive.prefix, rel);
          HousedGrows(listing.files, listing.dirs, rel);
          HousedGrows(listing.files, listing.dirs, Parent(rel));
        }
        ScanHoused(archive, next.value, entries[1..]);
      }
    }
  }

  lemma ExpectedHoused(archive: Archive)
    requires Unpackable(archive)
    ensures Housed(Expected(archive), Directories(archive))
  {
    hide Prefixes;
    hide Resolve;
    var listing := Listed(archive).value;
    ScanHoused(archive, EMPTY_LISTING, archive.entries);
    LinksHoused(listing.dirs, listing.links.Keys);
  }

  lemma LinksHoused(dirs: set<Rel>, links: set<Rel>)
    requires Housed(map[], dirs) && [] !in links
    ensures Housed(map[], dirs + LinkDirs(links))
    ensures forall link :: link in links ==> Prefixes(Parent(link)) <= LinkDirs(links)
  {
    hide Prefixes;
    forall d | d in LinkDirs(links)
      ensures Prefixes(d) <= LinkDirs(links)
    {
      var link :| link in links && d in Prefixes(Parent(link));
      HousedGrows(map[], {}, Parent(link));
      assert {} + Prefixes(Parent(link)) == Prefixes(Parent(link));
    }
  }

  lemma FilesOfTree(files: map<Rel, Bytes>, dirs: set<Rel>)
    requires Fits(files, dirs)
    ensures FilesUnder(TreeOf(files, dirs), {[]}) == files
  {
    var tree := TreeOf(files, dirs);
    var found := FilesUnder(tree, {[]});
    forall p | p in tree
      ensures p in found <==> tree[p].File?
    {
      var root: Rel := [];
      assert root in {[]} && IsPrefix(root, p);
    }
    assert forall p :: p in files <==> p in tree && tree[p].File?;
    assert found.Keys == files.Keys;
    assert forall p :: p in files ==> found[p] == files[p];
  }

  lemma HousedTreeWellFormed(files: map<Rel, Bytes>, dirs: set<Rel>)
    requires Housed(files, dirs) && Fits(files, dirs)
    ensures WellFormed(TreeOf(files, dirs)) && Regular(TreeOf(files, dirs), [])
  {
    hide Prefixes;
    var tree := TreeOf(files, dirs);
    forall p | p in tree && p != []
      ensures Parent(p) in dirs + {[]}
    {
      if Parent(p) != [] {
        assert IsPrefix(Parent(p), p) && IsPrefix(Parent(p), Parent(p));
        if p in files { assert Parent(p) in Prefixes(Parent(p)); } else { assert Parent(p) in Prefixes(p); }
      }
    }
    assert forall p: Rel :: p in tree ==> [] <= p;
  }

  /** What a successful extraction leaves on disk passes the comparison with its own archive. */
  lemma ExtractedTreeVerifies(archive: Archive, executable: Rel)
    requires Readable(archive) && ConflictFree(archive) && executable in Expected(archive)
    ensures var tree := TreeOf(Expected(archive), Directories(archive));
            WellFormed(tree) && SameFiles(archive, tree, executable)
  {
    hide Expected;
    hide Directories;
    ExpectedHoused(archive);
    HousedTreeWellFormed(Expected(archive), Directories(archive));
    FilesOfTree(Expected(archive), Directories(archive));
  }
}
