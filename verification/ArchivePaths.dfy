/** The path calculus of the installer, and the resolution of symbolic links inside an archive. */
module ArchivePaths {
  import opened Domain

  datatype Component = Prefix | RootDir | CurDir | ParentDir | Normal(name: string)

  type Path = seq<Component>

  /** A path of normal components only, by their names. */
  type Rel = seq<string>

  datatype ArchiveError =
    | UnsafePath
    | PrefixMismatch
    | LinkEscapes
    | LinkCycle
    | LinkNotAFile
    | LinkRejected
    | DuplicateEntry
    | UnsupportedEntry
    | ReaderRejected
    | WriteFailed

  function ToPath(rel: Rel): Path {
    seq(|rel|, i requires 0 <= i < |rel| => Normal(rel[i]))
  }

  predicate IsAbsolute(path: Path) {
    path != [] && path[0].RootDir?
  }

  // ---- safe_relative ----

  predicate OnlyNormal(path: Path) {
    forall i :: 0 <= i < |path| ==> path[i].Normal?
  }

  function SafeRelative(path: Path): Option<Rel> {
    if path != [] && OnlyNormal(path) then Some(seq(|path|, i requires 0 <= i < |path| => path[i].name)) else None
  }

  method CheckSafeRelative(path: Path) returns (r: Option<Rel>)
    ensures r == SafeRelative(path)
  {
    if path == [] || IsAbsolute(path) {
      return None;
    }
    var safe: Rel := [];
    for k := 0 to |path|
      invariant OnlyNormal(path[..k])
      invariant path[..k] == ToPath(safe)
    {
      match path[k] {
        case Normal(name) => safe := safe + [name];
        case _ => return None;
      }
    }
    assert path == path[..|path|] == ToPath(safe);
    SafeRelativeOfRel(safe);
    r := if safe != [] then Some(safe) else None;
  }

  lemma SafeRelativeOfRel(rel: Rel)
    ensures SafeRelative(ToPath(rel)) == if rel == [] then None else Some(rel)
  {
    if rel != [] {
      assert SafeRelative(ToPath(rel)).value == rel;
    }
  }

  lemma SafeRelativeExact(path: Path, rel: Rel)
    ensures SafeRelative(path) == Some(rel) <==> rel != [] && path == ToPath(rel)
  {
    SafeRelativeOfRel(rel);
    if SafeRelative(path) == Some(rel) {
      assert path == ToPath(rel);
    }
  }

  // ---- strip_archive_prefix ----

  function StripPrefix(path: Path, prefix: Rel): Result<Option<Rel>, ArchiveError> {
    match SafeRelative(path)
    case None => Err(UnsafePath)
    case Some(safe) =>
      if prefix == [] then Ok(Some(safe))
      else if !(prefix <= safe) then Err(PrefixMismatch)
      else if safe == prefix then Ok(None)
      else Ok(Some(safe[|prefix|..]))
  }

  /** An entry is placed at `rel` exactly when its path is the prefix followed by `rel`. */
  lemma StripPrefixExact(path: Path, prefix: Rel, rel: Rel)
    ensures StripPrefix(path, prefix) == Ok(Some(rel)) <==> rel != [] && path == ToPath(prefix + rel)
    ensures StripPrefix(path, prefix) == Ok(None) <==> prefix != [] && path == ToPath(prefix)
  {
    SafeRelativeExact(path, prefix + rel);
    SafeRelativeExact(path, prefix);
    if SafeRelative(path).Some? {
      var safe := SafeRelative(path).value;
      SafeRelativeExact(path, safe);
      if prefix <= safe { assert safe == prefix + safe[|prefix|..]; }
      if rel != [] && path == ToPath(prefix + rel) { assert safe[|prefix|..] == rel; }
    }
  }

  // ---- normalize_join ----

  function Normals(path: Path): Rel {
    if path == [] then []
    else (if path[0].Normal? then [path[0].name] else []) + Normals(path[1..])
  }

  /** Follows the target's components from `parts`, failing below the root and on a second root. */
  function Walk(parts: Rel, target: Path): Option<Rel>
    decreases |target|
  {
    if target == [] then Some(parts)
    else match target[0]
      case Normal(name) => Walk(parts + [name], target[1..])
      case ParentDir => if parts == [] then None else Walk(parts[..|parts| - 1], target[1..])
      case CurDir => Walk(parts, target[1..])
      case _ => None
  }

  function NormalizeJoin(base: Path, target: Path): Option<Rel> {
    if IsAbsolute(target) then None
    else match Walk(Normals(base), target)
      case None => None
      case Some(parts) => if parts == [] then None else Some(parts)
  }

  method JoinNormalized(base: Path, target: Path) returns (r: Option<Rel>)
    ensures r == NormalizeJoin(base, target)
  {
    if IsAbsolute(target) {
      return None;
    }
    var parts: Rel := [];
    for k := 0 to |base|
      invariant parts + Normals(base[k..]) == Normals(base)
    {
      assert base[k..][1..] == base[k + 1..];
      if base[k].Normal? { parts := parts + [base[k].name]; }
    }
    assert base[|base|..] == [] && parts + [] == parts && target[0..] == target;
    for k := 0 to |target|
      invariant Walk(parts, target[k..]) == Walk(Normals(base), target)
    {
      assert target[k..][1..] == target[k + 1..];
      match target[k] {
        case Normal(name) => parts := parts + [name];
        case ParentDir =>
          if parts == [] { return None; }
          parts := parts[..|parts| - 1];
        case CurDir =>
        case _ => return None;
      }
    }
    r := if parts != [] then Some(parts) else None;
  }

  lemma {:induction false} NormalsOfRel(rel: Rel)
    ensures Normals(ToPath(rel)) == rel
  {
    if rel != [] {
      NormalsOfRel(rel[1..]);
      assert ToPath(rel)[1..] == ToPath(rel[1..]);
    }
  }

  predicate Rooted(path: Path) {
    exists i :: 0 <= i < |path| && (path[i].Prefix? || path[i].RootDir?)
  }

  function Level(component: Component): int {
    if component.Normal? then 1 else if component.ParentDir? then -1 else 0
  }

  /** How deep below the root the target ends when it starts at depth `from`. */
  function Depth(from: int, target: Path): int
    decreases |target|
  {
    if target == [] then from else Depth(from + Level(target[0]), target[1..])
  }

  lemma {:induction false} WalkExact(parts: Rel, target: Path)
    ensures Walk(parts, target).None?
            <==> Rooted(target) || exists k :: 0 <= k <= |target| && Depth(|parts|, target[..k]) < 0
    ensures Walk(parts, target).Some? ==> |Walk(parts, target).value| == Depth(|parts|, target)
    decreases |target|
  {
    if target == [] {
      assert target[..0] == target;
    } else {
      var head, rest := target[0], target[1..];
      var next := match head
        case Normal(name) => parts + [name]
        case ParentDir => if parts == [] then parts else parts[..|parts| - 1]
        case _ => parts;
      WalkExact(next, rest);
      assert target == [head] + rest;
      assert Rooted(target) <==> (head.Prefix? || head.RootDir? || Rooted(rest)) by {
        if Rooted(rest) {
          var i :| 0 <= i < |rest| && (rest[i].Prefix? || rest[i].RootDir?);
          assert target[i + 1] == rest[i];
        }
      }
      assert target[..0] == [] && Depth(|parts|, target[..0]) == |parts|;
      forall k | 0 < k <= |target|
        ensures Depth(|parts|, target[..k]) == Depth(|parts| + Level(head), rest[..k - 1])
      {
        assert target[..k][1..] == rest[..k - 1];
      }
      if head.ParentDir? && parts == [] {
        assert rest[..0] == [];
        assert Depth(|parts|, target[..1]) == -1;
      } else {
        assert |next| == |parts| + Level(head);
        if k :| 0 <= k <= |rest| && Depth(|next|, rest[..k]) < 0 {
          assert Depth(|parts|, target[..k + 1]) < 0;
        }
        if k :| 0 <= k <= |target| && Depth(|parts|, target[..k]) < 0 {
          assert k > 0;
          assert Depth(|next|, rest[..k - 1]) < 0;
        }
      }
    }
  }

  /** A join fails exactly when its target is rooted, dips below the root, or comes out empty. */
  lemma JoinFailsExactly(base: Path, target: Path)
    ensures NormalizeJoin(base, target).None?
            <==> || Rooted(target)
                 || (exists k :: 0 <= k <= |target| && Depth(|Normals(base)|, target[..k]) < 0)
                 || Depth(|Normals(base)|, target) == 0
  {
    WalkExact(Normals(base), target);
    if IsAbsolute(target) { assert target[0].RootDir?; }
    assert target[..|target|] == target;
  }

  /** What a join yields stays inside: a non-empty path of normal components, which is safe as it stands. */
  lemma JoinIsContained(base: Path, target: Path)
    requires NormalizeJoin(base, target).Some?
    ensures SafeRelative(ToPath(NormalizeJoin(base, target).value)) == NormalizeJoin(base, target)
    ensures NormalizeJoin([], ToPath(NormalizeJoin(base, target).value)) == NormalizeJoin(base, target)
  {
    var rel := NormalizeJoin(base, target).value;
    SafeRelativeOfRel(rel);
    WalkOfRel([], rel);
    assert [] + rel == rel;
  }

  lemma {:induction false} WalkOfRel(parts: Rel, rel: Rel)
    ensures Walk(parts, ToPath(rel)) == Some(parts + rel)
    decreases |rel|
  {
    if rel == [] {
      assert parts + rel == parts;
    } else {
      WalkOfRel(parts + [rel[0]], rel[1..]);
      assert ToPath(rel)[1..] == ToPath(rel[1..]);
      assert parts + [rel[0]] + rel[1..] == parts + rel;
    }
  }

  lemma {:induction false} WalkConcat(parts: Rel, a: Path, b: Path)
    ensures Walk(parts, a + b) == match Walk(parts, a) case None => None case Some(mid) => Walk(mid, b)
    decreases |a|
  {
    if a == [] {
      assert a + b == b;
    } else {
      CutConcat(a, b, 1);
      match a[0] {
        case Normal(name) => WalkConcat(parts + [name], a[1..], b);
        case ParentDir => if parts != [] { WalkConcat(parts[..|parts| - 1], a[1..], b); }
        case CurDir => WalkConcat(parts, a[1..], b);
        case _ =>
      }
    }
  }

  /** After a successful join, joining again is one join with the concatenated target. */
  lemma JoinComposes(base: Path, a: Path, b: Path)
    requires NormalizeJoin(base, a).Some?
    ensures NormalizeJoin(base, a + b) == NormalizeJoin(ToPath(NormalizeJoin(base, a).value), b)
  {
    var mid := NormalizeJoin(base, a).value;
    WalkConcat(Normals(base), a, b);
    NormalsOfRel(mid);
    if a == [] {
      assert a + b == b;
    }
  }

  /** `k` components up. */
  function Ups(k: nat): Path {
    seq(k, i requires 0 <= i < k => ParentDir)
  }

  lemma {:induction false} WalkUp(parts: Rel, k: nat)
    ensures Walk(parts, Ups(k)) == if k <= |parts| then Some(parts[..|parts| - k]) else None
    decreases k
  {
    if k > 0 {
      assert Ups(k)[0] == ParentDir && Ups(k)[1..] == Ups(k - 1);
      if parts != [] {
        WalkUp(parts[..|parts| - 1], k - 1);
        assert k <= |parts| ==> parts[..|parts| - 1][..|parts| - 1 - (k - 1)] == parts[..|parts| - k];
      }
    } else {
      assert parts[..|parts| - k] == parts;
    }
  }

  /** Going up `k` and then down `rest` drops the base's last `k` names and appends those of `rest`. */
  lemma JoinUpAndDown(base: Rel, k: nat, rest: Rel)
    ensures NormalizeJoin(ToPath(base), Ups(k) + ToPath(rest))
            == if k <= |base| && base[..|base| - k] + rest != [] then Some(base[..|base| - k] + rest) else None
  {
    NormalsOfRel(base);
    WalkUp(base, k);
    WalkConcat(base, Ups(k), ToPath(rest));
    if k <= |base| {
      WalkOfRel(base[..|base| - k], rest);
    }
  }

  /** `.` changes nothing wherever it stands, and neither does a name followed by `..`. */
  lemma JoinCancels(base: Path, a: Path, name: string, b: Path)
    ensures NormalizeJoin(base, a + [CurDir] + b) == NormalizeJoin(base, a + b)
    ensures NormalizeJoin(base, a + [Normal(name), ParentDir] + b) == NormalizeJoin(base, a + b)
  {
    var parts := Normals(base);
    WalkConcat(parts, a, b);
    WalkConcat(parts, a, [CurDir] + b);
    WalkConcat(parts, a, [Normal(name), ParentDir] + b);
    assert a + [CurDir] + b == a + ([CurDir] + b);
    assert a + [Normal(name), ParentDir] + b == a + ([Normal(name), ParentDir] + b);
    assert ([CurDir] + b)[1..] == b;
    assert ([Normal(name), ParentDir] + b)[1..] == [ParentDir] + b && ([ParentDir] + b)[1..] == b;
    if Walk(parts, a).Some? {
      var mid := Walk(parts, a).value;
      assert (mid + [name])[..|mid + [name]| - 1] == mid;
    }
    if a == [] {
      assert a + b == b;
    }
  }

  // ---- resolve_link_source ----

  type Links = map<Rel, Path>

  function Parent(rel: Rel): Rel {
    if rel == [] then [] else rel[..|rel| - 1]
  }

  function Hop(links: Links, from: Rel): Option<Rel>
    requires from in links
  {
    NormalizeJoin(ToPath(Parent(from)), links[from])
  }

  /** The loop's rounds: one lookup and one join each, and a cycle is reported when they run out. */
  function ResolveRounds(links: Links, current: Rel, rounds: nat): Result<Rel, ArchiveError>
    decreases rounds
  {
    if rounds == 0 then Err(LinkCycle)
    else if current !in links then Ok(current)
    else match Hop(links, current)
      case None => Err(LinkEscapes)
      case Some(next) => ResolveRounds(links, next, rounds - 1)
  }

  function Resolve(links: Links, link: Rel): Result<Rel, ArchiveError> {
    ResolveRounds(links, link, |links| + 1)
  }

  method ResolveLinkSource(link: Rel, links: Links) returns (r: Result<Rel, ArchiveError>)
    ensures r == Resolve(links, link)
  {
    var current := link;
    for round := 0 to |links| + 1
      invariant ResolveRounds(links, current, |links| + 1 - round) == Resolve(links, link)
    {
      if current !in links {
        return Ok(current);
      }
      var joined := JoinNormalized(ToPath(Parent(current)), links[current]);
      if joined.None? {
        return Err(LinkEscapes);
      }
      current := joined.value;
    }
    return Err(LinkCycle);
  }

  /** The n-th path of the link chain; None once the chain has left the links or escaped. */
  function ChainAt(links: Links, link: Rel, n: nat): Option<Rel>
    decreases n
  {
    if n == 0 then Some(link)
    else match ChainAt(links, link, n - 1)
      case None => None
      case Some(at) => if at in links then Hop(links, at) else None
  }

  ghost predicate OnLink(links: Links, link: Rel, n: nat) {
    ChainAt(links, link, n).Some? && ChainAt(links, link, n).value in links
  }

  ghost predicate NeverLeaves(links: Links, link: Rel) {
    forall n: nat :: OnLink(links, link, n)
  }

  ghost predicate Escapes(links: Links, link: Rel) {
    exists n: nat :: OnLink(links, link, n) && Hop(links, ChainAt(links, link, n).value).None?
  }

  ghost predicate EndsAt(links: Links, link: Rel, end: Rel) {
    exists n: nat :: ChainAt(links, link, n) == Some(end) && end !in links
  }

  lemma {:induction false} Pigeonhole<T>(xs: seq<T>, holes: set<T>) returns (i: nat, j: nat)
    requires |xs| > |holes|
    requires forall k :: 0 <= k < |xs| ==> xs[k] in holes
    ensures i < j < |xs| && xs[i] == xs[j]
    decreases |xs|
  {
    if k :| 1 <= k < |xs| && xs[k] == xs[0] {
      return 0, k;
    }
    i, j := Pigeonhole(xs[1..], holes - {xs[0]});
    i, j := i + 1, j + 1;
  }

  lemma {:induction false} ChainEndsOnce(links: Links, link: Rel, m: nat, n: nat)
    requires ChainAt(links, link, m).None? || !OnLink(links, link, m)
    requires n > m
    ensures ChainAt(links, link, n).None?
    decreases n
  {
    if n > m + 1 { ChainEndsOnce(links, link, m, n - 1); }
  }

  lemma {:induction false} ChainRepeats(links: Links, link: Rel, i: nat, j: nat, n: nat)
    requires i < j && ChainAt(links, link, i) == ChainAt(links, link, j)
    requires forall k: nat :: k < j ==> OnLink(links, link, k)
    ensures OnLink(links, link, n)
    decreases n
  {
    if n >= j {
      ChainShifts(links, link, i, j, n - j);
      ChainRepeats(links, link, i, j, i + (n - j));
    }
  }

  lemma {:induction false} ChainShifts(links: Links, link: Rel, i: nat, j: nat, d: nat)
    requires ChainAt(links, link, i) == ChainAt(links, link, j)
    ensures ChainAt(links, link, i + d) == ChainAt(links, link, j + d)
    decreases d
  {
    if d > 0 { ChainShifts(links, link, i, j, d - 1); }
  }

  ghost function Visited(links: Links, link: Rel, n: nat): Rel {
    if ChainAt(links, link, n).Some? then ChainAt(links, link, n).value else []
  }

  /** As many links visited as rounds allow means one was visited twice, and then the chain never leaves. */
  lemma TooManyLinks(links: Links, link: Rel)
    requires forall k: nat :: k <= |links| ==> OnLink(links, link, k)
    ensures NeverLeaves(links, link)
  {
    forall k: nat | k <= |links|
      ensures Visited(links, link, k) in links.Keys && ChainAt(links, link, k) == Some(Visited(links, link, k))
    {
      assert OnLink(links, link, k);
    }
    var visited := seq(|links| + 1, k requires 0 <= k < |links| + 1 => Visited(links, link, k));
    assert |links| == |links.Keys|;
    var i, j := Pigeonhole(visited, links.Keys);
    forall n: nat
      ensures OnLink(links, link, n)
    {
      ChainRepeats(links, link, i, j, n);
    }
  }

  lemma {:induction false} RoundsFollowChain(links: Links, link: Rel, n: nat, rounds: nat)
    requires ChainAt(links, link, n).Some?
    requires forall k: nat :: k < n ==> OnLink(links, link, k)
    ensures var r := ResolveRounds(links, ChainAt(links, link, n).value, rounds);
            && (r.Ok? ==> EndsAt(links, link, r.value))
            && (r == Err(LinkEscapes) ==> Escapes(links, link))
            && (r.Err? && r != Err(LinkEscapes) ==>
                  r == Err(LinkCycle) && forall k: nat :: k < n + rounds ==> OnLink(links, link, k))
    decreases rounds
  {
    var at := ChainAt(links, link, n).value;
    if rounds > 0 && at in links {
      assert OnLink(links, link, n);
      if Hop(links, at).Some? {
        RoundsFollowChain(links, link, n + 1, rounds - 1);
      }
    }
  }

  /**
   With one round more than there are links, the resolver reports a cycle exactly when the
   chain never leaves the links, an escape exactly when a join of the chain fails, and
   otherwise the path at which the chain leaves the links.
   */
  lemma ResolveExact(links: Links, link: Rel)
    ensures Resolve(links, link) == Err(LinkCycle) <==> NeverLeaves(links, link)
    ensures Resolve(links, link) == Err(LinkEscapes) <==> Escapes(links, link)
    ensures forall end :: Resolve(links, link) == Ok(end) <==> EndsAt(links, link, end)
    ensures Resolve(links, link).Err? ==> Resolve(links, link).error in {LinkCycle, LinkEscapes}
  {
    RoundsFollowChain(links, link, 0, |links| + 1);
    var r := Resolve(links, link);
    if r.Ok? {
      var n: nat :| ChainAt(links, link, n) == Some(r.value) && r.value !in links;
      LeavesExclusively(links, link, n);
    } else if r == Err(LinkEscapes) {
      var n: nat :| OnLink(links, link, n) && Hop(links, ChainAt(links, link, n).value).None?;
      EscapesExclusively(links, link, n);
    } else {
      TooManyLinks(links, link);
      forall n: nat
        ensures OnLink(links, link, n) && Hop(links, ChainAt(links, link, n).value).Some?
      {
        assert OnLink(links, link, n + 1);
      }
    }
  }

  lemma LeavesExclusively(links: Links, link: Rel, n: nat)
    requires ChainAt(links, link, n).Some? && !OnLink(links, link, n)
    ensures !NeverLeaves(links, link) && !Escapes(links, link)
    ensures forall end :: EndsAt(links, link, end) ==> end == ChainAt(links, link, n).value
  {
    forall m: nat | m != n && ChainAt(links, link, m).Some?
      ensures m < n && OnLink(links, link, m) && Hop(links, ChainAt(links, link, m).value).Some?
    {
      if m > n {
        ChainEndsOnce(links, link, n, m);
      } else {
        if !OnLink(links, link, m) { ChainEndsOnce(links, link, m, n); }
        if ChainAt(links, link, m + 1).None? && m + 1 < n { ChainEndsOnce(links, link, m + 1, n); }
      }
    }
  }

  lemma EscapesExclusively(links: Links, link: Rel, n: nat)
    requires OnLink(links, link, n) && Hop(links, ChainAt(links, link, n).value).None?
    ensures !NeverLeaves(links, link)
    ensures forall end :: !EndsAt(links, link, end)
  {
    assert ChainAt(links, link, n + 1).None?;
    assert !OnLink(links, link, n + 1);
    forall m: nat | ChainAt(links, link, m).Some?
      ensures OnLink(links, link, m)
    {
      if m > n + 1 { ChainEndsOnce(links, link, n + 1, m); }
      if m < n && !OnLink(links, link, m) { ChainEndsOnce(links, link, m, n); }
    }
  }

  /**
  A link's target is read from the directory that holds the link: up `k` levels and down
  `rest` it leads to `rest` below the directory `k` levels up, and nowhere above the root.
  */
  lemma HopsFromItsDirectory(links: Links, dir: Rel, name: string, k: nat, rest: Rel)
    requires dir + [name] in links && links[dir + [name]] == Ups(k) + ToPath(rest)
    ensures Hop(links, dir + [name])
            == if k <= |dir| && dir[..|dir| - k] + rest != [] then Some(dir[..|dir| - k] + rest) else None
  {
    assert Parent(dir + [name]) == dir;
    JoinUpAndDown(dir, k, rest);
  }

  lemma {:induction false} ChainFromNext(links: Links, link: Rel, n: nat)
    requires link in links && Hop(links, link).Some?
    ensures ChainAt(links, link, n + 1) == ChainAt(links, Hop(links, link).value, n)
    decreases n
  {
    if n > 0 {
      ChainFromNext(links, link, n - 1);
    } else {
      assert ChainAt(links, link, 0) == Some(link);
    }
  }

  /** Following one link does not change the answer, however many rounds were spent on the way. */
  lemma ResolveFollows(links: Links, link: Rel)
    requires link in links && Hop(links, link).Some?
    ensures Resolve(links, link) == Resolve(links, Hop(links, link).value)
  {
    var next := Hop(links, link).value;
    ResolveExact(links, link);
    ResolveExact(links, next);
    if Resolve(links, next).Ok? {
      var end := Resolve(links, next).value;
      assert EndsAt(links, next, end);
      var n: nat :| ChainAt(links, next, n) == Some(end) && end !in links;
      ChainFromNext(links, link, n);
      assert EndsAt(links, link, end);
    } else if Resolve(links, next) == Err(LinkEscapes) {
      assert Escapes(links, next);
      var n: nat :| OnLink(links, next, n) && Hop(links, ChainAt(links, next, n).value).None?;
      ChainFromNext(links, link, n);
      assert OnLink(links, link, n + 1);
      assert Escapes(links, link);
    } else {
      forall n: nat ensures OnLink(links, link, n) {
        if n > 0 {
          ChainFromNext(links, link, n - 1);
          assert OnLink(links, next, n - 1);
        }
      }
      assert NeverLeaves(links, link);
    }
  }

  /** What a link to a path that is no link resolves to: `rest`, counted from `k` levels above the link. */
  lemma LinkResolvesFromItsDirectory(links: Links, dir: Rel, name: string, k: nat, rest: Rel)
    requires dir + [name] in links && links[dir + [name]] == Ups(k) + ToPath(rest)
    requires k <= |dir| ==> dir[..|dir| - k] + rest !in links
    ensures Resolve(links, dir + [name])
            == if k <= |dir| && dir[..|dir| - k] + rest != [] then Ok(dir[..|dir| - k] + rest) else Err(LinkEscapes)
  {
    HopsFromItsDirectory(links, dir, name, k, rest);
    if Hop(links, dir + [name]).Some? {
      ResolveFollows(links, dir + [name]);
    }
  }

  /** One round less is too few: a chain through all the links would be called a cycle. */
  lemma FewerRoundsMisreport(links: Links, link: Rel)
    requires ChainAt(links, link, |links|).Some? && !OnLink(links, link, |links|)
    ensures Resolve(links, link) == Ok(ChainAt(links, link, |links|).value)
    ensures ResolveRounds(links, link, |links|) == Err(LinkCycle)
  {
    var n := |links|;
    var end := ChainAt(links, link, n).value;
    assert EndsAt(links, link, end);
    ResolveExact(links, link);
    RoundsFollowChain(links, link, 0, n);
    if ResolveRounds(links, link, n).Ok? {
      RoundsEndEarly(links, link, 0, n);
    }
  }

  lemma {:induction false} RoundsEndEarly(links: Links, link: Rel, n: nat, rounds: nat)
    requires ChainAt(links, link, n).Some?
    requires ResolveRounds(links, ChainAt(links, link, n).value, rounds).Ok?
    ensures exists k: nat :: n <= k < n + rounds && ChainAt(links, link, k).Some? && !OnLink(links, link, k)
    ensures forall m: nat :: m >= n + rounds ==> ChainAt(links, link, m).None?
    decreases rounds
  {
    var at := ChainAt(links, link, n).value;
    if at in links {
      RoundsEndEarly(links, link, n + 1, rounds - 1);
    } else {
      assert n <= n < n + rounds && ChainAt(links, link, n).Some? && !OnLink(links, link, n);
      forall m: nat | m >= n + rounds
        ensures ChainAt(links, link, m).None?
      {
        ChainEndsOnce(links, link, n, m);
      }
    }
  }
}
