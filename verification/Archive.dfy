/**
 Tree archives: the members that packing a tree emits, and the guarded extraction that
 rebuilds it under a staging directory, private (0700) until every directory is given its
 final mode, innermost first.
 */
module Archive {
  import opened Wrappers

  type Name = string
  type Path = seq<Name>

  const PAYLOAD: Name := "payload"
  /** 0700 */
  const PRIVATE := 448
  /** Modes are kept to the low nine bits, 0777. */
  const MODES := 512

  datatype Tree = File(mode: nat, data: seq<int>) | Link(target: string) | Dir(mode: nat, children: seq<Child>)
  datatype Child = Child(name: Name, tree: Tree)

  datatype Kind = DirMember | LinkMember(target: string) | FileMember(data: seq<int>) | OtherMember
  datatype Member = Member(path: Path, mode: nat, kind: Kind)

  /** What is at one path of a file system. */
  datatype Node = DirNode(mode: nat) | LinkNode(target: string) | FileNode(mode: nat, data: seq<int>)
  type FileSystem = map<Path, Node>

  predicate SafeName(n: Name) {
    n != "" && n != "." && n != ".." && '/' !in n
  }

  /** A directory's entries have safe and different names. */
  predicate WellFormed(t: Tree)
    decreases t, 1
  {
    t.Dir? ==> AllWellFormed(t.children)
  }

  predicate AllWellFormed(cs: seq<Child>)
    decreases cs, 0
  {
    cs != [] ==>
      && SafeName(cs[0].name)
      && WellFormed(cs[0].tree)
      && (forall i :: 1 <= i < |cs| ==> cs[i].name != cs[0].name)
      && AllWellFormed(cs[1..])
  }

  // ---------------------------------------------------------------- packing

  /** `_add`: a directory's member, then its children, depth first. */
  function Add(t: Tree, path: Path): seq<Member>
    decreases t, 1
  {
    match t
    case Link(target) => [Member(path, 0, LinkMember(target))]
    case File(mode, data) => [Member(path, mode % MODES, FileMember(data))]
    case Dir(mode, children) => [Member(path, mode % MODES, DirMember)] + AddAll(children, path)
  }

  function AddAll(cs: seq<Child>, path: Path): seq<Member>
    decreases cs, 0
  {
    if cs == [] then [] else Add(cs[0].tree, path + [cs[0].name]) + AddAll(cs[1..], path)
  }

  function Pack(t: Tree, directory: bool): Result<seq<Member>> {
    if t.Dir? != directory then Err else Ok(Add(t, [PAYLOAD]))
  }

  // ---------------------------------------------------------------- extraction

  datatype Staging = Staging(fs: FileSystem, seen: set<Path>, modes: seq<(Path, nat)>)

  const EMPTY := Staging(map[], {}, [])

  predicate SafeMember(m: Member) {
    m.path != [] && m.path[0] == PAYLOAD && forall i :: 0 <= i < |m.path| ==> SafeName(m.path[i])
  }

  /** `open_parent_beneath(create=True)`: make the missing ancestors, refuse to pass anything
      that is not a directory. `n` components are done. */
  function MakeParents(fs: FileSystem, path: Path, n: nat): Result<FileSystem>
    requires 1 <= n <= |path|
    decreases |path| - n
  {
    if n == |path| then Ok(fs)
    else
      var parent := path[..n];
      if parent !in fs then MakeParents(fs[parent := DirNode(PRIVATE)], path, n + 1)
      else if !fs[parent].DirNode? then Err
      else MakeParents(fs, path, n + 1)
  }

  function NodeOf(m: Member): Node
    requires !m.kind.OtherMember?
  {
    match m.kind
    case DirMember => DirNode(PRIVATE)
    case LinkMember(target) => LinkNode(target)
    case FileMember(data) => FileNode(m.mode % MODES, data)
  }

  /** One iteration of the extraction loop. */
  function Extract(st: Staging, m: Member, directory: bool): Result<Staging> {
    if !SafeMember(m) || m.path in st.seen then Err
    else if |m.path| == 1 && m.kind.DirMember? != directory then Err
    else
      match MakeParents(st.fs, m.path, 1)
      case Err => Err
      case Ok(fs) =>
        if m.path in fs || m.kind.OtherMember? then Err
        else
          Ok(Staging(fs[m.path := NodeOf(m)], st.seen + {m.path},
                     if m.kind.DirMember? then st.modes + [(m.path, m.mode % MODES)] else st.modes))
  }

  function ExtractAll(st: Staging, ms: seq<Member>, directory: bool): Result<Staging>
    decreases |ms|
  {
    if ms == [] then Ok(st)
    else
      match Extract(st, ms[0], directory)
      case Err => Err
      case Ok(next) => ExtractAll(next, ms[1..], directory)
  }

  /** The owner may search a directory. */
  predicate Searchable(mode: nat) {
    mode / 64 % 2 == 1
  }

  /** Every ancestor is a directory the process may still pass through. */
  predicate Passable(fs: FileSystem, path: Path) {
    forall k :: 1 <= k < |path| ==> path[..k] in fs && fs[path[..k]].DirNode? && Searchable(fs[path[..k]].mode)
  }

  /** Setting one directory's final mode. */
  function SetMode(fs: FileSystem, path: Path, mode: nat): Result<FileSystem> {
    if path in fs && fs[path].DirNode? && Passable(fs, path) then Ok(fs[path := DirNode(mode)]) else Err
  }

  /** `for path, mode in reversed(modes)` */
  function SetModes(fs: FileSystem, modes: seq<(Path, nat)>): Result<FileSystem>
    decreases |modes|
  {
    if modes == [] then Ok(fs)
    else
      match SetModes(fs, modes[1..])
      case Err => Err
      case Ok(inner) => SetMode(inner, modes[0].0, modes[0].1)
  }

  function Unpack(ms: seq<Member>, directory: bool): Result<FileSystem> {
    match ExtractAll(EMPTY, ms, directory)
    case Err => Err
    case Ok(st) => if [PAYLOAD] !in st.seen then Err else SetModes(st.fs, st.modes)
  }

  method UnpackArchive(ms: seq<Member>, directory: bool) returns (r: Result<FileSystem>)
    ensures r == Unpack(ms, directory)
  {
    var st := EMPTY;
    var i := 0;
    assert ms[0..] == ms;
    while i < |ms|
      invariant 0 <= i <= |ms|
      invariant ExtractAll(EMPTY, ms, directory) == ExtractAll(st, ms[i..], directory)
    {
      assert ms[i..][0] == ms[i] && ms[i..][1..] == ms[i + 1..];
      var next := Extract(st, ms[i], directory);
      if next.Err? { return Err; }
      st := next.value;
      i := i + 1;
    }
    if [PAYLOAD] !in st.seen { return Err; }
    var fs, k := st.fs, |st.modes|;
    while k > 0
      invariant 0 <= k <= |st.modes|
      invariant SetModes(st.fs, st.modes[k..]) == Ok(fs)
    {
      var (path, mode) := st.modes[k - 1];
      assert st.modes[k - 1..][1..] == st.modes[k..] && st.modes[k - 1..][0] == st.modes[k - 1];
      var next := SetMode(fs, path, mode);
      if next.Err? {
        SetModesFails(st.fs, st.modes, k - 1);
        return Err;
      }
      fs, k := next.value, k - 1;
    }
    assert st.modes[0..] == st.modes;
    r := Ok(fs);
  }

  lemma {:induction false} SetModesFails(fs: FileSystem, modes: seq<(Path, nat)>, k: nat)
    requires k <= |modes| && SetModes(fs, modes[k..]).Err?
    ensures SetModes(fs, modes).Err?
  {
    if k == 0 {
      assert modes[0..] == modes;
    } else {
      assert modes[k - 1..][1..] == modes[k..];
      SetModesFails(fs, modes, k - 1);
    }
  }

  // ---------------------------------------------------------------- modes, for every archive

  predicate ProperPrefix(p: Path, q: Path) {
    |p| < |q| && q[..|p|] == p
  }

  /** Closed under parents, with every directory still private. */
  ghost predicate Closed(fs: FileSystem) {
    && (forall p, k :: p in fs && 1 <= k < |p| ==> p[..k] in fs && fs[p[..k]].DirNode?)
    && (forall p :: p in fs && fs[p].DirNode? ==> fs[p].mode == PRIVATE)
  }

  /** Directories of the file system, each listed once and after its listed ancestors. */
  ghost predicate Listed(fs: FileSystem, modes: seq<(Path, nat)>) {
    && (forall i :: 0 <= i < |modes| ==> modes[i].0 in fs && fs[modes[i].0].DirNode?)
    && (forall i, j :: 0 <= i < j < |modes| ==>
          modes[i].0 != modes[j].0 && !ProperPrefix(modes[j].0, modes[i].0))
  }

  /** The staging area while members are extracted. */
  ghost predicate Staged(st: Staging) {
    Closed(st.fs) && Listed(st.fs, st.modes)
  }

  lemma {:induction false} MakeParentsKeepsClosed(fs: FileSystem, path: Path, n: nat)
    requires 1 <= n <= |path| && Closed(fs) && MakeParents(fs, path, n).Ok?
    requires forall k :: 1 <= k < n ==> path[..k] in fs && fs[path[..k]].DirNode?
    ensures var made := MakeParents(fs, path, n).value;
            && Closed(made)
            && (forall k :: 1 <= k < |path| ==> path[..k] in made && made[path[..k]].DirNode?)
            && (forall p :: p in fs ==> p in made && made[p] == fs[p])
    decreases |path| - n
  {
    if n < |path| {
      var parent := path[..n];
      var next := if parent in fs then fs else fs[parent := DirNode(PRIVATE)];
      assert forall k :: 1 <= k < n ==> parent[..k] == path[..k];
      MakeParentsKeepsClosed(next, path, n + 1);
    }
  }

  lemma ExtractKeepsStaged(st: Staging, m: Member, directory: bool)
    requires Staged(st) && Extract(st, m, directory).Ok?
    ensures Staged(Extract(st, m, directory).value)
  {
    MakeParentsKeepsClosed(st.fs, m.path, 1);
    var made := MakeParents(st.fs, m.path, 1).value;
    var st' := Extract(st, m, directory).value;
    forall i, j | 0 <= i < j < |st'.modes|
      ensures st'.modes[i].0 != st'.modes[j].0 && !ProperPrefix(st'.modes[j].0, st'.modes[i].0)
    {
      var p := st'.modes[i].0;
      assert p in made;
      assert |m.path| < |p| ==> p[..|m.path|] in made;
    }
  }

  lemma {:induction false} ExtractAllKeepsStaged(st: Staging, ms: seq<Member>, directory: bool)
    requires Staged(st) && ExtractAll(st, ms, directory).Ok?
    ensures Staged(ExtractAll(st, ms, directory).value)
    decreases |ms|
  {
    if ms != [] {
      ExtractKeepsStaged(st, ms[0], directory);
      ExtractAllKeepsStaged(Extract(st, ms[0], directory).value, ms[1..], directory);
    }
  }

  /** The private ancestors of a directory whose turn has come. */
  ghost predicate PrivateAbove(fs: FileSystem, path: Path) {
    forall k :: 1 <= k < |path| ==> path[..k] in fs && fs[path[..k]] == DirNode(PRIVATE)
  }

  /** Setting the modes never fails, gives each listed directory its mode and changes nothing
      else; and whichever directory comes next, all its ancestors are still private. */
  lemma {:induction false} ModesAreSetInsideOut(fs: FileSystem, modes: seq<(Path, nat)>)
    requires Closed(fs) && Listed(fs, modes)
    ensures SetModes(fs, modes).Ok?
    ensures var done := SetModes(fs, modes).value;
            && done.Keys == fs.Keys
            && (forall i :: 0 <= i < |modes| ==> done[modes[i].0] == DirNode(modes[i].1))
            && (forall p :: p in fs && (forall i :: 0 <= i < |modes| ==> modes[i].0 != p) ==> done[p] == fs[p])
    ensures modes != [] ==> SetModes(fs, modes[1..]).Ok? && PrivateAbove(SetModes(fs, modes[1..]).value, modes[0].0)
    decreases |modes|
  {
    if modes != [] {
      var rest := modes[1..];
      assert forall i :: 0 <= i < |rest| ==> rest[i] == modes[i + 1];
      ModesAreSetInsideOut(fs, rest);
      var inner := SetModes(fs, rest).value;
      var path := modes[0].0;
      forall k | 1 <= k < |path| ensures path[..k] in inner && inner[path[..k]] == DirNode(PRIVATE) {
        var above := path[..k];
        assert above in fs && fs[above] == DirNode(PRIVATE);
        forall i | 0 <= i < |rest| ensures rest[i].0 != above {
          assert !ProperPrefix(modes[i + 1].0, modes[0].0);
        }
      }
      assert forall i :: 1 <= i < |modes| ==> modes[i] == rest[i - 1];
    }
  }

  /** For every archive at all that is accepted, the two loops succeed together or the archive
      has no payload: no mode is ever set behind a directory that is already closed. */
  lemma AcceptedArchiveIsFinished(ms: seq<Member>, directory: bool)
    requires ExtractAll(EMPTY, ms, directory).Ok?
    ensures var st := ExtractAll(EMPTY, ms, directory).value;
            && (Unpack(ms, directory).Ok? <==> [PAYLOAD] in st.seen)
            && (Unpack(ms, directory).Ok? ==>
                  var fs := Unpack(ms, directory).value;
                  fs.Keys == st.fs.Keys
                  && forall i :: 0 <= i < |st.modes| ==> st.modes[i].0 in fs && fs[st.modes[i].0] == DirNode(st.modes[i].1))
  {
    ExtractAllKeepsStaged(EMPTY, ms, directory);
    var st := ExtractAll(EMPTY, ms, directory).value;
    ModesAreSetInsideOut(st.fs, st.modes);
  }

  // ---------------------------------------------------------------- the round trip

  /** What a tree holds at a relative path, with modes kept to 0777. */
  function Lookup(t: Tree, path: Path): Option<Node>
    decreases |path|
  {
    if path == [] then
      Some(match t
           case Link(target) => LinkNode(target)
           case File(mode, data) => FileNode(mode % MODES, data)
           case Dir(mode, _) => DirNode(mode % MODES))
    else if !t.Dir? then None
    else
      match Find(t.children, path[0])
      case None => None
      case Some(child) => Lookup(child, path[1..])
  }

  function Find(cs: seq<Child>, name: Name): (t: Option<Tree>)
    decreases |cs|
  {
    if cs == [] then None else if cs[0].name == name then Some(cs[0].tree) else Find(cs[1..], name)
  }

  predicate Below(path: Path, q: Path) {
    |path| <= |q| && q[..|path|] == path
  }

  /** The file system image of a tree at a path; while staged, every directory is private. */
  function Image(t: Tree, path: Path, staged: bool): (fs: FileSystem)
    ensures forall q :: q in fs ==> Below(path, q)
    decreases t, 1
  {
    match t
    case Link(target) => map[path := LinkNode(target)]
    case File(mode, data) => map[path := FileNode(mode % MODES, data)]
    case Dir(mode, children) =>
      Own(path, if staged then PRIVATE else mode % MODES) + ImageAll(children, path, staged)
  }

  function Own(path: Path, mode: nat): FileSystem {
    map[path := DirNode(mode)]
  }

  function ImageAll(cs: seq<Child>, path: Path, staged: bool): (fs: FileSystem)
    ensures forall q :: q in fs ==> Below(path, q) && |q| > |path|
    ensures forall q :: q in fs ==> exists i :: 0 <= i < |cs| && cs[i].name == q[|path|]
    decreases cs, 0
  {
    if cs == [] then map[]
    else
      var first := Image(cs[0].tree, path + [cs[0].name], staged);
      BelowChild(path, cs[0].name, first);
      first + ImageAll(cs[1..], path, staged)
  }

  lemma BelowChild(path: Path, name: Name, fs: FileSystem)
    requires forall q :: q in fs ==> Below(path + [name], q)
    ensures forall q :: q in fs ==> Below(path, q) && |q| > |path| && q[|path|] == name
  {
  }

  /** Siblings do not meet: a path below the first child is not below another. */
  lemma SiblingsAreDisjoint(cs: seq<Child>, path: Path, staged: bool)
    requires cs != [] && AllWellFormed(cs)
    ensures var first := Image(cs[0].tree, path + [cs[0].name], staged);
            && (forall q :: q in first ==> q !in ImageAll(cs[1..], path, staged))
            && ImageAll(cs, path, staged) == first + ImageAll(cs[1..], path, staged)
  {
    BelowChild(path, cs[0].name, Image(cs[0].tree, path + [cs[0].name], staged));
  }

  /** The image is the tree: the same paths, and the same node at each. */
  lemma {:induction false} ImageIsTheTree(t: Tree, path: Path, q: Path)
    requires WellFormed(t) && Below(path, q)
    ensures Lookup(t, q[|path|..]) == if q in Image(t, path, false) then Some(Image(t, path, false)[q]) else None
    decreases t, 1
  {
    var rel := q[|path|..];
    assert q == path + rel;
    if rel == [] {
      assert q == path;
    } else if t.Dir? {
      ChildrenAreTheirImages(t.children, path, q);
      assert rel[0] == q[|path|] && rel[1..] == q[|path| + 1..];
    }
  }

  lemma {:induction false} ChildrenAreTheirImages(cs: seq<Child>, path: Path, q: Path)
    requires AllWellFormed(cs) && Below(path, q) && |q| > |path|
    ensures var found := Find(cs, q[|path|]);
            (if found.None? then None else Lookup(found.value, q[|path| + 1..]))
            == if q in ImageAll(cs, path, false) then Some(ImageAll(cs, path, false)[q]) else None
    decreases cs, 0
  {
    if cs != [] {
      var sub := path + [cs[0].name];
      SiblingsAreDisjoint(cs, path, false);
      BelowChild(path, cs[0].name, Image(cs[0].tree, sub, false));
      if q[|path|] == cs[0].name {
        assert q[..|path| + 1] == sub;
        ImageIsTheTree(cs[0].tree, sub, q);
        assert q !in ImageAll(cs[1..], path, false);
      } else {
        ChildrenAreTheirImages(cs[1..], path, q);
      }
    }
  }

  /** The directories of a tree with their final modes, parents first. */
  function DirModes(t: Tree, path: Path): seq<(Path, nat)>
    decreases t, 1
  {
    if t.Dir? then [(path, t.mode % MODES)] + DirModesAll(t.children, path) else []
  }

  function DirModesAll(cs: seq<Child>, path: Path): seq<(Path, nat)>
    decreases cs, 0
  {
    if cs == [] then [] else DirModes(cs[0].tree, path + [cs[0].name]) + DirModesAll(cs[1..], path)
  }

  /** Giving `modes` to the directories of `staged` makes it `final`. */
  ghost predicate Finishes(staged: FileSystem, modes: seq<(Path, nat)>, final: FileSystem) {
    && staged.Keys == final.Keys
    && (forall i :: 0 <= i < |modes| ==> modes[i].0 in final && final[modes[i].0] == DirNode(modes[i].1))
    && (forall q :: q in final && (forall i :: 0 <= i < |modes| ==> modes[i].0 != q) ==> staged[q] == final[q])
  }

  lemma FinishesUnion(s1: FileSystem, m1: seq<(Path, nat)>, f1: FileSystem,
                      s2: FileSystem, m2: seq<(Path, nat)>, f2: FileSystem)
    requires Finishes(s1, m1, f1) && Finishes(s2, m2, f2)
    requires forall q :: q in f1 ==> q !in f2
    ensures Finishes(s1 + s2, m1 + m2, f1 + f2)
  {
    var s, m, f := s1 + s2, m1 + m2, f1 + f2;
    forall i | 0 <= i < |m| ensures m[i].0 in f && f[m[i].0] == DirNode(m[i].1) {
      assert m[i] == if i < |m1| then m1[i] else m2[i - |m1|];
    }
    forall q | q in f && (forall i :: 0 <= i < |m| ==> m[i].0 != q) ensures s[q] == f[q] {
      assert forall i :: 0 <= i < |m1| ==> m1[i] == m[i];
      assert forall i :: 0 <= i < |m2| ==> m2[i] == m[|m1| + i];
    }
  }

  lemma {:induction false} DirModesFinish(t: Tree, path: Path)
    requires WellFormed(t)
    ensures Finishes(Image(t, path, true), DirModes(t, path), Image(t, path, false))
    decreases t, 1
  {
    if t.Dir? {
      var mode := t.mode % MODES;
      DirModesAllFinish(t.children, path);
      assert [(path, mode)][0].0 == path;
      assert Finishes(Own(path, PRIVATE), [(path, mode)], Own(path, mode));
      FinishesUnion(Own(path, PRIVATE), [(path, mode)], Own(path, mode), ImageAll(t.children, path, true),
                    DirModesAll(t.children, path), ImageAll(t.children, path, false));
    }
  }

  lemma {:induction false} DirModesAllFinish(cs: seq<Child>, path: Path)
    requires AllWellFormed(cs)
    ensures Finishes(ImageAll(cs, path, true), DirModesAll(cs, path), ImageAll(cs, path, false))
    decreases cs, 0
  {
    if cs != [] {
      var sub := path + [cs[0].name];
      DirModesFinish(cs[0].tree, sub);
      DirModesAllFinish(cs[1..], path);
      SiblingsAreDisjoint(cs, path, false);
      SiblingsAreDisjoint(cs, path, true);
      FinishesUnion(Image(cs[0].tree, sub, true), DirModes(cs[0].tree, sub), Image(cs[0].tree, sub, false),
                    ImageAll(cs[1..], path, true), DirModesAll(cs[1..], path), ImageAll(cs[1..], path, false));
    }
  }

  // ---------------------------------------------------------------- extracting what was packed

  ghost predicate SafePath(path: Path) {
    path != [] && path[0] == PAYLOAD && forall i :: 0 <= i < |path| ==> SafeName(path[i])
  }

  ghost predicate ParentsThere(fs: FileSystem, path: Path) {
    forall k :: 1 <= k < |path| ==> path[..k] in fs && fs[path[..k]].DirNode?
  }

  /** Nothing at or below a path yet. */
  ghost predicate Vacant(st: Staging, path: Path) {
    forall q :: q in st.fs || q in st.seen ==> !Below(path, q)
  }

  lemma {:induction false} ParentsAlreadyMade(fs: FileSystem, path: Path, n: nat)
    requires 1 <= n <= |path| && ParentsThere(fs, path)
    ensures MakeParents(fs, path, n) == Ok(fs)
    decreases |path| - n
  {
    if n < |path| { ParentsAlreadyMade(fs, path, n + 1); }
  }

  lemma {:induction false} ExtractAllConcat(st: Staging, a: seq<Member>, b: seq<Member>, directory: bool)
    ensures ExtractAll(st, a + b, directory) ==
            if ExtractAll(st, a, directory).Err? then Err else ExtractAll(ExtractAll(st, a, directory).value, b, directory)
    decreases |a|
  {
    if a == [] {
      assert a + b == b;
    } else {
      assert (a + b)[1..] == a[1..] + b;
      if Extract(st, a[0], directory).Ok? {
        ExtractAllConcat(Extract(st, a[0], directory).value, a[1..], b, directory);
      }
    }
  }

  /** The staging area with a staged image added. */
  function With(st: Staging, image: FileSystem, modes: seq<(Path, nat)>): Staging {
    Staging(st.fs + image, st.seen + image.Keys, st.modes + modes)
  }

  lemma ExtractOne(st: Staging, m: Member, directory: bool)
    requires SafePath(m.path) && ParentsThere(st.fs, m.path) && Vacant(st, m.path) && !m.kind.OtherMember?
    requires |m.path| == 1 ==> m.kind.DirMember? == directory
    ensures ExtractAll(st, [m], directory)
            == Ok(With(st, map[m.path := NodeOf(m)], if m.kind.DirMember? then [(m.path, m.mode % MODES)] else []))
  {
    ParentsAlreadyMade(st.fs, m.path, 1);
    assert Below(m.path, m.path);
    var next := Extract(st, m, directory).value;
    var node := map[m.path := NodeOf(m)];
    assert next.fs == st.fs + node && node.Keys == {m.path};
    assert st.modes + [] == st.modes;
    assert [m][1..] == [];
    assert ExtractAll(st, [m], directory) == Ok(next);
  }

  lemma {:induction false} PackedTreeExtracts(st: Staging, t: Tree, path: Path, directory: bool)
    requires WellFormed(t) && SafePath(path) && ParentsThere(st.fs, path) && Vacant(st, path)
    requires |path| == 1 ==> t.Dir? == directory
    ensures ExtractAll(st, Add(t, path), directory) == Ok(With(st, Image(t, path, true), DirModes(t, path)))
    decreases t, 1
  {
    var m := Add(t, path)[0];
    ExtractOne(st, m, directory);
    if t.Dir? {
      var modes := [(path, t.mode % MODES)];
      assert map[m.path := NodeOf(m)] == Own(path, PRIVATE) && m.mode % MODES == t.mode % MODES;
      assert Add(t, path) == [m] + AddAll(t.children, path);
      var mid := With(st, Own(path, PRIVATE), modes);
      DirectoryIsReady(st, t, path);
      ExtractAllConcat(st, [m], AddAll(t.children, path), directory);
      PackedChildrenExtract(mid, t.children, path, directory);
      WithTwice(st, Own(path, PRIVATE), modes, ImageAll(t.children, path, true), DirModesAll(t.children, path));
    } else {
      assert Add(t, path) == [m];
    }
  }

  /** Once a directory is made, its parents are there and everything below it is vacant. */
  lemma DirectoryIsReady(st: Staging, t: Tree, path: Path)
    requires t.Dir? && ParentsThere(st.fs, path) && Vacant(st, path)
    ensures var mid := With(st, Own(path, PRIVATE), [(path, t.mode % MODES)]);
            && ParentsThere(mid.fs, path) && path in mid.fs && mid.fs[path].DirNode?
            && forall i :: 0 <= i < |t.children| ==> Vacant(mid, path + [t.children[i].name])
  {
  }

  lemma WithTwice(st: Staging, a: FileSystem, ma: seq<(Path, nat)>, b: FileSystem, mb: seq<(Path, nat)>)
    ensures With(With(st, a, ma), b, mb) == With(st, a + b, ma + mb)
  {
  }

  /** A directory's children, one after the other, below a directory that is there. */
  lemma {:induction false} PackedChildrenExtract(st: Staging, cs: seq<Child>, path: Path, directory: bool)
    requires AllWellFormed(cs) && SafePath(path) && ParentsThere(st.fs, path)
    requires path in st.fs && st.fs[path].DirNode?
    requires forall i :: 0 <= i < |cs| ==> Vacant(st, path + [cs[i].name])
    ensures ExtractAll(st, AddAll(cs, path), directory) == Ok(With(st, ImageAll(cs, path, true), DirModesAll(cs, path)))
    decreases cs, 0
  {
    if cs == [] {
      var none: FileSystem := map[];
      assert st.fs + none == st.fs && st.seen + none.Keys == st.seen && st.modes + [] == st.modes;
    } else {
      var sub, t := path + [cs[0].name], cs[0].tree;
      ChildPath(st, path, cs[0].name);
      PackedTreeExtracts(st, t, sub, directory);
      var image := Image(t, sub, true);
      var mid := With(st, image, DirModes(t, sub));
      ExtractAllConcat(st, Add(t, sub), AddAll(cs[1..], path), directory);
      SiblingsStayVacant(st, cs, path);
      PackedChildrenExtract(mid, cs[1..], path, directory);
      WithTwice(st, image, DirModes(t, sub), ImageAll(cs[1..], path, true), DirModesAll(cs[1..], path));
    }
  }

  lemma ChildPath(st: Staging, path: Path, name: Name)
    requires SafePath(path) && SafeName(name) && ParentsThere(st.fs, path)
    requires path in st.fs && st.fs[path].DirNode?
    ensures SafePath(path + [name]) && ParentsThere(st.fs, path + [name]) && |path + [name]| > 1
  {
    var sub := path + [name];
    forall k | 1 <= k < |sub| ensures sub[..k] in st.fs && st.fs[sub[..k]].DirNode? {
      assert sub[..k] == path[..k];
      assert k == |path| ==> sub[..k] == path;
    }
  }

  lemma SiblingsStayVacant(st: Staging, cs: seq<Child>, path: Path)
    requires cs != [] && AllWellFormed(cs) && ParentsThere(st.fs, path)
    requires path in st.fs && st.fs[path].DirNode?
    requires forall i :: 0 <= i < |cs| ==> Vacant(st, path + [cs[i].name])
    ensures var sub := path + [cs[0].name];
            var mid := With(st, Image(cs[0].tree, sub, true), DirModes(cs[0].tree, sub));
            && ParentsThere(mid.fs, path) && path in mid.fs && mid.fs[path].DirNode?
            && forall i :: 0 <= i < |cs[1..]| ==> Vacant(mid, path + [cs[1..][i].name])
  {
    var sub := path + [cs[0].name];
    var image := Image(cs[0].tree, sub, true);
    var mid := With(st, image, DirModes(cs[0].tree, sub));
    BelowChild(path, cs[0].name, image);
    forall k | 1 <= k < |path| ensures path[..k] in mid.fs && mid.fs[path[..k]].DirNode? {
      assert path[..k] !in image;
    }
    forall i | 0 <= i < |cs[1..]| ensures Vacant(mid, path + [cs[1..][i].name]) {
      var other := path + [cs[1..][i].name];
      assert other == path + [cs[i + 1].name] && Vacant(st, other);
      forall q | q in mid.fs || q in mid.seen ensures !Below(other, q) {
        assert |other| <= |q| ==> q[..|other|][|path|] == q[|path|];
      }
    }
  }

  lemma StagedImage(t: Tree)
    requires WellFormed(t)
    ensures ExtractAll(EMPTY, Add(t, [PAYLOAD]), t.Dir?)
            == Ok(Staging(Image(t, [PAYLOAD], true), Image(t, [PAYLOAD], true).Keys, DirModes(t, [PAYLOAD])))
  {
    var root := [PAYLOAD];
    PackedTreeExtracts(EMPTY, t, root, t.Dir?);
    var staged := Image(t, root, true);
    assert EMPTY.fs + staged == staged && EMPTY.seen + staged.Keys == staged.Keys;
    assert EMPTY.modes + DirModes(t, root) == DirModes(t, root);
  }

  lemma UnpackedImage(t: Tree)
    requires WellFormed(t)
    ensures Unpack(Add(t, [PAYLOAD]), t.Dir?) == Ok(Image(t, [PAYLOAD], false))
  {
    var root := [PAYLOAD];
    StagedImage(t);
    ExtractAllKeepsStaged(EMPTY, Add(t, root), t.Dir?);
    ModesAreSetInsideOut(Image(t, root, true), DirModes(t, root));
    DirModesFinish(t, root);
    assert root in Image(t, root, true);
    var done := SetModes(Image(t, root, true), DirModes(t, root)).value;
    SameFinish(Image(t, root, true), DirModes(t, root), done, Image(t, root, false));
  }

  lemma SameFinish(staged: FileSystem, modes: seq<(Path, nat)>, a: FileSystem, b: FileSystem)
    requires Finishes(staged, modes, a) && Finishes(staged, modes, b)
    ensures a == b
  {
  }

  /** Unpacking what was packed rebuilds the tree: the same paths below the payload, with the
      same contents and targets, and every mode kept to 0777. */
  lemma UnpackRebuildsTheTree(t: Tree)
    requires WellFormed(t)
    ensures Pack(t, t.Dir?).Ok? && Pack(t, !t.Dir?).Err?
    ensures Unpack(Pack(t, t.Dir?).value, t.Dir?).Ok?
    ensures var fs := Unpack(Pack(t, t.Dir?).value, t.Dir?).value;
            && (forall q :: q in fs ==> Below([PAYLOAD], q))
            && (forall q :: Below([PAYLOAD], q) ==>
                  Lookup(t, q[1..]) == if q in fs then Some(fs[q]) else None)
  {
    UnpackedImage(t);
    var fs := Image(t, [PAYLOAD], false);
    forall q | Below([PAYLOAD], q) ensures Lookup(t, q[1..]) == if q in fs then Some(fs[q]) else None {
      ImageIsTheTree(t, [PAYLOAD], q);
    }
  }
}
