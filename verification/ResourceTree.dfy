/** The installed resource tree: what a walk of it collects, and when its inventory is exact. */
module ResourceTree {
  import opened Common
  import opened Sorting

  /** A canonical name, split at its slashes. */
  type Path = seq<string>

  datatype Entry =
    | File(name: string, content: seq<bv8>)
    | Directory(name: string, children: seq<Entry>)
    | Link(name: string)
    | Special(name: string)

  const MAX_FILES := 256

  const MAX_PATHS := MAX_FILES + 16

  const MAX_BYTES := 1_048_576

  const MAX_TOTAL := 8_388_608

  const MAX_DEPTH := 5

  const DESCRIPTOR: Path := ["descriptor.json"]

  const MANIFEST: Path := ["manifest.json"]

  predicate CanonicalPart(name: string) {
    name != "" && name != "." && name != ".." && '/' !in name && '\\' !in name && '\0' !in name
  }

  /** What any file system gives: no two entries of a directory share a name. */
  ghost predicate Named(children: seq<Entry>) {
    && (forall i, j :: 0 <= i < j < |children| ==> children[i].name != children[j].name)
    && forall i :: 0 <= i < |children| && children[i].Directory? ==> Named(children[i].children)
  }

  /** Every entry of a tree, with its path. */
  ghost function Entries(children: seq<Entry>, prefix: Path): set<(Path, Entry)> {
    if children == [] then {}
    else
      var e := children[0];
      var path := prefix + [e.name];
      {(path, e)} + (if e.Directory? then Entries(e.children, path) else {}) + Entries(children[1..], prefix)
  }

  ghost function Paths(children: seq<Entry>, prefix: Path): set<Path> {
    set entry | entry in Entries(children, prefix) :: entry.0
  }

  ghost function Files(children: seq<Entry>): set<Path> {
    set entry | entry in Entries(children, []) && entry.1.File? :: entry.0
  }

  ghost function Directories(children: seq<Entry>): set<Path> {
    set entry | entry in Entries(children, []) && entry.1.Directory? :: entry.0
  }

  ghost predicate Holds(children: seq<Entry>, prefix: Path, path: Path, content: seq<bv8>) {
    path != [] && (path, File(Last(path), content)) in Entries(children, prefix)
  }

  ghost function Size(children: seq<Entry>): nat {
    if children == [] then 0
    else (match children[0]
          case File(_, content) => |content|
          case Directory(_, inner) => Size(inner)
          case _ => 0)
         + Size(children[1..])
  }

  /** No defect a walk would meet: a level too deep, a listing too long, and none at its entries. */
  ghost predicate Sound(children: seq<Entry>, depth: nat)
    decreases children
  {
    && depth <= MAX_DEPTH
    && |children| <= MAX_PATHS
    && forall i :: 0 <= i < |children| ==> SoundEntry(children[i], depth)
  }

  /** At one entry: a plain name, and a file not too long or a directory without a defect. */
  ghost predicate SoundEntry(e: Entry, depth: nat)
    decreases e
  {
    && CanonicalPart(e.name)
    && (|| (e.File? && |e.content| <= MAX_BYTES)
        || (e.Directory? && Sound(e.children, depth + 1)))
  }

  // ------------------------------------------------------- facts about trees

  /** One entry of a directory and what is inside it. */
  ghost function Under(e: Entry, prefix: Path): set<(Path, Entry)> {
    {(prefix + [e.name], e)} + if e.Directory? then Entries(e.children, prefix + [e.name]) else {}
  }

  lemma {:induction false} EntriesMember(children: seq<Entry>, prefix: Path, item: (Path, Entry))
    ensures item in Entries(children, prefix) <==> exists e :: e in children && item in Under(e, prefix)
  {
    if children != [] {
      EntriesMember(children[1..], prefix, item);
      assert Entries(children, prefix) == Under(children[0], prefix) + Entries(children[1..], prefix);
      assert forall e :: e in children <==> e == children[0] || e in children[1..];
    }
  }

  lemma {:induction false} Below(children: seq<Entry>, prefix: Path, item: (Path, Entry))
    requires item in Entries(children, prefix)
    ensures prefix < item.0 && item.1.name == Last(item.0)
  {
    var e := children[0];
    if item in Entries(children[1..], prefix) {
      Below(children[1..], prefix, item);
    } else if item != (prefix + [e.name], e) {
      Below(e.children, prefix + [e.name], item);
    }
  }

  /** What lies under an entry starts with that entry's path. */
  lemma UnderStarts(e: Entry, prefix: Path, item: (Path, Entry))
    requires item in Under(e, prefix)
    ensures prefix + [e.name] <= item.0
  {
    if item != (prefix + [e.name], e) {
      Below(e.children, prefix + [e.name], item);
    }
  }

  /** A path names one entry at most. */
  lemma {:induction false} OneEntry(children: seq<Entry>, prefix: Path, a: (Path, Entry), b: (Path, Entry))
    requires Named(children)
    requires a in Entries(children, prefix) && b in Entries(children, prefix) && a.0 == b.0
    ensures a == b
    decreases children
  {
    hide Entries;
    EntriesMember(children, prefix, a);
    EntriesMember(children, prefix, b);
    var d :| d in children && a in Under(d, prefix);
    var e :| e in children && b in Under(e, prefix);
    UnderStarts(d, prefix, a);
    UnderStarts(e, prefix, b);
    assert d.name == a.0[|prefix|] == e.name;
    assert d == e by {
      var i :| 0 <= i < |children| && children[i] == d;
      var j :| 0 <= j < |children| && children[j] == e;
    }
    var path := prefix + [d.name];
    if a.0 == path {
      if d.Directory? && a in Entries(d.children, path) {
        Below(d.children, path, a);
      }
      if d.Directory? && b in Entries(d.children, path) {
        Below(d.children, path, b);
      }
    } else {
      var i :| 0 <= i < |children| && children[i] == d;
      OneEntry(children[i].children, path, a, b);
    }
  }

  /** Every proper beginning of a path, down from the root, is a directory of the tree. */
  lemma {:induction false} ParentsAreDirectories(children: seq<Entry>, prefix: Path, item: (Path, Entry), k: nat)
    requires item in Entries(children, prefix) && |prefix| < k < |item.0|
    ensures exists d :: d in Entries(children, prefix) && d.0 == item.0[..k] && d.1.Directory?
  {
    var e := children[0];
    var path := prefix + [e.name];
    if item in Entries(children[1..], prefix) {
      ParentsAreDirectories(children[1..], prefix, item, k);
      var d :| d in Entries(children[1..], prefix) && d.0 == item.0[..k] && d.1.Directory?;
      assert d in Entries(children, prefix);
    } else {
      assert item in Entries(e.children, path);
      Below(e.children, path, item);
      if k == |path| {
        assert (path, e) in Entries(children, prefix) && item.0[..k] == path;
      } else {
        ParentsAreDirectories(e.children, path, item, k);
        var d :| d in Entries(e.children, path) && d.0 == item.0[..k] && d.1.Directory?;
        assert d in Entries(children, prefix);
      }
    }
  }

  // ------------------------------------------------------- listings in the order of names

  predicate ByName(a: Entry, b: Entry) {
    StrLe(a.name, b.name)
  }

  lemma {:induction false} InsertSize(e: Entry, s: seq<Entry>)
    ensures Size(Insert(e, s, ByName)) == Size([e]) + Size(s)
  {
    hide StrLe;
    var r := Insert(e, s, ByName);
    if s == [] || ByName(e, s[0]) {
      assert r[1..] == s && r[0] == e;
    } else {
      InsertSize(e, s[1..]);
      assert r[0] == s[0] && r[1..] == Insert(e, s[1..], ByName);
    }
    assert [e][1..] == [];
  }

  lemma {:induction false} SortSize(s: seq<Entry>)
    ensures Size(Sort(s, ByName)) == Size(s)
  {
    if s != [] {
      SortSize(s[1..]);
      InsertSize(s[0], Sort(s[1..], ByName));
      assert [s[0]][1..] == [];
    }
  }

  /** Two lists with the same members list the same tree. */
  lemma SameMembers(a: seq<Entry>, b: seq<Entry>, prefix: Path, depth: nat)
    requires |a| == |b| && forall e :: e in a <==> e in b
    ensures Entries(a, prefix) == Entries(b, prefix)
    ensures Sound(a, depth) ==> Sound(b, depth)
  {
    hide Entries;
    forall item ensures item in Entries(a, prefix) <==> item in Entries(b, prefix) {
      EntriesMember(a, prefix, item);
      EntriesMember(b, prefix, item);
    }
    if Sound(a, depth) {
      forall i | 0 <= i < |b| ensures SoundEntry(b[i], depth) {
        assert b[i] in a;
      }
    }
  }

  lemma SortNamed(children: seq<Entry>)
    requires Named(children)
    ensures Named(Sort(children, ByName))
  {
    hide ByName, Sort;
    var listing := Sort(children, ByName);
    SortPermutes(children, ByName);
    SortKeepsElements(children, ByName);
    assert Distinct(children);
    SamePopulation(children, listing);
    forall i | 0 <= i < |listing|
      ensures listing[i].Directory? ==> Named(listing[i].children)
      ensures forall j :: i < j < |listing| ==> listing[i].name != listing[j].name
    {
      assert listing[i] in children;
      var a :| 0 <= a < |children| && children[a] == listing[i];
      forall j | i < j < |listing| ensures listing[i].name != listing[j].name {
        assert listing[j] in children && listing[i] != listing[j];
        var b :| 0 <= b < |children| && children[b] == listing[j];
      }
    }
  }

  /** The order of the listing changes nothing that is collected or refused. */
  lemma SortedListing(children: seq<Entry>, prefix: Path, depth: nat)
    requires Named(children)
    ensures var listing := Sort(children, ByName);
            && |listing| == |children| && Named(listing) && (forall e :: e in listing <==> e in children)
            && Entries(listing, prefix) == Entries(children, prefix) && Size(listing) == Size(children)
            && (Sound(listing, depth) <==> Sound(children, depth))
  {
    hide *;
    var listing := Sort(children, ByName);
    SortPermutes(children, ByName);
    SortKeepsElements(children, ByName);
    SortNamed(children);
    SortSize(children);
    SameMembers(listing, children, prefix, depth);
    SameMembers(children, listing, prefix, depth);
  }

  // ------------------------------------------------------- one step of a walk

  lemma {:induction false} EntriesSnoc(s: seq<Entry>, e: Entry, prefix: Path)
    ensures Entries(s + [e], prefix) == Entries(s, prefix) + Under(e, prefix)
    ensures Size(s + [e]) == Size(s) + Size([e])
  {
    if s == [] {
      assert s + [e] == [e] && [e][1..] == [];
    } else {
      assert (s + [e])[1..] == s[1..] + [e];
      EntriesSnoc(s[1..], e, prefix);
    }
  }

  /** What the walk has taken of a listing grows to all of it. */
  lemma {:induction false} Prefixes(listing: seq<Entry>, prefix: Path, i: nat)
    requires i <= |listing|
    ensures Entries(listing[..i], prefix) <= Entries(listing, prefix)
    ensures Size(listing[..i]) <= Size(listing)
    decreases |listing| - i
  {
    hide Entries, Size;
    if i == |listing| {
      assert listing[..i] == listing;
    } else {
      Prefixes(listing, prefix, i + 1);
      EntriesSnoc(listing[..i], listing[i], prefix);
      assert listing[..i] + [listing[i]] == listing[..i + 1];
    }
  }

  /** Nothing taken before an entry lies at its path or below it. */
  lemma Untouched(listing: seq<Entry>, prefix: Path, i: nat)
    requires Named(listing) && i < |listing|
    ensures forall path :: path in Paths(listing[..i], prefix) ==> !(prefix + [listing[i].name] <= path)
  {
    hide Entries;
    forall path | path in Paths(listing[..i], prefix) ensures !(prefix + [listing[i].name] <= path) {
      var item :| item in Entries(listing[..i], prefix) && item.0 == path;
      EntriesMember(listing[..i], prefix, item);
      var e :| e in listing[..i] && item in Under(e, prefix);
      UnderStarts(e, prefix, item);
      var j :| 0 <= j < i && listing[j] == e;
      assert path[|prefix|] == listing[j].name;
    }
  }

  type Assets = map<Path, seq<bv8>>

  ghost predicate Has(assets: Assets, path: Path, content: seq<bv8>) {
    path in assets && assets[path] == content
  }

  /** `after` is `before` and the files of a listing. */
  ghost predicate Gained(before: Assets, after: Assets, children: seq<Entry>, prefix: Path) {
    forall path, content ::
      Has(after, path, content) <==> Has(before, path, content) || Holds(children, prefix, path, content)
  }

  lemma HoldsSnoc(listing: seq<Entry>, prefix: Path, i: nat, path: Path, content: seq<bv8>)
    requires i < |listing|
    ensures var child, at := listing[i], prefix + [listing[i].name];
            Holds(listing[..i + 1], prefix, path, content) <==>
            || Holds(listing[..i], prefix, path, content)
            || (child.File? && path == at && content == child.content)
            || (child.Directory? && Holds(child.children, at, path, content))
  {
    hide Entries;
    EntriesSnoc(listing[..i], listing[i], prefix);
    assert listing[..i] + [listing[i]] == listing[..i + 1];
    assert Last(prefix + [listing[i].name]) == listing[i].name;
  }

  lemma PathsSnoc(listing: seq<Entry>, prefix: Path, i: nat)
    requires i < |listing|
    ensures Paths(listing[..i + 1], prefix)
            == Paths(listing[..i], prefix) + {prefix + [listing[i].name]}
               + if listing[i].Directory? then Paths(listing[i].children, prefix + [listing[i].name]) else {}
    ensures Size(listing[..i + 1])
            == Size(listing[..i]) + if listing[i].Directory? then Size(listing[i].children)
                                    else if listing[i].File? then |listing[i].content| else 0
  {
    hide Entries;
    EntriesSnoc(listing[..i], listing[i], prefix);
    assert listing[..i] + [listing[i]] == listing[..i + 1];
    OneSize(listing[i]);
    forall path
      ensures path in Paths(listing[..i + 1], prefix) <==>
              || path in Paths(listing[..i], prefix) || path == prefix + [listing[i].name]
              || (listing[i].Directory? && path in Paths(listing[i].children, prefix + [listing[i].name]))
    {
      if path in Paths(listing[..i], prefix) {
        var item :| item in Entries(listing[..i], prefix) && item.0 == path;
        assert item in Entries(listing[..i + 1], prefix);
      }
      if path == prefix + [listing[i].name] {
        assert (path, listing[i]) in Entries(listing[..i + 1], prefix);
      }
      if listing[i].Directory? && path in Paths(listing[i].children, prefix + [listing[i].name]) {
        var item :| item in Entries(listing[i].children, prefix + [listing[i].name]) && item.0 == path;
        assert item in Entries(listing[..i + 1], prefix);
      }
    }
  }

  lemma OneSize(e: Entry)
    ensures Size([e]) == if e.Directory? then Size(e.children) else if e.File? then |e.content| else 0
  {
    assert [e][1..] == [];
  }

  lemma PathsOfPrefix(listing: seq<Entry>, prefix: Path, i: nat)
    requires i <= |listing|
    ensures Paths(listing[..i], prefix) <= Paths(listing, prefix)
  {
    hide Entries;
    Prefixes(listing, prefix, i);
  }

  lemma SmallerSet(a: set<Path>, b: set<Path>)
    requires a <= b
    ensures |a| <= |b|
  {
    assert b == a + (b - a);
  }

  /** The bounds a walk checks as it goes, for what it has and what is still to come. */
  ghost predicate WithinBounds(paths: set<Path>, total: nat, children: seq<Entry>, prefix: Path) {
    |paths + Paths(children, prefix)| <= MAX_PATHS && total + Size(children) <= MAX_TOTAL
  }

  /** Taking more never brings a walk back within its bounds. */
  lemma BoundsShrink(paths: set<Path>, total: nat, listing: seq<Entry>, prefix: Path, i: nat)
    requires i <= |listing| && WithinBounds(paths, total, listing, prefix)
    ensures WithinBounds(paths, total, listing[..i], prefix)
  {
    hide Entries, Size;
    PathsOfPrefix(listing, prefix, i);
    Prefixes(listing, prefix, i);
    SmallerSet(paths + Paths(listing[..i], prefix), paths + Paths(listing, prefix));
  }

  /** What a walk has after the first `i` entries of a listing, from what it had before. */
  ghost predicate Taken(paths0: set<Path>, total0: nat, assets0: Assets, paths: set<Path>, total: nat, assets: Assets,
                        listing: seq<Entry>, prefix: Path, i: nat)
    requires i <= |listing|
  {
    && paths == paths0 + Paths(listing[..i], prefix)
    && total == total0 + Size(listing[..i])
    && Gained(assets0, assets, listing[..i], prefix)
    && assets.Keys <= paths
  }

  lemma GainedFile(before: Assets, assets: Assets, listing: seq<Entry>, prefix: Path, i: nat)
    requires i < |listing| && listing[i].File? && Gained(before, assets, listing[..i], prefix)
    requires prefix + [listing[i].name] !in assets
    ensures Gained(before, assets[prefix + [listing[i].name] := listing[i].content], listing[..i + 1], prefix)
  {
    hide Holds;
    var at, after := prefix + [listing[i].name], assets[prefix + [listing[i].name] := listing[i].content];
    forall path, content
      ensures Has(after, path, content) <==>
              Has(before, path, content) || Holds(listing[..i + 1], prefix, path, content)
    {
      HoldsSnoc(listing, prefix, i, path, content);
    }
  }

  lemma GainedDirectory(before: Assets, assets: Assets, after: Assets, listing: seq<Entry>, prefix: Path, i: nat)
    requires i < |listing| && listing[i].Directory? && Gained(before, assets, listing[..i], prefix)
    requires Gained(assets, after, listing[i].children, prefix + [listing[i].name])
    ensures Gained(before, after, listing[..i + 1], prefix)
  {
    hide Holds;
    forall path, content
      ensures Has(after, path, content) <==>
              Has(before, path, content) || Holds(listing[..i + 1], prefix, path, content)
    {
      HoldsSnoc(listing, prefix, i, path, content);
    }
  }

  lemma TakenFile(paths0: set<Path>, total0: nat, assets0: Assets, paths: set<Path>, total: nat, assets: Assets,
                  listing: seq<Entry>, prefix: Path, i: nat)
    requires i < |listing| && listing[i].File? && Named(listing)
    requires Taken(paths0, total0, assets0, paths, total, assets, listing, prefix, i)
    requires forall path :: path in paths0 ==> !(prefix < path)
    ensures var at := prefix + [listing[i].name];
            Taken(paths0, total0, assets0, paths + {at}, total + |listing[i].content|, assets[at := listing[i].content],
                  listing, prefix, i + 1)
  {
    hide Entries, Size, Named, Holds, Paths, Gained;
    var at := prefix + [listing[i].name];
    Untouched(listing, prefix, i);
    assert at !in assets;
    PathsSnoc(listing, prefix, i);
    GainedFile(assets0, assets, listing, prefix, i);
  }

  lemma TakenDirectory(paths0: set<Path>, total0: nat, assets0: Assets, paths: set<Path>, total: nat, assets: Assets,
                       listing: seq<Entry>, prefix: Path, i: nat,
                       paths2: set<Path>, total2: nat, assets2: Assets)
    requires i < |listing| && listing[i].Directory?
    requires Taken(paths0, total0, assets0, paths, total, assets, listing, prefix, i)
    requires var child, at := listing[i], prefix + [listing[i].name];
             && paths2 == paths + {at} + Paths(child.children, at) && total2 == total + Size(child.children)
             && Gained(assets, assets2, child.children, at) && assets2.Keys <= paths2
    ensures Taken(paths0, total0, assets0, paths2, total2, assets2, listing, prefix, i + 1)
  {
    hide Entries, Size, Holds, Paths, Gained;
    PathsSnoc(listing, prefix, i);
    GainedDirectory(assets0, assets, assets2, listing, prefix, i);
  }

  /** A listing within the bounds keeps within them at each of its entries. */
  lemma WithinAt(paths0: set<Path>, total0: nat, paths: set<Path>, total: nat,
                 listing: seq<Entry>, prefix: Path, i: nat)
    requires WithinBounds(paths0, total0, listing, prefix)
    requires i < |listing| && paths == paths0 + Paths(listing[..i], prefix) && total == total0 + Size(listing[..i])
    ensures var child, at := listing[i], prefix + [listing[i].name];
            && |paths + {at}| <= MAX_PATHS
            && (child.File? ==> total + |child.content| <= MAX_TOTAL)
            && (child.Directory? ==> WithinBounds(paths + {at}, total, child.children, at))
  {
    hide Paths, Size;
    var child, at := listing[i], prefix + [listing[i].name];
    BoundsShrink(paths0, total0, listing, prefix, i + 1);
    PathsSnoc(listing, prefix, i);
    var all := paths0 + Paths(listing[..i + 1], prefix);
    SmallerSet(paths + {at}, all);
    if child.Directory? {
      assert all == paths + {at} + Paths(child.children, at);
    }
  }

  lemma SameBounds(children: seq<Entry>, listing: seq<Entry>, prefix: Path, paths: set<Path>, total: nat)
    requires Entries(listing, prefix) == Entries(children, prefix) && Size(listing) == Size(children)
    ensures WithinBounds(paths, total, listing, prefix) <==> WithinBounds(paths, total, children, prefix)
  {
    hide Entries, Size;
    assert Paths(listing, prefix) == Paths(children, prefix);
  }

  lemma NothingTaken(paths0: set<Path>, total0: nat, assets0: Assets, listing: seq<Entry>, prefix: Path)
    requires assets0.Keys <= paths0
    ensures Taken(paths0, total0, assets0, paths0, total0, assets0, listing, prefix, 0)
  {
  }

  /** The whole listing taken, and it was the directory's. */
  lemma AllTaken(children: seq<Entry>, listing: seq<Entry>, prefix: Path,
                 paths0: set<Path>, total0: nat, assets0: Assets, paths: set<Path>, total: nat, assets: Assets)
    requires Entries(listing, prefix) == Entries(children, prefix) && Size(listing) == Size(children)
    requires Taken(paths0, total0, assets0, paths, total, assets, listing, prefix, |listing|)
    requires |paths| <= MAX_PATHS && total <= MAX_TOTAL
    ensures paths == paths0 + Paths(children, prefix) && total == total0 + Size(children)
    ensures Gained(assets0, assets, children, prefix) && WithinBounds(paths0, total0, children, prefix)
  {
    hide Entries, Size;
    assert listing[..|listing|] == listing;
    assert Paths(listing, prefix) == Paths(children, prefix);
    forall path, content
      ensures Has(assets, path, content) <==>
              Has(assets0, path, content) || Holds(children, prefix, path, content)
    {
      assert Has(assets, path, content) <==> Has(assets0, path, content) || Holds(listing, prefix, path, content);
    }
  }

  lemma NamedInside(listing: seq<Entry>, i: nat)
    requires Named(listing) && i < |listing| && listing[i].Directory?
    ensures Named(listing[i].children)
  {
  }

  /** Nothing the walk has lies below the entry it comes to. */
  lemma NothingBelow(paths0: set<Path>, paths: set<Path>, listing: seq<Entry>, prefix: Path, i: nat)
    requires i < |listing| && Named(listing) && paths == paths0 + Paths(listing[..i], prefix)
    requires forall path :: path in paths0 ==> !(prefix < path)
    ensures var at := prefix + [listing[i].name];
            forall path :: path in paths + {at} ==> !(at < path)
  {
    hide Paths, Named;
    Untouched(listing, prefix, i);
  }

  /** The walk over the tree, collecting file contents and the paths of everything. */
  class Walk {
    var assets: Assets
    var packagePaths: set<Path>
    var total: nat

    constructor ()
      ensures assets == map[] && packagePaths == {} && total == 0
    {
      assets, packagePaths, total := map[], {}, 0;
    }

    ghost predicate Valid()
      reads this
    {
      |packagePaths| <= MAX_PATHS && total <= MAX_TOTAL && assets.Keys <= packagePaths
    }

    method Visit(children: seq<Entry>, prefix: Path, depth: nat) returns (ok: bool)
      requires Valid() && Named(children)
      requires forall path :: path in packagePaths ==> !(prefix < path)
      modifies this
      ensures ok <==> Sound(children, depth) && WithinBounds(old(packagePaths), old(total), children, prefix)
      ensures ok ==> Valid() && Gained(old(assets), assets, children, prefix)
      ensures ok ==> packagePaths == old(packagePaths) + Paths(children, prefix)
      ensures ok ==> total == old(total) + Size(children)
      decreases children
    {
      hide Entries, Size, Paths, Gained, Holds, Named, WithinBounds, Sort, CanonicalPart;
      if depth > MAX_DEPTH || |children| > MAX_PATHS {
        return false;
      }
      var listing := Sort(children, ByName);
      SortedListing(children, prefix, depth);
      ghost var paths0, total0, assets0 := packagePaths, total, assets;
      ghost var within := WithinBounds(paths0, total0, listing, prefix);
      SameBounds(children, listing, prefix, paths0, total0);
      NothingTaken(paths0, total0, assets0, listing, prefix);
      for i := 0 to |listing|
        invariant Valid() && Taken(paths0, total0, assets0, packagePaths, total, assets, listing, prefix, i)
        invariant forall j :: 0 <= j < i ==> SoundEntry(listing[j], depth)
      {
        var child := listing[i];
        var path := prefix + [child.name];
        if !CanonicalPart(child.name) || child.Link? {
          assert !SoundEntry(listing[i], depth);
          return false;
        }
        ghost var paths1, total1, assets1 := packagePaths, total, assets;
        if within {
          WithinAt(paths0, total0, paths1, total1, listing, prefix, i);
        }
        packagePaths := packagePaths + {path};
        if |packagePaths| > MAX_PATHS {
          assert !within;
          return false;
        }
        if child.Directory? {
          NothingBelow(paths0, paths1, listing, prefix, i);
          NamedInside(listing, i);
          assert child in children;
          var below := Visit(child.children, path, depth + 1);
          if !below {
            assert !within || !SoundEntry(listing[i], depth);
            return false;
          }
          TakenDirectory(paths0, total0, assets0, paths1, total1, assets1, listing, prefix, i,
                         packagePaths, total, assets);
        } else if !child.File? {
          assert !SoundEntry(listing[i], depth);
          return false;
        } else {
          if |child.content| > MAX_BYTES {
            assert !SoundEntry(listing[i], depth);
            return false;
          }
          total := total + |child.content|;
          if total > MAX_TOTAL {
            assert !within;
            return false;
          }
          assets := assets[path := child.content];
          TakenFile(paths0, total0, assets0, paths1, total1, assets1, listing, prefix, i);
        }
      }
      AllTaken(children, listing, prefix, paths0, total0, assets0, packagePaths, total, assets);
      return true;
    }
  }

  // ------------------------------------------------------- the tree against its manifest

  /** A tree the walk accepts. */
  ghost predicate Readable(root: seq<Entry>) {
    && Sound(root, 0)
    && |Paths(root, [])| <= MAX_PATHS
    && Size(root) <= MAX_TOTAL
    && |Files(root)| <= MAX_FILES
  }

  /** The walk from the root: it accepts exactly the readable trees, whatever order they are listed in. */
  method ReadTree(root: seq<Entry>) returns (r: Option<(Assets, set<Path>)>)
    requires Named(root)
    ensures r.Some? <==> Readable(root)
    ensures r.Some? ==> r.value.0.Keys == Files(root) && r.value.1 == Paths(root, [])
    ensures r.Some? ==> forall path :: path in r.value.0 ==> Holds(root, [], path, r.value.0[path])
  {
    hide Entries, Size, Sound;
    var walk := new Walk();
    assert {} + Paths(root, []) == Paths(root, []);
    var ok := walk.Visit(root, [], 0);
    if !ok {
      return None;
    }
    GainedFromNothing(root, walk.assets);
    if |walk.assets| > MAX_FILES {
      return None;
    }
    return Some((walk.assets, walk.packagePaths));
  }

  lemma GainedFromNothing(root: seq<Entry>, assets: Assets)
    requires Gained(map[], assets, root, [])
    ensures assets.Keys == Files(root) && |assets| == |Files(root)|
    ensures forall path :: path in assets ==> Holds(root, [], path, assets[path])
  {
    hide Entries;
    forall path ensures path in assets <==> path in Files(root) {
      if path in assets {
        assert Has(assets, path, assets[path]);
        assert Holds(root, [], path, assets[path]);
      }
      if path in Files(root) {
        var entry :| entry in Entries(root, []) && entry.1.File? && entry.0 == path;
        Below(root, [], entry);
        assert Holds(root, [], path, entry.1.content);
        assert Has(assets, path, entry.1.content);
      }
    }
    forall path | path in assets ensures Holds(root, [], path, assets[path]) {
      assert Has(assets, path, assets[path]);
    }
    assert |assets| == |assets.Keys|;
  }

  /** The paths a declared set of files accounts for: the two documents, the files, their parents. */
  ghost function Expected(declared: set<Path>): set<Path>
  {
    {DESCRIPTOR, MANIFEST} + declared
    + set path, k | path in declared && 0 < k < |path| :: path[..k]
  }

  function AsSet(s: seq<Path>): set<Path> {
    set path | path in s
  }

  /** The parent closure as it is computed, name by name and parent by parent. */
  method ExpectedPaths(declared: seq<Path>) returns (expected: set<Path>)
    requires forall path :: path in declared ==> path != []
    ensures expected == Expected(AsSet(declared))
  {
    expected := {DESCRIPTOR, MANIFEST};
    for i := 0 to |declared|
      invariant expected == Expected(AsSet(declared[..i]))
    {
      var name := declared[i];
      assert name in declared;
      ghost var before := expected;
      expected := expected + {name};
      var parent := Init(name);
      while parent != []
        invariant |parent| < |name| && parent == name[..|parent|]
        invariant expected == before + {name} + set k | |parent| < k < |name| :: name[..k]
      {
        expected := expected + {parent};
        parent := Init(parent);
      }
      ExpectedSnoc(declared, i);
    }
    assert declared[..|declared|] == declared;
  }

  lemma ExpectedSnoc(declared: seq<Path>, i: nat)
    requires i < |declared|
    ensures Expected(AsSet(declared[..i + 1]))
            == Expected(AsSet(declared[..i])) + {declared[i]} + set k | 0 < k < |declared[i]| :: declared[i][..k]
  {
    var a, b := AsSet(declared[..i]), AsSet(declared[..i + 1]);
    assert b == a + {declared[i]};
  }

  /** Every directory holds, at some depth, a declared file. */
  ghost predicate NoIdleDirectory(root: seq<Entry>, declared: set<Path>) {
    forall d :: d in Directories(root) ==> exists path :: path in declared && d < path
  }

  /**
   * Given that its files are the declared ones and the two documents, a tree has exactly the
   * paths of the parent closure if and only if none of its directories is idle.
   */
  lemma PathsMatch(root: seq<Entry>, declared: set<Path>)
    requires Named(root) && (forall entry :: entry in Entries(root, []) ==> entry.1.File? || entry.1.Directory?)
    requires Files(root) == declared + {DESCRIPTOR, MANIFEST}
    ensures Paths(root, []) == Expected(declared) <==> NoIdleDirectory(root, declared)
  {
    hide Entries, Named;
    if Paths(root, []) == Expected(declared) {
      forall d | d in Directories(root) ensures exists path :: path in declared && d < path {
        DirectoryIsNoFile(root, d);
        assert d in Paths(root, []);
        var path, k :| path in declared && 0 < k < |path| && d == path[..k];
      }
    }
    if NoIdleDirectory(root, declared) {
      forall path | path in Paths(root, []) ensures path in Expected(declared) {
        var entry :| entry in Entries(root, []) && entry.0 == path;
        Below(root, [], entry);
        if entry.1.Directory? {
          assert path in Directories(root);
          var file :| file in declared && path < file;
          assert path == file[..|path|];
        } else {
          assert path in Files(root);
        }
      }
      forall path | path in Expected(declared) ensures path in Paths(root, []) {
        if path in Files(root) {
        } else {
          var file, k :| file in declared && 0 < k < |file| && path == file[..k];
          assert file in Files(root);
          var entry :| entry in Entries(root, []) && entry.0 == file;
          ParentsAreDirectories(root, [], entry, k);
        }
      }
    }
  }

  lemma DirectoryIsNoFile(root: seq<Entry>, d: Path)
    requires Named(root) && d in Directories(root)
    ensures d !in Files(root)
  {
    hide Entries, Named;
    var entry :| entry in Entries(root, []) && entry.1.Directory? && entry.0 == d;
    if d in Files(root) {
      var file :| file in Entries(root, []) && file.1.File? && file.0 == d;
      OneEntry(root, [], entry, file);
    }
  }

  /** A file is not what another path of the tree begins with. */
  lemma FileIsNoBeginning(root: seq<Entry>, file: Path, path: Path)
    requires Named(root) && file in Files(root) && path in Paths(root, [])
    ensures !(file < path)
  {
    hide Entries, Named;
    var entry :| entry in Entries(root, []) && entry.0 == path;
    var own :| own in Entries(root, []) && own.1.File? && own.0 == file;
    Below(root, [], own);
    if file < path {
      ParentsAreDirectories(root, [], entry, |file|);
      var d :| d in Entries(root, []) && d.0 == path[..|file|] && d.1.Directory?;
      OneEntry(root, [], d, own);
    }
  }

  /**
   * Exactly when the paths alone decide: if they are the expected ones, the files are the
   * declared ones and the two documents iff no directory has the name of one of those.
   */
  lemma PathsDecide(root: seq<Entry>, declared: set<Path>)
    requires Named(root) && (forall entry :: entry in Entries(root, []) ==> entry.1.File? || entry.1.Directory?)
    requires Paths(root, []) == Expected(declared)
    ensures Files(root) == declared + {DESCRIPTOR, MANIFEST} <==> Directories(root) !! declared + {DESCRIPTOR, MANIFEST}
  {
    hide Entries, Named;
    var named := declared + {DESCRIPTOR, MANIFEST};
    if Files(root) == named {
      forall d | d in Directories(root) ensures d !in named {
        DirectoryIsNoFile(root, d);
      }
    }
    if Directories(root) !! named {
      forall path | path in Files(root) ensures path in named {
        FileIsExpected(root, declared, path);
      }
      forall path | path in named ensures path in Files(root) {
        assert path in Paths(root, []);
        var entry :| entry in Entries(root, []) && entry.0 == path;
        assert entry.1.Directory? ==> path in Directories(root);
      }
    }
  }

  lemma FileIsExpected(root: seq<Entry>, declared: set<Path>, path: Path)
    requires Named(root) && Paths(root, []) == Expected(declared) && path in Files(root)
    ensures path in declared + {DESCRIPTOR, MANIFEST}
  {
    hide Entries, Named;
    assert path in Paths(root, []);
    if path !in declared + {DESCRIPTOR, MANIFEST} {
      var file, k :| file in declared && 0 < k < |file| && path == file[..k];
      assert file in Expected(declared);
      FileIsNoBeginning(root, path, file);
    }
  }

  /** The whole inventory: what the paths and the names of directories say is what files and idle directories say. */
  lemma InventoryExact(root: seq<Entry>, declared: set<Path>)
    requires Named(root) && (forall entry :: entry in Entries(root, []) ==> entry.1.File? || entry.1.Directory?)
    ensures Paths(root, []) == Expected(declared) && Directories(root) !! declared + {DESCRIPTOR, MANIFEST} <==>
            Files(root) == declared + {DESCRIPTOR, MANIFEST} && NoIdleDirectory(root, declared)
  {
    hide Entries, Named, Expected, NoIdleDirectory, Paths, Files, Directories;
    if Paths(root, []) == Expected(declared) {
      PathsDecide(root, declared);
    }
    if Files(root) == declared + {DESCRIPTOR, MANIFEST} {
      PathsMatch(root, declared);
    }
  }

  /** What the loader checks of the tree's names: the documents, the manifest's files, the paths. */
  method AdmitTree(root: seq<Entry>, declared: seq<Path>) returns (r: Option<Assets>)
    requires Named(root) && forall path :: path in declared ==> path != []
    ensures r.Some? <==>
            var names := AsSet(declared);
            && Readable(root) && names != {} && DESCRIPTOR !in names && MANIFEST !in names
            && Files(root) == names + {DESCRIPTOR, MANIFEST} && NoIdleDirectory(root, names)
    ensures r.Some? ==> r.value.Keys == AsSet(declared)
    ensures r.Some? ==> forall path :: path in r.value ==> Holds(root, [], path, r.value[path])
  {
    hide Entries, Size, Sound, Named, Expected, NoIdleDirectory;
    var read := ReadTree(root);
    if read.None? {
      return None;
    }
    var (tree, packagePaths) := read.value;
    OnlyFilesAndDirectories(root);
    ghost var names := AsSet(declared);
    if DESCRIPTOR !in tree || MANIFEST !in tree {
      return None;
    }
    var assets := tree - {DESCRIPTOR, MANIFEST};
    if assets.Keys != AsSet(declared) || declared == [] {
      return None;
    }
    assert declared[0] in names;
    assert Files(root) == names + {DESCRIPTOR, MANIFEST};
    PathsMatch(root, names);
    var expected := ExpectedPaths(declared);
    if packagePaths != expected {
      return None;
    }
    return Some(assets);
  }

  lemma OnlyFilesAndDirectories(root: seq<Entry>)
    requires Sound(root, 0)
    ensures forall entry :: entry in Entries(root, []) ==> entry.1.File? || entry.1.Directory?
  {
    forall entry | entry in Entries(root, []) ensures entry.1.File? || entry.1.Directory? {
      SoundEverywhere(root, [], 0, entry);
    }
  }

  lemma {:induction false} SoundEverywhere(children: seq<Entry>, prefix: Path, depth: nat, item: (Path, Entry))
    requires Sound(children, depth) && item in Entries(children, prefix)
    ensures item.1.File? || item.1.Directory?
    decreases children
  {
    hide Entries;
    EntriesMember(children, prefix, item);
    var e :| e in children && item in Under(e, prefix);
    var i :| 0 <= i < |children| && children[i] == e;
    assert SoundEntry(children[i], depth);
    if item != (prefix + [e.name], e) {
      SoundEverywhere(children[i].children, prefix + [e.name], depth + 1, item);
    }
  }

  /** An empty directory where a file was declared. */
  const EMPTY_DATA := Directory("data", [])

  const MISLEADING := [EMPTY_DATA, File("descriptor.json", []), File("manifest.json", [])]

  lemma MisleadingEntries()
    ensures Entries(MISLEADING, [])
            == {(["data"], EMPTY_DATA), (DESCRIPTOR, MISLEADING[1]), (MANIFEST, MISLEADING[2])}
    ensures Size(MISLEADING) == 0
  {
    var a, b, c := EMPTY_DATA, MISLEADING[1], MISLEADING[2];
    EntriesSnoc([], a, []);
    EntriesSnoc([a], b, []);
    EntriesSnoc([a, b], c, []);
    assert [] + [a] == [a] && [a] + [b] == [a, b] && [a, b] + [c] == MISLEADING;
    assert [] + ["data"] == ["data"] && [] + ["descriptor.json"] == DESCRIPTOR && [] + ["manifest.json"] == MANIFEST;
    OneSize(a);
    OneSize(b);
    OneSize(c);
  }

  lemma PlainNames()
    ensures CanonicalPart("data") && CanonicalPart("descriptor.json") && CanonicalPart("manifest.json")
  {
  }

  lemma MisleadingSound()
    ensures Named(MISLEADING) && Sound(MISLEADING, 0)
  {
    hide CanonicalPart;
    PlainNames();
    assert Sound(EMPTY_DATA.children, 1);
    forall i | 0 <= i < 3 ensures SoundEntry(MISLEADING[i], 0) {
      assert i == 0 || i == 1 || i == 2;
    }
  }

  lemma MisleadingPaths()
    ensures Paths(MISLEADING, []) == {["data"], DESCRIPTOR, MANIFEST}
    ensures Files(MISLEADING) == {DESCRIPTOR, MANIFEST} && ["data"] in Directories(MISLEADING)
  {
    hide Entries, Size;
    MisleadingEntries();
    assert (["data"], EMPTY_DATA) in Entries(MISLEADING, []);
  }

  lemma TopLevelExpected(name: string)
    ensures Expected({[name]}) == {[name], DESCRIPTOR, MANIFEST}
  {
  }

  /** The paths alone would not do: an empty directory in place of a declared file has the same ones. */
  lemma PathsAloneMislead()
    ensures var declared: set<Path> := {["data"]};
            && Named(MISLEADING) && Readable(MISLEADING) && Paths(MISLEADING, []) == Expected(declared)
            && Files(MISLEADING) != declared + {DESCRIPTOR, MANIFEST} && !NoIdleDirectory(MISLEADING, declared)
  {
    hide Entries, Size, Sound, Named, CanonicalPart, Paths, Files, Directories, Expected;
    MisleadingEntries();
    MisleadingSound();
    MisleadingPaths();
    TopLevelExpected("data");
    assert |{DESCRIPTOR, MANIFEST}| <= 2 && |{["data"], DESCRIPTOR, MANIFEST}| <= 3;
    var data: Path := ["data"];
    assert data in {data} + {DESCRIPTOR, MANIFEST};
    assert data !in {DESCRIPTOR, MANIFEST} by {
      assert |data[0]| != |DESCRIPTOR[0]| && |data[0]| != |MANIFEST[0]|;
    }
  }
}
