/** Saving and loading back: what every saved image keeps while later images are saved, and what loading restores. */
module SeparatorProofs {
  import opened Basics
  import opened Strings
  import opened Separator

  function Elems(s: seq<string>): set<string> { set x | x in s }

  function Restrict(d: Dir, names: set<string>): Dir { map x | x in names && x in d :: d[x] }

  function LibOf(info: ImageInfo): seq<string> { if info.lib.None? then [] else info.lib.value }

  /** A name without a path separator. */
  predicate Single(name: string) { LastElem(name) == name }

  /** The name of a file that can be created. */
  predicate Plain(name: string) { Single(name) && Writable(name) }

  // ---------- the loop over base and lib layers ----------

  lemma {:induction false} MoveOne(u: Dir, done: set<string>, x: string)
    requires x in u && x !in done
    ensures Move(u - done, Restrict(u, done), x) == Ok((u - (done + {x}), Restrict(u, done + {x})))
  {
    assert u - done - {x} == u - (done + {x});
    assert Restrict(u, done)[x := u[x]] == Restrict(u, done + {x});
  }

  /** `seen` is `seen0` with the layers in `done` recorded under `path`. */
  ghost predicate Recorded(seen0: map<string, Path>, seen: map<string, Path>, done: set<string>, path: Path) {
    && (forall x :: x in seen <==> x in seen0 || x in done)
    && (forall x :: x in seen ==> seen[x] == if x in done then path else seen0[x])
  }

  /** After moving the layers in `done`, none of them saved before, into the empty directory of `st0`. */
  ghost predicate FreshInv(s: Saver, name: string, st0: Share, st: Share, done: set<string>) {
    && done <= st0.untar.Keys && st.untar == st0.untar - done && st.dir == Restrict(st0.untar, done)
    && Recorded(st0.seen, st.seen, done, PathIn(s.dest, name))
    && (if done == {} then st == st0
        else && st.files == st0.files[PathIn(s.dest, name) := st.dir] && st.tar == name && st.hash == s.sum(st.dir)
             && Writable(name))
  }

  lemma {:induction false} FreshStep(s: Saver, name: string, x: string, st0: Share, st: Share, done: set<string>)
    requires FreshInv(s, name, st0, st, done) && Single(name) && x !in st0.seen
    requires ShareLayer(s, name, x, st).Ok?
    ensures FreshInv(s, name, st0, ShareLayer(s, name, x, st).value, done + {x})
  {
    if x in done {
      assert done + {x} == done;
    } else {
      MoveOne(st0.untar, done, x);
    }
  }

  /** Layers none of which was saved before: they all end up in one new tarball. */
  lemma {:induction false} ShareFresh(s: Saver, name: string, layers: seq<string>, st0: Share, st: Share, done: set<string>)
    requires FreshInv(s, name, st0, st, done) && Single(name)
    requires ShareLayers(s, name, layers, st).Ok?
    requires forall x :: x in layers ==> x !in st0.seen
    ensures FreshInv(s, name, st0, ShareLayers(s, name, layers, st).value, done + Elems(layers))
    decreases |layers|
  {
    hide FreshInv;
    if layers == [] {
      assert done + Elems(layers) == done;
    } else {
      var x := layers[0];
      FreshStep(s, name, x, st0, st, done);
      ShareFresh(s, name, layers[1..], st0, ShareLayer(s, name, x, st).value, done + {x});
      assert done + {x} + Elems(layers[1..]) == done + Elems(layers) by { assert layers == [x] + layers[1..]; }
    }
  }

  /** Layers all of which were saved before in one tarball: the entry points at it and nothing else changes. */
  lemma {:induction false} ShareSeen(s: Saver, name: string, layers: seq<string>, st: Share, n: string)
    requires Plain(n) && PathIn(s.dest, n) in st.files
    requires forall x :: x in layers ==> x in st.seen && st.seen[x] == PathIn(s.dest, n)
    ensures ShareLayers(s, name, layers, st)
         == Ok(if layers == [] then st else st.(tar := n, hash := s.sum(st.files[PathIn(s.dest, n)])))
    decreases |layers|
  {
    if layers != [] {
      var st1 := ShareLayer(s, name, layers[0], st).value;
      ShareSeen(s, name, layers[1..], st1, n);
    }
  }

  /** The tarball `n` holds exactly the given layers, as they were unpacked. */
  ghost predicate Holds(s: Saver, files: Files, n: string, layers: seq<string>, untar0: Dir) {
    && Plain(n) && PathIn(s.dest, n) in files && Elems(layers) <= untar0.Keys
    && files[PathIn(s.dest, n)] == Restrict(untar0, Elems(layers))
  }

  ghost predicate InOneTar(s: Saver, seen: map<string, Path>, files: Files, layers: seq<string>, untar0: Dir) {
    layers != [] ==>
      exists n :: Holds(s, files, n, layers, untar0) && forall x :: x in layers ==> x in seen && seen[x] == PathIn(s.dest, n)
  }

  /** The saved lists are exactly what `seen` records, and each list sits in one tarball. */
  ghost predicate Groups(s: Saver, seen: map<string, Path>, files: Files, lists: seq<seq<string>>, untar0: Dir) {
    && (forall i :: 0 <= i < |lists| ==> InOneTar(s, seen, files, lists[i], untar0))
    && (forall x :: x in seen ==> exists i :: 0 <= i < |lists| && x in lists[i])
  }

  predicate SameOrDisjoint(a: seq<string>, b: seq<string>) {
    a == b || Elems(a) !! Elems(b)
  }

  function Union(lists: seq<seq<string>>): set<string> { set i, x | 0 <= i < |lists| && x in lists[i] :: x }

  /** The entry's tarball name and digest after the loop: nothing for an empty list. */
  ghost predicate Points(s: Saver, files: Files, tar: string, hash: string, layers: seq<string>, untar0: Dir) {
    if layers == [] then tar == "" && hash == ""
    else Holds(s, files, tar, layers, untar0) && hash == s.sum(files[PathIn(s.dest, tar)])
  }

  /** Groups survive new tarballs and new layers, and take in one more list. */
  lemma {:induction false} GroupsGrow(s: Saver, seen: map<string, Path>, files: Files, lists: seq<seq<string>>, untar0: Dir,
                   seen': map<string, Path>, files': Files, layers: seq<string>)
    requires Groups(s, seen, files, lists, untar0) && InOneTar(s, seen', files', layers, untar0)
    requires forall p :: p in files ==> p in files' && files'[p] == files[p]
    requires forall x :: x in seen ==> x in seen' && seen'[x] == seen[x]
    requires forall x :: x in seen' ==> x in seen || x in layers
    ensures Groups(s, seen', files', lists + [layers], untar0)
  {
    var more := lists + [layers];
    forall i | 0 <= i < |more| ensures InOneTar(s, seen', files', more[i], untar0) {
      if i < |lists| && lists[i] != [] {
        assert InOneTar(s, seen, files, lists[i], untar0);
        var n :| Holds(s, files, n, lists[i], untar0)
                 && forall x :: x in lists[i] ==> x in seen && seen[x] == PathIn(s.dest, n);
        assert Holds(s, files', n, more[i], untar0);
      }
    }
    forall x | x in seen' ensures exists i :: 0 <= i < |more| && x in more[i] {
      if x in seen {
        var i :| 0 <= i < |lists| && x in lists[i];
        assert x in more[i];
      } else {
        assert x in more[|lists|];
      }
    }
  }

  /** The maps grow, the layers of the list are in the tarball the entry names, and a new list is in a new tarball. */
  ghost predicate Filed(s: Saver, name: string, layers: seq<string>, lists: seq<seq<string>>, seen0: map<string, Path>,
                        seen: map<string, Path>, tar: string)
  {
    && (forall x :: x in seen0 ==> x in seen && seen[x] == seen0[x])
    && (forall x :: x in layers ==> x in seen && seen[x] == PathIn(s.dest, tar))
    && (layers != [] && layers !in lists ==> tar == name)
  }

  /** One whole loop over base or lib layers keeps the groups, takes the layers out and points the entry at them. */
  ghost predicate PhaseDone(s: Saver, name: string, layers: seq<string>, st: Share, r: Share,
                            lists: seq<seq<string>>, gone: set<string>, untar0: Dir)
  {
    && r.untar == untar0 - (gone + Elems(layers))
    && Elems(layers) * gone <= Union(lists)
    && Groups(s, r.seen, r.files, lists + [layers], untar0)
    && Points(s, r.files, r.tar, r.hash, layers, untar0)
    && Extends(st.files, r.files, PathIn(s.dest, name))
    && Filed(s, name, layers, lists, st.seen, r.seen, r.tar)
  }

  /** At most the tarball at `p` is new. */
  ghost predicate Extends(files: Files, files': Files, p: Path) {
    && (forall q :: q in files ==> q in files' && files'[q] == files[q])
    && (forall q :: q in files' ==> q in files || (q == p && Writable(p.name)))
  }

  lemma {:induction false} SharePhase(s: Saver, name: string, layers: seq<string>, st: Share, lists: seq<seq<string>>,
                   gone: set<string>, untar0: Dir)
    requires ShareLayers(s, name, layers, st).Ok? && Single(name) && PathIn(s.dest, name) !in st.files
    requires st.untar == untar0 - gone && st.dir == map[] && st.tar == "" && st.hash == ""
    requires Groups(s, st.seen, st.files, lists, untar0) && Union(lists) <= gone
    requires forall i :: 0 <= i < |lists| ==> SameOrDisjoint(lists[i], layers)
    ensures PhaseDone(s, name, layers, st, ShareLayers(s, name, layers, st).value, lists, gone, untar0)
  {
    if layers == [] {
      hide Groups;
      assert gone + Elems(layers) == gone;
      GroupsGrow(s, st.seen, st.files, lists, untar0, st.seen, st.files, layers);
    } else if i :| 0 <= i < |lists| && lists[i] == layers {
      hide PhaseDone, Groups;
      SharePhaseSeen(s, name, layers, st, lists, gone, untar0, i);
    } else {
      hide PhaseDone, Groups;
      SharePhaseFresh(s, name, layers, st, lists, gone, untar0);
    }
  }

  lemma {:induction false} SharePhaseSeen(s: Saver, name: string, layers: seq<string>, st: Share, lists: seq<seq<string>>,
                       gone: set<string>, untar0: Dir, i: nat)
    requires ShareLayers(s, name, layers, st).Ok? && st.untar == untar0 - gone
    requires Groups(s, st.seen, st.files, lists, untar0) && Union(lists) <= gone
    requires i < |lists| && lists[i] == layers != []
    ensures PhaseDone(s, name, layers, st, ShareLayers(s, name, layers, st).value, lists, gone, untar0)
  {
    assert InOneTar(s, st.seen, st.files, lists[i], untar0);
    var n :| Holds(s, st.files, n, layers, untar0)
             && forall x :: x in layers ==> x in st.seen && st.seen[x] == PathIn(s.dest, n);
    ShareSeen(s, name, layers, st, n);
    assert Elems(layers) <= Union(lists);
    assert gone + Elems(layers) == gone;
    GroupsGrow(s, st.seen, st.files, lists, untar0, st.seen, st.files, layers);
  }

  lemma {:induction false} Unseen(s: Saver, seen: map<string, Path>, files: Files, lists: seq<seq<string>>, untar0: Dir, layers: seq<string>)
    requires Groups(s, seen, files, lists, untar0)
    requires forall i :: 0 <= i < |lists| ==> Elems(lists[i]) !! Elems(layers)
    ensures forall x :: x in layers ==> x !in seen
  {
    forall x | x in layers ensures x !in seen {
      assert x in Elems(layers);
      assert forall i :: 0 <= i < |lists| ==> x !in Elems(lists[i]);
    }
  }

  lemma {:induction false} FreshResult(s: Saver, name: string, layers: seq<string>, st: Share)
    requires ShareLayers(s, name, layers, st).Ok? && Single(name) && PathIn(s.dest, name) !in st.files
    requires st.dir == map[] && layers != [] && forall x :: x in layers ==> x !in st.seen
    ensures var r := ShareLayers(s, name, layers, st).value;
      && Elems(layers) <= st.untar.Keys && r.untar == st.untar - Elems(layers)
      && Holds(s, r.files, name, layers, st.untar) && r.tar == name && r.hash == s.sum(r.files[PathIn(s.dest, name)])
      && Recorded(st.seen, r.seen, Elems(layers), PathIn(s.dest, name))
      && Extends(st.files, r.files, PathIn(s.dest, name))
  {
    assert FreshInv(s, name, st, st, {});
    ShareFresh(s, name, layers, st, st, {});
    assert {} + Elems(layers) == Elems(layers);
    assert layers[0] in Elems(layers);
  }

  lemma {:induction false} SharePhaseFresh(s: Saver, name: string, layers: seq<string>, st: Share, lists: seq<seq<string>>,
                        gone: set<string>, untar0: Dir)
    requires ShareLayers(s, name, layers, st).Ok? && Single(name) && PathIn(s.dest, name) !in st.files
    requires st.untar == untar0 - gone && st.dir == map[]
    requires Groups(s, st.seen, st.files, lists, untar0)
    requires forall i :: 0 <= i < |lists| ==> Elems(lists[i]) !! Elems(layers)
    requires layers != []
    ensures PhaseDone(s, name, layers, st, ShareLayers(s, name, layers, st).value, lists, gone, untar0)
  {
    hide Groups, Restrict, Single, Writable, ShareLayers;
    var r := ShareLayers(s, name, layers, st).value;
    Unseen(s, st.seen, st.files, lists, untar0, layers);
    FreshResult(s, name, layers, st);
    FreshHolds(s, name, layers, r.files, untar0, gone);
    FreshFiled(s, name, layers, lists, st.seen, r.seen);
    assert untar0 - gone - Elems(layers) == untar0 - (gone + Elems(layers));
    hide Holds;
    assert InOneTar(s, r.seen, r.files, layers, untar0);
    GroupsGrow(s, st.seen, st.files, lists, untar0, r.seen, r.files, layers);
  }

  lemma {:induction false} FreshHolds(s: Saver, name: string, layers: seq<string>, files: Files, untar0: Dir, gone: set<string>)
    requires Holds(s, files, name, layers, untar0 - gone)
    ensures Holds(s, files, name, layers, untar0)
  {
    assert Restrict(untar0 - gone, Elems(layers)) == Restrict(untar0, Elems(layers));
  }

  lemma {:induction false} FreshFiled(s: Saver, name: string, layers: seq<string>, lists: seq<seq<string>>,
                                      seen0: map<string, Path>, seen: map<string, Path>)
    requires Recorded(seen0, seen, Elems(layers), PathIn(s.dest, name)) && forall x :: x in layers ==> x !in seen0
    ensures Filed(s, name, layers, lists, seen0, seen, name)
    ensures forall x :: x in seen ==> x in seen0 || x in layers
  {
    assert forall x :: x in layers <==> x in Elems(layers);
  }

  // ---------- the loop over app layers ----------

  ghost predicate AppInv(st0: Apps, st: Apps, done: seq<string>) {
    && st.untar == st0.untar - Elems(done) && st.dir == Restrict(st0.untar, Elems(done))
    && st.seen.Keys == st0.seen.Keys + Elems(done) && st.layers == st0.layers + done
    && st0.seen.Keys !! Elems(done)
  }

  lemma {:induction false} AppStep(path: Path, x: string, st0: Apps, st: Apps, done: seq<string>)
    requires AppInv(st0, st, done) && st0.seen.Keys !! st0.untar.Keys && AppLayer(path, x, st).Ok?
    ensures AppInv(st0, AppLayer(path, x, st).value, done + [x])
  {
    assert Elems(done + [x]) == Elems(done) + {x};
    if x in st0.untar {
      MoveOne(st0.untar, Elems(done), x);
    } else {
      assert st.untar == st0.untar - Elems(done + [x]);
      assert st.dir == Restrict(st0.untar, Elems(done + [x]));
    }
  }

  /** App layers still in the unpacked tree are moved; none was an app layer of an earlier image. */
  lemma {:induction false} AppAll(path: Path, layers: seq<string>, st0: Apps, st: Apps, done: seq<string>)
    requires AppInv(st0, st, done) && st0.seen.Keys !! st0.untar.Keys && AppLayers(path, layers, st).Ok?
    ensures AppInv(st0, AppLayers(path, layers, st).value, done + layers)
    decreases |layers|
  {
    hide AppInv;
    if layers == [] {
      assert done + layers == done;
    } else {
      AppStep(path, layers[0], st0, st, done);
      AppAll(path, layers[1..], st0, AppLayer(path, layers[0], st).value, done + [layers[0]]);
      assert done + [layers[0]] + layers[1..] == done + layers;
    }
  }

  // ---------- one image ----------

  function BaseLists(images: seq<ImageInfo>): seq<seq<string>> { seq(|images|, i requires 0 <= i < |images| => images[i].base) }
  function LibLists(images: seq<ImageInfo>): seq<seq<string>> { seq(|images|, i requires 0 <= i < |images| => LibOf(images[i])) }
  function AppLists(images: seq<ImageInfo>): seq<seq<string>> { seq(|images|, i requires 0 <= i < |images| => images[i].app) }
  function Configs(images: seq<ImageInfo>): set<string> { set i | 0 <= i < |images| :: images[i].config }

  /** Every entry that saving the given images takes out of the unpacked tree. */
  function Touched(images: seq<ImageInfo>): set<string> {
    Union(BaseLists(images)) + Union(LibLists(images)) + Union(AppLists(images)) + Configs(images)
  }

  /** What is gone from the unpacked tree when the app layers of `info` are about to be moved. */
  function GoneBeforeApp(before: seq<ImageInfo>, info: ImageInfo): set<string> {
    Touched(before) + Elems(info.base) + Elems(LibOf(info))
  }

  function WithFiles(d: Dir, info: ImageInfo, untar0: Dir): Dir
    requires info.config in untar0
  {
    d[MANIFEST_DATA_FILE := ManifestFile(info.config, info.all, info.repoTags)]
     [REPOSITORIES_FILE := RepositoriesFile(info.name, info.tag, info.topLayer)]
     [info.config := untar0[info.config]]
  }

  /** The contents of the app tarball of `info`, saved after the images in `before`. */
  function AppDir(before: seq<ImageInfo>, info: ImageInfo, untar0: Dir): Dir
    requires info.config in untar0
  {
    WithFiles(Restrict(untar0 - GoneBeforeApp(before, info), Elems(info.app)), info, untar0)
  }

  const Suffixes := {BASE_SUFFIX, LIB_SUFFIX, APP_SUFFIX}

  /** The tarball names of `info` are file names, differ, and are not in use by an image in `before`. */
  ghost predicate NamesAdmissible(s: Saver, before: seq<ImageInfo>, info: ImageInfo) {
    && (forall a :: a in Suffixes ==> Single(TarName(s, info, a)))
    && (forall a, b :: a in Suffixes && b in Suffixes && TarName(s, info, a) == TarName(s, info, b) ==> a == b)
    && (forall i, a, b :: 0 <= i < |before| && a in Suffixes && b in Suffixes ==> TarName(s, before[i], a) != TarName(s, info, b))
  }

  /**
  Two base lists, or two lib lists, are the same or share nothing, image names differ, and the two fixed file names
  are used for nothing else.
  */
  ghost predicate LayersAdmissible(before: seq<ImageInfo>, info: ImageInfo) {
    && (forall i :: 0 <= i < |before| ==>
          && SameOrDisjoint(before[i].base, info.base) && SameOrDisjoint(LibOf(before[i]), LibOf(info))
          && before[i].nameTag != info.nameTag)
    && (forall x :: x in {MANIFEST_DATA_FILE, REPOSITORIES_FILE} ==>
          x != info.config && x !in info.base && x !in LibOf(info) && x !in info.app)
  }

  /** What the caller must see to before saving `info` after `before`. */
  ghost predicate Admissible(s: Saver, before: seq<ImageInfo>, info: ImageInfo) {
    NamesAdmissible(s, before, info) && LayersAdmissible(before, info)
  }

  /** List i does not occur earlier. */
  predicate FirstAt(lists: seq<seq<string>>, i: nat) { i < |lists| && lists[i] !in lists[..i] }

  /** Every list is in the tarball of the first image that has it. */
  ghost predicate Named(s: Saver, images: seq<ImageInfo>, suffix: string, lists: seq<seq<string>>, seen: map<string, Path>) {
    |lists| == |images| &&
    forall i, x :: 0 <= i < |lists| && x in lists[i] && FirstAt(lists, i) ==>
      x in seen && seen[x] == PathIn(s.dest, TarName(s, images[i], suffix))
  }

  /** `tar` is the tarball name of the first image with the given list. */
  ghost predicate OwnerTar(s: Saver, images: seq<ImageInfo>, suffix: string, lists: seq<seq<string>>, layers: seq<string>,
                           tar: string)
  {
    |lists| == |images| &&
    forall i :: 0 <= i < |lists| && lists[i] == layers && FirstAt(lists, i) ==> tar == TarName(s, images[i], suffix)
  }

  lemma {:induction false} NamedGrows(s: Saver, images: seq<ImageInfo>, info: ImageInfo, suffix: string, lists: seq<seq<string>>,
                                      layers: seq<string>, seen0: map<string, Path>, seen: map<string, Path>, tar: string)
    requires Named(s, images, suffix, lists, seen0)
    requires Filed(s, TarName(s, info, suffix), layers, lists, seen0, seen, tar)
    ensures Named(s, images + [info], suffix, lists + [layers], seen)
    ensures layers != [] ==> OwnerTar(s, images + [info], suffix, lists + [layers], layers, tar)
  {
    hide TarName;
    var all, more := images + [info], lists + [layers];
    forall i, x | 0 <= i < |more| && x in more[i] && FirstAt(more, i)
      ensures x in seen && seen[x] == PathIn(s.dest, TarName(s, all[i], suffix))
    {
      if i < |lists| {
        assert more[..i] == lists[..i] && more[i] == lists[i] && FirstAt(lists, i);
      } else {
        assert more[..i] == lists;
      }
    }
    if layers != [] {
      forall i | 0 <= i < |more| && more[i] == layers && FirstAt(more, i)
        ensures tar == TarName(s, all[i], suffix)
      {
        assert layers[0] in more[i];
        if i < |lists| { assert more[..i] == lists[..i] && more[i] == lists[i] && FirstAt(lists, i); }
      }
    }
  }

  /** The manifest entry of a saved image and the three tarballs it names. */
  ghost predicate Good(s: Saver, before: seq<ImageInfo>, info: ImageInfo, untar0: Dir, files: Files, t: Tarball) {
    && Points(s, files, t.baseTar, t.baseHash, info.base, untar0)
    && Points(s, files, t.libTar, t.libHash, LibOf(info), untar0)
    && info.config in untar0 && info.config !in GoneBeforeApp(before, info) && info.config !in info.app
    && Elems(info.base) !! Elems(LibOf(info)) && Union(AppLists(before)) !! Elems(info.app)
    && Plain(t.appTar) && PathIn(s.dest, t.appTar) in files
    && files[PathIn(s.dest, t.appTar)] == AppDir(before, info, untar0)
    && t.appHash == s.sum(files[PathIn(s.dest, t.appTar)])
    && t.appLayers == info.app && t.libLayers == LibOf(info)
    && TarNames(s, before, info, t) && Labels(s, info, t)
  }

  /** What a manifest entry says about base and lib: the images they are from, and the base layer. */
  predicate Labels(s: Saver, info: ImageInfo, t: Tarball) {
    && t.baseImage == s.base && t.baseLayer == (if info.base == [] then "" else info.base[0])
    && t.libImage == (if info.lib.None? then "" else s.lib)
  }

  /** The names in a manifest entry: base and lib are shared with the first image that has them, app is its own. */
  ghost predicate TarNames(s: Saver, before: seq<ImageInfo>, info: ImageInfo, t: Tarball) {
    && (info.base != [] ==> OwnerTar(s, before + [info], BASE_SUFFIX, BaseLists(before + [info]), info.base, t.baseTar))
    && (LibOf(info) != [] ==> OwnerTar(s, before + [info], LIB_SUFFIX, LibLists(before + [info]), LibOf(info), t.libTar))
    && t.appTar == TarName(s, info, APP_SUFFIX)
  }

  ghost predicate FilesOwned(s: Saver, images: seq<ImageInfo>, files: Files) {
    && (forall p :: p in files ==> Writable(p.name))
    && forall p :: p in files ==> exists i, a :: 0 <= i < |images| && a in Suffixes && p == PathIn(s.dest, TarName(s, images[i], a))
  }

  /** The state between two images: `images` have been saved. */
  ghost predicate Inv(s: Saver, images: seq<ImageInfo>, untar0: Dir, w: Work, seen: Seen) {
    && w.untar == untar0 - Touched(images)
    && Groups(s, seen.base, w.files, BaseLists(images), untar0)
    && Groups(s, seen.lib, w.files, LibLists(images), untar0)
    && seen.app.Keys == Union(AppLists(images))
    && Union(BaseLists(images)) !! Union(LibLists(images))
    && FilesOwned(s, images, w.files)
    && Named(s, images, BASE_SUFFIX, BaseLists(images), seen.base) && Named(s, images, LIB_SUFFIX, LibLists(images), seen.lib)
  }

  lemma {:induction false} TouchedOneMore(images: seq<ImageInfo>, info: ImageInfo)
    ensures BaseLists(images + [info]) == BaseLists(images) + [info.base]
    ensures LibLists(images + [info]) == LibLists(images) + [LibOf(info)]
    ensures AppLists(images + [info]) == AppLists(images) + [info.app]
    ensures Configs(images + [info]) == Configs(images) + {info.config}
  {
    forall x | x in Configs(images) + {info.config} ensures x in Configs(images + [info]) {
      if x in Configs(images) {
        var i :| 0 <= i < |images| && images[i].config == x;
        assert (images + [info])[i].config == x;
      } else {
        assert (images + [info])[|images|].config == x;
      }
    }
  }

  lemma {:induction false} UnionOneMore(lists: seq<seq<string>>, l: seq<string>)
    ensures Union(lists + [l]) == Union(lists) + Elems(l)
  {
    forall x | x in Union(lists) + Elems(l) ensures x in Union(lists + [l]) {
      if x in Union(lists) {
        var i :| 0 <= i < |lists| && x in lists[i];
        assert x in (lists + [l])[i];
      } else {
        assert x in (lists + [l])[|lists|];
      }
    }
  }

  lemma {:induction false} GroupsKeep(s: Saver, seen: map<string, Path>, files: Files, lists: seq<seq<string>>, untar0: Dir,
                   files': Files, p: Path)
    requires Groups(s, seen, files, lists, untar0) && Extends(files, files', p)
    ensures Groups(s, seen, files', lists, untar0)
  {
    forall i | 0 <= i < |lists| ensures InOneTar(s, seen, files', lists[i], untar0) {
      if lists[i] != [] {
        assert InOneTar(s, seen, files, lists[i], untar0);
        var n :| Holds(s, files, n, lists[i], untar0)
                 && forall x :: x in lists[i] ==> x in seen && seen[x] == PathIn(s.dest, n);
        assert Holds(s, files', n, lists[i], untar0);
      }
    }
  }

  lemma {:induction false} PointsKeep(s: Saver, files: Files, tar: string, hash: string, layers: seq<string>, untar0: Dir,
                   files': Files, p: Path)
    requires Points(s, files, tar, hash, layers, untar0) && Extends(files, files', p)
    ensures Points(s, files', tar, hash, layers, untar0)
  {
  }

  /** A tarball name of the next image is not taken yet. */
  lemma {:induction false} NameFree(s: Saver, before: seq<ImageInfo>, info: ImageInfo, files: Files, a: string)
    requires FilesOwned(s, before, files) && Admissible(s, before, info) && a in Suffixes
    ensures PathIn(s.dest, TarName(s, info, a)) !in files
  {
  }

  lemma {:induction false} BasePhase(s: Saver, before: seq<ImageInfo>, info: ImageInfo, untar0: Dir, w: Work, seen: Seen)
    requires Inv(s, before, untar0, w, seen) && Admissible(s, before, info) && w.base == map[]
    requires ProcessBase(s, info, w, seen.base, NoTarball).Ok?
    ensures var (w1, base, t) := ProcessBase(s, info, w, seen.base, NoTarball).value;
      && w1 == w.(untar := w1.untar, base := w1.base, files := w1.files)
      && t == NoTarball.(baseTar := t.baseTar, baseHash := t.baseHash, baseImage := s.base, baseLayer := t.baseLayer)
      && t.baseLayer == (if info.base == [] then "" else info.base[0])
      && w1.untar == untar0 - (Touched(before) + Elems(info.base))
      && Elems(info.base) * Touched(before) <= Union(BaseLists(before))
      && Groups(s, base, w1.files, BaseLists(before) + [info.base], untar0)
      && Groups(s, seen.lib, w1.files, LibLists(before), untar0)
      && Points(s, w1.files, t.baseTar, t.baseHash, info.base, untar0)
      && Extends(w.files, w1.files, PathIn(s.dest, TarName(s, info, BASE_SUFFIX)))
      && Filed(s, TarName(s, info, BASE_SUFFIX), info.base, BaseLists(before), seen.base, base, t.baseTar)
  {
    var name := TarName(s, info, BASE_SUFFIX);
    NameFree(s, before, info, w.files, BASE_SUFFIX);
    var st := Share(w.untar, w.base, w.files, seen.base, "", "");
    SharePhase(s, name, info.base, st, BaseLists(before), Touched(before), untar0);
    GroupsKeep(s, seen.lib, w.files, LibLists(before), untar0, ShareLayers(s, name, info.base, st).value.files, PathIn(s.dest, name));
  }

  lemma {:induction false} LibPhase(s: Saver, before: seq<ImageInfo>, info: ImageInfo, untar0: Dir, w: Work, seen: map<string, Path>, t: Tarball)
    requires w.untar == untar0 - (Touched(before) + Elems(info.base)) && w.lib == map[]
    requires Groups(s, seen, w.files, LibLists(before), untar0) && Admissible(s, before, info)
    requires PathIn(s.dest, TarName(s, info, LIB_SUFFIX)) !in w.files
    requires t.libTar == "" && t.libHash == "" && t.libLayers == []
    requires ProcessLib(s, info, w, seen, t).Ok?
    ensures var (w2, lib, t2) := ProcessLib(s, info, w, seen, t).value;
      && w2 == w.(untar := w2.untar, lib := w2.lib, files := w2.files)
      && t2 == t.(libTar := t2.libTar, libHash := t2.libHash, libImage := t2.libImage, libLayers := LibOf(info))
      && t2.libImage == (if info.lib.None? then t.libImage else s.lib)
      && w2.untar == untar0 - GoneBeforeApp(before, info)
      && Elems(LibOf(info)) * (Touched(before) + Elems(info.base)) <= Union(LibLists(before))
      && Groups(s, lib, w2.files, LibLists(before) + [LibOf(info)], untar0)
      && Points(s, w2.files, t2.libTar, t2.libHash, LibOf(info), untar0)
      && Extends(w.files, w2.files, PathIn(s.dest, TarName(s, info, LIB_SUFFIX)))
      && Filed(s, TarName(s, info, LIB_SUFFIX), LibOf(info), LibLists(before), seen, lib, t2.libTar)
  {
    hide Groups, Points, TarName, Union, Configs, BaseLists, AppLists;
    var name := TarName(s, info, LIB_SUFFIX);
    var st := Share(w.untar, w.lib, w.files, seen, "", "");
    assert ShareLayers(s, name, LibOf(info), st).Ok?;
    SharePhase(s, name, LibOf(info), st, LibLists(before), Touched(before) + Elems(info.base), untar0);
  }

  lemma {:induction false} AppMoved(path: Path, layers: seq<string>, untar: Dir, seen: map<string, Path>)
    requires seen.Keys !! untar.Keys && AppLayers(path, layers, Apps(untar, map[], seen, [])).Ok?
    ensures var r := AppLayers(path, layers, Apps(untar, map[], seen, [])).value;
      && r.untar == untar - Elems(layers) && r.dir == Restrict(untar, Elems(layers))
      && r.seen.Keys == seen.Keys + Elems(layers) && r.layers == layers && seen.Keys !! Elems(layers)
  {
    var st := Apps(untar, map[], seen, []);
    assert AppInv(st, st, []);
    AppAll(path, layers, st, st, []);
    assert [] + layers == layers;
  }

  lemma {:induction false} AppPhase(s: Saver, before: seq<ImageInfo>, info: ImageInfo, untar0: Dir, w: Work, seen: map<string, Path>, t: Tarball)
    requires w.untar == untar0 - GoneBeforeApp(before, info) && w.app == map[]
    requires seen.Keys == Union(AppLists(before)) && t.appLayers == []
    requires ProcessApp(s, info, w, seen, t).Ok?
    ensures var (w3, app, t3) := ProcessApp(s, info, w, seen, t).value;
      var path := PathIn(s.dest, TarName(s, info, APP_SUFFIX));
      && info.config in untar0 && info.config !in GoneBeforeApp(before, info) && info.config !in info.app
      && w3.untar == untar0 - (GoneBeforeApp(before, info) + Elems(info.app) + {info.config})
      && w3.files == w.files[path := AppDir(before, info, untar0)]
      && app.Keys == seen.Keys + Elems(info.app) && Union(AppLists(before)) !! Elems(info.app)
      && t3 == t.(appTar := TarName(s, info, APP_SUFFIX), appHash := s.sum(AppDir(before, info, untar0)), appLayers := info.app)
      && Writable(TarName(s, info, APP_SUFFIX))
  {
    hide TarName, Union, Configs, BaseLists, AppLists, LibLists, Writable, AppLayers;
    var path := PathIn(s.dest, TarName(s, info, APP_SUFFIX));
    var gone := GoneBeforeApp(before, info);
    assert seen.Keys <= gone;
    AppMoved(path, info.app, w.untar, seen);
    hide GoneBeforeApp;
    assert info.config in untar0 - gone - Elems(info.app);
    assert untar0 - gone - Elems(info.app) - {info.config} == untar0 - (gone + Elems(info.app) + {info.config});
  }

  lemma {:induction false} FilesOwnedMore(s: Saver, before: seq<ImageInfo>, info: ImageInfo, files: Files, files': Files, a: string)
    requires FilesOwned(s, before + [info], files) && a in Suffixes
    requires Extends(files, files', PathIn(s.dest, TarName(s, info, a)))
    ensures FilesOwned(s, before + [info], files')
  {
    hide TarName;
    assert (before + [info])[|before|] == info;
  }

  lemma {:induction false} FilesOwnedStart(s: Saver, before: seq<ImageInfo>, info: ImageInfo, files: Files)
    requires FilesOwned(s, before, files)
    ensures FilesOwned(s, before + [info], files)
  {
    hide TarName;
    forall p | p in files
      ensures exists i, a :: 0 <= i < |before + [info]| && a in Suffixes && p == PathIn(s.dest, TarName(s, (before + [info])[i], a))
    {
      var i, a :| 0 <= i < |before| && a in Suffixes && p == PathIn(s.dest, TarName(s, before[i], a));
      assert (before + [info])[i] == before[i];
    }
  }

  /** A tarball name stays free while the image's other tarballs are written. */
  lemma {:induction false} StillFree(s: Saver, before: seq<ImageInfo>, info: ImageInfo, files: Files, files': Files, a: string, b: string)
    requires Admissible(s, before, info) && a in Suffixes && b in Suffixes && a != b
    requires PathIn(s.dest, TarName(s, info, a)) !in files
    requires Extends(files, files', PathIn(s.dest, TarName(s, info, b)))
    ensures PathIn(s.dest, TarName(s, info, a)) !in files'
  {
    hide TarName;
  }

  lemma {:induction false} TouchedGrows(before: seq<ImageInfo>, info: ImageInfo)
    ensures Touched(before + [info]) == GoneBeforeApp(before, info) + Elems(info.app) + {info.config}
    ensures Union(AppLists(before + [info])) == Union(AppLists(before)) + Elems(info.app)
    ensures Union(BaseLists(before + [info])) == Union(BaseLists(before)) + Elems(info.base)
    ensures Union(LibLists(before + [info])) == Union(LibLists(before)) + Elems(LibOf(info))
  {
    TouchedOneMore(before, info);
    UnionOneMore(BaseLists(before), info.base);
    UnionOneMore(LibLists(before), LibOf(info));
    UnionOneMore(AppLists(before), info.app);
  }

  /** What the two loops over shared layers file is named after the first image that has the list. */
  lemma {:induction false} NamesStep(s: Saver, before: seq<ImageInfo>, info: ImageInfo, seen: Seen, base: map<string, Path>,
                                     lib: map<string, Path>, t: Tarball)
    requires Named(s, before, BASE_SUFFIX, BaseLists(before), seen.base) && Named(s, before, LIB_SUFFIX, LibLists(before), seen.lib)
    requires Filed(s, TarName(s, info, BASE_SUFFIX), info.base, BaseLists(before), seen.base, base, t.baseTar)
    requires Filed(s, TarName(s, info, LIB_SUFFIX), LibOf(info), LibLists(before), seen.lib, lib, t.libTar)
    requires t.appTar == TarName(s, info, APP_SUFFIX)
    ensures Named(s, before + [info], BASE_SUFFIX, BaseLists(before + [info]), base)
    ensures Named(s, before + [info], LIB_SUFFIX, LibLists(before + [info]), lib)
    ensures TarNames(s, before, info, t)
  {
    hide Named, Filed, OwnerTar, TarName, BaseLists, LibLists, LibOf;
    TouchedOneMore(before, info);
    NamedGrows(s, before, info, BASE_SUFFIX, BaseLists(before), info.base, seen.base, base, t.baseTar);
    NamedGrows(s, before, info, LIB_SUFFIX, LibLists(before), LibOf(info), seen.lib, lib, t.libTar);
  }

  /** Saving one more image keeps the invariant, leaves every tarball written so far alone, and saves the image well. */
  lemma {:induction false} ImageStep(s: Saver, before: seq<ImageInfo>, info: ImageInfo, untar0: Dir, w0: Work, seen: Seen)
    requires Inv(s, before, untar0, w0, seen) && Admissible(s, before, info)
    requires ProcessImage(s, info, w0, seen).Ok?
    ensures var (w, seen', t) := ProcessImage(s, info, w0, seen).value;
      && Inv(s, before + [info], untar0, w, seen')
      && Good(s, before, info, untar0, w.files, t)
      && (forall p :: p in w0.files ==> p in w.files && w.files[p] == w0.files[p])
  {
    hide ProcessBase, ProcessLib, ProcessApp, TarName, Plain, Groups, Points, AppDir, FilesOwned, Admissible,
         GoneBeforeApp, Touched, Union, LibLists, BaseLists, AppLists, Configs, Elems, LibOf, Named, Filed, TarNames;
    var w := w0.(base := map[], lib := map[], app := map[]);
    var pb, pl, pa := PathIn(s.dest, TarName(s, info, BASE_SUFFIX)), PathIn(s.dest, TarName(s, info, LIB_SUFFIX)),
                      PathIn(s.dest, TarName(s, info, APP_SUFFIX));
    var (w1, base, t1) := ProcessBase(s, info, w, seen.base, NoTarball).value;
    var (w2, lib, t2) := ProcessLib(s, info, w1, seen.lib, t1).value;
    var (w3, app, t3) := ProcessApp(s, info, w2, seen.app, t2).value;

    NameFree(s, before, info, w.files, LIB_SUFFIX);
    NameFree(s, before, info, w.files, APP_SUFFIX);
    BasePhase(s, before, info, untar0, w, seen);
    StillFree(s, before, info, w.files, w1.files, LIB_SUFFIX, BASE_SUFFIX);
    StillFree(s, before, info, w.files, w1.files, APP_SUFFIX, BASE_SUFFIX);
    LibPhase(s, before, info, untar0, w1, seen.lib, t1);
    StillFree(s, before, info, w1.files, w2.files, APP_SUFFIX, LIB_SUFFIX);
    AppPhase(s, before, info, untar0, w2, seen.app, t2);
    assert Extends(w2.files, w3.files, pa);

    GroupsKeep(s, base, w1.files, BaseLists(before) + [info.base], untar0, w2.files, pl);
    GroupsKeep(s, base, w2.files, BaseLists(before) + [info.base], untar0, w3.files, pa);
    GroupsKeep(s, lib, w2.files, LibLists(before) + [LibOf(info)], untar0, w3.files, pa);
    PointsKeep(s, w1.files, t1.baseTar, t1.baseHash, info.base, untar0, w2.files, pl);
    PointsKeep(s, w2.files, t1.baseTar, t1.baseHash, info.base, untar0, w3.files, pa);
    PointsKeep(s, w2.files, t2.libTar, t2.libHash, LibOf(info), untar0, w3.files, pa);
    FilesOwnedStart(s, before, info, w.files);
    FilesOwnedMore(s, before, info, w.files, w1.files, BASE_SUFFIX);
    FilesOwnedMore(s, before, info, w1.files, w2.files, LIB_SUFFIX);
    FilesOwnedMore(s, before, info, w2.files, w3.files, APP_SUFFIX);
    TouchedOneMore(before, info);
    TouchedGrows(before, info);
    NoLayerTwice(before, info);
    AppPlain(s, before, info);
    NamesStep(s, before, info, seen, base, lib, t3);
  }

  lemma {:induction false} SingleAdmissible(s: Saver, before: seq<ImageInfo>, info: ImageInfo, a: string)
    requires Admissible(s, before, info) && a in Suffixes
    ensures Single(TarName(s, info, a))
  {
  }

  lemma {:induction false} AppPlain(s: Saver, before: seq<ImageInfo>, info: ImageInfo)
    requires Admissible(s, before, info) && Writable(TarName(s, info, APP_SUFFIX))
    ensures Plain(TarName(s, info, APP_SUFFIX))
  {
  }

  lemma {:induction false} NoLayerTwice(before: seq<ImageInfo>, info: ImageInfo)
    requires Union(BaseLists(before)) !! Union(LibLists(before))
    requires Elems(info.base) * Touched(before) <= Union(BaseLists(before))
    requires Elems(LibOf(info)) * (Touched(before) + Elems(info.base)) <= Union(LibLists(before))
    ensures Elems(info.base) !! Elems(LibOf(info))
    ensures Union(BaseLists(before + [info])) !! Union(LibLists(before + [info]))
  {
    TouchedGrows(before, info);
    hide LibLists, BaseLists, AppLists, Configs, Union, Elems, LibOf;
    SetsApart(Union(BaseLists(before)), Union(LibLists(before)), Touched(before), Elems(info.base), Elems(LibOf(info)));
  }

  lemma {:induction false} SetsApart(B: set<string>, L: set<string>, T: set<string>, b: set<string>, l: set<string>)
    requires B !! L && B <= T && L <= T && b * T <= B && l * (T + b) <= L
    ensures b !! l && B + b !! L + l
  {
    assert forall x :: x in b && x in l ==> x in l * (T + b) && x in L && x in b * T && x in B;
    assert forall x :: x in l && x in B ==> x in l * (T + b);
    assert forall x :: x in b && x in L ==> x in b * T;
  }

  // ---------- all images ----------

  /** The callers' side of the contract for a whole save. */
  ghost predicate Separable(s: Saver, images: seq<ImageInfo>) {
    forall k :: 0 <= k < |images| ==> Admissible(s, images[..k], images[k])
  }

  ghost predicate GoodAt(s: Saver, images: seq<ImageInfo>, k: nat, untar0: Dir, files: Files, tarballs: map<string, Tarball>)
    requires k < |images|
  {
    images[k].nameTag in tarballs && Good(s, images[..k], images[k], untar0, files, tarballs[images[k].nameTag])
  }

  ghost predicate RunInv(s: Saver, images: seq<ImageInfo>, untar0: Dir, st: Saved) {
    && Inv(s, images, untar0, st.work, st.seen)
    && forall k :: 0 <= k < |images| ==> GoodAt(s, images, k, untar0, st.work.files, st.tarballs)
  }

  lemma {:induction false} GoodKeep(s: Saver, before: seq<ImageInfo>, info: ImageInfo, untar0: Dir, files: Files, files': Files, t: Tarball)
    requires Good(s, before, info, untar0, files, t)
    requires forall p :: p in files ==> p in files' && files'[p] == files[p]
    ensures Good(s, before, info, untar0, files', t)
  {
    hide AppDir, GoneBeforeApp, Restrict, Plain;
  }

  lemma {:induction false} NewNameTag(s: Saver, done: seq<ImageInfo>, info: ImageInfo)
    requires Admissible(s, done, info)
    ensures forall i :: 0 <= i < |done| ==> done[i].nameTag != info.nameTag
  {
  }

  lemma {:induction false} RunStep(s: Saver, done: seq<ImageInfo>, info: ImageInfo, untar0: Dir, st: Saved)
    requires RunInv(s, done, untar0, st) && Admissible(s, done, info)
    requires ProcessImage(s, info, st.work, st.seen).Ok?
    ensures var (w, seen, t) := ProcessImage(s, info, st.work, st.seen).value;
      RunInv(s, done + [info], untar0, Saved(w, seen, st.tarballs[info.nameTag := t]))
  {
    hide Good, ProcessImage, Admissible, Inv;
    var (w, seen, t) := ProcessImage(s, info, st.work, st.seen).value;
    ImageStep(s, done, info, untar0, st.work, st.seen);
    NewNameTag(s, done, info);
    var tarballs := st.tarballs[info.nameTag := t];
    var all := done + [info];
    forall k | 0 <= k < |all| ensures GoodAt(s, all, k, untar0, w.files, tarballs) {
      if k < |done| {
        assert all[..k] == done[..k] && all[k] == done[k];
        assert GoodAt(s, done, k, untar0, st.work.files, st.tarballs);
        GoodKeep(s, done[..k], done[k], untar0, st.work.files, w.files, st.tarballs[done[k].nameTag]);
      } else {
        assert all[..k] == done;
      }
    }
  }

  lemma {:induction false} AllSaved(s: Saver, done: seq<ImageInfo>, rest: seq<ImageInfo>, untar0: Dir, st: Saved)
    requires RunInv(s, done, untar0, st) && Separable(s, done + rest)
    requires ProcessImages(s, rest, st).Ok?
    ensures RunInv(s, done + rest, untar0, ProcessImages(s, rest, st).value)
    decreases |rest|
  {
    hide RunInv, Admissible, ProcessImage;
    if rest == [] {
      assert done + rest == done;
    } else {
      var all := done + rest;
      assert all[..|done|] == done && all[|done|] == rest[0];
      assert Admissible(s, all[..|done|], all[|done|]);
      RunStep(s, done, rest[0], untar0, st);
      var (w, seen, t) := ProcessImage(s, rest[0], st.work, st.seen).value;
      assert done + [rest[0]] + rest[1..] == all;
      AllSaved(s, done + [rest[0]], rest[1..], untar0, Saved(w, seen, st.tarballs[rest[0].nameTag := t]));
    }
  }

  /** The state after the loop over all images, before the manifest is written. */
  function Packed(s: Saver, images: seq<ImageInfo>, untar0: Dir): Saved
    requires Save(s, images, untar0).Ok?
  {
    ProcessImages(s, images, Start(untar0)).value
  }

  /**
  Every manifest entry of a successful save names tarballs that hold what they should, after all later images. The
  manifest itself, written last, can take the place of one of them.
  */
  lemma {:induction false} SavedWell(s: Saver, images: seq<ImageInfo>, untar0: Dir, k: nat)
    requires Separable(s, images) && Save(s, images, untar0).Ok? && k < |images|
    ensures var st := Packed(s, images, untar0);
      && GoodAt(s, images, k, untar0, st.work.files, st.tarballs) && FilesOwned(s, images, st.work.files)
      && Save(s, images, untar0) == Ok((st.work.files - {ManifestPath(s)}, st.tarballs))
  {
    hide Separable, ProcessImages, GoodAt, FilesOwned;
    StartInv(s, untar0);
    assert [] + images == images;
    AllSaved(s, [], images, untar0, Start(untar0));
    InvOwned(s, images, untar0, Packed(s, images, untar0));
  }

  lemma {:induction false} InvOwned(s: Saver, images: seq<ImageInfo>, untar0: Dir, st: Saved)
    requires RunInv(s, images, untar0, st)
    ensures FilesOwned(s, images, st.work.files)
  {
  }

  lemma {:induction false} StartInv(s: Saver, untar0: Dir)
    ensures RunInv(s, [], untar0, Start(untar0))
  {
    assert Touched([]) == {};
    assert untar0 - {} == untar0;
  }

  // ---------- loading back ----------

  /** The image as the loader puts it together: all layers that were saved for it, its manifest and its configuration. */
  function Restored(before: seq<ImageInfo>, info: ImageInfo, untar0: Dir): Dir
    requires info.config in untar0
  {
    var kept := Elems(info.base) + Elems(LibOf(info)) + (Elems(info.app) - GoneBeforeApp(before, info));
    WithFiles(Restrict(untar0, kept), info, untar0)
  }

  /** The files a loader finds: the tarballs of a save, nothing else in their directory, and anything elsewhere. */
  ghost predicate OnDisk(s: Saver, files: Files, disk: Files) {
    && (forall p :: p in files ==> p in disk && disk[p] == files[p])
    && forall name :: PathIn(s.dest, name) in disk ==> PathIn(s.dest, name) in files
  }

  /** A path given to the loader, if there is one, leads to a tarball of the directory. */
  predicate Leads(disk: Files, given: Option<Path>, d: Dir) {
    given.Some? ==> given.value in disk && disk[given.value] == d
  }

  /** Set to load the image from the destination; the paths given, if any, lead to copies of its base and lib tarballs. */
  ghost predicate SetFor(l: Loader, s: Saver, info: ImageInfo, untar0: Dir, disk: Files) {
    && l.appName == info.nameTag && l.dir == s.dest && l.sum == s.sum
    && Leads(disk, l.basePath, Restrict(untar0, Elems(info.base)))
    && Leads(disk, l.libPath, Restrict(untar0, Elems(LibOf(info))))
  }

  /**
  The entry names a lib tarball, or the loader is given one and does not object to it: the checksum recorded for an
  image without lib layers is the empty text.
  */
  predicate LibAccepted(l: Loader, info: ImageInfo) {
    LibOf(info) != [] || (l.libPath.Some? && (l.skipCheck || l.sum(map[]) == ""))
  }

  /** A tarball that is taken from its entry in the manifest has the given name. */
  predicate TakesOne(l: Loader, t: Tarball, m: string) {
    (l.basePath.None? && t.baseTar == m) || (l.libPath.None? && t.libTar == m) || t.appTar == m
  }

  lemma {:induction false} FetchGood(s: Saver, layers: seq<string>, tar: string, hash: string, untar0: Dir, files: Files,
                                     disk: Files, l: Loader, given: Option<Path>)
    requires Points(s, files, tar, hash, layers, untar0) && OnDisk(s, files - {ManifestPath(s)}, disk)
    requires l.dir == s.dest && l.sum == s.sum && Leads(disk, given, Restrict(untar0, Elems(layers)))
    requires PathIn(s.dest, "") !in files
    ensures Fetch(l, disk, PathFor(given, l.dir, tar), hash)
         == if given.None? then if layers == [] || tar == MANIFEST_FILE then Err else Ok(Restrict(untar0, Elems(layers)))
            else if layers != [] || l.skipCheck || l.sum(map[]) == "" then Ok(Restrict(untar0, Elems(layers))) else Err
  {
    var path := PathFor(given, l.dir, tar);
    if layers == [] {
      assert Restrict(untar0, Elems(layers)) == map[];
    }
    if given.None? {
      assert path in disk <==> path in files && tar != MANIFEST_FILE;
    }
  }

  /** Loading from good tarballs, all of them still there but for one that the manifest has replaced. */
  lemma {:induction false} LoadGood(s: Saver, before: seq<ImageInfo>, info: ImageInfo, untar0: Dir, files: Files,
                                    disk: Files, manifest: map<string, Tarball>, l: Loader)
    requires Admissible(s, before, info) && info.nameTag in manifest && SetFor(l, s, info, untar0, disk)
    requires Good(s, before, info, untar0, files, manifest[info.nameTag])
    requires PathIn(s.dest, "") !in files && OnDisk(s, files - {ManifestPath(s)}, disk)
    ensures Load(l, disk, manifest)
         == if info.base == [] || !LibAccepted(l, info) || TakesOne(l, manifest[info.nameTag], MANIFEST_FILE) then Err
            else Ok(Restored(before, info, untar0))
  {
    var t := manifest[info.nameTag];
    var base, lib, app := Restrict(untar0, Elems(info.base)), Restrict(untar0, Elems(LibOf(info))), AppDir(before, info, untar0);
    hide TarName, GoneBeforeApp, TarNames, Points, Restrict, Merge, Admissible, LibOf, Restored, AppDir;
    FetchGood(s, info.base, t.baseTar, t.baseHash, untar0, files, disk, l, l.basePath);
    FetchGood(s, LibOf(info), t.libTar, t.libHash, untar0, files, disk, l, l.libPath);
    assert Fetch(l, disk, PathIn(l.dir, t.appTar), t.appHash) == if t.appTar == MANIFEST_FILE then Err else Ok(app);
    assert t.baseTar == "" <==> info.base == [] by { PointsName(s, files, t.baseTar, t.baseHash, info.base, untar0); }
    hide Fetch, PathFor, OnDisk, Leads;
    MergeThree(s, before, info, untar0);
  }

  lemma {:induction false} PointsName(s: Saver, files: Files, tar: string, hash: string, layers: seq<string>, untar0: Dir)
    requires Points(s, files, tar, hash, layers, untar0) && PathIn(s.dest, "") !in files
    ensures tar == "" <==> layers == []
  {
  }

  /** The three tarballs of an image have no entry in common. */
  lemma {:induction false} TarballsDisjoint(s: Saver, before: seq<ImageInfo>, info: ImageInfo, untar0: Dir)
    requires Admissible(s, before, info) && Elems(info.base) !! Elems(LibOf(info))
    requires info.config in untar0 && info.config !in GoneBeforeApp(before, info)
    ensures var base, lib, app := Restrict(untar0, Elems(info.base)), Restrict(untar0, Elems(LibOf(info))), AppDir(before, info, untar0);
      base.Keys !! lib.Keys && base.Keys !! app.Keys && lib.Keys !! app.Keys
  {
    hide TarName, Touched, LibOf;
    var gone := GoneBeforeApp(before, info);
    var app := AppDir(before, info, untar0);
    assert app.Keys == Restrict(untar0 - gone, Elems(info.app)).Keys + {MANIFEST_DATA_FILE, REPOSITORIES_FILE, info.config};
    forall x | x in app ensures x !in info.base && x !in LibOf(info) {
      if x in Restrict(untar0 - gone, Elems(info.app)) {
        assert x !in gone;
      } else if x == info.config {
        assert x !in gone;
      }
    }
  }

  lemma {:induction false} MergeApart(a: Dir, b: Dir)
    requires a.Keys !! b.Keys
    ensures Merge(a, b) == Ok(b + a)
  {
  }

  lemma {:induction false} FilesLast(base: Dir, d: Dir, lib: Dir, info: ImageInfo, untar0: Dir)
    requires info.config in untar0 && {MANIFEST_DATA_FILE, REPOSITORIES_FILE, info.config} !! lib.Keys
    ensures base + WithFiles(d, info, untar0) + lib == WithFiles(base + d + lib, info, untar0)
  {
  }

  lemma {:induction false} MergeThree(s: Saver, before: seq<ImageInfo>, info: ImageInfo, untar0: Dir)
    requires Admissible(s, before, info) && Elems(info.base) !! Elems(LibOf(info))
    requires info.config in untar0 && info.config !in GoneBeforeApp(before, info) && info.config !in info.app
    ensures var base, lib, app := Restrict(untar0, Elems(info.base)), Restrict(untar0, Elems(LibOf(info))), AppDir(before, info, untar0);
      && Merge(app, base) == Ok(base + app) && Merge(lib, base + app) == Ok(base + app + lib)
      && base + app + lib == Restored(before, info, untar0)
  {
    hide TarName, Touched, LibOf, Admissible, GoneBeforeApp, Merge;
    var base, lib, app := Restrict(untar0, Elems(info.base)), Restrict(untar0, Elems(LibOf(info))), AppDir(before, info, untar0);
    TarballsDisjoint(s, before, info, untar0);
    MergeApart(app, base);
    MergeApart(lib, base + app);
    var gone := GoneBeforeApp(before, info);
    var d := Restrict(untar0 - gone, Elems(info.app));
    var kept := Elems(info.base) + Elems(LibOf(info)) + (Elems(info.app) - gone);
    assert base + d + lib == Restrict(untar0, kept);
    assert {MANIFEST_DATA_FILE, REPOSITORIES_FILE, info.config} <= app.Keys;
    FilesLast(base, d, lib, info, untar0);
  }

  /** The first image that has the list gives its tarball the name m. */
  ghost predicate InTarball(s: Saver, images: seq<ImageInfo>, suffix: string, lists: seq<seq<string>>, layers: seq<string>, m: string) {
    exists i :: 0 <= i < |lists| && i < |images| && lists[i] == layers && FirstAt(lists, i)
                && TarName(s, images[i], suffix) == m
  }

  /** A tarball of the last of the images, its own or one it shares, is renamed to the name of the manifest. */
  ghost predicate Clobbered(s: Saver, images: seq<ImageInfo>)
    requires images != []
  {
    var info := images[|images| - 1];
    || InTarball(s, images, BASE_SUFFIX, BaseLists(images), info.base, MANIFEST_FILE)
    || InTarball(s, images, LIB_SUFFIX, LibLists(images), LibOf(info), MANIFEST_FILE)
    || TarName(s, info, APP_SUFFIX) == MANIFEST_FILE
  }

  /** The same for the tarballs that are taken from the entry in the manifest. */
  ghost predicate ClobberedFor(l: Loader, s: Saver, images: seq<ImageInfo>)
    requires images != []
  {
    var info := images[|images| - 1];
    || (l.basePath.None? && InTarball(s, images, BASE_SUFFIX, BaseLists(images), info.base, MANIFEST_FILE))
    || (l.libPath.None? && InTarball(s, images, LIB_SUFFIX, LibLists(images), LibOf(info), MANIFEST_FILE))
    || TarName(s, info, APP_SUFFIX) == MANIFEST_FILE
  }

  /**
  Saving and loading back. After a successful save, loading an image from the destination directory succeeds exactly
  when the image has base layers, it has lib layers or the loader accepts the lib tarball it is given, and none of the
  tarballs taken from the manifest's entry is renamed to the name of the manifest, with or without checksum
  verification. It then yields `Restored`, also where copies of the base and lib tarballs are given by their paths.
  */
  lemma {:induction false} RoundTripGiven(s: Saver, images: seq<ImageInfo>, untar0: Dir, k: nat, l: Loader, disk: Files)
    requires Separable(s, images) && Save(s, images, untar0).Ok? && k < |images|
    requires OnDisk(s, Save(s, images, untar0).value.0, disk) && SetFor(l, s, images[k], untar0, disk)
    ensures images[k].config in untar0
    ensures Load(l, disk, Save(s, images, untar0).value.1)
         == if images[k].base == [] || !LibAccepted(l, images[k]) || ClobberedFor(l, s, images[..k + 1]) then Err
            else Ok(Restored(images[..k], images[k], untar0))
  {
    hide Good, TarName, GoneBeforeApp, Packed, ClobberedFor, FilesOwned, Load, Restored, TarNames, OnDisk, SetFor, TakesOne;
    var st := Packed(s, images, untar0);
    SavedWell(s, images, untar0, k);
    assert Admissible(s, images[..k], images[k]);
    NamesNotEmpty(s, images, st.work.files);
    var t := st.tarballs[images[k].nameTag];
    GoodConfig(s, images[..k], images[k], untar0, st.work.files, t);
    LoadGood(s, images[..k], images[k], untar0, st.work.files, disk, st.tarballs, l);
    assert images[..k + 1] == images[..k] + [images[k]];
    if images[k].base != [] && LibAccepted(l, images[k]) {
      ClobberedIff(s, images[..k], images[k], t, l);
    }
  }

  /** In particular from the destination alone: the image needs base and lib layers, and all of its tarballs. */
  lemma {:induction false} RoundTrip(s: Saver, images: seq<ImageInfo>, untar0: Dir, k: nat, l: Loader)
    requires Separable(s, images) && Save(s, images, untar0).Ok? && k < |images|
    requires l.appName == images[k].nameTag && l.dir == s.dest && l.sum == s.sum && l.basePath == l.libPath == None
    ensures var (files, manifest) := Save(s, images, untar0).value;
      && images[k].config in untar0
      && Load(l, files, manifest)
         == if images[k].base == [] || LibOf(images[k]) == [] || Clobbered(s, images[..k + 1]) then Err
            else Ok(Restored(images[..k], images[k], untar0))
  {
    hide Save, Separable, InTarball, TarName, Load, Restored, LibOf;
    RoundTripGiven(s, images, untar0, k, l, Save(s, images, untar0).value.0);
  }

  /** Every list that occurs has a first occurrence. */
  lemma {:induction false} FirstOf(lists: seq<seq<string>>, k: nat) returns (i: nat)
    requires k < |lists|
    ensures i <= k && lists[i] == lists[k] && FirstAt(lists, i)
  {
    if j :| 0 <= j < k && lists[j] == lists[k] {
      i := FirstOf(lists, j);
    } else {
      i := k;
    }
  }

  lemma {:induction false} InTarballIff(s: Saver, images: seq<ImageInfo>, suffix: string, lists: seq<seq<string>>,
                                        layers: seq<string>, tar: string, m: string)
    requires lists != [] && lists[|lists| - 1] == layers && OwnerTar(s, images, suffix, lists, layers, tar)
    ensures InTarball(s, images, suffix, lists, layers, m) <==> tar == m
  {
    hide TarName, FirstAt;
    var i := FirstOf(lists, |lists| - 1);
  }

  lemma {:induction false} ClobberedIff(s: Saver, before: seq<ImageInfo>, info: ImageInfo, t: Tarball, l: Loader)
    requires TarNames(s, before, info, t) && info.base != [] && LibAccepted(l, info)
    ensures ClobberedFor(l, s, before + [info]) <==> TakesOne(l, t, MANIFEST_FILE)
  {
    hide OwnerTar, InTarball, TarName;
    TouchedOneMore(before, info);
    var all := before + [info];
    InTarballIff(s, all, BASE_SUFFIX, BaseLists(all), info.base, t.baseTar, MANIFEST_FILE);
    if LibOf(info) != [] {
      InTarballIff(s, all, LIB_SUFFIX, LibLists(all), LibOf(info), t.libTar, MANIFEST_FILE);
    }
  }

  /** The destination directory itself is not a tarball. */
  lemma {:induction false} NamesNotEmpty(s: Saver, images: seq<ImageInfo>, files: Files)
    requires FilesOwned(s, images, files)
    ensures PathIn(s.dest, "") !in files
  {
    hide TarName;
  }

  lemma {:induction false} GoodConfig(s: Saver, before: seq<ImageInfo>, info: ImageInfo, untar0: Dir, files: Files, t: Tarball)
    requires Good(s, before, info, untar0, files, t)
    ensures info.config in untar0 && info.config !in info.app && Union(AppLists(before)) !! Elems(info.app)
    ensures info.base != [] ==> Elems(info.base) <= untar0.Keys
    ensures LibOf(info) != [] ==> Elems(LibOf(info)) <= untar0.Keys
    ensures info.config !in info.base && info.config !in LibOf(info) && TarNames(s, before, info, t)
  {
    hide TarNames;
    assert info.config !in Elems(info.base) && info.config !in Elems(LibOf(info));
  }

  predicate LayerBack(d: Dir, untar0: Dir, x: string) {
    x in d && x in untar0 && d[x] == untar0[x]
  }

  /** No earlier image took `x` as a base layer, a lib layer or a configuration file. */
  predicate Untaken(before: seq<ImageInfo>, x: string) {
    x !in Union(BaseLists(before)) && x !in Union(LibLists(before)) && x !in Configs(before)
  }

  /**
  When a loaded image is complete: exactly when each of its app layers was in the unpacked tree and no image saved
  before it had taken that layer as base or lib (or the layer is a base or lib layer of the image itself). A layer
  taken that way is dropped without an error.
  */
  lemma {:induction false} CompleteIff(s: Saver, images: seq<ImageInfo>, untar0: Dir, k: nat)
    requires Separable(s, images) && Save(s, images, untar0).Ok? && k < |images|
    requires images[k].base != [] && LibOf(images[k]) != []
    ensures images[k].config in untar0
    ensures var info, before := images[k], images[..k];
      (forall x :: x in info.base || x in LibOf(info) || x in info.app ==> LayerBack(Restored(before, info, untar0), untar0, x))
      <==>
      (forall x :: x in info.app ==> x in untar0 && (x in info.base || x in LibOf(info) || Untaken(before, x)))
  {
    var info, before := images[k], images[..k];
    var st := Packed(s, images, untar0);
    hide Packed, FilesOwned, Good;
    SavedWell(s, images, untar0, k);
    assert Admissible(s, before, info);
    GoodConfig(s, before, info, untar0, st.work.files, st.tarballs[info.nameTag]);
    hide TarNames, Save, Plain, Union, LibLists, BaseLists, AppLists, Configs;
    forall x | x in info.app
      ensures LayerBack(Restored(before, info, untar0), untar0, x)
         <==> x in untar0 && (x in info.base || x in LibOf(info) || Untaken(before, x))
    {
      AppLayerBack(s, before, info, untar0, x);
    }
    forall x | x in info.base || x in LibOf(info) ensures LayerBack(Restored(before, info, untar0), untar0, x) {
      SharedLayerBack(s, before, info, untar0, x);
    }
  }

  lemma {:induction false} AppLayerBack(s: Saver, before: seq<ImageInfo>, info: ImageInfo, untar0: Dir, x: string)
    requires Admissible(s, before, info) && info.config in untar0 && info.config !in info.app && x in info.app
    requires Union(AppLists(before)) !! Elems(info.app)
    ensures LayerBack(Restored(before, info, untar0), untar0, x)
       <==> x in untar0 && (x in info.base || x in LibOf(info) || Untaken(before, x))
  {
    hide TarName, Union, LibLists, BaseLists, AppLists, Configs;
    assert x in Elems(info.app);
    assert x != MANIFEST_DATA_FILE && x != REPOSITORIES_FILE;
  }

  lemma {:induction false} SharedLayerBack(s: Saver, before: seq<ImageInfo>, info: ImageInfo, untar0: Dir, x: string)
    requires Admissible(s, before, info) && info.config in untar0
    requires info.config !in info.base && info.config !in LibOf(info)
    requires Elems(info.base) <= untar0.Keys && Elems(LibOf(info)) <= untar0.Keys && (x in info.base || x in LibOf(info))
    ensures LayerBack(Restored(before, info, untar0), untar0, x)
  {
    hide TarName, GoneBeforeApp;
    assert x in Elems(info.base) + Elems(LibOf(info));
    assert x in untar0 && x != MANIFEST_DATA_FILE && x != REPOSITORIES_FILE && x != info.config;
  }

  // ---------- tarball names ----------

  /** The part of a tarball name that depends on the image. */
  function Stem(info: ImageInfo): string { LastElem(info.name) + "_" + LastElem(info.tag) }

  lemma {:induction false} SuffixesApart(x: string, y: string, a: string, b: string)
    requires a in Suffixes && b in Suffixes && x + a == y + b
    ensures a == b && x == y
  {
    SuffixLength(x, a);
    SuffixLength(y, b);
    var n := |x + a| - |a|;
    assert (x + a)[n..] == a && (y + b)[n..] == b;
    assert (x + a)[..n] == x && (y + b)[..n] == y;
  }

  /** The character seventeen from the end tells the longer suffix from the two shorter ones. */
  lemma {:induction false} SuffixLength(x: string, a: string)
    requires a in Suffixes
    ensures |x + a| >= 17 && (|a| == if (x + a)[|x + a| - 17] == 'b' then 18 else 17)
  {
    assert (x + a)[|x + a| - 17] == a[|a| - 17];
  }

  lemma {:induction false} StemName(s: Saver, i: ImageInfo, a: string)
    requires s.renames == []
    ensures TarName(s, i, a) == Stem(i) + a
  {
    hide LastElem;
  }

  lemma {:induction false} StemPlain(i: ImageInfo, a: string)
    requires a in Suffixes
    ensures Plain(Stem(i) + a)
  {
    var x, y := LastElem(i.name), LastElem(i.tag);
    assert '/' !in x && '/' !in y;
    assert '/' !in a;
    hide LastElem;
    assert '/' !in "_";
    assert '/' !in Stem(i) + a;
    LastElemNone(Stem(i) + a);
  }

  lemma {:induction false} LastElemNone(n: string)
    requires '/' !in n
    ensures LastElem(n) == n
  {
    SplitNone(n, '/');
  }

  /** Without renames every tarball name is a plain file name, and two clash exactly when kind and stem agree. */
  lemma {:induction false} NamesClashIff(s: Saver, i: ImageInfo, a: string, j: ImageInfo, b: string)
    requires s.renames == [] && a in Suffixes && b in Suffixes
    ensures Plain(TarName(s, i, a))
    ensures TarName(s, i, a) == TarName(s, j, b) <==> a == b && Stem(i) == Stem(j)
  {
    hide TarName, Stem, Plain;
    StemName(s, i, a);
    StemName(s, j, b);
    StemPlain(i, a);
    if TarName(s, i, a) == TarName(s, j, b) {
      SuffixesApart(Stem(i), Stem(j), a, b);
    }
  }

  /** Without renames no tarball name is that of the manifest. */
  lemma {:induction false} NotManifest(s: Saver, i: ImageInfo, a: string)
    requires s.renames == [] && a in Suffixes
    ensures TarName(s, i, a) != MANIFEST_FILE
  {
    hide TarName, Stem;
    StemName(s, i, a);
    assert |a| >= 17 && |MANIFEST_FILE| == 8;
  }

  lemma {:induction false} NeverClobbered(s: Saver, images: seq<ImageInfo>)
    requires s.renames == [] && images != []
    ensures !Clobbered(s, images)
  {
    hide TarName, FirstAt;
    forall i, a | 0 <= i < |images| && a in Suffixes ensures TarName(s, images[i], a) != MANIFEST_FILE {
      NotManifest(s, images[i], a);
    }
  }

  /**
  Without renames, images whose stems differ never clash over a tarball name, nor with the manifest, and all their
  tarballs can be created.
  */
  lemma {:induction false} DistinctStems(s: Saver, before: seq<ImageInfo>, info: ImageInfo)
    requires s.renames == [] && forall i :: 0 <= i < |before| ==> Stem(before[i]) != Stem(info)
    ensures NamesAdmissible(s, before, info) && !Clobbered(s, before + [info])
    ensures forall a :: a in Suffixes ==> Writable(TarName(s, info, a))
  {
    hide TarName, Stem, Single, Writable, Clobbered;
    NeverClobbered(s, before + [info]);
    forall a, b | a in Suffixes && b in Suffixes
      ensures Plain(TarName(s, info, a)) && (TarName(s, info, a) == TarName(s, info, b) <==> a == b)
    {
      NamesClashIff(s, info, a, info, b);
    }
    forall i, a, b | 0 <= i < |before| && a in Suffixes && b in Suffixes
      ensures TarName(s, before[i], a) != TarName(s, info, b)
    {
      NamesClashIff(s, before[i], a, info, b);
    }
  }
}
