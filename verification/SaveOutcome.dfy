/** When saving a set of images succeeds, and what that means for loading them back. */
module SaveOutcome {
  import opened Basics
  import opened Separator
  import opened SeparatorProofs

  // ---------- one list of base or lib layers ----------

  /** The layer can be handled by the loop: already in this tarball, or still to be moved. */
  predicate Pending(s: Saver, name: string, x: string, st: Share) {
    if x in st.seen then st.seen[x] == PathIn(s.dest, name) && st.seen[x] in st.files
    else x in st.untar && x !in st.dir && Writable(name)
  }

  lemma {:induction false} PendingStep(s: Saver, name: string, x: string, y: string, st: Share)
    requires Pending(s, name, x, st) && Pending(s, name, y, st)
    ensures ShareLayer(s, name, x, st).Ok? && Pending(s, name, y, ShareLayer(s, name, x, st).value)
  {
  }

  lemma {:induction false} FreshOk(s: Saver, name: string, layers: seq<string>, st: Share)
    requires forall x :: x in layers ==> Pending(s, name, x, st)
    ensures ShareLayers(s, name, layers, st).Ok?
    decreases |layers|
  {
    hide Pending, ShareLayer;
    if layers != [] {
      PendingStep(s, name, layers[0], layers[0], st);
      var next := ShareLayer(s, name, layers[0], st).value;
      forall y | y in layers[1..] ensures Pending(s, name, y, next) {
        PendingStep(s, name, layers[0], y, st);
      }
      FreshOk(s, name, layers[1..], next);
    }
  }

  /** What a list of base or lib layers needs: to be in the unpacked tree and not taken for anything else. */
  predicate Available(layers: seq<string>, lists: seq<seq<string>>, gone: set<string>, untar0: Dir) {
    Elems(layers) <= untar0.Keys && Elems(layers) * gone <= Union(lists)
  }

  /** A list that is not saved yet needs a tarball name under which a file can be created. */
  predicate NameOk(name: string, layers: seq<string>, lists: seq<seq<string>>) {
    layers == [] || layers in lists || Writable(name)
  }

  lemma {:induction false} SeenOk(s: Saver, name: string, layers: seq<string>, st: Share, untar0: Dir)
    requires layers != [] && InOneTar(s, st.seen, st.files, layers, untar0)
    ensures ShareLayers(s, name, layers, st).Ok?
  {
    var n :| Holds(s, st.files, n, layers, untar0)
             && forall x :: x in layers ==> x in st.seen && st.seen[x] == PathIn(s.dest, n);
    ShareSeen(s, name, layers, st, n);
  }

  lemma {:induction false} ShareOk(s: Saver, name: string, layers: seq<string>, st: Share, lists: seq<seq<string>>,
                                   gone: set<string>, untar0: Dir)
    requires st.untar == untar0 - gone && st.dir == map[]
    requires Groups(s, st.seen, st.files, lists, untar0)
    requires forall i :: 0 <= i < |lists| ==> SameOrDisjoint(lists[i], layers)
    requires Available(layers, lists, gone, untar0) && NameOk(name, layers, lists)
    ensures ShareLayers(s, name, layers, st).Ok?
  {
    if layers == [] {
    } else if i :| 0 <= i < |lists| && lists[i] == layers {
      assert InOneTar(s, st.seen, st.files, lists[i], untar0);
      SeenOk(s, name, layers, st, untar0);
    } else {
      forall x | x in layers ensures Pending(s, name, x, st) {
        assert x in Elems(layers);
        assert forall i :: 0 <= i < |lists| ==> x !in lists[i] by {
          forall i | 0 <= i < |lists| ensures x !in lists[i] { assert SameOrDisjoint(lists[i], layers); }
        }
        assert x !in Union(lists);
      }
      FreshOk(s, name, layers, st);
    }
  }

  lemma {:induction false} ShareOkIff(s: Saver, name: string, layers: seq<string>, st: Share, lists: seq<seq<string>>,
                                      gone: set<string>, untar0: Dir)
    requires Single(name) && PathIn(s.dest, name) !in st.files
    requires st.untar == untar0 - gone && st.dir == map[] && st.tar == "" && st.hash == ""
    requires Groups(s, st.seen, st.files, lists, untar0) && Union(lists) <= gone
    requires forall i :: 0 <= i < |lists| ==> SameOrDisjoint(lists[i], layers)
    ensures ShareLayers(s, name, layers, st).Ok? <==> Available(layers, lists, gone, untar0) && NameOk(name, layers, lists)
  {
    hide Groups, SameOrDisjoint, Union, ShareLayers, Single, Writable;
    if ShareLayers(s, name, layers, st).Ok? {
      SharePhase(s, name, layers, st, lists, gone, untar0);
      assert layers == [] ==> Elems(layers) == {};
    }
    if Available(layers, lists, gone, untar0) && NameOk(name, layers, lists) {
      ShareOk(s, name, layers, st, lists, gone, untar0);
    }
  }

  // ---------- the app layers ----------

  predicate NoDup(layers: seq<string>) { forall i, j :: 0 <= i < j < |layers| ==> layers[i] != layers[j] }

  lemma {:induction false} AppLayersIff(path: Path, layers: seq<string>, st: Apps)
    requires st.seen.Keys !! st.untar.Keys && st.dir.Keys <= st.seen.Keys
    ensures AppLayers(path, layers, st).Ok? <==> NoDup(layers) && forall x :: x in layers ==> x !in st.seen
    decreases |layers|
  {
    if layers != [] {
      var x := layers[0];
      if x !in st.seen {
        var next := AppLayer(path, x, st).value;
        AppLayersIff(path, layers[1..], next);
        NoDupHead(layers);
        hide NoDup;
        assert next.seen.Keys == st.seen.Keys + {x};
        assert forall y :: y in layers <==> y == x || y in layers[1..] by { assert layers == [x] + layers[1..]; }
      } else {
        assert AppLayer(path, x, st).Err?;
      }
    }
  }

  lemma {:induction false} NoDupHead(layers: seq<string>)
    requires layers != []
    ensures NoDup(layers) <==> NoDup(layers[1..]) && layers[0] !in layers[1..]
  {
    var rest := layers[1..];
    if NoDup(rest) && layers[0] !in rest {
      forall i, j | 0 <= i < j < |layers| ensures layers[i] != layers[j] {
        assert layers[j] == rest[j - 1];
        if i > 0 { assert layers[i] == rest[i - 1]; }
      }
    }
    if NoDup(layers) {
      forall i, j | 0 <= i < j < |rest| ensures rest[i] != rest[j] { assert layers[i + 1] != layers[j + 1]; }
    }
  }

  // ---------- whole images ----------

  /**
  What an image needs when it is saved after others: base and lib layers in the tree and not taken in another role, app
  layers listed once and not saved as app layers before, its own configuration still in the tree, and names for its new
  tarballs under which files can be created. App layers need not be in the tree.
  */
  predicate Savable(s: Saver, before: seq<ImageInfo>, info: ImageInfo, untar0: Dir) {
    && Available(info.base, BaseLists(before), Touched(before), untar0)
    && NameOk(TarName(s, info, BASE_SUFFIX), info.base, BaseLists(before))
    && Available(LibOf(info), LibLists(before), Touched(before) + Elems(info.base), untar0)
    && NameOk(TarName(s, info, LIB_SUFFIX), LibOf(info), LibLists(before))
    && Writable(TarName(s, info, APP_SUFFIX))
    && NoDup(info.app) && Elems(info.app) !! Union(AppLists(before))
    && info.config in untar0 && info.config !in GoneBeforeApp(before, info) && info.config !in info.app
  }

  lemma {:induction false} BaseFacts(s: Saver, before: seq<ImageInfo>, info: ImageInfo)
    requires Admissible(s, before, info)
    ensures Single(TarName(s, info, BASE_SUFFIX))
    ensures forall i :: 0 <= i < |BaseLists(before)| ==> SameOrDisjoint(BaseLists(before)[i], info.base)
    ensures Union(BaseLists(before)) <= Touched(before)
  {
    SingleAdmissible(s, before, info, BASE_SUFFIX);
    hide TarName, Single, NamesAdmissible, SameOrDisjoint;
  }

  lemma {:induction false} BaseOkIff(s: Saver, before: seq<ImageInfo>, info: ImageInfo, untar0: Dir, w: Work, seen: Seen)
    requires Inv(s, before, untar0, w, seen) && Admissible(s, before, info) && w.base == map[]
    ensures ProcessBase(s, info, w, seen.base, NoTarball).Ok? <==>
            Available(info.base, BaseLists(before), Touched(before), untar0)
            && NameOk(TarName(s, info, BASE_SUFFIX), info.base, BaseLists(before))
  {
    hide TarName, Single, Groups, FilesOwned, Admissible, Available, NameOk, ShareLayers, SameOrDisjoint, Touched, Union,
         BaseLists, LibLists, AppLists, Named;
    NameFree(s, before, info, w.files, BASE_SUFFIX);
    BaseFacts(s, before, info);
    var st := Share(w.untar, w.base, w.files, seen.base, "", "");
    ShareOkIff(s, TarName(s, info, BASE_SUFFIX), info.base, st, BaseLists(before), Touched(before), untar0);
  }

  lemma {:induction false} LibFacts(s: Saver, before: seq<ImageInfo>, info: ImageInfo)
    requires Admissible(s, before, info)
    ensures Single(TarName(s, info, LIB_SUFFIX))
    ensures forall i :: 0 <= i < |LibLists(before)| ==> SameOrDisjoint(LibLists(before)[i], LibOf(info))
    ensures Union(LibLists(before)) <= Touched(before)
  {
    SingleAdmissible(s, before, info, LIB_SUFFIX);
    hide TarName, Single, NamesAdmissible, SameOrDisjoint;
  }

  lemma {:induction false} LibOkIff(s: Saver, before: seq<ImageInfo>, info: ImageInfo, untar0: Dir, w: Work,
                                    seen: map<string, Path>, t: Tarball)
    requires w.untar == untar0 - (Touched(before) + Elems(info.base)) && w.lib == map[]
    requires Groups(s, seen, w.files, LibLists(before), untar0) && Admissible(s, before, info)
    requires PathIn(s.dest, TarName(s, info, LIB_SUFFIX)) !in w.files && t.libTar == "" && t.libHash == ""
    ensures ProcessLib(s, info, w, seen, t).Ok? <==>
            Available(LibOf(info), LibLists(before), Touched(before) + Elems(info.base), untar0)
            && NameOk(TarName(s, info, LIB_SUFFIX), LibOf(info), LibLists(before))
  {
    hide TarName, Single, Writable, Groups, Admissible, Touched, Union, LibLists, ShareLayers, SameOrDisjoint;
    LibFacts(s, before, info);
    if info.lib.Some? {
      hide Available, NameOk;
      var st := Share(w.untar, w.lib, w.files, seen, "", "");
      ShareOkIff(s, TarName(s, info, LIB_SUFFIX), LibOf(info), st, LibLists(before), Touched(before) + Elems(info.base), untar0);
    } else {
      assert Elems(LibOf(info)) == {};
    }
  }

  /** Once the app layers are moved, saving the app part fails only for want of the configuration. */
  lemma {:induction false} AppTail(s: Saver, info: ImageInfo, w: Work, seen: map<string, Path>, t: Tarball)
    requires AppLayers(PathIn(s.dest, TarName(s, info, APP_SUFFIX)), info.app, Apps(w.untar, w.app, seen, t.appLayers)).Ok?
    requires
      var r := AppLayers(PathIn(s.dest, TarName(s, info, APP_SUFFIX)), info.app, Apps(w.untar, w.app, seen, t.appLayers)).value;
      && MANIFEST_DATA_FILE !in r.dir && REPOSITORIES_FILE !in r.dir && r.untar.Keys !! r.dir.Keys
    requires info.config != MANIFEST_DATA_FILE && info.config != REPOSITORIES_FILE
    ensures
      var r := AppLayers(PathIn(s.dest, TarName(s, info, APP_SUFFIX)), info.app, Apps(w.untar, w.app, seen, t.appLayers)).value;
      ProcessApp(s, info, w, seen, t).Ok? <==> info.config in r.untar && Writable(TarName(s, info, APP_SUFFIX))
  {
    hide TarName, AppLayers, Writable;
  }

  lemma {:induction false} AppFacts(s: Saver, before: seq<ImageInfo>, info: ImageInfo)
    requires Admissible(s, before, info)
    ensures MANIFEST_DATA_FILE !in Elems(info.app) && REPOSITORIES_FILE !in Elems(info.app)
    ensures info.config != MANIFEST_DATA_FILE && info.config != REPOSITORIES_FILE
    ensures Union(AppLists(before)) <= GoneBeforeApp(before, info)
  {
    hide TarName, Single, NamesAdmissible, SameOrDisjoint, Union;
  }

  lemma {:induction false} AppOkIff(s: Saver, before: seq<ImageInfo>, info: ImageInfo, untar0: Dir, w: Work,
                                    seen: map<string, Path>, t: Tarball)
    requires w.untar == untar0 - GoneBeforeApp(before, info) && w.app == map[] && t.appLayers == []
    requires seen.Keys == Union(AppLists(before)) && Admissible(s, before, info)
    ensures ProcessApp(s, info, w, seen, t).Ok? <==>
      && Writable(TarName(s, info, APP_SUFFIX)) && NoDup(info.app) && Elems(info.app) !! Union(AppLists(before))
      && info.config in untar0 && info.config !in GoneBeforeApp(before, info) && info.config !in info.app
  {
    hide TarName, Writable, Union, AppLists, GoneBeforeApp, NoDup, AppLayers, Admissible;
    var path := PathIn(s.dest, TarName(s, info, APP_SUFFIX));
    var st := Apps(w.untar, w.app, seen, t.appLayers);
    AppFacts(s, before, info);
    AppLayersIff(path, info.app, st);
    assert Elems(info.app) !! seen.Keys <==> forall x :: x in info.app ==> x !in seen;
    if AppLayers(path, info.app, st).Ok? {
      AppMoved(path, info.app, w.untar, seen);
      hide ProcessApp;
      AppTail(s, info, w, seen, t);
      assert info.config in Elems(info.app) <==> info.config in info.app;
    }
  }

  lemma {:induction false} ImageOkIff(s: Saver, before: seq<ImageInfo>, info: ImageInfo, untar0: Dir, w0: Work, seen: Seen)
    requires Inv(s, before, untar0, w0, seen) && Admissible(s, before, info)
    ensures ProcessImage(s, info, w0, seen).Ok? <==> Savable(s, before, info, untar0)
  {
    hide ProcessBase, ProcessLib, ProcessApp, TarName, Plain, Groups, Points, FilesOwned, Admissible, Available, NoDup,
         NameOk, Named, Filed, Writable,
         GoneBeforeApp, Touched, Union, LibLists, BaseLists, AppLists, Configs, Elems, LibOf;
    var w := w0.(base := map[], lib := map[], app := map[]);
    BaseOkIff(s, before, info, untar0, w, seen);
    if ProcessBase(s, info, w, seen.base, NoTarball).Ok? {
      var (w1, base, t1) := ProcessBase(s, info, w, seen.base, NoTarball).value;
      NameFree(s, before, info, w.files, LIB_SUFFIX);
      BasePhase(s, before, info, untar0, w, seen);
      StillFree(s, before, info, w.files, w1.files, LIB_SUFFIX, BASE_SUFFIX);
      LibOkIff(s, before, info, untar0, w1, seen.lib, t1);
      if ProcessLib(s, info, w1, seen.lib, t1).Ok? {
        var (w2, lib, t2) := ProcessLib(s, info, w1, seen.lib, t1).value;
        LibPhase(s, before, info, untar0, w1, seen.lib, t1);
        AppOkIff(s, before, info, untar0, w2, seen.app, t2);
      }
    }
  }

  lemma {:induction false} ImagesOkIff(s: Saver, done: seq<ImageInfo>, rest: seq<ImageInfo>, untar0: Dir, st: Saved)
    requires RunInv(s, done, untar0, st) && Separable(s, done + rest)
    ensures ProcessImages(s, rest, st).Ok? <==>
            forall k :: |done| <= k < |done + rest| ==> Savable(s, (done + rest)[..k], (done + rest)[k], untar0)
    decreases |rest|
  {
    hide Admissible, ProcessImage, Savable, Inv, GoodAt;
    if rest != [] {
      var all := done + rest;
      assert all[..|done|] == done && all[|done|] == rest[0];
      assert Admissible(s, all[..|done|], all[|done|]);
      ImageOkIff(s, done, rest[0], untar0, st.work, st.seen);
      if ProcessImage(s, rest[0], st.work, st.seen).Ok? {
        RunStep(s, done, rest[0], untar0, st);
        var (w, seen, t) := ProcessImage(s, rest[0], st.work, st.seen).value;
        assert done + [rest[0]] + rest[1..] == all;
        ImagesOkIff(s, done + [rest[0]], rest[1..], untar0, Saved(w, seen, st.tarballs[rest[0].nameTag := t]));
      }
    }
  }

  /** A save succeeds if and only if every image finds what it needs after those saved before it. */
  lemma {:induction false} SaveOkIff(s: Saver, images: seq<ImageInfo>, untar0: Dir)
    requires Separable(s, images)
    ensures Save(s, images, untar0).Ok? <==> forall k :: 0 <= k < |images| ==> Savable(s, images[..k], images[k], untar0)
  {
    hide Admissible, Savable, RunInv, ProcessImages;
    StartInv(s, untar0);
    assert [] + images == images;
    ImagesOkIff(s, [], images, untar0, Start(untar0));
  }

  /** The image is complete for a load: its app layers are in the tree and free, and base and lib layers exist. */
  predicate Whole(s: Saver, before: seq<ImageInfo>, info: ImageInfo, untar0: Dir) {
    && Savable(s, before, info, untar0) && info.base != [] && LibOf(info) != []
    && forall x :: x in info.app ==> x in untar0 && (x in info.base || x in LibOf(info) || Untaken(before, x))
  }

  lemma {:induction false} WholeSaves(s: Saver, images: seq<ImageInfo>, untar0: Dir)
    requires Separable(s, images) && (forall i :: 0 <= i < |images| ==> Whole(s, images[..i], images[i], untar0))
    ensures Save(s, images, untar0).Ok?
  {
    hide Separable, Savable, Save, Untaken;
    forall i | 0 <= i < |images| ensures Savable(s, images[..i], images[i], untar0) {
      assert Whole(s, images[..i], images[i], untar0);
    }
    SaveOkIff(s, images, untar0);
  }

  /**
  From the images alone: if every image is whole, saving succeeds, and then every image loads, from any loader set to
  the destination, with each of its layers as it was unpacked, unless the manifest took the place of its tarball.
  */
  lemma {:induction false} AllComeBack(s: Saver, images: seq<ImageInfo>, untar0: Dir, k: nat, l: Loader)
    requires Separable(s, images) && (forall i :: 0 <= i < |images| ==> Whole(s, images[..i], images[i], untar0))
    requires k < |images|
    requires l.appName == images[k].nameTag && l.dir == s.dest && l.sum == s.sum && l.basePath == l.libPath == None
    ensures Save(s, images, untar0).Ok?
    ensures var (files, manifest) := Save(s, images, untar0).value;
      && (Load(l, files, manifest).Ok? <==> !Clobbered(s, images[..k + 1]))
      && (Load(l, files, manifest).Ok? ==>
            forall x :: x in images[k].base || x in LibOf(images[k]) || x in images[k].app ==>
              LayerBack(Load(l, files, manifest).value, untar0, x))
  {
    WholeSaves(s, images, untar0);
    assert Whole(s, images[..k], images[k], untar0);
    hide Separable, Savable, Save, Load, Untaken, LayerBack, Restored, Clobbered;
    RoundTrip(s, images, untar0, k, l);
    CompleteIff(s, images, untar0, k);
  }

  // ---------- inputs ----------

  /** A single layer of each kind, all of different names, in the tree. */
  predicate OneOfEach(info: ImageInfo, b: string, x: string, a: string, untar0: Dir) {
    && info.base == [b] && info.lib == Some([x]) && info.app == [a]
    && b != x && b != a && x != a && info.config !in {b, x, a} && {b, x, a, info.config} <= untar0.Keys
    && {MANIFEST_DATA_FILE, REPOSITORIES_FILE} !! {b, x, a, info.config}
  }

  /** Such an image is whole wherever its tarball names are usable. */
  lemma {:induction false} OneWhole(s: Saver, info: ImageInfo, b: string, x: string, a: string, untar0: Dir)
    requires OneOfEach(info, b, x, a, untar0) && NamesAdmissible(s, [], info)
    requires forall a :: a in Suffixes ==> Writable(TarName(s, info, a))
    ensures Separable(s, [info]) && Whole(s, [], info, untar0)
  {
    hide TarName, Stem, Single, Writable, NamesAdmissible;
    assert [info][..0] == [];
    assert LayersAdmissible([], info);
  }

  /** So images that come back exist: any image with one layer of each kind and no renames. */
  lemma {:induction false} OneComesBack(s: Saver, info: ImageInfo, b: string, x: string, a: string, untar0: Dir, l: Loader)
    requires OneOfEach(info, b, x, a, untar0) && s.renames == []
    requires l.appName == info.nameTag && l.dir == s.dest && l.sum == s.sum && l.basePath == l.libPath == None
    ensures Save(s, [info], untar0).Ok?
    ensures var (files, manifest) := Save(s, [info], untar0).value; Load(l, files, manifest).Ok?
  {
    hide TarName, Stem, NamesAdmissible, Separable, Whole, OneOfEach, Save, Load, Clobbered, Writable;
    assert [] + [info] == [info] && [info][..0] == [] && [info][..1] == [info];
    DistinctStems(s, [], info);
    OneWhole(s, info, b, x, a, untar0);
    AllComeBack(s, [info], untar0, 0, l);
  }

  lemma {:induction false} RenameOne(r: Rename, name: string)
    ensures GetRename([r], name) == if r.oriName == name then r.newName else name
  {
    assert [r][1..] == [];
  }

  lemma {:induction false} RenamedNames(s: Saver, info: ImageInfo, m: string)
    requires s.renames == [Rename(PlainTarName(info, BASE_SUFFIX), m)] && Single(m) && |m| <= 8
    ensures TarName(s, info, BASE_SUFFIX) == m && NamesAdmissible(s, [], info)
    ensures forall a :: a in {LIB_SUFFIX, APP_SUFFIX} ==>
      Writable(TarName(s, info, a)) && TarName(s, info, a) != m && TarName(s, info, a) != MANIFEST_FILE
  {
    RenameOne(s.renames[0], PlainTarName(info, BASE_SUFFIX));
    forall a | a in {LIB_SUFFIX, APP_SUFFIX}
      ensures PlainTarName(info, a) == Stem(info) + a && PlainTarName(info, a) != PlainTarName(info, BASE_SUFFIX)
      ensures TarName(s, info, a) == Stem(info) + a && |TarName(s, info, a)| >= 17
    {
      if Stem(info) + a == Stem(info) + BASE_SUFFIX { SuffixesApart(Stem(info), Stem(info), a, BASE_SUFFIX); }
      RenameOne(s.renames[0], PlainTarName(info, a));
    }
    hide TarName, PlainTarName, Stem;
    StemPlain(info, LIB_SUFFIX);
    StemPlain(info, APP_SUFFIX);
    if Stem(info) + LIB_SUFFIX == Stem(info) + APP_SUFFIX { SuffixesApart(Stem(info), Stem(info), LIB_SUFFIX, APP_SUFFIX); }
  }

  /**
  One rename decides. With the base tarball of a sound image renamed to a short name m, the save fails exactly if m is
  no name for a file, and a load afterwards fails exactly if m is the name of the manifest.
  */
  lemma {:induction false} RenameDecides(s: Saver, info: ImageInfo, b: string, x: string, a: string, untar0: Dir, m: string,
                                         l: Loader)
    requires OneOfEach(info, b, x, a, untar0)
    requires s.renames == [Rename(PlainTarName(info, BASE_SUFFIX), m)] && Single(m) && |m| <= 8
    requires l.appName == info.nameTag && l.dir == s.dest && l.sum == s.sum && l.basePath == l.libPath == None
    ensures Save(s, [info], untar0).Ok? <==> Writable(m)
    ensures Writable(m) ==>
      var (files, manifest) := Save(s, [info], untar0).value;
      Load(l, files, manifest).Ok? <==> m != MANIFEST_FILE
  {
    hide TarName, PlainTarName, Stem, NamesAdmissible, Single, Writable, Save, Load;
    RenamedNames(s, info, m);
    assert [info][..0] == [] && [info][..1] == [info];
    if Writable(m) {
      OneWhole(s, info, b, x, a, untar0);
      hide OneOfEach, Separable, Whole;
      AllComeBack(s, [info], untar0, 0, l);
      RenamedClobbers(s, info, m);
    } else {
      assert LayersAdmissible([], info);
      SaveOkIff(s, [info], untar0);
      assert !Savable(s, [info][..0], [info][0], untar0);
    }
  }

  lemma {:induction false} RenamedClobbers(s: Saver, info: ImageInfo, m: string)
    requires TarName(s, info, BASE_SUFFIX) == m && info.base != []
    requires forall a :: a in {LIB_SUFFIX, APP_SUFFIX} ==> TarName(s, info, a) != MANIFEST_FILE
    ensures Clobbered(s, [info]) <==> m == MANIFEST_FILE
  {
    hide TarName;
    assert BaseLists([info]) == [info.base] && FirstAt(BaseLists([info]), 0);
  }

  /** Image A has layers x, y and z, one of each kind; B has its own base and lib, and x, y and b as app layers. */
  predicate Overlapping(A: ImageInfo, B: ImageInfo, x: string, y: string, z: string, u: string, v: string, b: string,
                        untar0: Dir)
  {
    && OneOfEach(A, x, y, z, untar0) && B.base == [u] && B.lib == Some([v]) && B.app == [x, y, b]
    && u != v && u != b && v != b && {u, v, b, B.config} !! {x, y, z, A.config} && B.config !in {u, v, b}
    && {u, v, b, B.config} <= untar0.Keys && {MANIFEST_DATA_FILE, REPOSITORIES_FILE} !! {u, v, b, B.config}
    && A.nameTag != B.nameTag && Stem(A) != Stem(B)
  }

  lemma {:induction false} OverlapTouched(A: ImageInfo, B: ImageInfo, x: string, y: string, z: string, u: string, v: string,
                                          b: string, untar0: Dir)
    requires Overlapping(A, B, x, y, z, u, v, b, untar0)
    ensures BaseLists([A]) == [[x]] && LibLists([A]) == [[y]] && AppLists([A]) == [[z]]
    ensures Touched([A]) == {x, y, z, A.config} && Union(AppLists([A])) == {z}
    ensures Elems(B.base) == {u} && Elems(LibOf(B)) == {v} && Elems(B.app) == {x, y, b}
  {
    hide Stem;
    TouchedOneMore([], A);
    TouchedGrows([], A);
    assert [] + [A] == [A];
    assert Elems(A.base) == {x} && Elems(LibOf(A)) == {y} && Elems(A.app) == {z};
    assert Union([]) == {};
  }

  lemma {:induction false} OverlapSavable(s: Saver, A: ImageInfo, B: ImageInfo, x: string, y: string, z: string, u: string,
                                          v: string, b: string, untar0: Dir)
    requires Overlapping(A, B, x, y, z, u, v, b, untar0) && s.renames == []
    ensures Savable(s, [A], B, untar0)
  {
    hide TarName, Stem, Writable;
    OverlapTouched(A, B, x, y, z, u, v, b, untar0);
    hide NamesAdmissible, Clobbered;
    DistinctStems(s, [A], B);
    hide Touched, Union, BaseLists, LibLists, AppLists;
  }

  lemma {:induction false} OverlapAdmissible(s: Saver, A: ImageInfo, B: ImageInfo, x: string, y: string, z: string, u: string,
                                             v: string, b: string, untar0: Dir)
    requires Overlapping(A, B, x, y, z, u, v, b, untar0) && s.renames == []
    ensures Separable(s, [A, B])
  {
    hide TarName, Stem, Writable, NamesAdmissible, Clobbered;
    DistinctStems(s, [], A);
    DistinctStems(s, [A], B);
    assert Elems(A.base) == {x} && Elems(B.base) == {u} && Elems(LibOf(A)) == {y} && Elems(LibOf(B)) == {v};
    assert [A, B][..0] == [] && [A, B][..1] == [A];
    assert LayersAdmissible([], A) && LayersAdmissible([A], B);
  }

  /**
  Layers get lost in a save that succeeds: B can be loaded, and its base and lib are there, but the layers x and y that
  image A had taken before are not.
  */
  lemma {:induction false} LostLayers(s: Saver, A: ImageInfo, B: ImageInfo, x: string, y: string, z: string, u: string, v: string,
                                      b: string, untar0: Dir, l: Loader)
    requires Overlapping(A, B, x, y, z, u, v, b, untar0) && s.renames == []
    requires l.appName == B.nameTag && l.dir == s.dest && l.sum == s.sum && l.basePath == l.libPath == None
    ensures Save(s, [A, B], untar0).Ok?
    ensures
      var (files, manifest) := Save(s, [A, B], untar0).value;
      && Load(l, files, manifest).Ok? && {x, y} <= Elems(B.app)
      && Load(l, files, manifest).value.Keys !! {x, y} && {u, v, b} <= Load(l, files, manifest).value.Keys
  {
    hide TarName, Writable, NamesAdmissible, Clobbered, Separable, Save, Load;
    var images := [A, B];
    assert images[..0] == [] && images[..1] == [A] && images[..2] == images;
    OverlapAdmissible(s, A, B, x, y, z, u, v, b, untar0);
    OverlapSavable(s, A, B, x, y, z, u, v, b, untar0);
    DistinctStems(s, [], A);
    OneWhole(s, A, x, y, z, untar0);
    hide Savable, Stem;
    SaveOkIff(s, images, untar0);
    NeverClobbered(s, images);
    RoundTrip(s, images, untar0, 1, l);
    OverlapTouched(A, B, x, y, z, u, v, b, untar0);
    hide Touched, Union, BaseLists, LibLists, AppLists;
    assert GoneBeforeApp([A], B) == {x, y, z, A.config, u, v};
  }
}
