/**
Saving an image as separate base, lib and app tarballs, and loading it back.

Directories are maps from entry names to entries and a tarball is a snapshot of a directory. Tarballs live at
paths `dest/name`. The file digest is an arbitrary function of a tarball's contents. A path that holds anything other
than a tarball is not in the map of files: fetching a tarball from it fails, at the latest when it is unpacked.
*/
module Separator {
  import opened Basics
  import opened Strings

  const MANIFEST_DATA_FILE := "manifest.json"
  const MANIFEST_FILE := "manifest"
  const REPOSITORIES_FILE := "repositories"
  const BASE_SUFFIX := "_base_image.tar.gz"
  const LIB_SUFFIX := "_lib_image.tar.gz"
  const APP_SUFFIX := "_app_image.tar.gz"

  datatype Entry =
    | LayerDir(content: int)
    | File(content: int)
    | ManifestFile(config: string, layers: seq<string>, repoTags: seq<string>)
    | RepositoriesFile(name: string, tag: string, topLayer: string)

  type Dir = map<string, Entry>

  /** `filepath.Join(dir, name)` for a file name or, with an empty name, the directory itself. */
  datatype Path = PathIn(dir: string, name: string)

  type Files = map<Path, Dir>

  datatype Rename = Rename(oriName: string, newName: string)

  /** The saver's options; `sum` is the digest of a tarball. */
  datatype Saver = Saver(base: string, lib: string, dest: string, renames: seq<Rename>, sum: Dir -> string)

  /** `imageInfo`; `lib` is None for a nil slice. */
  datatype ImageInfo = ImageInfo(
    config: string, repoTags: seq<string>, nameTag: string, name: string, tag: string,
    base: seq<string>, lib: Option<seq<string>>, app: seq<string>, all: seq<string>, topLayer: string)

  /** `tarballInfo`, one entry of the manifest. */
  datatype Tarball = Tarball(
    appTar: string, appHash: string, appLayers: seq<string>,
    libTar: string, libHash: string, libImage: string, libLayers: seq<string>,
    baseTar: string, baseHash: string, baseImage: string, baseLayer: string)

  const NoTarball := Tarball("", "", [], "", "", "", [], "", "", "", "")

  /** The temporary directories and the tarballs written so far. */
  datatype Work = Work(untar: Dir, base: Dir, lib: Dir, app: Dir, files: Files)

  /** `baseImagesMap`, `libImagesMap` and `appImagesMap`: from layer ID to tarball path. */
  datatype Seen = Seen(base: map<string, Path>, lib: map<string, Path>, app: map<string, Path>)

  /** `filepath.Base` */
  function BaseName(p: Path): string { LastElem(p.name) }

  /** `processTarName` followed by `getRename`. */
  function PlainTarName(info: ImageInfo, suffix: string): string {
    LastElem(info.name) + "_" + LastElem(info.tag) + suffix
  }

  function GetRename(renames: seq<Rename>, name: string): string {
    if renames == [] then name
    else if renames[0].oriName == name then renames[0].newName
    else GetRename(renames[1..], name)
  }

  /** Entry i is the first of the rename file for the name. */
  predicate FirstFor(renames: seq<Rename>, name: string, i: nat) {
    i < |renames| && renames[i].oriName == name && forall j :: 0 <= j < i ==> renames[j].oriName != name
  }

  /** The first entry for a name renames it; a name without an entry stays. */
  lemma {:induction false} RenameApplies(renames: seq<Rename>, name: string)
    ensures forall i: nat :: FirstFor(renames, name, i) ==> GetRename(renames, name) == renames[i].newName
    ensures (forall i :: 0 <= i < |renames| ==> renames[i].oriName != name) ==> GetRename(renames, name) == name
  {
    if renames != [] && renames[0].oriName != name {
      var rest := renames[1..];
      RenameApplies(rest, name);
      forall i: nat | FirstFor(renames, name, i) ensures GetRename(renames, name) == renames[i].newName {
        assert forall j :: 0 <= j < i - 1 ==> rest[j] == renames[j + 1];
        assert FirstFor(rest, name, i - 1);
      }
      assert forall i :: 0 <= i < |rest| ==> rest[i] == renames[i + 1];
    }
  }

  function TarName(s: Saver, info: ImageInfo, suffix: string): string {
    GetRename(s.renames, PlainTarName(info, suffix))
  }

  /** `os.Rename` of one entry between two directories. A layer directory neither replaces nor is replaced. */
  function Move(src: Dir, dst: Dir, name: string): Result<(Dir, Dir)> {
    if name !in src || (name in dst && (src[name].LayerDir? || dst[name].LayerDir?)) then Err
    else Ok((src - {name}, dst[name := src[name]]))
  }

  /** `AtomicWriteFile` */
  function Write(dir: Dir, name: string, e: Entry): Result<Dir> {
    if name in dir && dir[name].LayerDir? then Err else Ok(dir[name := e])
  }

  /** A file of this name can be created in a directory: the name stands for neither the directory nor its parent. */
  predicate Writable(name: string) { name != "" && name != "." && name != ".." }

  // ---------- save ----------

  /** What the loops over base and lib layers update. */
  datatype Share = Share(untar: Dir, dir: Dir, files: Files, seen: map<string, Path>, tar: string, hash: string)

  /**
  The loop shared by `processBaseImg` and `processLibImg`: a layer not saved yet is moved and the directory is
  packed again under this image's tarball name; a layer saved before makes the entry point at that tarball.
  */
  function ShareLayers(s: Saver, name: string, layers: seq<string>, st: Share): Result<Share>
    decreases |layers|
  {
    if layers == [] then Ok(st)
    else
      var next :- ShareLayer(s, name, layers[0], st);
      ShareLayers(s, name, layers[1..], next)
  }

  function ShareLayer(s: Saver, name: string, x: string, st: Share): Result<Share> {
    if x !in st.seen then
      var (untar, dir) :- Move(st.untar, st.dir, x);
      var path := PathIn(s.dest, name);
      if !Writable(name) then Err
      else Ok(Share(untar, dir, st.files[path := dir], st.seen[x := path], name, s.sum(dir)))
    else if st.seen[x] !in st.files then Err
    else Ok(st.(tar := BaseName(st.seen[x]), hash := s.sum(st.files[st.seen[x]])))
  }

  lemma {:induction false} ShareOneMore(s: Saver, name: string, layers: seq<string>, i: nat, st: Share)
    requires i < |layers|
    ensures var next := ShareLayer(s, name, layers[i], st);
      ShareLayers(s, name, layers[i..], st) == if next.Err? then Err else ShareLayers(s, name, layers[i + 1..], next.value)
  {
    assert layers[i..][1..] == layers[i + 1..];
  }

  function ProcessBase(s: Saver, info: ImageInfo, w: Work, seen: map<string, Path>, t: Tarball)
    : Result<(Work, map<string, Path>, Tarball)>
  {
    var r :- ShareLayers(s, TarName(s, info, BASE_SUFFIX), info.base,
                         Share(w.untar, w.base, w.files, seen, t.baseTar, t.baseHash));
    Ok((w.(untar := r.untar, base := r.dir, files := r.files), r.seen,
        t.(baseImage := s.base, baseLayer := if info.base != [] then info.base[0] else t.baseLayer,
           baseTar := r.tar, baseHash := r.hash)))
  }

  function ProcessLib(s: Saver, info: ImageInfo, w: Work, seen: map<string, Path>, t: Tarball)
    : Result<(Work, map<string, Path>, Tarball)>
  {
    if info.lib.None? then Ok((w, seen, t))
    else
      var r :- ShareLayers(s, TarName(s, info, LIB_SUFFIX), info.lib.value,
                           Share(w.untar, w.lib, w.files, seen, t.libTar, t.libHash));
      Ok((w.(untar := r.untar, lib := r.dir, files := r.files), r.seen,
          t.(libImage := s.lib, libLayers := t.libLayers + info.lib.value, libTar := r.tar, libHash := r.hash)))
  }

  datatype Apps = Apps(untar: Dir, dir: Dir, seen: map<string, Path>, layers: seq<string>)

  /**
  The loop of `processAppImg`. A layer that cannot be moved is an error only if an earlier image saved it as an
  app layer; otherwise the failure is dropped.
  */
  function AppLayers(path: Path, layers: seq<string>, st: Apps): Result<Apps>
    decreases |layers|
  {
    if layers == [] then Ok(st)
    else
      var next :- AppLayer(path, layers[0], st);
      AppLayers(path, layers[1..], next)
  }

  function AppLayer(path: Path, x: string, st: Apps): Result<Apps> {
    match Move(st.untar, st.dir, x)
    case Ok((untar, dir)) => Ok(Apps(untar, dir, st.seen[x := path], st.layers + [x]))
    case Err => if x in st.seen then Err else Ok(st.(seen := st.seen[x := path], layers := st.layers + [x]))
  }

  function ProcessApp(s: Saver, info: ImageInfo, w: Work, seen: map<string, Path>, t: Tarball)
    : Result<(Work, map<string, Path>, Tarball)>
  {
    var name := TarName(s, info, APP_SUFFIX);
    var path := PathIn(s.dest, name);
    var r :- AppLayers(path, info.app, Apps(w.untar, w.app, seen, t.appLayers));
    var d1 :- Write(r.dir, MANIFEST_DATA_FILE, ManifestFile(info.config, info.all, info.repoTags));
    var d2 :- Write(d1, REPOSITORIES_FILE, RepositoriesFile(info.name, info.tag, info.topLayer));
    var (untar, dir) :- Move(r.untar, d2, info.config);
    if !Writable(name) then Err
    else Ok((w.(untar := untar, app := dir, files := w.files[path := dir]), r.seen,
        t.(appLayers := r.layers, appTar := name, appHash := s.sum(dir))))
  }

  /** One turn of the loop of `processImageLayers`. */
  function ProcessImage(s: Saver, info: ImageInfo, w0: Work, seen: Seen): Result<(Work, Seen, Tarball)> {
    var w := w0.(base := map[], lib := map[], app := map[]);
    var (w1, base, t1) :- ProcessBase(s, info, w, seen.base, NoTarball);
    var (w2, lib, t2) :- ProcessLib(s, info, w1, seen.lib, t1);
    var (w3, app, t3) :- ProcessApp(s, info, w2, seen.app, t2);
    Ok((w3, Seen(base, lib, app), t3))
  }

  datatype Saved = Saved(work: Work, seen: Seen, tarballs: map<string, Tarball>)

  /** The loop of `processImageLayers` over the images in the given order. */
  function ProcessImages(s: Saver, images: seq<ImageInfo>, st: Saved): Result<Saved>
    decreases |images|
  {
    if images == [] then Ok(st)
    else
      var (w, seen, t) :- ProcessImage(s, images[0], st.work, st.seen);
      ProcessImages(s, images[1..], Saved(w, seen, st.tarballs[images[0].nameTag := t]))
  }

  function Start(untar: Dir): Saved {
    Saved(Work(untar, map[], map[], map[], map[]), Seen(map[], map[], map[]), map[])
  }

  /** Where the manifest goes. It is the last file written, so no tarball is left at this path. */
  function ManifestPath(s: Saver): Path { PathIn(s.dest, MANIFEST_FILE) }

  /** Everything `processImageLayers` leaves behind: the tarballs and the manifest. */
  function Save(s: Saver, images: seq<ImageInfo>, untar: Dir): Result<(Files, map<string, Tarball>)> {
    var st :- ProcessImages(s, images, Start(untar));
    Ok((st.work.files - {ManifestPath(s)}, st.tarballs))
  }

  // ---------- load ----------

  /** The loader's options; absent paths mean "take the path from the manifest". */
  datatype Loader = Loader(appName: string, basePath: Option<Path>, libPath: Option<Path>, dir: string, skipCheck: bool,
                           sum: Dir -> string)

  function PathFor(given: Option<Path>, dir: string, name: string): Path {
    if given.Some? then given.value else PathIn(dir, name)
  }

  /** `tarballCheckSum` for one path followed by `UnpackFile`. */
  function Fetch(l: Loader, files: Files, path: Path, hash: string): Result<Dir> {
    if path in files && (l.skipCheck || l.sum(files[path]) == hash) then Ok(files[path]) else Err
  }

  /** `reconstructImage`: every entry of `src` is moved into `dst`, in some order. */
  function Merge(src: Dir, dst: Dir): Result<Dir> {
    if exists n :: n in src && n in dst && (src[n].LayerDir? || dst[n].LayerDir?) then Err else Ok(dst + src)
  }

  /** `LoadSeparatedImage`: the contents of the image tarball it puts together. */
  function Load(l: Loader, files: Files, manifest: map<string, Tarball>): Result<Dir> {
    if l.appName !in manifest then Err
    else
      var t := manifest[l.appName];
      if t.appTar == "" || t.baseTar == "" then Err
      else
        var base :- Fetch(l, files, PathFor(l.basePath, l.dir, t.baseTar), t.baseHash);
        var lib :- Fetch(l, files, PathFor(l.libPath, l.dir, t.libTar), t.libHash);
        var app :- Fetch(l, files, PathIn(l.dir, t.appTar), t.appHash);
        var d :- Merge(app, base);
        Merge(lib, d)
  }

  // ---------- the loops as they run ----------

  /** One save: the temporary directories, the tarballs and the three maps that `processImageLayers` hands around. */
  class SaveSession {
    const s: Saver
    var untar: Dir
    var baseDir: Dir
    var libDir: Dir
    var appDir: Dir
    var files: Files
    var baseImages: map<string, Path>
    var libImages: map<string, Path>
    var appImages: map<string, Path>
    var tarballs: map<string, Tarball>

    ghost function W(): Work reads this { Work(untar, baseDir, libDir, appDir, files) }
    ghost function Maps(): Seen reads this { Seen(baseImages, libImages, appImages) }
    ghost function State(): Saved reads this { Saved(W(), Maps(), tarballs) }

    constructor (s: Saver, untar: Dir)
      ensures this.s == s && State() == Start(untar)
    {
      this.s, this.untar := s, untar;
      baseDir, libDir, appDir, files := map[], map[], map[], map[];
      baseImages, libImages, appImages, tarballs := map[], map[], map[], map[];
    }

    method ProcessBaseImg(info: ImageInfo, t0: Tarball) returns (r: Result<Tarball>)
      modifies this
      ensures var spec := ProcessBase(s, info, old(W()), old(baseImages), t0);
        if spec.Err? then r == Err
        else r == Ok(spec.value.2)
             && State() == old(State()).(work := spec.value.0, seen := old(Maps()).(base := spec.value.1))
    {
      hide TarName, Writable;
      var t := t0.(baseImage := s.base);
      if |info.base| != 0 {
        t := t.(baseLayer := info.base[0]);
      }
      var name := TarName(s, info, BASE_SUFFIX);
      ghost var goal := ShareLayers(s, name, info.base, Share(untar, baseDir, files, baseImages, t0.baseTar, t0.baseHash));
      for i := 0 to |info.base|
        invariant ShareLayers(s, name, info.base[i..], Share(untar, baseDir, files, baseImages, t.baseTar, t.baseHash)) == goal
        invariant t == t0.(baseImage := s.base, baseLayer := if info.base != [] then info.base[0] else t0.baseLayer,
                           baseTar := t.baseTar, baseHash := t.baseHash)
        invariant State() == old(State()).(work := old(W()).(untar := untar, base := baseDir, files := files),
                                           seen := old(Maps()).(base := baseImages))
      {
        var x := info.base[i];
        ShareOneMore(s, name, info.base, i, Share(untar, baseDir, files, baseImages, t.baseTar, t.baseHash));
        hide ShareLayers;
        if x !in baseImages {
          var moved := Move(untar, baseDir, x);
          if moved.Err? { return Err; }
          untar, baseDir := moved.value.0, moved.value.1;
          if !Writable(name) { return Err; }
          files := files[PathIn(s.dest, name) := baseDir];
          baseImages := baseImages[x := PathIn(s.dest, name)];
          t := t.(baseTar := name, baseHash := s.sum(baseDir));
        } else {
          if baseImages[x] !in files { return Err; }
          t := t.(baseTar := BaseName(baseImages[x]), baseHash := s.sum(files[baseImages[x]]));
        }
      }
      r := Ok(t);
    }

    method ProcessLibImg(info: ImageInfo, t0: Tarball) returns (r: Result<Tarball>)
      modifies this
      ensures var spec := ProcessLib(s, info, old(W()), old(libImages), t0);
        if spec.Err? then r == Err
        else r == Ok(spec.value.2)
             && State() == old(State()).(work := spec.value.0, seen := old(Maps()).(lib := spec.value.1))
    {
      hide TarName, Writable;
      if info.lib.None? { return Ok(t0); }
      var layers := info.lib.value;
      var t := t0.(libImage := s.lib);
      var name := TarName(s, info, LIB_SUFFIX);
      ghost var goal := ShareLayers(s, name, layers, Share(untar, libDir, files, libImages, t0.libTar, t0.libHash));
      for i := 0 to |layers|
        invariant ShareLayers(s, name, layers[i..], Share(untar, libDir, files, libImages, t.libTar, t.libHash)) == goal
        invariant t == t0.(libImage := s.lib, libLayers := t0.libLayers + layers[..i], libTar := t.libTar, libHash := t.libHash)
        invariant State() == old(State()).(work := old(W()).(untar := untar, lib := libDir, files := files),
                                           seen := old(Maps()).(lib := libImages))
      {
        var x := layers[i];
        ShareOneMore(s, name, layers, i, Share(untar, libDir, files, libImages, t.libTar, t.libHash));
        hide ShareLayers;
        t := t.(libLayers := t.libLayers + [x]);
        if x !in libImages {
          var moved := Move(untar, libDir, x);
          if moved.Err? { return Err; }
          untar, libDir := moved.value.0, moved.value.1;
          if !Writable(name) { return Err; }
          files := files[PathIn(s.dest, name) := libDir];
          libImages := libImages[x := PathIn(s.dest, name)];
          t := t.(libTar := name, libHash := s.sum(libDir));
        } else {
          if libImages[x] !in files { return Err; }
          t := t.(libTar := BaseName(libImages[x]), libHash := s.sum(files[libImages[x]]));
        }
      }
      assert layers[..|layers|] == layers;
      r := Ok(t);
    }

    method ProcessAppImg(info: ImageInfo, t0: Tarball) returns (r: Result<Tarball>)
      modifies this
      ensures var spec := ProcessApp(s, info, old(W()), old(appImages), t0);
        if spec.Err? then r == Err
        else r == Ok(spec.value.2)
             && State() == old(State()).(work := spec.value.0, seen := old(Maps()).(app := spec.value.1))
    {
      hide TarName, Writable;
      var t := t0;
      var name := TarName(s, info, APP_SUFFIX);
      var path := PathIn(s.dest, name);
      ghost var goal := AppLayers(path, info.app, Apps(untar, appDir, appImages, t0.appLayers));
      for i := 0 to |info.app|
        invariant AppLayers(path, info.app[i..], Apps(untar, appDir, appImages, t.appLayers)) == goal
        invariant t == t0.(appLayers := t.appLayers)
        invariant State() == old(State()).(work := old(W()).(untar := untar, app := appDir),
                                           seen := old(Maps()).(app := appImages))
      {
        var x := info.app[i];
        var moved := Move(untar, appDir, x);
        if moved.Ok? {
          untar, appDir := moved.value.0, moved.value.1;
        } else if x in appImages {
          return Err;
        }
        appImages := appImages[x := path];
        t := t.(appLayers := t.appLayers + [x]);
      }
      var d1 := Write(appDir, MANIFEST_DATA_FILE, ManifestFile(info.config, info.all, info.repoTags));
      if d1.Err? { return Err; }
      var d2 := Write(d1.value, REPOSITORIES_FILE, RepositoriesFile(info.name, info.tag, info.topLayer));
      if d2.Err? { return Err; }
      var moved := Move(untar, d2.value, info.config);
      if moved.Err? { return Err; }
      untar, appDir := moved.value.0, moved.value.1;
      if !Writable(name) { return Err; }
      files := files[path := appDir];
      r := Ok(t.(appTar := name, appHash := s.sum(appDir)));
    }

    /** `processImageLayers` over the images in the order of their sorted names, and the manifest at the end. */
    method ProcessImageLayers(images: seq<ImageInfo>) returns (r: Result<map<string, Tarball>>)
      requires exists untar0 :: State() == Start(untar0)
      modifies this
      ensures r.Ok? <==> Save(s, images, old(untar)).Ok?
      ensures r.Ok? ==> Save(s, images, old(untar)) == Ok((files, r.value))
    {
      hide ProcessBase, ProcessLib, ProcessApp;
      ghost var goal := ProcessImages(s, images, State());
      for i := 0 to |images|
        invariant ProcessImages(s, images[i..], State()) == goal
      {
        var info := images[i];
        baseDir, libDir, appDir := map[], map[], map[];
        var t := ProcessBaseImg(info, NoTarball);
        if t.Err? { return Err; }
        t := ProcessLibImg(info, t.value);
        if t.Err? { return Err; }
        t := ProcessAppImg(info, t.value);
        if t.Err? { return Err; }
        tarballs := tarballs[info.nameTag := t.value];
      }
      files := files - {ManifestPath(s)};
      r := Ok(tarballs);
    }
  }

  /** Renaming any one entry first does not change what the others give. */
  lemma {:induction false} MergeStep(src: Dir, dst: Dir, n: string)
    requires n in src
    ensures Merge(src, dst)
         == if Move(src, dst, n).Err? then Err else Merge(Move(src, dst, n).value.0, Move(src, dst, n).value.1)
  {
    if Move(src, dst, n).Ok? {
      assert dst[n := src[n]] + (src - {n}) == dst + src;
    }
  }

  /** The loop of `reconstructImage`: entries are renamed one by one, in any order. */
  method MoveAll(src0: Dir, dst0: Dir) returns (r: Result<Dir>)
    ensures r == Merge(src0, dst0)
  {
    var src, dst := src0, dst0;
    while src.Keys != {}
      invariant Merge(src, dst) == Merge(src0, dst0)
      decreases src.Keys
    {
      var n :| n in src.Keys;
      MergeStep(src, dst, n);
      hide Merge;
      var moved := Move(src, dst, n);
      if moved.Err? { return Err; }
      src, dst := moved.value.0, moved.value.1;
    }
    assert dst + src == dst;
    r := Ok(dst);
  }

  /** `LoadSeparatedImage`, with the loader's three directories as local state. */
  method LoadSeparatedImage(l: Loader, files: Files, manifest: map<string, Tarball>) returns (r: Result<Dir>)
    ensures r == Load(l, files, manifest)
  {
    if l.appName !in manifest { return Err; }
    var t := manifest[l.appName];
    if |t.appTar| == 0 || |t.baseTar| == 0 { return Err; }
    var paths := [PathFor(l.basePath, l.dir, t.baseTar), PathFor(l.libPath, l.dir, t.libTar), PathIn(l.dir, t.appTar)];
    var hashes := [t.baseHash, t.libHash, t.appHash];
    if !l.skipCheck {
      for i := 0 to 3
        invariant forall j :: 0 <= j < i ==> paths[j] in files && l.sum(files[paths[j]]) == hashes[j]
      {
        if paths[i] !in files || l.sum(files[paths[i]]) != hashes[i] {
          assert Fetch(l, files, paths[i], hashes[i]).Err?;
          return Err;
        }
      }
    }
    var dirs: seq<Dir> := [];
    for i := 0 to 3
      invariant |dirs| == i
      invariant forall j :: 0 <= j < i ==> Fetch(l, files, paths[j], hashes[j]) == Ok(dirs[j])
    {
      if paths[i] !in files {
        assert Fetch(l, files, paths[i], hashes[i]).Err?;
        return Err;
      }
      dirs := dirs + [files[paths[i]]];
    }
    assert Fetch(l, files, paths[0], hashes[0]) == Ok(dirs[0]);
    assert Fetch(l, files, paths[1], hashes[1]) == Ok(dirs[1]);
    assert Fetch(l, files, paths[2], hashes[2]) == Ok(dirs[2]);
    r := MoveAll(dirs[2], dirs[0]);
    if r.Ok? {
      r := MoveAll(dirs[1], r.value);
    }
  }
}
