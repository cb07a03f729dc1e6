/**
Splitting an image's layers into base, lib and app: the layer map of the unpacked tree, the hash map of each image
and the cut points.
*/
module LayerSplit {
  import opened Basics
  import opened Strings
  import opened Separator
  import SeparatorProofs

  const LAYER_TAR_NAME := "layer.tar"
  const TAR_SUFFIX := ".tar"

  /** A layer directory of the unpacked tree and the file name its layer.tar link points to. */
  datatype LayerLink = LayerLink(dir: string, target: string)

  function LayerPath(dir: string): string { dir + "/" + LAYER_TAR_NAME }

  ghost predicate Injective(m: map<string, string>) {
    forall k, l :: k in m && l in m && m[k] == m[l] ==> k == l
  }

  lemma {:induction false} LayerPathInjective(a: string, b: string)
    requires LayerPath(a) == LayerPath(b)
    ensures a == b
  {
    var n := |"/" + LAYER_TAR_NAME|;
    assert a == LayerPath(a)[..|LayerPath(a)| - n];
    assert b == LayerPath(b)[..|LayerPath(b)| - n];
  }

  /**
  `constructLayerMap`: each layer directory takes over the file its link points to. A file can be taken once, so the
  call succeeds exactly when every target exists and no two directories share one.
  */
  method ConstructLayerMap(links: seq<LayerLink>, files0: set<string>) returns (r: Result<map<string, string>>)
    requires forall i, j :: 0 <= i < j < |links| ==> links[i].dir != links[j].dir
    ensures r.Ok? <==> (forall i :: 0 <= i < |links| ==> links[i].target in files0)
                       && (forall i, j :: 0 <= i < j < |links| ==> links[i].target != links[j].target)
    ensures r.Ok? ==> Injective(r.value)
    ensures r.Ok? ==> r.value.Keys == Targets(links, |links|)
    ensures r.Ok? ==> forall i :: 0 <= i < |links| ==> Takes(links[i], r.value)
  {
    hide Taken, Takes, Targets;
    NoneTaken(links, files0);
    var m: map<string, string> := map[];
    var files := files0;
    for k := 0 to |links|
      invariant Taken(links, files0, k, files, m)
    {
      var l := links[k];
      if l.target !in files {
        NotTaken(links, files0, k, files, m);
        return Err;
      }
      TakeOne(links, files0, k, files, m);
      m := m[l.target := LayerPath(l.dir)];
      files := files - {l.target};
    }
    AllTaken(links, files0, files, m);
    TakenOnce(links, m);
    r := Ok(m);
  }

  /** After k links: their targets were there, are all different and gone, and lead to their directories. */
  ghost predicate Taken(links: seq<LayerLink>, files0: set<string>, k: nat, files: set<string>, m: map<string, string>) {
    && k <= |links| && files == files0 - Targets(links, k) && m.Keys == Targets(links, k)
    && (forall i :: 0 <= i < k ==> links[i].target in files0)
    && (forall i, j :: 0 <= i < j < k ==> links[i].target != links[j].target)
    && forall i :: 0 <= i < k ==> Takes(links[i], m)
  }

  lemma {:induction false} NoneTaken(links: seq<LayerLink>, files0: set<string>)
    ensures Taken(links, files0, 0, files0, map[])
  {
    assert Targets(links, 0) == {};
  }

  lemma {:induction false} TakeOne(links: seq<LayerLink>, files0: set<string>, k: nat, files: set<string>, m: map<string, string>)
    requires k < |links| && Taken(links, files0, k, files, m) && links[k].target in files
    ensures Taken(links, files0, k + 1, files - {links[k].target}, m[links[k].target := LayerPath(links[k].dir)])
  {
    hide Targets, Takes, LayerPath;
    var l := links[k];
    var more := m[l.target := LayerPath(l.dir)];
    TargetsStep(links, k);
    TargetsStep(links, k + 1);
    forall i | 0 <= i < k ensures links[i].target != l.target && Takes(links[i], more) {
      assert links[i].target in Targets(links, k);
      TakesStill(links[i], m, l.target, LayerPath(l.dir));
    }
    TakesNew(l, m);
  }

  lemma {:induction false} TakesStill(l: LayerLink, m: map<string, string>, t: string, v: string)
    requires Takes(l, m) && l.target != t
    ensures Takes(l, m[t := v])
  {
  }

  lemma {:induction false} TakesNew(l: LayerLink, m: map<string, string>)
    ensures Takes(l, m[l.target := LayerPath(l.dir)])
  {
  }

  lemma {:induction false} NotTaken(links: seq<LayerLink>, files0: set<string>, k: nat, files: set<string>, m: map<string, string>)
    requires k < |links| && Taken(links, files0, k, files, m) && links[k].target !in files
    ensures links[k].target !in files0 || exists i :: 0 <= i < k && links[i].target == links[k].target
  {
    hide Targets, Takes;
    TargetsStep(links, k);
  }

  lemma {:induction false} AllTaken(links: seq<LayerLink>, files0: set<string>, files: set<string>, m: map<string, string>)
    requires Taken(links, files0, |links|, files, m)
    ensures m.Keys == Targets(links, |links|) && (forall i :: 0 <= i < |links| ==> Takes(links[i], m))
    ensures (forall i :: 0 <= i < |links| ==> links[i].target in files0)
    ensures forall i, j :: 0 <= i < j < |links| ==> links[i].target != links[j].target
  {
    hide Targets, Takes;
  }

  /** The link's target leads to its directory. */
  predicate Takes(l: LayerLink, m: map<string, string>) { l.target in m && m[l.target] == LayerPath(l.dir) }

  /** The targets of the first k links. */
  function Targets(links: seq<LayerLink>, k: nat): set<string>
    requires k <= |links|
  {
    set i | 0 <= i < k :: links[i].target
  }

  lemma {:induction false} TargetsStep(links: seq<LayerLink>, k: nat)
    requires k <= |links|
    ensures Targets(links, k) == if k == 0 then {} else Targets(links, k - 1) + {links[k - 1].target}
    ensures forall t :: t in Targets(links, k) <==> exists i :: 0 <= i < k && links[i].target == t
  {
  }

  lemma {:induction false} TakenOnce(links: seq<LayerLink>, m: map<string, string>)
    requires forall i, j :: 0 <= i < j < |links| ==> links[i].dir != links[j].dir
    requires m.Keys == Targets(links, |links|) && forall i :: 0 <= i < |links| ==> Takes(links[i], m)
    ensures Injective(m)
  {
    forall x, y | x in m && y in m && m[x] == m[y] ensures x == y {
      var i :| 0 <= i < |links| && links[i].target == x;
      var j :| 0 <= j < |links| && links[j].target == y;
      assert Takes(links[i], m) && Takes(links[j], m);
      LayerPathInjective(links[i].dir, links[j].dir);
      assert i == j;
    }
  }

  /** The reversal loop of `getLayerHashFromTar`; the map is visited in an arbitrary order. */
  method Reverse(m: map<string, string>) returns (rev: map<string, string>)
    ensures forall v :: v in rev <==> exists k :: k in m && m[k] == v
    ensures forall v :: v in rev ==> rev[v] in m && m[rev[v]] == v
  {
    rev := map[];
    var todo := m.Keys;
    while todo != {}
      invariant todo <= m.Keys
      invariant forall v :: v in rev <==> exists k :: k in m && k !in todo && m[k] == v
      invariant forall v :: v in rev ==> rev[v] in m && m[rev[v]] == v
      decreases todo
    {
      var k :| k in todo;
      rev := rev[m[k] := k];
      todo := todo - {k};
    }
  }

  /** The hash of a layer file name. */
  function HashOf(file: string): string { TrimSuffix(file, TAR_SUFFIX) }

  /** The paths of an image's layers after `adjustLayers`; a file that is not in the map becomes the empty string. */
  function NewPaths(m: map<string, string>, files: seq<string>): (r: seq<string>)
    ensures |r| == |files|
    ensures forall i :: 0 <= i < |files| ==> r[i] == if files[i] in m then m[files[i]] else ""
  {
    seq(|files|, i requires 0 <= i < |files| => if files[i] in m then m[files[i]] else "")
  }

  /** `getLayerHashFromTar`: the keys are the hashes of exactly those layers that the layer map knows. */
  method GetLayerHashFromTar(m: map<string, string>, layers: seq<string>) returns (hashMap: map<string, string>)
    requires Injective(m)
    ensures forall h :: h in hashMap <==> exists k :: k in m && m[k] in layers && h == HashOf(k)
    ensures forall h :: h in hashMap ==> exists k :: k in m && m[k] == hashMap[h] && h == HashOf(k)
    ensures |hashMap| <= |layers|
  {
    hide HashOf, Hashes;
    var rev := Reverse(m);
    hashMap := map[];
    NoHashes(m);
    for i := 0 to |layers|
      invariant Hashes(m, layers[..i], hashMap)
      invariant |hashMap| <= i
    {
      var l := layers[i];
      assert layers[..i + 1] == layers[..i] + [l];
      if l in rev {
        OneHash(m, layers[..i], l, rev[l], hashMap);
        GrowsByOne(hashMap, HashOf(rev[l]), l);
        hashMap := hashMap[HashOf(rev[l]) := l];
      } else {
        NoHash(m, layers[..i], l, hashMap);
      }
    }
    assert layers[..|layers|] == layers;
    AllHashes(m, layers, hashMap);
  }

  /** The hash map of some layers: the hashes of the files that the map leads to one of them. */
  ghost predicate Hashes(m: map<string, string>, layers: seq<string>, hashMap: map<string, string>) {
    && (forall h :: h in hashMap <==> exists k :: k in m && m[k] in layers && h == HashOf(k))
    && forall h :: h in hashMap ==> exists k :: k in m && m[k] == hashMap[h] && h == HashOf(k)
  }

  lemma {:induction false} NoHashes(m: map<string, string>)
    ensures Hashes(m, [], map[])
  {
    hide HashOf;
  }

  lemma {:induction false} AllHashes(m: map<string, string>, layers: seq<string>, hashMap: map<string, string>)
    requires Hashes(m, layers, hashMap)
    ensures forall h :: h in hashMap <==> exists k :: k in m && m[k] in layers && h == HashOf(k)
    ensures forall h :: h in hashMap ==> exists k :: k in m && m[k] == hashMap[h] && h == HashOf(k)
  {
    hide HashOf;
  }

  lemma {:induction false} OneHash(m: map<string, string>, layers: seq<string>, l: string, k: string, hashMap: map<string, string>)
    requires Injective(m) && k in m && m[k] == l && Hashes(m, layers, hashMap)
    ensures Hashes(m, layers + [l], hashMap[HashOf(k) := l])
  {
    hide HashOf;
    var more := hashMap[HashOf(k) := l];
    forall h | h in more ensures exists j :: j in m && m[j] == more[h] && h == HashOf(j) {
      if h == HashOf(k) {
        assert m[k] == more[h];
      } else {
        var j :| j in m && m[j] == hashMap[h] && h == HashOf(j);
        assert m[j] == more[h];
      }
    }
    forall h ensures h in more <==> exists j :: j in m && m[j] in layers + [l] && h == HashOf(j) {
      if j :| j in m && m[j] in layers + [l] && h == HashOf(j) {
        assert m[j] in layers || j == k;
      }
      if h in more {
        if h == HashOf(k) {
          assert m[k] in layers + [l];
        } else {
          var j :| j in m && m[j] in layers && h == HashOf(j);
          assert m[j] in layers + [l];
        }
      }
    }
  }

  lemma {:induction false} NoHash(m: map<string, string>, layers: seq<string>, l: string, hashMap: map<string, string>)
    requires Hashes(m, layers, hashMap) && forall k :: k in m ==> m[k] != l
    ensures Hashes(m, layers + [l], hashMap)
  {
    hide HashOf;
    assert forall k :: k in m ==> (m[k] in layers + [l] <==> m[k] in layers);
  }

  lemma {:induction false} GrowsByOne(m: map<string, string>, k: string, v: string)
    ensures |m[k := v]| <= |m| + 1
  {
    assert m[k := v].Keys == m.Keys + {k};
    assert |m[k := v].Keys| <= |m.Keys| + 1;
    assert |m[k := v]| == |m[k := v].Keys| && |m| == |m.Keys|;
  }

  /** The hash of a file is what its name has in front of the suffix; a name without the suffix is its own hash. */
  lemma {:induction false} HashOfIff(file: string, h: string)
    ensures HashOf(file) == h <==> file == h + TAR_SUFFIX || (file == h && forall x :: h != x + TAR_SUFFIX)
  {
    var n := |TAR_SUFFIX|;
    if HasSuffix(file, TAR_SUFFIX) {
      assert file == file[..|file| - n] + TAR_SUFFIX;
    }
    forall x: string ensures HasSuffix(x + TAR_SUFFIX, TAR_SUFFIX) && TrimSuffix(x + TAR_SUFFIX, TAR_SUFFIX) == x {
    }
  }

  /** One image of the manifest: as it is unpacked, its layers given by their files, and as `adjustLayers` leaves it. */
  datatype RawManifest = RawManifest(config: string, repoTags: seq<string>, files: seq<string>)

  datatype ImageManifest = ImageManifest(config: string, repoTags: seq<string>, layers: seq<string>, hashMap: map<string, string>)

  /** The body of the loop of `adjustLayers`: the hash map's keys are exactly the image's own layer hashes. */
  method AdjustImage(m: map<string, string>, raw: RawManifest) returns (r: ImageManifest)
    requires Injective(m) && forall k :: k in m ==> m[k] != ""
    ensures r.config == raw.config && r.repoTags == raw.repoTags && r.layers == NewPaths(m, raw.files)
    ensures forall h :: h in r.hashMap <==> exists f :: f in raw.files && f in m && h == HashOf(f)
    ensures forall h :: h in r.hashMap ==> exists f :: f in m && m[f] == r.hashMap[h] && h == HashOf(f)
    ensures |r.hashMap| <= |r.layers|
  {
    hide HashOf;
    var files := raw.files;
    var layers := NewPaths(m, files);
    var hashMap := GetLayerHashFromTar(m, layers);
    forall k | k in m ensures m[k] in layers <==> k in files {
      if k in files {
        var i :| 0 <= i < |files| && files[i] == k;
        assert layers[i] == m[k];
      }
      if m[k] in layers {
        var i :| 0 <= i < |layers| && layers[i] == m[k];
        assert files[i] in m && m[files[i]] == m[k];
      }
    }
    r := ImageManifest(raw.config, raw.repoTags, layers, hashMap);
  }

  // ---------- from links to layers ----------

  predicate LinkedTo(links: seq<LayerLink>, file: string) { exists l :: l in links && l.target == file }

  /** The path stands for the file: it names the directory whose link points there. */
  ghost predicate PathOf(links: seq<LayerLink>, file: string, path: string) {
    if LinkedTo(links, file) then exists dir :: LayerLink(dir, file) in links && path == dir + "/layer.tar"
    else path == ""
  }

  /** The hashes of an image's layer files, as far as links point to them. */
  function OwnHashes(links: seq<LayerLink>, files: seq<string>): set<string> {
    set f | f in files && LinkedTo(links, f) :: HashOf(f)
  }

  ghost predicate Adjusted(links: seq<LayerLink>, raw: RawManifest, mani: ImageManifest) {
    && mani.config == raw.config && mani.repoTags == raw.repoTags && |mani.layers| == |raw.files|
    && (forall i :: 0 <= i < |raw.files| ==> PathOf(links, raw.files[i], mani.layers[i]))
    && mani.hashMap.Keys == OwnHashes(links, raw.files)
    && (forall h :: h in mani.hashMap ==> exists f :: LinkedTo(links, f) && PathOf(links, f, mani.hashMap[h]) && h == HashOf(f))
    && |mani.hashMap| <= |mani.layers|
  }

  /** The layer map as links: it knows the targets, and leads each to its directory. */
  ghost predicate MapOf(links: seq<LayerLink>, m: map<string, string>) {
    m.Keys == Targets(links, |links|) && forall i :: 0 <= i < |links| ==> Takes(links[i], m)
  }

  lemma {:induction false} MapLeads(links: seq<LayerLink>, m: map<string, string>, file: string)
    requires MapOf(links, m)
    ensures file in m <==> LinkedTo(links, file)
    ensures PathOf(links, file, if file in m then m[file] else "")
    ensures file in m ==> m[file] != ""
  {
    if i :| 0 <= i < |links| && links[i].target == file {
      assert links[i] in links && Takes(links[i], m);
      assert links[i] == LayerLink(links[i].dir, file);
    }
  }

  lemma {:induction false} AdjustedBy(links: seq<LayerLink>, m: map<string, string>, raw: RawManifest, mani: ImageManifest)
    requires MapOf(links, m) && |mani.hashMap| <= |mani.layers|
    requires mani.config == raw.config && mani.repoTags == raw.repoTags && mani.layers == NewPaths(m, raw.files)
    requires forall h :: h in mani.hashMap <==> exists f :: f in raw.files && f in m && h == HashOf(f)
    requires forall h :: h in mani.hashMap ==> exists f :: f in m && m[f] == mani.hashMap[h] && h == HashOf(f)
    ensures Adjusted(links, raw, mani)
  {
    hide HashOf, MapOf, LinkedTo, PathOf;
    forall f: string ensures f in m <==> LinkedTo(links, f) { MapLeads(links, m, f); }
    forall i | 0 <= i < |raw.files| ensures PathOf(links, raw.files[i], mani.layers[i]) {
      MapLeads(links, m, raw.files[i]);
    }
    forall h | h in mani.hashMap ensures exists f :: LinkedTo(links, f) && PathOf(links, f, mani.hashMap[h]) && h == HashOf(f) {
      var f :| f in m && m[f] == mani.hashMap[h] && h == HashOf(f);
      MapLeads(links, m, f);
    }
  }

  /** `adjustLayers`: after it the layers of every image are the directories whose links point to its files, in order. */
  method AdjustLayers(links: seq<LayerLink>, files0: set<string>, man: seq<RawManifest>) returns (r: Result<seq<ImageManifest>>)
    requires forall i, j :: 0 <= i < j < |links| ==> links[i].dir != links[j].dir
    ensures r.Ok? <==> (forall i :: 0 <= i < |links| ==> links[i].target in files0)
                       && (forall i, j :: 0 <= i < j < |links| ==> links[i].target != links[j].target)
    ensures r.Ok? ==> |r.value| == |man| && forall i :: 0 <= i < |man| ==> Adjusted(links, man[i], r.value[i])
  {
    hide Adjusted, Injective, HashOf, NewPaths, Targets, Takes;
    var m := ConstructLayerMap(links, files0);
    if m.Err? { return Err; }
    assert MapOf(links, m.value);
    hide MapOf;
    forall k | k in m.value ensures m.value[k] != "" { MapLeads(links, m.value, k); }
    var done: seq<ImageManifest> := [];
    for n := 0 to |man|
      invariant |done| == n && forall i :: 0 <= i < n ==> Adjusted(links, man[i], done[i])
    {
      var mani := AdjustImage(m.value, man[n]);
      AdjustedBy(links, m.value, man[n], mani);
      done := done + [mani];
    }
    r := Ok(done);
  }

  /** `getLayersID` */
  function LayersID(layers: seq<string>): (r: seq<string>)
    ensures |r| == |layers|
  {
    seq(|layers|, i requires 0 <= i < |layers| => Split(layers[i], '/')[0])
  }

  /** Layer paths lead back to their directories, in order. */
  lemma {:induction false} IDsOfPaths(dirs: seq<string>, paths: seq<string>)
    requires |paths| == |dirs|
    requires forall i :: 0 <= i < |dirs| ==> '/' !in dirs[i] && (paths[i] == dirs[i] + "/layer.tar" || paths[i] == dirs[i] == "")
    ensures LayersID(paths) == dirs
  {
    forall i | 0 <= i < |dirs| ensures LayersID(paths)[i] == dirs[i] {
      if paths[i] != "" {
        assert dirs[i] + "/layer.tar" == dirs[i] + ['/'] + LAYER_TAR_NAME;
        SplitFirst(dirs[i], '/', LAYER_TAR_NAME);
      }
    }
  }

  /** `checkLayersHash`, given the layer hashes of the lib and base images (Err when an image cannot be read). */
  function CheckLayersHash(h: map<string, string>, lib: Result<seq<string>>, base: Result<seq<string>>)
    : Result<(seq<string>, seq<string>)>
  {
    if lib.Err? || base.Err? then Err
    else if |base.value| > 1 then Err
    else if |lib.value| >= |h| || |base.value| >= |h| then Err
    else if exists l :: l in lib.value && l !in h then Err
    else if exists b :: b in base.value && b !in h then Err
    else Ok((lib.value, base.value))
  }

  /** The cut of the layer IDs; the lib list reaches from the end of the base layers to the length of the lib image. */
  function Cut(ids: seq<string>, bases: nat, libs: nat): (r: (seq<string>, Option<seq<string>>, seq<string>))
    requires bases <= 1 && bases < |ids| && libs < |ids|
    ensures r.0 + (if r.1.None? then [] else r.1.value) + r.2 == ids
    ensures |r.0| == bases && (r.1.None? <==> libs == 0) && (r.1.Some? ==> |r.0| + |r.1.value| == libs)
    ensures r.2 != [] && r.2[|r.2| - 1] == ids[|ids| - 1]
  {
    if libs != 0 then (ids[..bases], Some(ids[bases..libs]), ids[libs..]) else (ids[..bases], None, ids[bases..])
  }

  /** `constructSingleImgInfo` */
  function ConstructSingleImgInfo(mani: ImageManifest, libHash: Result<seq<string>>, baseHash: Result<seq<string>>)
    : (r: Result<ImageInfo>)
    requires |mani.hashMap| <= |mani.layers|
    ensures r.Ok? <==> mani.repoTags != [] && CheckLayersHash(mani.hashMap, libHash, baseHash).Ok?
    ensures r.Ok? ==> r.value.nameTag == mani.repoTags[0] && r.value.config == mani.config && r.value.all == mani.layers
    ensures r.Ok? ==> r.value.repoTags == mani.repoTags
  {
    if mani.repoTags == [] then Err
    else
      var fields := Split(mani.repoTags[0], ':');
      var ids := LayersID(mani.layers);
      var (libs, bases) :- CheckLayersHash(mani.hashMap, libHash, baseHash);
      var (base, lib, app) := Cut(ids, |bases|, |libs|);
      Ok(ImageInfo(mani.config, mani.repoTags, mani.repoTags[0],
                   Join(fields[..|fields| - 1], ':'), fields[|fields| - 1],
                   base, lib, app, mani.layers, ids[|ids| - 1]))
  }

  /**
  Whenever image info construction succeeds the three layer lists cut the image's layers into consecutive pieces: at
  most one base layer and at least one app layer, the last of which is the top layer.
  */
  lemma {:induction false} LayersInOrder(mani: ImageManifest, libHash: Result<seq<string>>, baseHash: Result<seq<string>>)
    requires |mani.hashMap| <= |mani.layers| && ConstructSingleImgInfo(mani, libHash, baseHash).Ok?
    ensures var info := ConstructSingleImgInfo(mani, libHash, baseHash).value;
      && info.base + SeparatorProofs.LibOf(info) + info.app == LayersID(mani.layers)
      && |info.base| == |baseHash.value| <= 1
      && (info.lib.None? <==> libHash.value == [])
      && (info.lib.Some? ==> |info.base| + |info.lib.value| == |libHash.value|)
      && info.app != [] && info.app[|info.app| - 1] == info.topLayer
  {
    hide Split, Join, Cut, LayersID;
  }

  /** The directories whose links point to the files, in order; the empty text where there is none. */
  ghost predicate DirsOf(links: seq<LayerLink>, files: seq<string>, dirs: seq<string>) {
    && |dirs| == |files|
    && forall i :: 0 <= i < |files| ==>
         if LinkedTo(links, files[i]) then LayerLink(dirs[i], files[i]) in links else dirs[i] == ""
  }

  lemma {:induction false} IDsFollowLinks(links: seq<LayerLink>, files: seq<string>, paths: seq<string>)
    requires forall i :: 0 <= i < |links| ==> '/' !in links[i].dir
    requires |paths| == |files| && forall i :: 0 <= i < |files| ==> PathOf(links, files[i], paths[i])
    ensures DirsOf(links, files, LayersID(paths))
  {
    hide LayersID;
    forall i | 0 <= i < |files|
      ensures if LinkedTo(links, files[i]) then LayerLink(LayersID(paths)[i], files[i]) in links else LayersID(paths)[i] == ""
    {
      assert PathOf(links, files[i], paths[i]);
      if LinkedTo(links, files[i]) {
        var dir :| LayerLink(dir, files[i]) in links && paths[i] == dir + "/layer.tar";
        IDAt(paths, i, dir);
      } else {
        IDAt(paths, i, "");
      }
    }
  }

  lemma {:induction false} IDAt(paths: seq<string>, i: nat, dir: string)
    requires i < |paths| && '/' !in dir && (paths[i] == dir + "/layer.tar" || paths[i] == dir == "")
    ensures LayersID(paths)[i] == dir
  {
    IDsOfPaths([dir], [paths[i]]);
    assert LayersID(paths)[i] == LayersID([paths[i]])[0];
  }

  /**
  From the unpacked tree to the three lists: put together they are the directories whose links point to the image's files,
  in the order of the manifest, and the top layer is the last of them.
  */
  lemma {:induction false} LayersFollowLinks(links: seq<LayerLink>, raw: RawManifest, mani: ImageManifest,
                                             libHash: Result<seq<string>>, baseHash: Result<seq<string>>)
    requires forall i :: 0 <= i < |links| ==> '/' !in links[i].dir
    requires Adjusted(links, raw, mani) && ConstructSingleImgInfo(mani, libHash, baseHash).Ok?
    ensures var info := ConstructSingleImgInfo(mani, libHash, baseHash).value;
      && DirsOf(links, raw.files, info.base + SeparatorProofs.LibOf(info) + info.app)
      && raw.files != [] && (var top := raw.files[|raw.files| - 1];
           if LinkedTo(links, top) then LayerLink(info.topLayer, top) in links else info.topLayer == "")
  {
    hide ConstructSingleImgInfo, LayersID;
    LayersInOrder(mani, libHash, baseHash);
    IDsFollowLinks(links, raw.files, mani.layers);
  }

  /**
  When an image can be taken apart: it has a name, the base image has at most one layer, and base and lib image have
  fewer layers than it has layers of its own, among which theirs are.
  */
  lemma {:induction false} SplitOkIff(links: seq<LayerLink>, raw: RawManifest, mani: ImageManifest,
                                      libHash: Result<seq<string>>, baseHash: Result<seq<string>>)
    requires Adjusted(links, raw, mani)
    ensures ConstructSingleImgInfo(mani, libHash, baseHash).Ok? <==>
      && raw.repoTags != [] && libHash.Ok? && baseHash.Ok? && |baseHash.value| <= 1
      && |libHash.value| < |OwnHashes(links, raw.files)| && |baseHash.value| < |OwnHashes(links, raw.files)|
      && (forall h :: h in libHash.value || h in baseHash.value ==>
            exists f :: f in raw.files && LinkedTo(links, f) && HashOf(f) == h)
  {
    hide ConstructSingleImgInfo, HashOf, LinkedTo, PathOf;
    assert |mani.hashMap| == |mani.hashMap.Keys|;
  }

  /** Name and tag put together again give the first repo tag, unless it has no colon at all. */
  lemma {:induction false} NameAndTag(mani: ImageManifest, libHash: Result<seq<string>>, baseHash: Result<seq<string>>)
    requires |mani.hashMap| <= |mani.layers| && ConstructSingleImgInfo(mani, libHash, baseHash).Ok?
    ensures var info := ConstructSingleImgInfo(mani, libHash, baseHash).value;
      && ':' !in info.tag
      && info.nameTag == if ':' in info.nameTag then info.name + ":" + info.tag else info.tag
  {
    var s := mani.repoTags[0];
    var fields := Split(s, ':');
    JoinSplit(s, ':');
    if ':' in s {
      SplitTwo(s, ':');
      JoinLast(fields, ':');
    } else {
      SplitNone(s, ':');
    }
  }

  lemma {:induction false} SplitTwo(s: string, sep: char)
    requires sep in s
    ensures |Split(s, sep)| > 1
  {
    if s[0] != sep {
      SplitTwo(s[1..], sep);
    }
  }

  lemma {:induction false} JoinLast(fields: seq<string>, sep: char)
    requires |fields| > 1
    ensures Join(fields, sep) == Join(fields[..|fields| - 1], sep) + [sep] + fields[|fields| - 1]
  {
    var init := fields[..|fields| - 1];
    if |fields| == 2 {
      assert fields[1..] == [fields[1]];
    } else {
      JoinLast(fields[1..], sep);
      assert fields[1..][..|fields| - 2] == init[1..];
    }
  }

  /** Image i is the first of its name. */
  predicate FirstOfName(manifest: seq<ImageManifest>, i: nat)
    requires i < |manifest| && forall j :: 0 <= j <= i ==> manifest[j].repoTags != []
  {
    forall j :: 0 <= j < i ==> manifest[j].repoTags[0] != manifest[i].repoTags[0]
  }

  lemma {:induction false} FirstIsNew(manifest: seq<ImageManifest>, i: nat)
    requires i < |manifest| && forall j :: 0 <= j <= i ==> manifest[j].repoTags != []
    ensures FirstOfName(manifest, i) ==> forall j :: 0 <= j < i ==> manifest[j].repoTags[0] != manifest[i].repoTags[0]
  {
  }

  /** The map holds the image under its own name. */
  predicate Entered(mani: ImageManifest, libHash: Result<seq<string>>, baseHash: Result<seq<string>>, infos: map<string, ImageInfo>)
    requires mani.repoTags != [] && |mani.hashMap| <= |mani.layers|
  {
    mani.repoTags[0] in infos && Ok(infos[mani.repoTags[0]]) == ConstructSingleImgInfo(mani, libHash, baseHash)
  }

  /** `constructImageInfos`: the first image of each name wins; the map is keyed by the images' own names. */
  method ConstructImageInfos(manifest: seq<ImageManifest>, libHash: Result<seq<string>>, baseHash: Result<seq<string>>)
    returns (r: Result<map<string, ImageInfo>>)
    requires forall i :: 0 <= i < |manifest| ==> |manifest[i].hashMap| <= |manifest[i].layers|
    ensures r.Ok? <==> forall i :: 0 <= i < |manifest| ==> ConstructSingleImgInfo(manifest[i], libHash, baseHash).Ok?
    ensures r.Ok? ==> forall k :: k in r.value ==> r.value[k].nameTag == k
    ensures r.Ok? ==> forall k :: k in r.value ==> exists i :: 0 <= i < |manifest| && manifest[i].repoTags[0] == k
    ensures r.Ok? ==> forall i | 0 <= i < |manifest| && FirstOfName(manifest, i) ::
              Entered(manifest[i], libHash, baseHash, r.value)
  {
    hide ConstructSingleImgInfo, FirstOfName;
    var infos: map<string, ImageInfo> := map[];
    for n := 0 to |manifest|
      invariant forall i :: 0 <= i < n ==> manifest[i].repoTags != [] && ConstructSingleImgInfo(manifest[i], libHash, baseHash).Ok?
      invariant forall k :: k in infos ==> infos[k].nameTag == k
      invariant forall k :: k in infos ==> exists i :: 0 <= i < n && manifest[i].repoTags[0] == k
      invariant forall i | 0 <= i < n && FirstOfName(manifest, i) :: Entered(manifest[i], libHash, baseHash, infos)
    {
      var info := ConstructSingleImgInfo(manifest[n], libHash, baseHash);
      if info.Err? { return Err; }
      FirstIsNew(manifest, n);
      if info.value.nameTag !in infos {
        infos := infos[info.value.nameTag := info.value];
      }
    }
    r := Ok(infos);
  }

  /** Images that agree on their leading layers get lists that saving can share. */
  lemma {:induction false} SharedPrefixIsAdmissible(a: ImageManifest, b: ImageManifest, libHash: Result<seq<string>>, baseHash: Result<seq<string>>)
    requires |a.hashMap| <= |a.layers| && |b.hashMap| <= |b.layers|
    requires ConstructSingleImgInfo(a, libHash, baseHash).Ok? && ConstructSingleImgInfo(b, libHash, baseHash).Ok?
    requires LayersID(a.layers)[..|libHash.value|] == LayersID(b.layers)[..|libHash.value|]
    ensures var x, y := ConstructSingleImgInfo(a, libHash, baseHash).value, ConstructSingleImgInfo(b, libHash, baseHash).value;
      && SeparatorProofs.SameOrDisjoint(x.base, y.base)
      && SeparatorProofs.SameOrDisjoint(SeparatorProofs.LibOf(x), SeparatorProofs.LibOf(y))
  {
    hide ConstructSingleImgInfo, LayersID;
    var x, y := ConstructSingleImgInfo(a, libHash, baseHash).value, ConstructSingleImgInfo(b, libHash, baseHash).value;
    LayersInOrder(a, libHash, baseHash);
    LayersInOrder(b, libHash, baseHash);
    var n := |libHash.value|;
    if n != 0 {
      assert x.base + x.lib.value == LayersID(a.layers)[..n] && y.base + y.lib.value == LayersID(b.layers)[..n];
      assert x.lib.value == LayersID(a.layers)[..n][|x.base|..] && y.lib.value == LayersID(b.layers)[..n][|y.base|..];
    }
    if x.base != [] && x.base[0] != y.base[0] {
      assert SeparatorProofs.Elems(x.base) == {x.base[0]} && SeparatorProofs.Elems(y.base) == {y.base[0]};
    }
  }

  lemma {:induction false} OneDir(links: seq<LayerLink>, files: seq<string>, a: seq<string>, b: seq<string>)
    requires forall i, j :: 0 <= i < j < |links| ==> links[i].target != links[j].target
    requires DirsOf(links, files, a) && DirsOf(links, files, b)
    ensures a == b
  {
    forall k | 0 <= k < |files| ensures a[k] == b[k] {
      if LinkedTo(links, files[k]) {
        var i :| 0 <= i < |links| && links[i] == LayerLink(a[k], files[k]);
        var j :| 0 <= j < |links| && links[j] == LayerLink(b[k], files[k]);
        assert i == j;
      }
    }
  }

  /** In terms of the unpacked tree: it is enough that the images' first files are the same. */
  lemma {:induction false} SharedFilesAreAdmissible(links: seq<LayerLink>, a: RawManifest, b: RawManifest, x: ImageManifest, y: ImageManifest,
                                                    libHash: Result<seq<string>>, baseHash: Result<seq<string>>)
    requires forall i :: 0 <= i < |links| ==> '/' !in links[i].dir
    requires forall i, j :: 0 <= i < j < |links| ==> links[i].target != links[j].target
    requires Adjusted(links, a, x) && Adjusted(links, b, y)
    requires ConstructSingleImgInfo(x, libHash, baseHash).Ok? && ConstructSingleImgInfo(y, libHash, baseHash).Ok?
    requires var n := |libHash.value|; n <= |a.files| && n <= |b.files| && a.files[..n] == b.files[..n]
    ensures var u, v := ConstructSingleImgInfo(x, libHash, baseHash).value, ConstructSingleImgInfo(y, libHash, baseHash).value;
      && SeparatorProofs.SameOrDisjoint(u.base, v.base)
      && SeparatorProofs.SameOrDisjoint(SeparatorProofs.LibOf(u), SeparatorProofs.LibOf(v))
  {
    var n := |libHash.value|;
    hide ConstructSingleImgInfo, LayersID, LinkedTo, PathOf;
    IDsFollowLinks(links, a.files, x.layers);
    IDsFollowLinks(links, b.files, y.layers);
    FirstDirs(links, a.files, LayersID(x.layers), n);
    FirstDirs(links, b.files, LayersID(y.layers), n);
    OneDir(links, a.files[..n], LayersID(x.layers)[..n], LayersID(y.layers)[..n]);
    hide Adjusted, DirsOf;
    SharedPrefixIsAdmissible(x, y, libHash, baseHash);
  }

  lemma {:induction false} FirstDirs(links: seq<LayerLink>, files: seq<string>, dirs: seq<string>, n: nat)
    requires DirsOf(links, files, dirs) && n <= |files|
    ensures DirsOf(links, files[..n], dirs[..n])
  {
    hide LinkedTo;
  }
}
