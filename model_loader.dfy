/**
 * The model loader: imports a model file, converts its materials and meshes,
 * and stores the resulting model in the asset table under the file's name.
 *
 * The pure functions below say what a load computes; the methods are the
 * loader's imperative code and are proved to compute exactly that.
 */
module ModelLoader {
  import opened Wrappers
  import opened Assets
  import opened Meta

  // ---------------------------------------------------------------------------
  // Texture directory normalisation

  /** String.endsWith("/"); false for the empty string. */
  predicate EndsWithSlash(s: string) {
    |s| > 0 && s[|s| - 1] == '/'
  }

  /** The texture path made into a directory path: a path that already ends
      with '/' is kept, any other has one '/' appended. */
  function NormaliseTexPath(texPath: string): (r: string)
    ensures EndsWithSlash(r)
    ensures texPath <= r && |r| <= |texPath| + 1
    ensures EndsWithSlash(texPath) ==> r == texPath
  {
    if EndsWithSlash(texPath) then texPath else texPath + "/"
  }

  /** Normalising never changes a path twice. */
  lemma NormaliseTexPathIdempotent(texPath: string)
    ensures NormaliseTexPath(NormaliseTexPath(texPath)) == NormaliseTexPath(texPath)
  {
  }

  /** A path without the trailing '/' gets exactly one character, a '/'. */
  lemma {:induction false} NormaliseTexPathAppendsOneSlash(texPath: string)
    requires !EndsWithSlash(texPath)
    ensures |NormaliseTexPath(texPath)| == |texPath| + 1
    ensures NormaliseTexPath(texPath)[..|texPath|] == texPath
    ensures NormaliseTexPath(texPath)[|texPath|] == '/'
  {
  }

  // ---------------------------------------------------------------------------
  // What one load computes

  /** The scene's materials, each parsed with the texture directory, in
      scene order. */
  function MaterialsOf(scene: Scene, texDir: string, parsers: Parsers): seq<MaterialPair> {
    seq(|scene.materials|, i requires 0 <= i < |scene.materials| =>
      parsers.material(scene.materials[i], texDir))
  }

  /** The scene's meshes, each parsed with all the scene's materials and the
      collision shape, in scene order. */
  function MeshPairsOf(scene: Scene, materials: seq<MaterialPair>, shape: CollisionShape, parsers: Parsers): seq<MeshPair> {
    seq(|scene.meshes|, i requires 0 <= i < |scene.meshes| =>
      parsers.mesh(scene.meshes[i], materials, shape))
  }

  /** The keys of a sequence of pairs. */
  function Keys<K, V>(ps: seq<Pair<K, V>>): seq<K> {
    if ps == [] then [] else [ps[0].key] + Keys(ps[1..])
  }

  /** The values of a sequence of pairs. */
  function Values<K, V>(ps: seq<Pair<K, V>>): seq<V> {
    if ps == [] then [] else [ps[0].value] + Values(ps[1..])
  }

  /** Pairs up two sequences of equal length index by index. */
  function Zip<K, V>(ks: seq<K>, vs: seq<V>): seq<Pair<K, V>>
    requires |ks| == |vs|
  {
    if ks == [] then [] else [Pair(ks[0], vs[0])] + Zip(ks[1..], vs[1..])
  }

  /** Unzipping keeps length and order: key i and value i both come from pair i. */
  lemma {:induction false} UnzipAt<K, V>(ps: seq<Pair<K, V>>)
    ensures |Keys(ps)| == |ps| && |Values(ps)| == |ps|
    ensures forall i :: 0 <= i < |ps| ==> Keys(ps)[i] == ps[i].key && Values(ps)[i] == ps[i].value
  {
    if ps != [] {
      UnzipAt(ps[1..]);
    }
  }

  /** Zipping the two halves of an unzip gives back the pairs. */
  lemma {:induction false} ZipUnzip<K, V>(ps: seq<Pair<K, V>>)
    ensures |Keys(ps)| == |Values(ps)|
    ensures Zip(Keys(ps), Values(ps)) == ps
  {
    UnzipAt(ps);
    if ps != [] {
      ZipUnzip(ps[1..]);
    }
  }

  /** Unzipping a zip gives back the two sequences. */
  lemma {:induction false} UnzipZip<K, V>(ks: seq<K>, vs: seq<V>)
    requires |ks| == |vs|
    ensures Keys(Zip(ks, vs)) == ks && Values(Zip(ks, vs)) == vs
  {
    if ks != [] {
      UnzipZip(ks[1..], vs[1..]);
    }
  }

  /**
   * The model and the meta meshes built from an imported scene: mesh i of the
   * model and meta mesh i are the two halves of scene mesh i parsed with the
   * scene's materials (parsed with the texture directory) and the shape.
   */
  function Assemble(scene: Scene, texDir: string, shape: CollisionShape, parsers: Parsers): (r: Pair<Model, seq<MetaMesh>>)
    ensures |r.key.meshes| == |scene.meshes| && |r.value| == |scene.meshes|
    ensures forall i :: 0 <= i < |scene.meshes| ==>
      Pair(r.key.meshes[i], r.value[i]) == parsers.mesh(scene.meshes[i], MaterialsOf(scene, texDir, parsers), shape)
  {
    var pairs := MeshPairsOf(scene, MaterialsOf(scene, texDir, parsers), shape, parsers);
    UnzipAt(pairs);
    Pair(Model(Keys(pairs)), Values(pairs))
  }

  /** The new asset table and the meta model's meshes (None for the null
      result) of one unguarded load. */
  datatype LoadResult = LoadResult(models: map<string, Model>, meta: Option<seq<MetaMesh>>)

  /**
   * loadModelFileMeta on values. A failed import gives no meta model and leaves
   * the table as it was. A successful one adds or overwrites the entry for
   * `file` with the assembled model, changes no other entry, and returns the
   * meta meshes that belong index for index to the stored model's meshes.
   */
  function LoadModelFileMetaSpec(models: map<string, Model>, file: string, texPath: string, shape: CollisionShape,
                                 importFile: string -> Option<Scene>, parsers: Parsers): (r: LoadResult)
    ensures r.meta.Some? <==> importFile(file).Some?
    ensures importFile(file).None? ==> r.models == models
    ensures r.models.Keys == if importFile(file).Some? then models.Keys + {file} else models.Keys
    ensures forall k :: k in models && k != file ==> r.models[k] == models[k]
    ensures r.meta.Some? ==>
      |r.models[file].meshes| == |r.meta.value| == |importFile(file).value.meshes|
    ensures r.meta.Some? ==> forall i :: 0 <= i < |r.meta.value| ==>
      Pair(r.models[file].meshes[i], r.meta.value[i]) ==
        parsers.mesh(importFile(file).value.meshes[i],
                     MaterialsOf(importFile(file).value, NormaliseTexPath(texPath), parsers), shape)
  {
    match importFile(file)
    case None => LoadResult(models, None)
    case Some(scene) =>
      var built := Assemble(scene, NormaliseTexPath(texPath), shape, parsers);
      LoadResult(models[file := built.key], Some(built.value))
  }

  /**
   * loadModelFile on values: a file already in the table leaves it as it is;
   * otherwise the unguarded load runs. Existing entries are never overwritten,
   * and `file` is present afterwards exactly when it was before or its import
   * succeeded.
   */
  function LoadModelFileSpec(models: map<string, Model>, file: string, texPath: string, shape: CollisionShape,
                             importFile: string -> Option<Scene>, parsers: Parsers): (r: map<string, Model>)
    ensures file in models ==> r == models
    ensures r.Keys == if file in models || importFile(file).None? then models.Keys else models.Keys + {file}
    ensures forall k :: k in models ==> r[k] == models[k]
    ensures file !in models && importFile(file).Some? ==>
      r[file] == Assemble(importFile(file).value, NormaliseTexPath(texPath), shape, parsers).key
  {
    if file in models then models
    else LoadModelFileMetaSpec(models, file, texPath, shape, importFile, parsers).models
  }

  /** Loading the same file twice through the guard is the same as loading it once. */
  lemma LoadModelFileIdempotent(models: map<string, Model>, file: string, texPath: string, shape: CollisionShape,
                                importFile: string -> Option<Scene>, parsers: Parsers)
    ensures var once := LoadModelFileSpec(models, file, texPath, shape, importFile, parsers);
      LoadModelFileSpec(once, file, texPath, shape, importFile, parsers) == once
  {
  }

  /**
   * A failed load leaves no trace: the table is unchanged and has no entry for
   * the file, so a later load of the file (whose import now succeeds) is not
   * blocked by the guard and stores the file.
   */
  lemma FailedLoadIsRetried(models: map<string, Model>, file: string, texPath: string, shape: CollisionShape,
                            failing: string -> Option<Scene>, working: string -> Option<Scene>, parsers: Parsers)
    requires file !in models
    requires failing(file).None? && working(file).Some?
    ensures LoadModelFileSpec(models, file, texPath, shape, failing, parsers) == models
    ensures var retried := LoadModelFileSpec(LoadModelFileSpec(models, file, texPath, shape, failing, parsers),
                                             file, texPath, shape, working, parsers);
      file in retried && retried[file] == Assemble(working(file).value, NormaliseTexPath(texPath), shape, parsers).key
  {
  }

  /** The unguarded load overwrites an entry the table already has. */
  lemma LoadModelFileMetaOverwrites(models: map<string, Model>, file: string, texPath: string, shape: CollisionShape,
                                    importFile: string -> Option<Scene>, parsers: Parsers)
    requires file in models && importFile(file).Some?
    ensures var r := LoadModelFileMetaSpec(models, file, texPath, shape, importFile, parsers);
      r.models[file] == Assemble(importFile(file).value, NormaliseTexPath(texPath), shape, parsers).key &&
      r.models.Keys == models.Keys
  {
  }

  // ---------------------------------------------------------------------------
  // The loader's code

  /** getMaterials: one parsed material per scene material, index for index. */
  method GetMaterials(scene: Scene, texDir: string, parsers: Parsers) returns (materials: array<MaterialPair>)
    ensures materials.Length == |scene.materials|
    ensures forall i :: 0 <= i < materials.Length ==>
      materials[i] == parsers.material(scene.materials[i], texDir)
    ensures materials[..] == MaterialsOf(scene, texDir, parsers)
  {
    var matCount := |scene.materials|;
    materials := new MaterialPair[matCount];
    for i := 0 to matCount
      invariant forall k :: 0 <= k < i ==> materials[k] == parsers.material(scene.materials[k], texDir)
    {
      materials[i] := parsers.material(scene.materials[i], texDir);
    }
  }

  /** getMeshs: one parsed mesh per scene mesh, index for index, each parsed
      with the same materials and shape. */
  method GetMeshs(scene: Scene, materials: array<MaterialPair>, shape: CollisionShape, parsers: Parsers)
    returns (meshes: array<MeshPair>)
    ensures meshes.Length == |scene.meshes|
    ensures forall i :: 0 <= i < meshes.Length ==>
      meshes[i] == parsers.mesh(scene.meshes[i], materials[..], shape)
    ensures meshes[..] == MeshPairsOf(scene, materials[..], shape, parsers)
  {
    var meshCount := |scene.meshes|;
    meshes := new MeshPair[meshCount];
    for i := 0 to meshCount
      invariant forall k :: 0 <= k < i ==> meshes[k] == parsers.mesh(scene.meshes[k], materials[..], shape)
    {
      meshes[i] := parsers.mesh(scene.meshes[i], materials[..], shape);
    }
  }

  /** The unzip loop of loadModelFileMeta: two parallel arrays holding the
      keys and the values of the pairs, index for index. */
  method Unzip(pairs: array<MeshPair>) returns (meshes: array<Mesh>, metaMeshes: array<MetaMesh>)
    ensures fresh(meshes) && fresh(metaMeshes)
    ensures meshes.Length == pairs.Length && metaMeshes.Length == pairs.Length
    ensures forall i :: 0 <= i < pairs.Length ==> meshes[i] == pairs[i].key && metaMeshes[i] == pairs[i].value
    ensures meshes[..] == Keys(pairs[..]) && metaMeshes[..] == Values(pairs[..])
  {
    meshes := new Mesh[pairs.Length];
    metaMeshes := new MetaMesh[pairs.Length];
    for i := 0 to pairs.Length
      invariant forall k :: 0 <= k < i ==> meshes[k] == pairs[k].key && metaMeshes[k] == pairs[k].value
    {
      meshes[i] := pairs[i].key;
      metaMeshes[i] := pairs[i].value;
    }
    UnzipAt(pairs[..]);
  }

  /**
   * loadModelFileMeta: always imports the file once. On failure returns null
   * and leaves the table alone; on success stores the new model under `file`
   * (overwriting any entry) and returns a fresh meta model holding a fresh
   * array of the meta meshes. `asResource` is not used by the load itself.
   */
  method LoadModelFileMeta(db: AssetDatabase, importer: SceneImporter, parsers: Parsers,
                           file: string, texPath: string, asResource: bool, shape: CollisionShape)
    returns (result: MetaModel?)
    modifies db, importer`calls
    ensures importer.calls == old(importer.calls) + [file]
    ensures importer.importFile(file).None? ==> result == null && db.models == old(db.models)
    ensures var spec := LoadModelFileMetaSpec(old(db.models), file, texPath, shape, importer.importFile, parsers);
      db.models == spec.models &&
      (result == null <==> spec.meta.None?) &&
      (result != null ==> fresh(result) && result.meshes != null && fresh(result.meshes) &&
                          result.meshes[..] == spec.meta.value)
  {
    var tex := texPath;
    if !EndsWithSlash(tex) {
      tex := tex + "/";
    }
    assert tex == NormaliseTexPath(texPath);

    var scene := importer.Import(file);
    if scene.None? {
      return null;
    }

    var materials := GetMaterials(scene.value, tex, parsers);
    var meshs := GetMeshs(scene.value, materials, shape, parsers);
    var meshes, metaMeshes := Unzip(meshs);

    var metaModel := new MetaModel();
    metaModel.SetMeshes(metaMeshes);
    db.models := db.models[file := Model(meshes[..])];
    result := metaModel;
  }

  /** loadModelFile: does nothing, not even an import, when `file` is already
      in the table; otherwise runs loadModelFileMeta and drops its result. */
  method LoadModelFile(db: AssetDatabase, importer: SceneImporter, parsers: Parsers,
                       file: string, texPath: string, asResource: bool, shape: CollisionShape)
    modifies db, importer`calls
    ensures importer.calls == if file in old(db.models) then old(importer.calls) else old(importer.calls) + [file]
    ensures db.models == LoadModelFileSpec(old(db.models), file, texPath, shape, importer.importFile, parsers)
  {
    if file in db.models {
      return;
    }
    var _ := LoadModelFileMeta(db, importer, parsers, file, texPath, asResource, shape);
  }
}
