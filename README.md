# CoreEngine model loader — a Dafny model

This project models the model-loading core of CoreEngine's asset system:

- `ModelLoader.loadModelFile` loads a model file into the global asset table
  (`AssetDatabase.models`) unless the file is already there;
- `ModelLoader.loadModelFileMeta` makes the texture path a directory path
  (trailing `/`), imports the file with the native scene importer, returns
  null on an import failure, and otherwise builds the material array, then the
  mesh array, unzips the (mesh, meta mesh) pairs into two parallel arrays,
  stores a `Model` of the meshes under the file name (overwriting any entry)
  and returns a meta model holding the meta meshes;
- `getMaterials` and `getMeshs` fill arrays index for index from the scene;
- `MetaAnimatedModel.getInstance` returns null for a null mesh array and
  otherwise instantiates every meta mesh, index for index, as an animated
  mesh, passing the skeleton and the animations through.

Files: `wrappers.dfy` (Option), `assets.dfy` (entities, the asset table, the
importer boundary), `meta.dfy` (meta models), `model_loader.dfy` (the loader).

The loader methods work on a `AssetDatabase` object whose `models` field is a
`map<string, Model>`, and on a `SceneImporter` object that stands for the
native importer: what it yields for a file is a fixed function
(`Option<Scene>`, `None` for a file that cannot be loaded) and a ghost log
records each file it was asked for, so "no import on a cache hit" can be
stated. The per-item parsers (`MaterialData`, `MeshData`) and
`MetaMesh.getInstance` are function-typed parameters. Engine and library
objects (meshes, materials, joints, animations, collision shapes, scene
items) are uninterpreted types. Each stateful method is tied to a pure
function (`LoadModelFileMetaSpec`, `LoadModelFileSpec`) whose contract and
lemmas state the cache properties.

Points where the code's behaviour is narrower than a general asset cache, and
the model follows the code: the table is keyed by the file string exactly as given (no path
normalisation); `loadModelFileMeta` overwrites an existing entry; the import
uses exactly the four flags of the code, which have no effect in the model;
`loadModelFile` drops the result, so a failure is visible to its caller only
as an absent table entry.

## Model

| member | source | states |
|---|---|---|
| `ModelLoader.NormaliseTexPath` | src/main/java/de/coreengine/asset/ModelLoader.java:136 | the normalised path ends with `/`, extends the given path by at most one character, and equals it when it already ends with `/` |
| `ModelLoader.NormaliseTexPathIdempotent` | src/main/java/de/coreengine/asset/ModelLoader.java:136 | normalising twice is the same as normalising once |
| `ModelLoader.NormaliseTexPathAppendsOneSlash` | src/main/java/de/coreengine/asset/ModelLoader.java:136 | a path without a trailing `/` gets exactly one `/` appended and is otherwise kept |
| `ModelLoader.GetMaterials` | src/main/java/de/coreengine/asset/ModelLoader.java:198-213 | the array has one entry per scene material, and entry i is scene material i parsed with the given texture directory |
| `ModelLoader.GetMeshs` | src/main/java/de/coreengine/asset/ModelLoader.java:174-190 | the array has one entry per scene mesh, and entry i is scene mesh i parsed with the same materials and collision shape |
| `ModelLoader.Unzip` | src/main/java/de/coreengine/asset/ModelLoader.java:152-157 | both arrays are new and have the pair array's length; mesh i is the key and meta mesh i the value of pair i |
| `ModelLoader.UnzipAt` | src/main/java/de/coreengine/asset/ModelLoader.java:152-157 | unzipping keeps length and order: key i and value i come from pair i |
| `ModelLoader.ZipUnzip` | src/main/java/de/coreengine/asset/ModelLoader.java:152-157 | zipping the unzipped halves gives back the pair sequence |
| `ModelLoader.UnzipZip` | src/main/java/de/coreengine/asset/ModelLoader.java:152-157 | unzipping a zip of two equal-length sequences gives back both sequences |
| `ModelLoader.Assemble` | src/main/java/de/coreengine/asset/ModelLoader.java:147-162 | the model and the meta meshes have one entry per scene mesh, and (mesh i, meta mesh i) is scene mesh i parsed with the scene's materials and the shape |
| `ModelLoader.LoadModelFileMetaSpec` | src/main/java/de/coreengine/asset/ModelLoader.java:133-166 | a meta model exists iff the import succeeds; a failed import leaves the table unchanged; on success the keys gain `file`, every other entry keeps its value, and the stored meshes and the meta meshes are the index-for-index halves of the parsed scene meshes, with materials parsed from the normalised texture path |
| `ModelLoader.LoadModelFileSpec` | src/main/java/de/coreengine/asset/ModelLoader.java:120-123 | a file already in the table leaves it unchanged; no existing entry is ever overwritten; `file` is present afterwards iff it was before or its import succeeds, and a missing file whose import succeeds is stored as the assembled model |
| `ModelLoader.LoadModelFileIdempotent` | src/main/java/de/coreengine/asset/ModelLoader.java:120-123 | loading the same file twice through the guard gives the same table as loading it once |
| `ModelLoader.FailedLoadIsRetried` | src/main/java/de/coreengine/asset/ModelLoader.java:120-145 | a failed import leaves the table unchanged with no entry for the file, so a later load whose import succeeds stores the assembled model |
| `ModelLoader.LoadModelFileMetaOverwrites` | src/main/java/de/coreengine/asset/ModelLoader.java:162-163 | the unguarded load replaces an existing entry for `file` with the newly assembled model and adds no key |
| `ModelLoader.LoadModelFileMeta` | src/main/java/de/coreengine/asset/ModelLoader.java:133-166 | imports the file exactly once; a failed import returns null and leaves the table alone; otherwise the table and the contents of the fresh meta model's fresh mesh array are exactly those of `LoadModelFileMetaSpec` |
| `ModelLoader.LoadModelFile` | src/main/java/de/coreengine/asset/ModelLoader.java:120-123 | performs no import when `file` is in the table and exactly one otherwise; the new table is that of `LoadModelFileSpec` |
| `Assets.SceneImporter.Import` | src/main/java/de/coreengine/asset/ModelLoader.java:139-140 | returns the importer's fixed result for the file and logs the call |
| `Meta.MetaModel.SetMeshes` | src/main/java/de/coreengine/asset/ModelLoader.java:160-161 | the meta model's mesh array becomes the given one |
| `Meta.MetaAnimatedModel.GetInstance` | src/main/java/de/coreengine/asset/meta/MetaAnimatedModel.java:52-67 | None iff the mesh array is null; otherwise as many meshes as the meta model, mesh i the animated instance of meta mesh i with the given texture path and resource flag, and the skeleton and animations passed through |

## Left out

- The native importer (`aiImportFile` and its flags): foreign library code; it is a fixed function from file name to `Option<Scene>`.
- `MaterialData`, `MeshData`, `MetaMesh.getInstance` and the `Mesh`, `Material`, `Model` constructors: their code is not part of this model and touches renderer state; they are uninterpreted functions and values.
- `CollisionShape`, `Joint`, `Animation`: library or engine objects passed through opaquely.
- `Logger.warn` on the two failure paths: logging I/O.
- The `asResource` parameter of the loader: unused by the load; it is kept in the signatures and only passed through by `GetInstance`.
- Object identity: the skeleton, the animation map and the model's mesh array are compared as values, so the model does not capture that Java passes the same objects (aliasing).
- `MetaModel.getInstance` and the rest of `MetaModel` (MetaModel.java): outside the modelled files; only the mesh field and its setter are modelled.
- The subclass relation `MetaAnimatedModel extends MetaModel`: Dafny classes here have no inheritance, so `MetaAnimatedModel` declares its own `meshes` field and is unrelated to `MetaModel` in the model.
- Null references other than the meta model's mesh array: strings, meta meshes and the other objects are taken as non-null, so the NullPointerException paths of a null `texPath` at `endsWith` and of a null element of the mesh array at `getInstance` are not modelled.
- Skin weights, joint hierarchy building and animation conversion: no code for them is part of this model.
- Concurrent access to the static asset table: the table is a single-owner field.
- Matrix and transform data: floating point; neither ModelLoader.java nor MetaAnimatedModel.java touches it.
