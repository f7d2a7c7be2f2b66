/**
 * The engine's asset entities as seen by the model loader, the global asset
 * table, and the boundary to the native scene importer.
 */
module Assets {
  import opened Wrappers

  // Engine and library objects whose internals this model does not look into.
  // Each is an uninterpreted value that is only passed around.

  /** A renderer mesh (de.coreengine.rendering.model.Mesh). */
  type Mesh(0)
  /** The raw, renderer-independent data of a mesh (asset.meta.MetaMesh). */
  type MetaMesh(0)
  /** A renderer material (de.coreengine.rendering.model.Material). */
  type Material(0)
  /** The raw data of a material (asset.meta.MetaMaterial). */
  type MetaMaterial(0)
  /** One mesh of an imported scene (an AIMesh). */
  type SceneMesh(0)
  /** One material of an imported scene (an AIMaterial). */
  type SceneMaterial(0)
  /** A physics collision shape, passed through to the mesh parser. */
  type CollisionShape(0)
  /** The root joint of a skeleton (de.coreengine.animation.Joint). */
  type Joint(0)
  /** A keyframe animation (de.coreengine.animation.Animation). */
  type Animation(0)

  /** javafx.util.Pair: a key and a value. */
  datatype Pair<K, V> = Pair(key: K, value: V)

  type MaterialPair = Pair<Material, MetaMaterial>
  type MeshPair = Pair<Mesh, MetaMesh>

  /**
   * An imported scene: its meshes and its materials, in the importer's order.
   * mNumMeshes() and mNumMaterials() are the lengths of these sequences.
   */
  datatype Scene = Scene(meshes: seq<SceneMesh>, materials: seq<SceneMaterial>)

  /** A static renderer model: its meshes in order. */
  datatype Model = Model(meshes: seq<Mesh>)

  /** An animated renderer model: meshes, the skeleton's root joint and the
      animations by name. */
  datatype AnimatedModel = AnimatedModel(meshes: seq<Mesh>, skeleton: Joint, animations: map<string, Animation>)

  /**
   * The per-item parsers (MaterialData and MeshData). A material is parsed
   * from the scene material and the texture directory; a mesh from the scene
   * mesh, the scene's parsed materials and the collision shape. Both are
   * deterministic as far as this model is concerned.
   */
  datatype Parsers = Parsers(
    material: (SceneMaterial, string) -> MaterialPair,
    mesh: (SceneMesh, seq<MaterialPair>, CollisionShape) -> MeshPair)

  /** The global table of loaded static models, keyed by model file. */
  class AssetDatabase {
    var models: map<string, Model>

    constructor ()
      ensures models == map[]
    {
      models := map[];
    }
  }

  /**
   * The native scene importer. What it yields for a file is the fixed function
   * `importFile` (None when the file cannot be loaded); the ghost log `calls`
   * records every file it was asked to import, in order.
   */
  class SceneImporter {
    const importFile: string -> Option<Scene>
    ghost var calls: seq<string>

    constructor (importFile: string -> Option<Scene>)
      ensures this.importFile == importFile && calls == []
    {
      this.importFile := importFile;
      calls := [];
    }

    method Import(file: string) returns (scene: Option<Scene>)
      modifies this`calls
      ensures scene == importFile(file)
      ensures calls == old(calls) + [file]
    {
      scene := importFile(file);
      calls := calls + [file];
    }
  }
}
