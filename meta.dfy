/** Meta models: the raw data of a loaded model, from which renderer
    instances are created. */
module Meta {
  import opened Wrappers
  import opened Assets

  /** A static meta model; `meshes` is null until it is set. */
  class MetaModel {
    var meshes: array?<MetaMesh>

    constructor ()
      ensures meshes == null
    {
      meshes := null;
    }

    method SetMeshes(meshes: array?<MetaMesh>)
      modifies this
      ensures this.meshes == meshes
    {
      this.meshes := meshes;
    }
  }

  /** A meta model that also holds a skeleton and named animations. */
  class MetaAnimatedModel {
    var meshes: array?<MetaMesh>
    var skeleton: Joint
    var animations: map<string, Animation>

    /**
     * Creates an animated model instance. A null mesh array gives None (the
     * source logs a warning and returns null). Otherwise mesh i of the result
     * is the instance of meta mesh i, created with the given texture path,
     * the given resource flag and the animated flag set; skeleton and
     * animations are this meta model's own. `instantiate` stands for
     * MetaMesh.getInstance.
     */
    method GetInstance(texPath: string, asResource: bool, instantiate: (MetaMesh, string, bool, bool) -> Mesh)
      returns (r: Option<AnimatedModel>)
      ensures meshes == null <==> r.None?
      ensures r.Some? ==>
        |r.value.meshes| == meshes.Length &&
        (forall i :: 0 <= i < meshes.Length ==>
          r.value.meshes[i] == instantiate(meshes[i], texPath, asResource, true))
      ensures r.Some? ==> r.value.skeleton == skeleton && r.value.animations == animations
    {
      if meshes == null {
        return None;
      }
      var instances := new Mesh[meshes.Length];
      for i := 0 to meshes.Length
        invariant forall k :: 0 <= k < i ==> instances[k] == instantiate(meshes[k], texPath, asResource, true)
      {
        instances[i] := instantiate(meshes[i], texPath, asResource, true);
      }
      r := Some(AnimatedModel(instances[..], skeleton, animations));
    }
  }
}
