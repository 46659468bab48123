/**
 * The scene: the meshes and cameras the viewer shows, the camera it looks
 * through and the mesh the user has selected. The program keeps references
 * to meshes and cameras owned elsewhere, so the same object may appear more
 * than once and edits through either entry are seen through both; the model
 * keeps sequences of object references for the same reason.
 */
module Worlds {
  import opened Algebra
  import opened Meshes
  import opened Cameras

  /** No mesh is selected. */
  const NO_SELECTION := -1

  class World {
    var meshes: seq<Mesh>
    var cameras: seq<Camera>
    var viewCamera: int
    var selectedMeshIndex: int

    /** Every mesh in the scene keeps its buffers consistent. */
    ghost predicate Valid()
      reads this, meshes
    {
      forall m :: m in meshes ==> m.Valid()
    }

    /** An empty scene looking through camera 0 with nothing selected. */
    constructor ()
      ensures meshes == [] && cameras == []
      ensures viewCamera == 0 && selectedMeshIndex == NO_SELECTION
      ensures Valid()
    {
      meshes := [];
      cameras := [];
      viewCamera := 0;
      selectedMeshIndex := NO_SELECTION;
    }

    /** `addMesh`: the mesh goes at the end; nothing else changes. */
    method AddMesh(mesh: Mesh)
      requires Valid() && mesh.Valid()
      modifies this
      ensures meshes == old(meshes) + [mesh]
      ensures cameras == old(cameras) && viewCamera == old(viewCamera)
      ensures selectedMeshIndex == old(selectedMeshIndex)
      ensures Valid()
    {
      meshes := meshes + [mesh];
    }

    /** `addCamera`: the camera goes at the end; a camera already in view stays in view. */
    method AddCamera(camera: Camera)
      modifies this
      ensures cameras == old(cameras) + [camera]
      ensures meshes == old(meshes) && viewCamera == old(viewCamera)
      ensures selectedMeshIndex == old(selectedMeshIndex)
      ensures old(ViewCamera()).Some? ==> ViewCamera() == old(ViewCamera())
    {
      cameras := cameras + [camera];
    }

    /** `setViewCamera`: any number is accepted; it is checked only when the camera is looked up. */
    method SetViewCamera(cameraNumber: int)
      modifies this
      ensures viewCamera == cameraNumber
      ensures meshes == old(meshes) && cameras == old(cameras)
      ensures selectedMeshIndex == old(selectedMeshIndex)
    {
      viewCamera := cameraNumber;
    }

    /** `getViewCamera`: the camera at `viewCamera`, or nothing when the number is out of range. */
    function ViewCamera(): (r: Option<Camera>)
      reads this
      ensures r.Some? <==> 0 <= viewCamera < |cameras|
      ensures r.Some? ==> r.value == cameras[viewCamera]
    {
      if 0 <= viewCamera < |cameras| then Some(cameras[viewCamera]) else None
    }

    /** The selection setter: any number is stored as given. */
    method SetSelectedMeshIndex(meshIndex: int)
      modifies this
      ensures selectedMeshIndex == meshIndex
      ensures meshes == old(meshes) && cameras == old(cameras) && viewCamera == old(viewCamera)
    {
      selectedMeshIndex := meshIndex;
    }

    /** The selected mesh, or nothing when the index is out of range (including no selection). */
    function SelectedMesh(): (r: Option<Mesh>)
      reads this
      ensures r.Some? <==> 0 <= selectedMeshIndex < |meshes|
      ensures r.Some? ==> r.value == meshes[selectedMeshIndex]
      ensures selectedMeshIndex == NO_SELECTION ==> r.None?
    {
      if 0 <= selectedMeshIndex < |meshes| then Some(meshes[selectedMeshIndex]) else None
    }
  }
}
