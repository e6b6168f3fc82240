/**
 * `core::AssetManager` (molten-core/src/asset_manager.h, asset_manager.cpp):
 * a fixed table of voxel scenes whose slots are handed out by a Pool.
 * Loading and destroying a scene (`VoxScene::load`, `VoxScene::destroy`) are
 * file I/O and a foreign decoder; the loaded scene is an input here.
 */
module Assets {
  import opened Uint
  import opened Wrappers
  import opened CorePool

  const MAX_VOX_SCENES: nat := 5

  /** `core::VoxScene`: the decoder's scene pointer; None is `nullptr`. */
  datatype VoxScene = VoxScene(ogtScene: Option<nat>)

  /** A default-constructed `VoxScene`, what `scene = {}` writes back. */
  const EMPTY_SCENE := VoxScene(None)

  /** With the pool sized to MAX_VOX_SCENES, at most four scenes, in slots 1 .. 4, are live at once. */
  lemma AtMostFourLiveScenes(s: PoolState, live: set<int>)
    requires Partition(s, live) && s.size == MAX_VOX_SCENES
    ensures |live| <= 4
    ensures forall id :: id in live ==> 1 <= id <= 4
  {
    LiveCount(s, live);
  }

  /**
   * After `init`, the first four scenes get slots 1, 2, 3, 4 and a fifth gets
   * the sentinel, so it is written into slot 0.
   */
  lemma FifthSceneGoesToSentinel()
    ensures AllocMany(InitState(MAX_VOX_SCENES), MAX_VOX_SCENES).1 == [1, 2, 3, 4, 0]
  {
    InitThenAllocInOrder(MAX_VOX_SCENES, MAX_VOX_SCENES - 1);
    InitExhaustsAfterAll(MAX_VOX_SCENES);
  }

  class AssetManager {
    const voxScenes: array<VoxScene>
    const voxScenePool: Pool

    ghost predicate Valid()
      reads this, voxScenePool
    {
      voxScenes.Length == MAX_VOX_SCENES && voxScenePool.Valid() && voxScenePool.size <= MAX_VOX_SCENES
    }

    /** The manager before `init`: empty scenes and a default pool, which hands out only the sentinel. */
    constructor ()
      ensures Valid() && fresh(voxScenes) && fresh(voxScenePool)
      ensures voxScenes[..] == seq(MAX_VOX_SCENES, _ => EMPTY_SCENE)
      ensures voxScenePool.State() == DEFAULT_POOL && voxScenePool.live == {}
    {
      voxScenes := new VoxScene[MAX_VOX_SCENES](_ => EMPTY_SCENE);
      voxScenePool := new Pool();
    }

    /** `init`: sizes the pool to MAX_VOX_SCENES, so slots 1 .. 4 become free. */
    method Init()
      requires Valid()
      modifies voxScenePool
      ensures Valid()
      ensures voxScenePool.State() == InitState(MAX_VOX_SCENES) && voxScenePool.live == {}
      ensures Partition(voxScenePool.State(), voxScenePool.live)
    {
      voxScenePool.Init(MAX_VOX_SCENES);
    }

    /**
     * `new_vox_scene`: stores the loaded scene in the slot the pool hands
     * out and returns that slot. An exhausted pool hands out 0, so the
     * scene then overwrites sentinel slot 0.
     */
    method NewVoxScene(scene: VoxScene) returns (id: u32)
      requires Valid()
      modifies voxScenes, voxScenePool
      ensures Valid()
      ensures (voxScenePool.State(), id) == Alloc(old(voxScenePool.State()))
      ensures id < MAX_VOX_SCENES
      ensures voxScenes[..] == old(voxScenes[..])[id := scene]
      ensures voxScenePool.live == if id == 0 then old(voxScenePool.live) else old(voxScenePool.live) + {id as int}
      ensures old(Partition(voxScenePool.State(), voxScenePool.live)) ==>
                Partition(voxScenePool.State(), voxScenePool.live) && id !in old(voxScenePool.live)
    {
      id := voxScenePool.AllocIndex();
      voxScenes[id] := scene;
    }

    /** `destroy_vox_scene`: resets slot `id` to an empty scene and returns `id` to the pool. */
    method DestroyVoxScene(id: u32)
      requires Valid()
      requires 0 < id < voxScenePool.size && voxScenePool.queueTop < voxScenePool.size
      modifies voxScenes, voxScenePool
      ensures Valid()
      ensures voxScenes[..] == old(voxScenes[..])[id := EMPTY_SCENE]
      ensures voxScenePool.State() == Free(old(voxScenePool.State()), id)
      ensures voxScenePool.live == old(voxScenePool.live) - {id as int}
      ensures old(Partition(voxScenePool.State(), voxScenePool.live)) && id as int in old(voxScenePool.live) ==>
                Partition(voxScenePool.State(), voxScenePool.live)
    {
      voxScenes[id] := EMPTY_SCENE;
      voxScenePool.FreeIndex(id);
    }
  }
}
