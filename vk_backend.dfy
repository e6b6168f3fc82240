/**
 * The double-buffered frame-slot selection of the explicit backend
 * (molten-core/src/gfx/vk_renderer.h). Vulkan objects are opaque handles.
 */
module VkBackend {
  import opened Uint

  const FRAME_OVERLAP: nat := 2

  /** The Vulkan objects of one frame slot, as opaque handles. */
  datatype FrameData = FrameData(commandPool: nat, mainCommandBuffer: nat,
                                 presentSemaphore: nat, renderSemaphore: nat, renderFence: nat)

  /** `_frame_number % FRAME_OVERLAP`: the slot of `_frames` the given frame records into. */
  function FrameSlot(frameNumber: u32): (slot: nat)
    ensures slot < FRAME_OVERLAP
    ensures slot == 0 <==> frameNumber % 2 == 0
  {
    frameNumber % FRAME_OVERLAP
  }

  /** Consecutive frames, counted in `uint32_t`, use different slots, also across the wrap to 0. */
  lemma ConsecutiveFramesAlternate(n: u32)
    ensures FrameSlot(Inc32(n)) != FrameSlot(n)
  {
  }

  /** Frames two apart use the same slot, so slot N is next reused by frame N+2. */
  lemma FramesTwoApartShareSlot(n: u32)
    ensures FrameSlot(Inc32(Inc32(n))) == FrameSlot(n)
  {
  }

  class VKRenderer {
    const frames: array<FrameData>
    var frameNumber: u32
    var isInitialized: bool

    ghost predicate Valid()
      reads this
    {
      frames.Length == FRAME_OVERLAP
    }

    /** A new backend: frame 0, not initialised, so the first frame records into slot 0. */
    constructor ()
      ensures Valid() && fresh(frames)
      ensures frameNumber == 0 && !isInitialized && FrameSlot(frameNumber) == 0
    {
      frames := new FrameData[FRAME_OVERLAP](_ => FrameData(0, 0, 0, 0, 0));
      frameNumber := 0;
      isInitialized := false;
    }

    /** `get_current_frame`: the frame data of the current slot, always inside `_frames`. */
    function CurrentFrame(): (frame: FrameData)
      requires Valid()
      reads this, frames
      ensures frame in frames[..]
    {
      frames[FrameSlot(frameNumber)]
    }
  }
}
