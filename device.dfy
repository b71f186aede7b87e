/*
 * The renderer's own device vocabulary (namespace `device` of the
 * application), as the ExternalVR setters receive it.
 */
module Device {

  /** The eye a per-eye setter is called for. */
  datatype Eye = Left | Right

  /** device::CapabilityFlags: the renderer's logical capability bitmask. */
  type CapabilityFlags = bv32

  const Position: CapabilityFlags := 1 << 1
  const Orientation: CapabilityFlags := 1 << 2
  const Present: CapabilityFlags := 1 << 3
  const AngularAcceleration: CapabilityFlags := 1 << 4
  const LinearAcceleration: CapabilityFlags := 1 << 5
  const StageParameters: CapabilityFlags := 1 << 6
  const MountDetection: CapabilityFlags := 1 << 7
}
