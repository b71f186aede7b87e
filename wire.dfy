/*
 * The wire types of the shared segment that the renderer exchanges with the
 * browser engine (the layout of Gecko's VRExternalShmem, as far as this core
 * writes or copies it).
 *
 * Floating-point payloads are held as their IEEE-754 bit patterns: the core
 * only stores and copies them, it never computes on them.
 */
module Wire {

  /** An IEEE-754 single-precision value, as its bit pattern. */
  type Float32 = bv32

  /** An IEEE-754 double-precision value, as its bit pattern. */
  type Float64 = bv64

  newtype int32 = x: int | -0x8000_0000 <= x < 0x8000_0000

  const U64: int := 0x1_0000_0000_0000_0000

  newtype uint64 = x: int | 0 <= x < 0x1_0000_0000_0000_0000

  /** `x++` on an unsigned 64-bit counter: wraps to 0 after the largest value. */
  function Inc64(x: uint64): (r: uint64)
    ensures x as int < U64 - 1 ==> r as int == x as int + 1
    ensures x as int == U64 - 1 ==> r == 0
  {
    ((x as int + 1) % U64) as uint64
  }

  /** One C `char`: the name buffer and std::string hold bytes, not
      Unicode characters, so truncation counts bytes. */
  type Byte = bv8

  /** The NUL byte that ends a C string. */
  const NUL: Byte := 0

  /** Length of the fixed display-name buffer (kVRDisplayNameMaxLen). */
  const NameMaxLen: nat := 256

  /** The segment format version the renderer was compiled against
      (kVRExternalVersion); its value lives in a header outside this model. */
  const ExternalVersion: int32

  /** sizeof(VRExternalShmem): the byte layout is outside this model. */
  const ShmemSize: nat

  /** Length of the consumer-owned part of VRBrowserState that this core only copies. */
  const BrowserPayloadSize: nat

  // VRDisplayCapabilityFlags, a uint16_t bitmask on the wire.
  const Cap_Position: bv16 := 1 << 1
  const Cap_Orientation: bv16 := 1 << 2
  const Cap_Present: bv16 := 1 << 3
  const Cap_AngularAcceleration: bv16 := 1 << 5
  const Cap_LinearAcceleration: bv16 := 1 << 6
  const Cap_StageParameters: bv16 := 1 << 7
  const Cap_MountDetection: bv16 := 1 << 8

  /** Field of view of one eye, in degrees. */
  datatype Fov = Fov(upDegrees: Float64, rightDegrees: Float64, downDegrees: Float64, leftDegrees: Float64)

  datatype Point3 = Point3(x: Float32, y: Float32, z: Float32)

  datatype Quaternion = Quaternion(x: Float32, y: Float32, z: Float32, w: Float32)

  datatype Resolution = Resolution(width: int32, height: int32)

  /** A 4x4 matrix of floats, column-major, 16 entries. */
  type Matrix = seq<Float32>

  datatype DisplayState = DisplayState(
    isConnected: bool,
    isMounted: bool,
    displayName: seq<Byte>,          // kVRDisplayNameMaxLen bytes
    capabilityFlags: bv16,
    eyeFov: seq<Fov>,                // index 0 is the left eye, 1 the right eye
    eyeTranslation: seq<Point3>,     // same indexing
    eyeResolution: Resolution,
    presentingGeneration: uint64)

  datatype SensorState = SensorState(
    flags: bv16,
    orientation: Quaternion,
    position: Point3,
    leftViewMatrix: Matrix,
    rightViewMatrix: Matrix,
    inputFrameID: uint64)

  /** VRSystemState: what the renderer publishes. */
  datatype SystemState = SystemState(
    displayState: DisplayState,
    sensorState: SensorState,
    enumerationCompleted: bool)

  /** VRBrowserState: what the browser engine writes. The renderer never
      interprets it beyond `isPresenting`; the rest is carried as raw bytes. */
  datatype BrowserState = BrowserState(isPresenting: bool, payload: seq<Byte>)

  /** The fixed sizes of the arrays inside a system state. */
  predicate WellFormed(s: SystemState)
  {
    && |s.displayState.displayName| == NameMaxLen
    && |s.displayState.eyeFov| == 2
    && |s.displayState.eyeTranslation| == 2
    && |s.sensorState.leftViewMatrix| == 16
    && |s.sensorState.rightViewMatrix| == 16
  }

  const ZeroFov := Fov(0, 0, 0, 0)
  const ZeroPoint := Point3(0, 0, 0)
  const ZeroMatrix: Matrix := seq(16, _ => 0)

  /** The bit pattern of 1.0f. */
  const One32: Float32 := 0x3F80_0000

  /** vrb::Matrix::Identity() as it lies in memory. */
  const IdentityMatrix: Matrix := seq(16, i => if i % 5 == 0 then One32 else 0)

  /** A system state whose bytes are all zero (what memset(…, 0, …) leaves). */
  function ZeroSystemState(): (s: SystemState)
    ensures WellFormed(s)
  {
    SystemState(
      DisplayState(false, false, seq(NameMaxLen, _ => NUL), 0,
                   [ZeroFov, ZeroFov], [ZeroPoint, ZeroPoint], Resolution(0, 0), 0),
      SensorState(0, Quaternion(0, 0, 0, 0), ZeroPoint, ZeroMatrix, ZeroMatrix, 0),
      false)
  }

  /** A browser state whose bytes are all zero. */
  function ZeroBrowserState(): (b: BrowserState)
    ensures !b.isPresenting
    ensures |b.payload| == BrowserPayloadSize && forall i | 0 <= i < |b.payload| :: b.payload[i] == 0
  {
    BrowserState(false, seq(BrowserPayloadSize, _ => 0))
  }
}
