/*
 * What each ExternalVR setter does to the renderer's system-state mirror,
 * as functions of the old mirror, and what sequences of setter calls do.
 * The methods of ExternalVR.ExternalVR are proved to change the mirror
 * exactly as these functions say.
 */
module Updates {
  import opened Wire
  import Device
  import opened Capabilities
  import opened CString

  /** The display-state capability field and its sensor-state echo agree. */
  predicate CapabilityEcho(s: SystemState)
  {
    s.displayState.capabilityFlags == s.sensorState.flags
  }

  /** The last byte of the display-name buffer is NUL, so the name is terminated. */
  predicate NameTerminated(s: SystemState)
    requires WellFormed(s)
  {
    s.displayState.displayName[NameMaxLen - 1] == NUL
  }

  /** What every mirror and every published copy satisfies. */
  predicate Consistent(s: SystemState)
  {
    WellFormed(s) && CapabilityEcho(s) && NameTerminated(s)
  }

  /** The array slot for an eye: Right selects slot 1, any other eye slot 0. */
  function EyeIndex(eye: Device.Eye): nat
  {
    if eye == Device.Right then 1 else 0
  }

  /** vrb::Quaternion(aTransform): the rotation of a transform. The matrix
      library is outside this model, so the extraction is left uninterpreted. */
  const OrientationOf: Matrix -> Quaternion

  /** aTransform.GetTranslation(), likewise uninterpreted. */
  const TranslationOf: Matrix -> Point3

  /** SetDeviceName: an empty name is ignored; otherwise strncpy at most
      NameMaxLen - 1 bytes into the buffer and force its last byte to NUL. */
  function WithDeviceName(s: SystemState, name: seq<Byte>): (s': SystemState)
    requires WellFormed(s)
    ensures WellFormed(s') && (Consistent(s) ==> Consistent(s'))
    ensures s' == s.(displayState := s.displayState.(displayName := s'.displayState.displayName))
    ensures |name| == 0 ==> s' == s
    ensures |name| > 0 ==>
              && s'.displayState.displayName[NameMaxLen - 1] == NUL
              && forall i | 0 <= i < NameMaxLen - 1 ::
                   s'.displayState.displayName[i] == if i < CLength(name) then name[i] else NUL
  {
    if |name| == 0 then s
    else
      var buffer := StrNCopy(s.displayState.displayName, name, NameMaxLen - 1);
      s.(displayState := s.displayState.(displayName := buffer[NameMaxLen - 1 := NUL]))
  }

  /** SetCapabilityFlags: the translated mask goes into the display state and
      is echoed into the sensor state. */
  function WithCapabilityFlags(s: SystemState, flags: Device.CapabilityFlags): (s': SystemState)
    requires WellFormed(s)
    ensures WellFormed(s') && (Consistent(s) ==> Consistent(s'))
    ensures CapabilityEcho(s') && s'.displayState.capabilityFlags == CapabilityMask(flags)
    ensures s' == s.(displayState := s.displayState.(capabilityFlags := s'.displayState.capabilityFlags),
                     sensorState := s.sensorState.(flags := s'.sensorState.flags))
  {
    var mask := CapabilityMask(flags);
    s.(displayState := s.displayState.(capabilityFlags := mask),
       sensorState := s.sensorState.(flags := mask))
  }

  /** SetFieldOfView: the selected eye's record receives the four angles,
      top as up and bottom as down. */
  function WithFieldOfView(s: SystemState, eye: Device.Eye, left: Float64, right: Float64,
                           top: Float64, bottom: Float64): (s': SystemState)
    requires WellFormed(s)
    ensures WellFormed(s') && (Consistent(s) ==> Consistent(s'))
    ensures s'.displayState.eyeFov[if eye == Device.Right then 1 else 0]
            == Fov(upDegrees := top, rightDegrees := right, downDegrees := bottom, leftDegrees := left)
    ensures s'.displayState.eyeFov[if eye == Device.Right then 0 else 1]
            == s.displayState.eyeFov[if eye == Device.Right then 0 else 1]
    ensures s' == s.(displayState := s.displayState.(eyeFov := s'.displayState.eyeFov))
  {
    var which := EyeIndex(eye);
    var fov := Fov(upDegrees := top, rightDegrees := right, downDegrees := bottom, leftDegrees := left);
    s.(displayState := s.displayState.(eyeFov := s.displayState.eyeFov[which := fov]))
  }

  /** SetEyeOffset: the selected eye's translation receives x, y, z. */
  function WithEyeOffset(s: SystemState, eye: Device.Eye, x: Float32, y: Float32, z: Float32): (s': SystemState)
    requires WellFormed(s)
    ensures WellFormed(s') && (Consistent(s) ==> Consistent(s'))
    ensures s'.displayState.eyeTranslation[if eye == Device.Right then 1 else 0] == Point3(x, y, z)
    ensures s'.displayState.eyeTranslation[if eye == Device.Right then 0 else 1]
            == s.displayState.eyeTranslation[if eye == Device.Right then 0 else 1]
    ensures s' == s.(displayState := s.displayState.(eyeTranslation := s'.displayState.eyeTranslation))
  {
    var which := EyeIndex(eye);
    s.(displayState := s.displayState.(eyeTranslation := s.displayState.eyeTranslation[which := Point3(x, y, z)]))
  }

  /** SetEyeResolution: one resolution shared by both eyes. */
  function WithEyeResolution(s: SystemState, width: int32, height: int32): (s': SystemState)
    requires WellFormed(s)
    ensures WellFormed(s') && (Consistent(s) ==> Consistent(s'))
    ensures s'.displayState.eyeResolution.width == width && s'.displayState.eyeResolution.height == height
    ensures s' == s.(displayState := s.displayState.(eyeResolution := s'.displayState.eyeResolution))
  {
    s.(displayState := s.displayState.(eyeResolution := Resolution(width, height)))
  }

  /** SetHeadTransform: advance the input frame id and store the pose. */
  function WithHeadTransform(s: SystemState, transform: Matrix): (s': SystemState)
    requires WellFormed(s)
    ensures WellFormed(s') && (Consistent(s) ==> Consistent(s'))
    ensures s'.sensorState.inputFrameID as int == (s.sensorState.inputFrameID as int + 1) % U64
    ensures s'.sensorState.orientation == OrientationOf(transform)
    ensures s'.sensorState.position == TranslationOf(transform)
    ensures s' == s.(sensorState := s.sensorState.(inputFrameID := s'.sensorState.inputFrameID,
                                                   orientation := s'.sensorState.orientation,
                                                   position := s'.sensorState.position))
  {
    var frame := Inc64(s.sensorState.inputFrameID);
    s.(sensorState := s.sensorState.(inputFrameID := frame,
                                     orientation := OrientationOf(transform),
                                     position := TranslationOf(transform)))
  }

  /** StopPresenting: advance the presenting generation and nothing else. */
  function WithStopPresenting(s: SystemState): (s': SystemState)
    requires WellFormed(s)
    ensures WellFormed(s') && (Consistent(s) ==> Consistent(s'))
    ensures s'.displayState.presentingGeneration as int == (s.displayState.presentingGeneration as int + 1) % U64
    ensures s' == s.(displayState := s.displayState.(presentingGeneration := s'.displayState.presentingGeneration))
  {
    s.(displayState := s.displayState.(presentingGeneration := Inc64(s.displayState.presentingGeneration)))
  }

  // ---------------------------------------------------------------------
  // Display name

  /** Byte i of the name buffer after a non-empty name was set. */
  lemma StoredNameByte(s: SystemState, name: seq<Byte>, i: nat)
    requires WellFormed(s) && 0 < |name| && i < NameMaxLen
    ensures WithDeviceName(s, name).displayState.displayName[i]
            == if i < NameMaxLen - 1 && i < CLength(name) then name[i] else NUL
  {
  }

  /** A non-empty name without NUL is stored as its first
      min(|name|, NameMaxLen - 1) bytes, followed by NUL to the end of
      the buffer: no byte of an earlier, longer name survives. */
  lemma NameStoredAsPrefix(s: SystemState, name: seq<Byte>, k: nat)
    requires WellFormed(s)
    requires 0 < |name| && CLength(name) == |name|
    requires k == if |name| < NameMaxLen - 1 then |name| else NameMaxLen - 1
    ensures WithDeviceName(s, name).displayState.displayName[..k] == name[..k]
    ensures forall i | k <= i < NameMaxLen :: WithDeviceName(s, name).displayState.displayName[i] == NUL
  {
    var stored := WithDeviceName(s, name).displayState.displayName;
    forall i | 0 <= i < NameMaxLen
      ensures stored[i] == if i < k then name[i] else NUL
    {
      StoredNameByte(s, name, i);
    }
    PrefixThenNul(stored, name, k);
  }

  /** A buffer that holds the first k bytes of name and NUL after them
      starts with name[..k]. */
  lemma PrefixThenNul(stored: seq<Byte>, name: seq<Byte>, k: nat)
    requires |stored| == NameMaxLen && k <= |name| && k < NameMaxLen
    requires forall i | 0 <= i < NameMaxLen :: stored[i] == if i < k then name[i] else NUL
    ensures stored[..k] == name[..k]
  {
    assert forall i | 0 <= i < k :: stored[..k][i] == name[..k][i];
  }

  /** A name of NameMaxLen - 1 bytes or more is truncated to exactly
      NameMaxLen - 1 bytes and terminated. */
  lemma LongNameTruncated(s: SystemState, name: seq<Byte>)
    requires WellFormed(s)
    requires CLength(name) >= NameMaxLen - 1
    ensures WithDeviceName(s, name).displayState.displayName == name[..NameMaxLen - 1] + [NUL]
  {
    var stored := WithDeviceName(s, name).displayState.displayName;
    assert forall i | 0 <= i < NameMaxLen :: stored[i] == (name[..NameMaxLen - 1] + [NUL])[i];
  }

  /** Because strncpy pads with NUL, the last non-empty name set fully
      determines the buffer, whatever name was there before. */
  lemma LastNameWins(s: SystemState, first: seq<Byte>, second: seq<Byte>)
    requires WellFormed(s)
    requires |second| > 0
    ensures WithDeviceName(WithDeviceName(s, first), second) == WithDeviceName(s, second)
  {
    var a := WithDeviceName(WithDeviceName(s, first), second);
    var b := WithDeviceName(s, second);
    assert a.displayState.displayName == b.displayState.displayName by {
      assert forall i | 0 <= i < NameMaxLen :: a.displayState.displayName[i] == b.displayState.displayName[i];
    }
  }

  // ---------------------------------------------------------------------
  // Sequences of setter calls

  /** One call of a mirror-changing operation of ExternalVR. */
  datatype Update =
    | SetDeviceName(name: seq<Byte>)
    | SetCapabilityFlags(flags: Device.CapabilityFlags)
    | SetFieldOfView(eye: Device.Eye, left: Float64, right: Float64, top: Float64, bottom: Float64)
    | SetEyeOffset(offsetEye: Device.Eye, x: Float32, y: Float32, z: Float32)
    | SetEyeResolution(width: int32, height: int32)
    | SetHeadTransform(transform: Matrix)
    | StopPresenting

  /** The new mirror after one call. Only SetHeadTransform moves the frame
      id, only StopPresenting moves the generation, and no call touches the
      connection flags or the view matrices. */
  function Apply(s: SystemState, u: Update): (s': SystemState)
    requires WellFormed(s)
    ensures WellFormed(s') && (Consistent(s) ==> Consistent(s'))
    ensures s'.sensorState.inputFrameID
            == if u.SetHeadTransform? then Inc64(s.sensorState.inputFrameID) else s.sensorState.inputFrameID
    ensures s'.displayState.presentingGeneration
            == if u.StopPresenting? then Inc64(s.displayState.presentingGeneration) else s.displayState.presentingGeneration
    ensures SessionFlags(s') == SessionFlags(s)
  {
    match u
    case SetDeviceName(name) => WithDeviceName(s, name)
    case SetCapabilityFlags(flags) => WithCapabilityFlags(s, flags)
    case SetFieldOfView(eye, left, right, top, bottom) => WithFieldOfView(s, eye, left, right, top, bottom)
    case SetEyeOffset(eye, x, y, z) => WithEyeOffset(s, eye, x, y, z)
    case SetEyeResolution(width, height) => WithEyeResolution(s, width, height)
    case SetHeadTransform(transform) => WithHeadTransform(s, transform)
    case StopPresenting => WithStopPresenting(s)
  }

  /** The fields set once at construction: connected, mounted, enumeration
      completed and the two view matrices. */
  function SessionFlags(s: SystemState): (bool, bool, bool, Matrix, Matrix)
  {
    (s.displayState.isConnected, s.displayState.isMounted, s.enumerationCompleted,
     s.sensorState.leftViewMatrix, s.sensorState.rightViewMatrix)
  }

  /** The mirror after a sequence of calls, first call first. */
  function Run(s: SystemState, us: seq<Update>): (s': SystemState)
    requires WellFormed(s)
    ensures WellFormed(s') && (Consistent(s) ==> Consistent(s'))
    ensures SessionFlags(s') == SessionFlags(s)
    decreases |us|
  {
    if us == [] then s else Run(Apply(s, us[0]), us[1..])
  }

  function HeadTransformCount(us: seq<Update>): nat
  {
    if us == [] then 0 else (if us[0].SetHeadTransform? then 1 else 0) + HeadTransformCount(us[1..])
  }

  function StopPresentingCount(us: seq<Update>): nat
  {
    if us == [] then 0 else (if us[0].StopPresenting? then 1 else 0) + StopPresentingCount(us[1..])
  }

  lemma ModAddOne(a: int, b: nat, c: nat)
    requires c <= 1
    ensures ((a + c) % U64 + b) % U64 == (a + c + b) % U64
  {
    var q := (a + c) / U64;
    assert a + c == q * U64 + (a + c) % U64;
  }

  /** Over any sequence of calls the input frame id advances by exactly the
      number of SetHeadTransform calls (modulo 2^64). */
  lemma {:induction false} RunAdvancesFrameId(s: SystemState, us: seq<Update>)
    requires WellFormed(s)
    decreases |us|
    ensures Run(s, us).sensorState.inputFrameID as int
            == (s.sensorState.inputFrameID as int + HeadTransformCount(us)) % U64
  {
    if us == [] {
    } else {
      var s1 := Apply(s, us[0]);
      var c := if us[0].SetHeadTransform? then 1 else 0;
      RunAdvancesFrameId(s1, us[1..]);
      assert s1.sensorState.inputFrameID as int == (s.sensorState.inputFrameID as int + c) % U64;
      ModAddOne(s.sensorState.inputFrameID as int, HeadTransformCount(us[1..]), c);
    }
  }

  /** Over any sequence of calls the presenting generation advances by
      exactly the number of StopPresenting calls (modulo 2^64). */
  lemma {:induction false} RunAdvancesGeneration(s: SystemState, us: seq<Update>)
    requires WellFormed(s)
    decreases |us|
    ensures Run(s, us).displayState.presentingGeneration as int
            == (s.displayState.presentingGeneration as int + StopPresentingCount(us)) % U64
  {
    if us == [] {
    } else {
      var s1 := Apply(s, us[0]);
      var c := if us[0].StopPresenting? then 1 else 0;
      RunAdvancesGeneration(s1, us[1..]);
      assert s1.displayState.presentingGeneration as int == (s.displayState.presentingGeneration as int + c) % U64;
      ModAddOne(s.displayState.presentingGeneration as int, StopPresentingCount(us[1..]), c);
    }
  }
}
