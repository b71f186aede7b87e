/*
 * The capability mapper: device::CapabilityFlags (the renderer's logical
 * bitmask) to VRDisplayCapabilityFlags (the wire bitmask).
 */
module Capabilities {
  import opened Wire
  import Device

  /** A logical capability bit and the wire bit it becomes. */
  datatype Correspondence = Correspondence(device: Device.CapabilityFlags, wire: bv16)

  /** The seven capabilities the mapper recognises, in the order it tests them. */
  const Translation: seq<Correspondence> := [
    Correspondence(Device.Position, Cap_Position),
    Correspondence(Device.Orientation, Cap_Orientation),
    Correspondence(Device.Present, Cap_Present),
    Correspondence(Device.AngularAcceleration, Cap_AngularAcceleration),
    Correspondence(Device.LinearAcceleration, Cap_LinearAcceleration),
    Correspondence(Device.StageParameters, Cap_StageParameters),
    Correspondence(Device.MountDetection, Cap_MountDetection)
  ]

  const KnownDeviceFlags: Device.CapabilityFlags :=
    Device.Position | Device.Orientation | Device.Present | Device.AngularAcceleration
    | Device.LinearAcceleration | Device.StageParameters | Device.MountDetection

  const KnownWireFlags: bv16 :=
    Cap_Position | Cap_Orientation | Cap_Present | Cap_AngularAcceleration
    | Cap_LinearAcceleration | Cap_StageParameters | Cap_MountDetection

  /** The wire mask for a logical mask: each recognised capability is tested
      on its own and contributes its wire bit; nothing else is ever set. */
  function CapabilityMask(flags: Device.CapabilityFlags): (r: bv16)
    ensures forall k | 0 <= k < |Translation| ::
              (r & Translation[k].wire != 0) <==> (flags & Translation[k].device != 0)
    ensures r & !KnownWireFlags == 0
  {
    (if flags & Device.Position != 0 then Cap_Position else 0)
    | (if flags & Device.Orientation != 0 then Cap_Orientation else 0)
    | (if flags & Device.Present != 0 then Cap_Present else 0)
    | (if flags & Device.AngularAcceleration != 0 then Cap_AngularAcceleration else 0)
    | (if flags & Device.LinearAcceleration != 0 then Cap_LinearAcceleration else 0)
    | (if flags & Device.StageParameters != 0 then Cap_StageParameters else 0)
    | (if flags & Device.MountDetection != 0 then Cap_MountDetection else 0)
  }

  /** Logical bits outside the recognised seven are dropped without trace. */
  lemma UnknownFlagsIgnored(flags: Device.CapabilityFlags)
    ensures CapabilityMask(flags) == CapabilityMask(flags & KnownDeviceFlags)
  {
  }

  /** The correspondence table determines the mask: any wire mask with the
      per-capability property and no stray bits is the mapper's result. */
  lemma MaskDeterminedByTranslation(flags: Device.CapabilityFlags, r: bv16)
    requires forall k | 0 <= k < |Translation| ::
               (r & Translation[k].wire != 0) <==> (flags & Translation[k].device != 0)
    requires r & !KnownWireFlags == 0
    ensures r == CapabilityMask(flags)
  {
    var c := CapabilityMask(flags);
    forall k | 0 <= k < |Translation|
      ensures r & Translation[k].wire == c & Translation[k].wire
    {
    }
    // Both masks lie within the seven wire bits and agree on each of them.
    assert r & Cap_Position == c & Cap_Position by { assert Translation[0].wire == Cap_Position; }
    assert r & Cap_Orientation == c & Cap_Orientation by { assert Translation[1].wire == Cap_Orientation; }
    assert r & Cap_Present == c & Cap_Present by { assert Translation[2].wire == Cap_Present; }
    assert r & Cap_AngularAcceleration == c & Cap_AngularAcceleration by { assert Translation[3].wire == Cap_AngularAcceleration; }
    assert r & Cap_LinearAcceleration == c & Cap_LinearAcceleration by { assert Translation[4].wire == Cap_LinearAcceleration; }
    assert r & Cap_StageParameters == c & Cap_StageParameters by { assert Translation[5].wire == Cap_StageParameters; }
    assert r & Cap_MountDetection == c & Cap_MountDetection by { assert Translation[6].wire == Cap_MountDetection; }
  }
}
