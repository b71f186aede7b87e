# ExternalVR state exchange, modelled in Dafny

This project models the renderer's side of the shared-memory contract between
the VR renderer and the embedded browser engine. In the source this is
`crow::ExternalVR` and its `State`, which has four parts:

- the renderer's mirror of the system state it intends to publish (`system`);
- its last snapshot of the browser engine's state (`browser`);
- the raw capability mask last set (`deviceCapabilities`);
- the shared segment itself (`data`). The segment carries a version/size stamp, two mutexes and the two published regions.

The Dafny modules follow this structure:

- `Wire` holds the segment's record types (display state, sensor state, system state, browser state) and the constants this core relies on. Floating-point payloads are stored as IEEE-754 bit patterns and never computed on.
- `Device` holds the renderer's eye enum and logical capability bits.
- `Capabilities` is the capability mapper. It translates the logical bitmask to the wire bitmask, and a correspondence table serves as its reference definition.
- `CString` models `strlen` and `strncpy` as the display-name setter uses them.
- `Updates` gives each setter's effect on the mirror as a function of the old mirror. It also defines sequences of setter calls and proves the frame-counter and presentation-generation laws over them.
- `ExternalVR` holds the classes, which are updated in place:
  - `Mutex` and the scoped `Lock` guard;
  - the segment `Shmem`;
  - the mirror-owning `State`;
  - `ExternalVR` itself, whose setters, `PushSystemState`, `PullBrowserState`, `StopPresenting` and `IsPresenting` change or read the state.

  Each mutating method is proved to leave the mirror equal to the matching `Updates` function of the old mirror. It also keeps the object invariant `State.Valid()`, which says:
  - the version and size stamps are intact;
  - both mutexes are unlocked between calls and are distinct;
  - every mirror and published copy is `Consistent`: the arrays have their fixed sizes, the sensor-state capability echo equals the display-state flags, and the name buffer is NUL-terminated.

Whether `pthread_mutex_lock` succeeds is decided outside this core. It is an
argument (`acquired`) of `PushSystemState`, `PullBrowserState` and of the
constructor, which publishes once. The methods' frames show that the two
copies touch disjoint regions:
- Push may change only the segment and the system mutex.
- Pull may change only the mirror object and the browser mutex.

After construction the sensor orientation is all zero bits, not the identity
quaternion. `State()` zero-fills the system state (app/src/main/cpp/ExternalVR.cpp:50)
and seeds only the two view matrices with the identity (app/src/main/cpp/ExternalVR.cpp:59-61).

The display name is a sequence of bytes (`Wire.Byte`, an 8-bit value), as the C
`char` buffer and `std::string` hold it, so every length and truncation below
counts bytes.

## Model

| member | source | states |
|---|---|---|
| `Capabilities.CapabilityMask` | app/src/main/cpp/ExternalVR.cpp:92-113 | each of the seven recognised logical capabilities sets its wire bit exactly when it is present in the input (both directions), and no bit outside the seven wire bits is ever set |
| `Capabilities.UnknownFlagsIgnored` | app/src/main/cpp/ExternalVR.cpp:92-113 | logical bits other than the seven recognised ones do not change the wire mask |
| `Capabilities.MaskDeterminedByTranslation` | app/src/main/cpp/ExternalVR.cpp:92-113 | any wire mask that has the per-capability property and no stray bits equals the mapper's result, so the correspondence table fully determines the translation |
| `CString.CLength` | app/src/main/cpp/ExternalVR.cpp:85 | the C length of `aName.c_str()` is the number of bytes before the first NUL (or all of them), and none of those is NUL |
| `CString.StrNCopy` | app/src/main/cpp/ExternalVR.cpp:85-86 | `strncpy` leaves a buffer of the same size whose first n bytes are the source up to its first NUL and NUL after that, with later bytes untouched |
| `Updates.WithDeviceName` | app/src/main/cpp/ExternalVR.cpp:81-88 | an empty name changes nothing; otherwise each of the first NameMaxLen-1 bytes is the name's byte before its NUL or NUL, the last byte is NUL, and only the name buffer changes |
| `Updates.NameStoredAsPrefix` | app/src/main/cpp/ExternalVR.cpp:82-87 | a non-empty NUL-free name is stored as its first min(len, NameMaxLen-1) bytes, followed by NUL to the end of the buffer |
| `Updates.LongNameTruncated` | app/src/main/cpp/ExternalVR.cpp:85-87 | a name of at least NameMaxLen-1 bytes is stored as exactly its first NameMaxLen-1 bytes plus a terminating NUL |
| `Updates.LastNameWins` | app/src/main/cpp/ExternalVR.cpp:85-87 | setting a non-empty name after any other name gives the same state as setting it alone, because no residue of the earlier name survives |
| `Updates.WithCapabilityFlags` | app/src/main/cpp/ExternalVR.cpp:114-116 | the display-state capability field and the sensor-state flags both hold the translated mask, so they are equal, and nothing else in the system state changes |
| `Updates.WithFieldOfView` | app/src/main/cpp/ExternalVR.cpp:124-130 | slot 1 is written when the eye is Right and slot 0 otherwise, with up=top, right=right, down=bottom and left=left; the other eye's record and all other fields are unchanged |
| `Updates.WithEyeOffset` | app/src/main/cpp/ExternalVR.cpp:135-140 | the selected eye's translation (slot 1 for Right, else 0) becomes (x, y, z); the other eye and all other fields are unchanged |
| `Updates.WithEyeResolution` | app/src/main/cpp/ExternalVR.cpp:144-147 | the single shared resolution becomes (width, height); nothing else changes |
| `Updates.WithHeadTransform` | app/src/main/cpp/ExternalVR.cpp:150-155 | inputFrameID advances by exactly one (mod 2^64); orientation and position receive the transform's rotation and translation; nothing else changes |
| `Updates.WithStopPresenting` | app/src/main/cpp/ExternalVR.cpp:180-182 | presentingGeneration advances by exactly one (mod 2^64) and nothing else changes |
| `Updates.Apply` | app/src/main/cpp/ExternalVR.cpp:80-182 | every mirror-changing call keeps the state consistent; only SetHeadTransform moves the frame id; only StopPresenting moves the generation; no call touches the connected/mounted/enumerated flags or the view matrices |
| `Updates.Run` | app/src/main/cpp/ExternalVR.cpp:80-182 | any sequence of calls keeps the state consistent and leaves the flags and view matrices set at construction untouched |
| `Updates.RunAdvancesFrameId` | app/src/main/cpp/ExternalVR.cpp:150-151 | over any sequence of calls, inputFrameID advances by exactly the number of SetHeadTransform calls (mod 2^64) |
| `Updates.RunAdvancesGeneration` | app/src/main/cpp/ExternalVR.cpp:179-182 | over any sequence of calls, presentingGeneration advances by exactly the number of StopPresenting calls (mod 2^64) |
| `Wire.Inc64` | app/src/main/cpp/ExternalVR.cpp:151 | incrementing an unsigned 64-bit counter adds one below the largest value and wraps the largest value to 0 |
| `Wire.ZeroSystemState` | app/src/main/cpp/ExternalVR.cpp:49-51 | the zero-filled system state has the fixed array sizes of the wire layout |
| `Wire.ZeroBrowserState` | app/src/main/cpp/ExternalVR.cpp:51 | the zero-filled browser snapshot is not presenting and its payload is BrowserPayloadSize zero bytes |
| `ExternalVR.Mutex.Init` | app/src/main/cpp/ExternalVR.cpp:54-55 | an initialized mutex is unlocked |
| `ExternalVR.Mutex.Lock` | app/src/main/cpp/ExternalVR.cpp:17 | the lock call reports success exactly when the lock was acquired, and only then is the mutex held |
| `ExternalVR.Mutex.Unlock` | app/src/main/cpp/ExternalVR.cpp:24 | after the unlock call the mutex is unlocked |
| `ExternalVR.Mutex.Destroy` | app/src/main/cpp/ExternalVR.cpp:65-66 | after the destroy call the mutex is destroyed |
| `ExternalVR.Lock.constructor` | app/src/main/cpp/ExternalVR.cpp:16-20 | the guard records whether the lock was acquired and holds the mutex only in that case |
| `ExternalVR.Lock.IsLocked` | app/src/main/cpp/ExternalVR.cpp:28-30 | the guard reports exactly whether its constructor acquired the lock |
| `ExternalVR.Lock.Release` | app/src/main/cpp/ExternalVR.cpp:22-26 | the guard unlocks the mutex if and only if it had locked it |
| `ExternalVR.Shmem.constructor` | app/src/main/cpp/ExternalVR.cpp:49 | a zero-filled segment: zero stamps, zero regions, two distinct uninitialized mutexes |
| `ExternalVR.State.constructor` | app/src/main/cpp/ExternalVR.cpp:48-62 | version and size are stamped; both mutexes are initialized; connected, mounted and enumeration-completed are true; both view matrices are the identity; deviceCapabilities is 0; every other field of mirror and segment is zero |
| `ExternalVR.State.Destroy` | app/src/main/cpp/ExternalVR.cpp:64-67 | both mutexes end destroyed |
| `ExternalVR.ExternalVR.constructor` | app/src/main/cpp/ExternalVR.cpp:184-186 | construction publishes once: the segment's system region equals the mirror if the lock was acquired and is unchanged otherwise |
| `ExternalVR.ExternalVR.Create` | app/src/main/cpp/ExternalVR.cpp:70-73 | a fresh instance has the stamps, flags, identity view matrices and zero fields of construction, and its segment holds the mirror exactly when the first publish took the lock |
| `ExternalVR.ExternalVR.SetDeviceName` | app/src/main/cpp/ExternalVR.cpp:80-88 | the mirror becomes `WithDeviceName` of the old mirror; browser snapshot, raw capabilities and segment are untouched |
| `ExternalVR.ExternalVR.SetCapabilityFlags` | app/src/main/cpp/ExternalVR.cpp:90-117 | the step-by-step OR of wire bits yields `CapabilityMask`; deviceCapabilities holds the raw input; the mirror becomes `WithCapabilityFlags` of the old one |
| `ExternalVR.ExternalVR.SetFieldOfView` | app/src/main/cpp/ExternalVR.cpp:119-131 | the mirror becomes `WithFieldOfView` of the old mirror; nothing else changes |
| `ExternalVR.ExternalVR.SetEyeOffset` | app/src/main/cpp/ExternalVR.cpp:133-141 | the mirror becomes `WithEyeOffset` of the old mirror; nothing else changes |
| `ExternalVR.ExternalVR.SetEyeResolution` | app/src/main/cpp/ExternalVR.cpp:143-147 | the mirror becomes `WithEyeResolution` of the old mirror; nothing else changes |
| `ExternalVR.ExternalVR.SetHeadTransform` | app/src/main/cpp/ExternalVR.cpp:149-156 | the mirror becomes `WithHeadTransform` of the old mirror (frame id advanced by one); nothing else changes |
| `ExternalVR.ExternalVR.PushSystemState` | app/src/main/cpp/ExternalVR.cpp:158-164 | with the system lock acquired, the segment's system region becomes the mirror; otherwise it is unchanged. The browser region, the stamps, the mirror and the browser mutex are never touched, and the system mutex is released again |
| `ExternalVR.ExternalVR.PullBrowserState` | app/src/main/cpp/ExternalVR.cpp:166-172 | with the browser lock acquired, the browser snapshot becomes the segment's browser region; otherwise it is unchanged. The system mirror, the raw capabilities, the segment and the system mutex are never touched, and the browser mutex is released again |
| `ExternalVR.ExternalVR.IsPresenting` | app/src/main/cpp/ExternalVR.cpp:174-177 | the query always answers false |
| `ExternalVR.ExternalVR.StopPresenting` | app/src/main/cpp/ExternalVR.cpp:179-182 | the mirror becomes `WithStopPresenting` of the old mirror (generation advanced by one); nothing else changes |
| `ExternalVR.PublishScenario` | app/src/main/cpp/ExternalVR.cpp:143-164 | after create, SetEyeResolution(1024, 1024), SetFieldOfView(Right, 45, 45, 45, 45) and a publish that takes the lock, the segment holds resolution 1024x1024, the right eye's field of view is 45 degrees on every edge, and the left eye is still zero |
| `ExternalVR.SkippedPublishCatchesUp` | app/src/main/cpp/ExternalVR.cpp:158-164 | a publish that cannot lock leaves the segment stale; the next successful publish carries every update made in between |

## Left out

- GeckoSurfaceTexture.cpp/.h, SettingsWidget.java, ComponentsAdapter.kt, GleanHttpClient.kt and WidgetPlacement.java are not part of this model. They hold host-runtime bindings, UI and network code.
- `IsFrameReady` is declared in ExternalVR.h but has no definition in the source, so it is not modelled.
- `GetSharedData` only returns the address of the segment. In the model the segment is the field `m.data` of the instance.
- The values of kVRExternalVersion and sizeof(VRExternalShmem) come from a header that is not part of this model. They are uninterpreted constants (`Wire.ExternalVersion`, `Wire.ShmemSize`).
- The values of the logical capability bits (the `device` namespace header) are not part of this model either. The model uses distinct single bits, and its proofs depend only on that.
- The widths of the wire fields come from Gecko's VRExternalShmem layout, whose header is not part of this model: `inputFrameID` and `presentingGeneration` are unsigned 64-bit (`Wire.uint64`), and the resolution and the version stamp are `int32`. The mod 2^64 results of `Updates.WithHeadTransform`, `Updates.WithStopPresenting`, `Updates.RunAdvancesFrameId` and `Updates.RunAdvancesGeneration` depend on that width.
- kVRDisplayNameMaxLen is taken as 256, and the wire capability bits as Gecko's VRDisplayCapabilityFlags.
- Byte layout is not modelled: `memset` and `memcpy` sizes and `sizeof`. Zero-filling is a zero record, and each `memcpy` is a whole-record assignment.
- Consumer-owned fields of VRBrowserState other than `isPresenting` are carried as an uninterpreted byte payload, which this core only copies.
- Floating-point arithmetic is not modelled. `vrb::Quaternion(aTransform)` and `aTransform.GetTranslation()` are uninterpreted functions (`Updates.OrientationOf`, `Updates.TranslationOf`). So nothing is proved about the pose values beyond where they are stored.
- Cross-process concurrency is not modelled. The browser engine's reads and writes of the segment are outside the model, and so is the blocking behaviour of pthread mutexes. Only the success or failure of each lock attempt is modelled, as an argument.
- ExternalVR.Mutex.Lock: does not model waiting for the other side to release the mutex. A call either acquires it or reports failure, as decided by its argument.
- ExternalVR.State.Destroy: the source leaves it to the caller to quiesce both sides first. The model requires the invariant (both mutexes unlocked) instead.
- `device::Eye` is modelled as a two-value datatype. A C++ enum value outside Left/Right is not representable; such a value would select slot 0, as Left does.
