/*
 * The renderer's side of the shared-memory exchange with the browser
 * engine: the process-local mirror (`State`), the shared segment it owns,
 * the two mutexes guarding the segment's regions, the scoped `Lock` guard,
 * and the `ExternalVR` object whose methods update the mirror and copy
 * between mirror and segment.
 *
 * Whether pthread_mutex_lock succeeds is decided outside this core (by the
 * other side of the segment and the platform), so it enters as the
 * `acquired` argument of the operations that take a lock.
 */
module ExternalVR {
  import opened Wire
  import Device
  import opened Capabilities
  import opened CString
  import opened Updates

  datatype MutexState = Uninitialized | Unlocked | Locked | Destroyed

  /** A pthread mutex embedded in the shared segment. */
  class Mutex {
    var state: MutexState

    /** Zero-filled memory: not yet initialized. */
    constructor ()
      ensures state == Uninitialized
    {
      state := Uninitialized;
    }

    /** pthread_mutex_init */
    method Init()
      modifies this
      ensures state == Unlocked
    {
      state := Unlocked;
    }

    /** pthread_mutex_lock, which returns 0 exactly when `acquired`. */
    method Lock(acquired: bool) returns (ok: bool)
      modifies this
      ensures ok == acquired
      ensures state == if acquired then Locked else old(state)
    {
      ok := acquired;
      if ok {
        state := Locked;
      }
    }

    /** pthread_mutex_unlock */
    method Unlock()
      modifies this
      ensures state == Unlocked
    {
      state := Unlocked;
    }

    /** pthread_mutex_destroy */
    method Destroy()
      modifies this
      ensures state == Destroyed
    {
      state := Destroyed;
    }
  }

  /** The scoped guard: locks on construction, records whether that worked,
      and unlocks on release only if it did. */
  class Lock {
    const mutex: Mutex
    var locked: bool

    constructor (m: Mutex, acquired: bool)
      modifies m
      ensures mutex == m && locked == acquired
      ensures m.state == if acquired then Locked else old(m.state)
    {
      mutex := m;
      locked := false;
      new;
      var ok := m.Lock(acquired);
      if ok {
        locked := true;
      }
    }

    /** Whether the guard holds its mutex. */
    predicate IsLocked(): (held: bool)
      reads this
      ensures held == locked
    {
      locked
    }

    /** The guard's destructor, run on every exit from the guarded scope. */
    method Release()
      modifies mutex
      ensures mutex.state == if locked then Unlocked else old(mutex.state)
    {
      if locked {
        mutex.Unlock();
      }
    }
  }

  /** VRExternalShmem: the segment both processes map. */
  class Shmem {
    var version: int32
    var size: nat
    const systemMutex: Mutex
    const browserMutex: Mutex
    /** The published system state (region guarded by systemMutex). */
    var state: SystemState
    /** The browser engine's state (region guarded by browserMutex). */
    var browserState: BrowserState

    /** Zero-filled memory. */
    constructor ()
      ensures version == 0 && size == 0
      ensures state == ZeroSystemState() && browserState == ZeroBrowserState()
      ensures fresh(systemMutex) && fresh(browserMutex) && systemMutex != browserMutex
      ensures systemMutex.state == Uninitialized && browserMutex.state == Uninitialized
    {
      version, size := 0, 0;
      systemMutex := new Mutex();
      browserMutex := new Mutex();
      state := ZeroSystemState();
      browserState := ZeroBrowserState();
    }
  }

  /** ExternalVR::State: the mirror and the segment it owns. */
  class State {
    const data: Shmem
    /** What the renderer intends to publish. */
    var system: SystemState
    /** The last snapshot of what the browser engine wrote. */
    var browser: BrowserState
    /** The raw capability mask last set. */
    var deviceCapabilities: Device.CapabilityFlags

    ghost predicate Valid()
      reads this, data, data.systemMutex, data.browserMutex
    {
      && data.systemMutex != data.browserMutex
      && data.version == ExternalVersion && data.size == ShmemSize
      && data.systemMutex.state == Unlocked && data.browserMutex.state == Unlocked
      && Consistent(system) && Consistent(data.state)
    }

    constructor ()
      ensures Valid()
      ensures fresh(data) && fresh(data.systemMutex) && fresh(data.browserMutex)
      ensures deviceCapabilities == 0
      ensures browser == ZeroBrowserState() && data.browserState == ZeroBrowserState()
      ensures data.state == ZeroSystemState()
      ensures system.displayState.isConnected && system.displayState.isMounted && system.enumerationCompleted
      ensures system.sensorState.leftViewMatrix == IdentityMatrix
      ensures system.sensorState.rightViewMatrix == IdentityMatrix
      // every other field of the mirror is zero
      ensures system.(displayState := system.displayState.(isConnected := false, isMounted := false),
                      sensorState := system.sensorState.(leftViewMatrix := ZeroMatrix, rightViewMatrix := ZeroMatrix),
                      enumerationCompleted := false)
              == ZeroSystemState()
    {
      deviceCapabilities := 0;
      data := new Shmem();
      system := ZeroSystemState();
      browser := ZeroBrowserState();
      new;
      data.version := ExternalVersion;
      data.size := ShmemSize;
      data.systemMutex.Init();
      data.browserMutex.Init();
      system := system.(displayState := system.displayState.(isConnected := true));
      system := system.(displayState := system.displayState.(isMounted := true));
      system := system.(enumerationCompleted := true);
      system := system.(sensorState := system.sensorState.(leftViewMatrix := IdentityMatrix));
      system := system.(sensorState := system.sensorState.(rightViewMatrix := IdentityMatrix));
    }

    /** ~State: destroys both mutexes. No side may be holding them. */
    method Destroy()
      requires Valid()
      modifies data.systemMutex, data.browserMutex
      ensures data.systemMutex.state == Destroyed && data.browserMutex.state == Destroyed
    {
      data.systemMutex.Destroy();
      data.browserMutex.Destroy();
    }
  }

  class ExternalVR {
    const m: State

    /** Binds to a State and publishes it once, so that a browser engine
        attaching later finds a complete state rather than zeroes. */
    constructor (state: State, acquired: bool)
      requires state.Valid()
      modifies state.data, state.data.systemMutex
      ensures m == state && m.Valid()
      ensures state.data.state == if acquired then state.system else old(state.data.state)
      ensures state.data.browserState == old(state.data.browserState)
    {
      m := state;
      new;
      PushSystemState(acquired);
    }

    /** ExternalVR::Create: a new State and the ExternalVR bound to it.
        `acquired` is the outcome of the constructor's one publish. */
    static method Create(acquired: bool) returns (vr: ExternalVR)
      ensures fresh(vr) && fresh(vr.m) && fresh(vr.m.data)
      ensures fresh(vr.m.data.systemMutex) && fresh(vr.m.data.browserMutex)
      ensures vr.m.Valid()
      ensures vr.m.data.version == ExternalVersion && vr.m.data.size == ShmemSize
      ensures vr.m.deviceCapabilities == 0
      ensures vr.m.system.displayState.isConnected && vr.m.system.displayState.isMounted
      ensures vr.m.system.enumerationCompleted
      ensures vr.m.system.sensorState.leftViewMatrix == IdentityMatrix
      ensures vr.m.system.sensorState.rightViewMatrix == IdentityMatrix
      ensures vr.m.system.(displayState := vr.m.system.displayState.(isConnected := false, isMounted := false),
                           sensorState := vr.m.system.sensorState.(leftViewMatrix := ZeroMatrix, rightViewMatrix := ZeroMatrix),
                           enumerationCompleted := false)
              == ZeroSystemState()
      ensures vr.m.data.state == if acquired then vr.m.system else ZeroSystemState()
      ensures vr.m.browser == ZeroBrowserState() && vr.m.data.browserState == ZeroBrowserState()
    {
      var state := new State();
      vr := new ExternalVR(state, acquired);
    }

    method SetDeviceName(name: seq<Byte>)
      requires m.Valid()
      modifies m
      ensures m.Valid()
      ensures m.system == WithDeviceName(old(m.system), name)
      ensures m.browser == old(m.browser) && m.deviceCapabilities == old(m.deviceCapabilities)
    {
      if |name| == 0 {
        return;
      }
      var buffer := StrNCopy(m.system.displayState.displayName, name, NameMaxLen - 1);
      buffer := buffer[NameMaxLen - 1 := NUL];
      m.system := m.system.(displayState := m.system.displayState.(displayName := buffer));
    }

    method SetCapabilityFlags(flags: Device.CapabilityFlags)
      requires m.Valid()
      modifies m
      ensures m.Valid()
      ensures m.deviceCapabilities == flags
      ensures m.system == WithCapabilityFlags(old(m.system), flags)
      ensures m.browser == old(m.browser)
    {
      var result: bv16 := 0;
      if Device.Position & flags != 0 {
        result := result | Cap_Position;
      }
      if Device.Orientation & flags != 0 {
        result := result | Cap_Orientation;
      }
      if Device.Present & flags != 0 {
        result := result | Cap_Present;
      }
      if Device.AngularAcceleration & flags != 0 {
        result := result | Cap_AngularAcceleration;
      }
      if Device.LinearAcceleration & flags != 0 {
        result := result | Cap_LinearAcceleration;
      }
      if Device.StageParameters & flags != 0 {
        result := result | Cap_StageParameters;
      }
      if Device.MountDetection & flags != 0 {
        result := result | Cap_MountDetection;
      }
      m.deviceCapabilities := flags;
      m.system := m.system.(displayState := m.system.displayState.(capabilityFlags := result));
      m.system := m.system.(sensorState := m.system.sensorState.(flags := m.system.displayState.capabilityFlags));
    }

    method SetFieldOfView(eye: Device.Eye, left: Float64, right: Float64, top: Float64, bottom: Float64)
      requires m.Valid()
      modifies m
      ensures m.Valid()
      ensures m.system == WithFieldOfView(old(m.system), eye, left, right, top, bottom)
      ensures m.browser == old(m.browser) && m.deviceCapabilities == old(m.deviceCapabilities)
    {
      var which := EyeIndex(eye);
      var fov := m.system.displayState.eyeFov[which];
      fov := fov.(upDegrees := top);
      fov := fov.(rightDegrees := right);
      fov := fov.(downDegrees := bottom);
      fov := fov.(leftDegrees := left);
      m.system := m.system.(displayState := m.system.displayState.(eyeFov := m.system.displayState.eyeFov[which := fov]));
    }

    method SetEyeOffset(eye: Device.Eye, x: Float32, y: Float32, z: Float32)
      requires m.Valid()
      modifies m
      ensures m.Valid()
      ensures m.system == WithEyeOffset(old(m.system), eye, x, y, z)
      ensures m.browser == old(m.browser) && m.deviceCapabilities == old(m.deviceCapabilities)
    {
      var which := EyeIndex(eye);
      var offset := m.system.displayState.eyeTranslation[which];
      offset := offset.(x := x);
      offset := offset.(y := y);
      offset := offset.(z := z);
      m.system := m.system.(displayState := m.system.displayState.(eyeTranslation := m.system.displayState.eyeTranslation[which := offset]));
    }

    method SetEyeResolution(width: int32, height: int32)
      requires m.Valid()
      modifies m
      ensures m.Valid()
      ensures m.system == WithEyeResolution(old(m.system), width, height)
      ensures m.browser == old(m.browser) && m.deviceCapabilities == old(m.deviceCapabilities)
    {
      m.system := m.system.(displayState := m.system.displayState.(eyeResolution := m.system.displayState.eyeResolution.(width := width)));
      m.system := m.system.(displayState := m.system.displayState.(eyeResolution := m.system.displayState.eyeResolution.(height := height)));
    }

    method SetHeadTransform(transform: Matrix)
      requires m.Valid()
      modifies m
      ensures m.Valid()
      ensures m.system == WithHeadTransform(old(m.system), transform)
      ensures m.browser == old(m.browser) && m.deviceCapabilities == old(m.deviceCapabilities)
    {
      m.system := m.system.(sensorState := m.system.sensorState.(inputFrameID := Inc64(m.system.sensorState.inputFrameID)));
      m.system := m.system.(sensorState := m.system.sensorState.(orientation := OrientationOf(transform)));
      m.system := m.system.(sensorState := m.system.sensorState.(position := TranslationOf(transform)));
    }

    /** Copies the whole mirror into the segment's system region, if the
        system mutex was acquired; the mutex is released on the way out. */
    method PushSystemState(acquired: bool)
      requires m.Valid()
      modifies m.data, m.data.systemMutex
      ensures m.Valid()
      ensures m.data.state == if acquired then m.system else old(m.data.state)
      ensures m.data.browserState == old(m.data.browserState)
      ensures m.data.version == old(m.data.version) && m.data.size == old(m.data.size)
    {
      var lock := new Lock(m.data.systemMutex, acquired);
      if lock.IsLocked() {
        m.data.state := m.system;
      }
      lock.Release();
    }

    /** Copies the segment's browser region into the mirror, if the browser
        mutex was acquired; the mutex is released on the way out. */
    method PullBrowserState(acquired: bool)
      requires m.Valid()
      modifies m, m.data.browserMutex
      ensures m.Valid()
      ensures m.browser == if acquired then m.data.browserState else old(m.browser)
      ensures m.system == old(m.system) && m.deviceCapabilities == old(m.deviceCapabilities)
    {
      var lock := new Lock(m.data.browserMutex, acquired);
      if lock.IsLocked() {
        m.browser := m.data.browserState;
      }
      lock.Release();
    }

    /** The presentation query is disabled: it always answers false. */
    function IsPresenting(): (presenting: bool)
      ensures !presenting
    {
      false
    }

    method StopPresenting()
      requires m.Valid()
      modifies m
      ensures m.Valid()
      ensures m.system == WithStopPresenting(old(m.system))
      ensures m.browser == old(m.browser) && m.deviceCapabilities == old(m.deviceCapabilities)
    {
      m.system := m.system.(displayState := m.system.displayState.(presentingGeneration := Inc64(m.system.displayState.presentingGeneration)));
    }
  }

  /** The bit pattern of 45.0 as a double. */
  const Degrees45: Float64 := 0x4046_8000_0000_0000

  /** Create, set the resolution and the right eye's field of view, publish
      with the lock acquired: the segment then carries both settings. */
  method PublishScenario() returns (resolution: Resolution, rightFov: Fov, leftFov: Fov)
    ensures resolution == Resolution(1024, 1024)
    ensures rightFov == Fov(Degrees45, Degrees45, Degrees45, Degrees45)
    ensures leftFov == ZeroFov
  {
    var vr := ExternalVR.Create(true);
    vr.SetEyeResolution(1024, 1024);
    vr.SetFieldOfView(Device.Right, Degrees45, Degrees45, Degrees45, Degrees45);
    vr.PushSystemState(true);
    resolution := vr.m.data.state.displayState.eyeResolution;
    rightFov := vr.m.data.state.displayState.eyeFov[1];
    leftFov := vr.m.data.state.displayState.eyeFov[0];
  }

  /** A publish that could not take the lock leaves the segment stale; the
      next publish that does take it carries every change made meanwhile. */
  method SkippedPublishCatchesUp() returns (staleFrame: uint64, publishedFrame: uint64)
    ensures staleFrame == 0 && publishedFrame == 2
  {
    var vr := ExternalVR.Create(true);
    vr.SetHeadTransform(IdentityMatrix);
    vr.PushSystemState(false);
    staleFrame := vr.m.data.state.sensorState.inputFrameID;
    vr.SetHeadTransform(IdentityMatrix);
    vr.PushSystemState(true);
    publishedFrame := vr.m.data.state.sensorState.inputFrameID;
  }
}
