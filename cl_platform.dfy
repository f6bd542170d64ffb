/** OpenCL platforms and devices (`_oclPlatfrom`, `_oclDevice`,
    `_oclCommandQue` and the static registry `oclUtil`, oclUtil.h and
    oclUtil.cpp): once-only enumeration, the filter for platforms that can
    share the current GL context, once-only context creation and the choice
    of the default device. */
module ClPlatform {

  import opened Drivers
  import opened GlUtil
  import opened ClMem

  /** A device (`_oclDevice`): its id and the three strings queried for it. */
  datatype Device = Device(dID: nat, name: string, vendor: string, profile: string)

  function DeviceOf(text: Call -> string, dID: nat): Device
  {
    Device(dID, text(ClGetDeviceInfo(dID, CL_DEVICE_NAME)), text(ClGetDeviceInfo(dID, CL_DEVICE_VENDOR)),
           text(ClGetDeviceInfo(dID, CL_DEVICE_PROFILE)))
  }

  /** The three queries the `_oclDevice` constructor issues per device. */
  function DeviceCalls(ids: seq<nat>): seq<Call>
  {
    if ids == [] then []
    else DeviceCalls(ids[..|ids| - 1])
         + [ClGetDeviceInfo(ids[|ids| - 1], CL_DEVICE_NAME), ClGetDeviceInfo(ids[|ids| - 1], CL_DEVICE_VENDOR),
            ClGetDeviceInfo(ids[|ids| - 1], CL_DEVICE_PROFILE)]
  }

  /** One `_oclDevice` per id, in the order the driver lists them. */
  method QueryDevices(drv: Driver, ids: seq<nat>) returns (devs: seq<Device>)
    modifies drv
    ensures |devs| == |ids|
    ensures forall i :: 0 <= i < |ids| ==> devs[i] == DeviceOf(drv.text, ids[i])
    ensures drv.calls == old(drv.calls) + DeviceCalls(ids)
  {
    devs := [];
    var i := 0;
    while i < |ids|
      invariant 0 <= i <= |ids|
      invariant |devs| == i
      invariant forall j :: 0 <= j < i ==> devs[j] == DeviceOf(drv.text, ids[j])
      invariant drv.calls == old(drv.calls) + DeviceCalls(ids[..i])
    {
      var d := ids[i];
      var _ := drv.Issue(ClGetDeviceInfo(d, CL_DEVICE_NAME));
      var _ := drv.Issue(ClGetDeviceInfo(d, CL_DEVICE_VENDOR));
      var _ := drv.Issue(ClGetDeviceInfo(d, CL_DEVICE_PROFILE));
      devs := devs + [DeviceOf(drv.text, d)];
      assert ids[..i + 1][..i] == ids[..i];
      i := i + 1;
    }
    assert ids[..i] == ids;
  }

  /** What the `_oclPlatfrom` constructor issues: the name and version
      queries, the default device, then the device count and the device
      list. */
  function PlatformCalls(list: Call -> seq<nat>, pID: nat): seq<Call>
  {
    [ClGetPlatformInfo(pID, CL_PLATFORM_NAME), ClGetPlatformInfo(pID, CL_PLATFORM_VERSION),
     ClGetDeviceIDs(pID, CL_DEVICE_TYPE_DEFAULT), ClGetDeviceIDs(pID, CL_DEVICE_TYPE_ALL),
     ClGetDeviceIDs(pID, CL_DEVICE_TYPE_ALL)]
    + DeviceCalls(list(ClGetDeviceIDs(pID, CL_DEVICE_TYPE_ALL)))
  }

  /** The queries of the `_oclPlatfrom` constructor, in order, and what they
      report. */
  method QueryPlatform(drv: Driver, pID: nat) returns (name: string, ver: string, devs: seq<Device>)
    modifies drv
    ensures name == drv.text(ClGetPlatformInfo(pID, CL_PLATFORM_NAME))
    ensures ver == drv.text(ClGetPlatformInfo(pID, CL_PLATFORM_VERSION))
    ensures |devs| == |drv.list(ClGetDeviceIDs(pID, CL_DEVICE_TYPE_ALL))|
    ensures forall i :: 0 <= i < |devs| ==> devs[i] == DeviceOf(drv.text, drv.list(ClGetDeviceIDs(pID, CL_DEVICE_TYPE_ALL))[i])
    ensures drv.calls == old(drv.calls) + PlatformCalls(drv.list, pID)
  {
    ghost var c0 := drv.calls;
    var _ := drv.Issue(ClGetPlatformInfo(pID, CL_PLATFORM_NAME));
    var _ := drv.Issue(ClGetPlatformInfo(pID, CL_PLATFORM_VERSION));
    var _ := drv.Issue(ClGetDeviceIDs(pID, CL_DEVICE_TYPE_DEFAULT));
    var _ := drv.Issue(ClGetDeviceIDs(pID, CL_DEVICE_TYPE_ALL));
    var _ := drv.Issue(ClGetDeviceIDs(pID, CL_DEVICE_TYPE_ALL));
    ghost var c1 := drv.calls;
    assert c1 == c0 + PlatformCalls(drv.list, pID)[..5];
    var ids := drv.list(ClGetDeviceIDs(pID, CL_DEVICE_TYPE_ALL));
    devs := QueryDevices(drv, ids);
    assert PlatformCalls(drv.list, pID) == PlatformCalls(drv.list, pID)[..5] + DeviceCalls(ids);
    name := drv.text(ClGetPlatformInfo(pID, CL_PLATFORM_NAME));
    ver := drv.text(ClGetPlatformInfo(pID, CL_PLATFORM_VERSION));
  }

  /** The default device after a scan of `devs` that starts from `prev`:
      every device whose id is `id` replaces the current choice. */
  function LastMatching(devs: seq<Device>, id: nat, prev: Option<Device>): Option<Device>
  {
    if devs == [] then prev
    else if devs[|devs| - 1].dID == id then Some(devs[|devs| - 1])
    else LastMatching(devs[..|devs| - 1], id, prev)
  }

  lemma {:induction false} LastMatchingNone(devs: seq<Device>, id: nat, prev: Option<Device>)
    requires forall j :: 0 <= j < |devs| ==> devs[j].dID != id
    ensures LastMatching(devs, id, prev) == prev
  {
    if devs != [] {
      var init := devs[..|devs| - 1];
      assert forall j :: 0 <= j < |init| ==> init[j] == devs[j];
      LastMatchingNone(init, id, prev);
    }
  }

  lemma {:induction false} LastMatchingAt(devs: seq<Device>, id: nat, prev: Option<Device>, j: nat)
    requires j < |devs| && devs[j].dID == id
    requires forall k :: j < k < |devs| ==> devs[k].dID != id
    ensures LastMatching(devs, id, prev) == Some(devs[j])
  {
    if j < |devs| - 1 {
      var init := devs[..|devs| - 1];
      assert forall k :: 0 <= k < |init| ==> init[k] == devs[k];
      LastMatchingAt(init, id, prev, j);
    }
  }

  /** The scan keeps the previous choice when no device matches, and
      otherwise picks the last matching device. */
  lemma LastMatchingIsLast(devs: seq<Device>, id: nat, prev: Option<Device>)
    ensures (forall j :: 0 <= j < |devs| ==> devs[j].dID != id) ==> LastMatching(devs, id, prev) == prev
    ensures forall j :: 0 <= j < |devs| && devs[j].dID == id && (forall k :: j < k < |devs| ==> devs[k].dID != id)
                        ==> LastMatching(devs, id, prev) == Some(devs[j])
  {
    if forall j :: 0 <= j < |devs| ==> devs[j].dID != id {
      LastMatchingNone(devs, id, prev);
    }
    forall j | 0 <= j < |devs| && devs[j].dID == id && (forall k :: j < k < |devs| ==> devs[k].dID != id)
      ensures LastMatching(devs, id, prev) == Some(devs[j])
    {
      LastMatchingAt(devs, id, prev, j);
    }
  }

  /** `_oclPlatfrom`. `context` is 0 until a context is created. */
  class Platform {
    var isFirst: bool
    const pID: nat
    var defDevID: nat
    var context: nat
    var devs: seq<Device>
    var defDev: Option<Device>
    var name: string
    var ver: string

    /** A new platform: nothing is created yet (`isFirst` holds), the default
        device id is the first default-type device and `devs` holds every
        device of the platform. */
    constructor (drv: Driver, pID: nat)
      modifies drv
      ensures isFirst && this.pID == pID && context == 0 && defDev == None
      ensures name == drv.text(ClGetPlatformInfo(pID, CL_PLATFORM_NAME))
      ensures ver == drv.text(ClGetPlatformInfo(pID, CL_PLATFORM_VERSION))
      ensures defDevID == FirstId(drv.list(ClGetDeviceIDs(pID, CL_DEVICE_TYPE_DEFAULT)))
      ensures |devs| == |drv.list(ClGetDeviceIDs(pID, CL_DEVICE_TYPE_ALL))|
      ensures forall i :: 0 <= i < |devs| ==> devs[i] == DeviceOf(drv.text, drv.list(ClGetDeviceIDs(pID, CL_DEVICE_TYPE_ALL))[i])
      ensures drv.calls == old(drv.calls) + PlatformCalls(drv.list, pID)
    {
      var n, v, ds := QueryPlatform(drv, pID);
      isFirst := true;
      this.pID := pID;
      defDevID := FirstId(drv.list(ClGetDeviceIDs(pID, CL_DEVICE_TYPE_DEFAULT)));
      context := 0;
      devs := ds;
      defDev := None;
      name, ver := n, v;
    }

    /** The loop shared by `init` and `glInit`. */
    method SelectDefault()
      modifies this`defDev
      ensures defDev == LastMatching(devs, defDevID, old(defDev))
    {
      var i := 0;
      while i < |devs|
        invariant 0 <= i <= |devs|
        invariant defDev == LastMatching(devs[..i], defDevID, old(defDev))
      {
        if devs[i].dID == defDevID {
          defDev := Some(devs[i]);
        }
        assert devs[..i + 1][..i] == devs[..i];
        i := i + 1;
      }
      assert devs[..i] == devs;
    }

    /** `init`: the first call creates a context on the default device and
        picks the default device; every later call does nothing. */
    method Init(drv: Driver)
      modifies this`isFirst, this`context, this`defDev, drv
      ensures !isFirst
      ensures !old(isFirst) ==> drv.calls == old(drv.calls) && context == old(context) && defDev == old(defDev)
      ensures old(isFirst) ==> drv.calls == old(drv.calls) + [ClCreateContext(pID, defDevID, false)]
      ensures old(isFirst) ==> context == drv.handle(ClCreateContext(pID, defDevID, false), |old(drv.calls)|)
      ensures old(isFirst) ==> defDev == LastMatching(devs, defDevID, old(defDev))
    {
      if !isFirst {
        return;
      }
      context := drv.Create(ClCreateContext(pID, defDevID, false));
      isFirst := false;
      SelectDefault();
    }

    /** `glInit`: unlike `init`, always creates a context, one that shares
        the current GL context, and picks the default device again. */
    method GlInit(drv: Driver)
      modifies this`isFirst, this`context, this`defDev, drv
      ensures !isFirst
      ensures drv.calls == old(drv.calls) + [ClCreateContext(pID, defDevID, true)]
      ensures context == drv.handle(ClCreateContext(pID, defDevID, true), |old(drv.calls)|)
      ensures defDev == LastMatching(devs, defDevID, old(defDev))
    {
      context := drv.Create(ClCreateContext(pID, defDevID, true));
      isFirst := false;
      SelectDefault();
    }

    /** `createMem` for a GL buffer: a read-write interop object, or null
        when the driver refuses. */
    method CreateBufferMem(drv: Driver, buf: GlBuffer) returns (m: Option<Mem>)
      modifies drv
      ensures drv.calls == old(drv.calls) + [ClCreateFromGLBuffer(context, CL_MEM_READ_WRITE, buf.bID)]
      ensures m.Some? <==> drv.status(ClCreateFromGLBuffer(context, CL_MEM_READ_WRITE, buf.bID)) == CL_SUCCESS
      ensures m.Some? ==> m.value == Mem(ReadWrite, true, drv.handle(ClCreateFromGLBuffer(context, CL_MEM_READ_WRITE, buf.bID),
                                                                       |old(drv.calls)|), INTEROP_SIZE)
    {
      var o := NewBufferMem(drv, context, ReadWrite, buf);
      m := Caught(o);
    }

    /** `createMem` for a GL texture. */
    method CreateTextureMem(drv: Driver, tex: GlTexture) returns (m: Option<Mem>)
      modifies drv
      ensures drv.calls == old(drv.calls) + [ClCreateFromGLTexture(context, CL_MEM_READ_WRITE, TexTargetOf(tex.texType), 0, tex.tID)]
      ensures m.Some? <==> drv.status(ClCreateFromGLTexture(context, CL_MEM_READ_WRITE, TexTargetOf(tex.texType), 0, tex.tID)) == CL_SUCCESS
      ensures m.Some? ==> m.value.isGL && m.value.memType == ReadWrite && m.value.size == INTEROP_SIZE
      ensures m.Some? ==> m.value.memID == drv.handle(ClCreateFromGLTexture(context, CL_MEM_READ_WRITE, TexTargetOf(tex.texType), 0, tex.tID),
                                                      |old(drv.calls)|)
    {
      var o := NewTextureMem(drv, context, ReadWrite, tex);
      m := Caught(o);
    }

    /** `createMem` for a device-private buffer of `size` bytes. */
    method CreateDeviceMem(drv: Driver, t: MemType, size: nat) returns (m: Option<Mem>)
      modifies drv
      ensures drv.calls == old(drv.calls) + [ClCreateBuffer(context, MemFlags(t), size)]
      ensures m.Some? <==> drv.status(ClCreateBuffer(context, MemFlags(t), size)) == CL_SUCCESS
      ensures m.Some? ==> !m.value.isGL && m.value.memType == t && m.value.size == size
      ensures m.Some? ==> m.value.memID == drv.handle(ClCreateBuffer(context, MemFlags(t), size), |old(drv.calls)|)
    {
      var o := NewDeviceMem(drv, context, t, size);
      m := Caught(o);
    }
  }

  function PlatformIDs(ps: seq<Platform>): (ids: seq<nat>)
    ensures |ids| == |ps|
    ensures forall i :: 0 <= i < |ps| ==> ids[i] == ps[i].pID
  {
    seq(|ps|, i requires 0 <= i < |ps| => ps[i].pID)
  }

  /** The calls the constructors of a run of platforms issue. */
  function AllPlatformCalls(list: Call -> seq<nat>, ids: seq<nat>): seq<Call>
  {
    if ids == [] then []
    else AllPlatformCalls(list, ids[..|ids| - 1]) + PlatformCalls(list, ids[|ids| - 1])
  }

  function GlContextCall(pID: nat): Call
  {
    ClGetGLContextInfo(pID, CL_CURRENT_DEVICE_FOR_GL_CONTEXT_KHR)
  }

  /** The platforms, in order, whose GL-context query succeeds. */
  function InteropIDs(status: Call -> int, ids: seq<nat>): seq<nat>
  {
    if ids == [] then []
    else InteropIDs(status, ids[..|ids| - 1])
         + (if status(GlContextCall(ids[|ids| - 1])) == CL_SUCCESS then [ids[|ids| - 1]] else [])
  }

  /** The filter keeps exactly the platforms that can share the GL context. */
  lemma {:induction false} InteropIDsMembers(status: Call -> int, ids: seq<nat>)
    ensures |InteropIDs(status, ids)| <= |ids|
    ensures forall x :: x in InteropIDs(status, ids) <==> x in ids && status(GlContextCall(x)) == CL_SUCCESS
  {
    if ids != [] {
      var init := ids[..|ids| - 1];
      InteropIDsMembers(status, init);
      assert ids == init + [ids[|ids| - 1]];
    }
  }

  /** The filter is stable: filtering a concatenation concatenates the
      filtered parts, so the platforms keep their registry order. */
  lemma {:induction false} InteropIDsAppend(status: Call -> int, a: seq<nat>, b: seq<nat>)
    ensures InteropIDs(status, a + b) == InteropIDs(status, a) + InteropIDs(status, b)
    decreases |b|
  {
    if b == [] {
      assert a + b == a;
    } else {
      var b' := b[..|b| - 1];
      assert (a + b)[..|a + b| - 1] == a + b';
      assert (a + b)[|a + b| - 1] == b[|b| - 1];
      InteropIDsAppend(status, a, b');
    }
  }

  lemma PlatformIDsSnoc(ps: seq<Platform>, p: Platform)
    ensures PlatformIDs(ps + [p]) == PlatformIDs(ps) + [p.pID]
  {
  }

  /** The device the GL-context query of platform `pID` reports. */
  function GlDevice(list: Call -> seq<nat>, pID: nat): nat
  {
    FirstId(list(GlContextCall(pID)))
  }

  /** What one step of the loop of `getGLinterOPPlatforms` issues: the
      GL-context query and, when it succeeds, the constructor's queries and
      the creation of a context that shares GL on the reported device. */
  function GlPlatformCalls(status: Call -> int, list: Call -> seq<nat>, pID: nat): seq<Call>
  {
    [GlContextCall(pID)]
    + (if status(GlContextCall(pID)) == CL_SUCCESS
       then PlatformCalls(list, pID) + [ClCreateContext(pID, GlDevice(list, pID), true)]
       else [])
  }

  /** What the whole loop issues, platform after platform. */
  function InteropCalls(status: Call -> int, list: Call -> seq<nat>, ids: seq<nat>): seq<Call>
  {
    if ids == [] then []
    else InteropCalls(status, list, ids[..|ids| - 1]) + GlPlatformCalls(status, list, ids[|ids| - 1])
  }

  /** An interop platform as `getGLinterOPPlatforms` leaves it: initialised,
      its default device id the one the GL-context query reports, its
      default device the last device of that id, and its context one the
      driver created to share GL on that device. */
  ghost predicate InteropReady(p: Platform, drv: Driver)
    reads p
  {
    !p.isFirst && p.defDevID == GlDevice(drv.list, p.pID)
    && p.defDev == LastMatching(p.devs, p.defDevID, None)
    && exists k :: p.context == drv.handle(ClCreateContext(p.pID, p.defDevID, true), k)
  }

  /** One step of the loop of `getGLinterOPPlatforms`: the GL-context query
      for platform `pID` and, when it succeeds, the new interop platform. */
  method GlPlatformFor(drv: Driver, pID: nat) returns (r: Option<Platform>)
    modifies drv
    ensures r.Some? <==> drv.status(GlContextCall(pID)) == CL_SUCCESS
    ensures r.Some? ==> fresh(r.value) && r.value.pID == pID && InteropReady(r.value, drv)
    ensures drv.calls == old(drv.calls) + GlPlatformCalls(drv.status, drv.list, pID)
    ensures r.Some? ==> r.value.context == drv.handle(ClCreateContext(pID, r.value.defDevID, true), |drv.calls| - 1)
  {
    var ret := drv.Issue(GlContextCall(pID));
    if ret != CL_SUCCESS {
      return None;
    }
    ghost var c1 := drv.calls;
    var p := new Platform(drv, pID);
    p.defDevID := GlDevice(drv.list, pID);
    ghost var c2 := drv.calls;
    p.GlInit(drv);
    assert drv.calls == c2 + [ClCreateContext(pID, GlDevice(drv.list, pID), true)];
    assert drv.calls == c1 + (PlatformCalls(drv.list, pID) + [ClCreateContext(pID, GlDevice(drv.list, pID), true)]);
    return Some(p);
  }

  /** What the first `oclUtil::init` issues: the platform count, the platform
      ids, then one platform constructor per id. */
  function EnumerationCalls(list: Call -> seq<nat>): seq<Call>
  {
    [ClGetPlatformIDs, ClGetPlatformIDs] + AllPlatformCalls(list, list(ClGetPlatformIDs))
  }

  /** The static state of `oclUtil`: the once-only flag and the platform
      list. */
  class Registry {
    var isFirst: bool
    var plfs: seq<Platform>

    constructor ()
      ensures isFirst && plfs == []
    {
      isFirst := true;
      plfs := [];
    }

    /** `oclUtil::init`: the first call appends one new platform per platform
        id the driver lists; later calls change nothing. */
    method Init(drv: Driver)
      modifies this, drv
      ensures !isFirst
      ensures !old(isFirst) ==> plfs == old(plfs) && drv.calls == old(drv.calls)
      ensures old(isFirst) ==> PlatformIDs(plfs) == PlatformIDs(old(plfs)) + drv.list(ClGetPlatformIDs)
      ensures old(isFirst) ==> plfs[..|old(plfs)|] == old(plfs)
      ensures old(isFirst) ==> forall i :: |old(plfs)| <= i < |plfs| ==> fresh(plfs[i]) && plfs[i].isFirst
      ensures old(isFirst) ==> drv.calls == old(drv.calls) + EnumerationCalls(drv.list)
    {
      if !isFirst {
        return;
      }
      var _ := drv.Issue(ClGetPlatformIDs);
      var _ := drv.Issue(ClGetPlatformIDs);
      ghost var c := drv.calls;
      AddPlatforms(drv, drv.list(ClGetPlatformIDs));
      assert drv.calls == c + AllPlatformCalls(drv.list, drv.list(ClGetPlatformIDs));
      isFirst := false;
    }

    /** The enumeration loop of `init`. */
    method AddPlatforms(drv: Driver, ids: seq<nat>)
      modifies this`plfs, drv
      ensures PlatformIDs(plfs) == PlatformIDs(old(plfs)) + ids
      ensures plfs[..|old(plfs)|] == old(plfs)
      ensures forall i :: |old(plfs)| <= i < |plfs| ==> fresh(plfs[i]) && plfs[i].isFirst
      ensures drv.calls == old(drv.calls) + AllPlatformCalls(drv.list, ids)
    {
      var start := drv.calls;
      ghost var before := plfs;
      var i := 0;
      while i < |ids|
        invariant 0 <= i <= |ids|
        invariant |plfs| == |before| + i && plfs[..|before|] == before
        invariant PlatformIDs(plfs) == PlatformIDs(before) + ids[..i]
        invariant forall j :: |before| <= j < |plfs| ==> fresh(plfs[j]) && plfs[j].isFirst
        invariant drv.calls == start + AllPlatformCalls(drv.list, ids[..i])
      {
        ghost var ps := plfs;
        var p := AddPlatform(drv, ids[i]);
        PlatformIDsSnoc(ps, p);
        assert ids[..i + 1] == ids[..i] + [ids[i]];
        assert ids[..i + 1][..i] == ids[..i];
        i := i + 1;
      }
      assert ids[..i] == ids;
    }

    /** One step of the enumeration loop of `init`. */
    method AddPlatform(drv: Driver, id: nat) returns (p: Platform)
      modifies this`plfs, drv
      ensures fresh(p) && p.isFirst && p.pID == id
      ensures plfs == old(plfs) + [p]
      ensures drv.calls == old(drv.calls) + PlatformCalls(drv.list, id)
    {
      p := new Platform(drv, id);
      plfs := plfs + [p];
    }

    /** `getPlatforms`: once enumerated, the list never changes. */
    method GetPlatforms(drv: Driver) returns (ps: seq<Platform>)
      modifies this, drv
      ensures ps == plfs && !isFirst
      ensures !old(isFirst) ==> ps == old(plfs) && drv.calls == old(drv.calls)
      ensures old(isFirst) ==> PlatformIDs(ps) == PlatformIDs(old(plfs)) + drv.list(ClGetPlatformIDs)
      ensures old(isFirst) ==> drv.calls == old(drv.calls) + EnumerationCalls(drv.list)
    {
      Init(drv);
      ps := plfs;
    }

    /** `getGLinterOPPlatforms`: for every registered platform, in order,
        whose GL-context query succeeds, a new platform whose default device
        is the device that query reports and whose context shares GL. */
    method GetGLInteropPlatforms(drv: Driver) returns (glps: seq<Platform>)
      modifies this, drv
      ensures !isFirst
      ensures !old(isFirst) ==> plfs == old(plfs)
      ensures old(isFirst) ==> PlatformIDs(plfs) == PlatformIDs(old(plfs)) + drv.list(ClGetPlatformIDs)
      ensures PlatformIDs(glps) == InteropIDs(drv.status, PlatformIDs(plfs))
      ensures forall j :: 0 <= j < |glps| ==> fresh(glps[j]) && InteropReady(glps[j], drv)
      ensures drv.calls == old(drv.calls) + (if old(isFirst) then EnumerationCalls(drv.list) else [])
                                          + InteropCalls(drv.status, drv.list, PlatformIDs(plfs))
    {
      Init(drv);
      glps := InteropPlatforms(drv, plfs);
    }
  }

  /** The loop of `getGLinterOPPlatforms` over the registered platforms. */
  method InteropPlatforms(drv: Driver, ps: seq<Platform>) returns (glps: seq<Platform>)
    modifies drv
    ensures PlatformIDs(glps) == InteropIDs(drv.status, PlatformIDs(ps))
    ensures forall j :: 0 <= j < |glps| ==> fresh(glps[j]) && InteropReady(glps[j], drv)
    ensures drv.calls == old(drv.calls) + InteropCalls(drv.status, drv.list, PlatformIDs(ps))
  {
    glps := [];
    ghost var ids := PlatformIDs(ps);
    var i := 0;
    while i < |ps|
      invariant 0 <= i <= |ps|
      invariant PlatformIDs(glps) == InteropIDs(drv.status, ids[..i])
      invariant forall j :: 0 <= j < |glps| ==> fresh(glps[j]) && InteropReady(glps[j], drv)
      invariant drv.calls == old(drv.calls) + InteropCalls(drv.status, drv.list, ids[..i])
    {
      var r := GlPlatformFor(drv, ps[i].pID);
      assert ids[..i + 1][..i] == ids[..i];
      assert InteropCalls(drv.status, drv.list, ids[..i + 1])
             == InteropCalls(drv.status, drv.list, ids[..i]) + GlPlatformCalls(drv.status, drv.list, ids[i]);
      ghost var before := glps;
      if r.Some? {
        PlatformIDsSnoc(glps, r.value);
        glps := glps + [r.value];
      }
      assert forall j :: 0 <= j < |before| ==> glps[j] == before[j];
      i := i + 1;
    }
    assert ids[..i] == ids;
  }

  /** `getCommandQueue(plat, dev)`: the platform is initialised first (a
      no-op when it already was), then a queue is created on its context. */
  method GetCommandQueue(drv: Driver, plat: Platform, dev: Device) returns (q: Queue)
    modifies plat`isFirst, plat`context, plat`defDev, drv
    ensures !plat.isFirst
    ensures drv.calls == old(drv.calls) + (if old(plat.isFirst) then [ClCreateContext(plat.pID, plat.defDevID, false)] else [])
                                        + [ClCreateCommandQueue(plat.context, dev.dID)]
    ensures q.cmdQue == drv.handle(ClCreateCommandQueue(plat.context, dev.dID), |drv.calls| - 1)
    ensures old(plat.isFirst) ==> plat.context == drv.handle(ClCreateContext(plat.pID, plat.defDevID, false), |old(drv.calls)|)
                                  && plat.defDev == LastMatching(plat.devs, plat.defDevID, old(plat.defDev))
    ensures !old(plat.isFirst) ==> plat.context == old(plat.context) && plat.defDev == old(plat.defDev)
  {
    plat.Init(drv);
    var h := drv.Create(ClCreateCommandQueue(plat.context, dev.dID));
    q := Queue(h);
  }

  /** `getCommandQueue(plat)`: the default device is read before the platform
      is initialised, so the queue is created on the device chosen by then
      (the source dereferences it, so it must exist). */
  method GetDefaultCommandQueue(drv: Driver, plat: Platform) returns (q: Queue)
    requires plat.defDev.Some?
    modifies plat`isFirst, plat`context, plat`defDev, drv
    ensures !plat.isFirst
    ensures drv.calls == old(drv.calls) + (if old(plat.isFirst) then [ClCreateContext(plat.pID, plat.defDevID, false)] else [])
                                        + [ClCreateCommandQueue(plat.context, old(plat.defDev).value.dID)]
    ensures q.cmdQue == drv.handle(ClCreateCommandQueue(plat.context, old(plat.defDev).value.dID), |drv.calls| - 1)
    ensures old(plat.isFirst) ==> plat.context == drv.handle(ClCreateContext(plat.pID, plat.defDevID, false), |old(drv.calls)|)
                                  && plat.defDev == LastMatching(plat.devs, plat.defDevID, old(plat.defDev))
    ensures !old(plat.isFirst) ==> plat.context == old(plat.context) && plat.defDev == old(plat.defDev)
  {
    var dev := plat.defDev.value;
    q := GetCommandQueue(drv, plat, dev);
  }
}
