/** OpenCL memory objects (`_oclMem`, oclUtil.h and oclUtil.cpp): a
    device-private buffer of fixed size, or an interop object that shares a
    GL buffer or texture and must be acquired by the compute side before a
    kernel may touch it. */
module ClMem {

  import opened Drivers
  import opened GlUtil

  /** `_oclMem::Type`: the `cl_mem_flags` the object is created with. */
  datatype MemType = ReadOnly | WriteOnly | ReadWrite | HostUse | HostAlloc | HostCopy

  function MemFlags(t: MemType): int
  {
    match t
    case ReadOnly => CL_MEM_READ_ONLY
    case WriteOnly => CL_MEM_WRITE_ONLY
    case ReadWrite => CL_MEM_READ_WRITE
    case HostUse => CL_MEM_USE_HOST_PTR
    case HostAlloc => CL_MEM_ALLOC_HOST_PTR
    case HostCopy => CL_MEM_COPY_HOST_PTR
  }

  /** The size an interop object claims: its real size is GL's business. */
  const INTEROP_SIZE: nat := 0x7fff_ffff

  /** A command queue (`_oclCommandQue`). */
  datatype Queue = Queue(cmdQue: nat)

  datatype Mem = Mem(memType: MemType, isGL: bool, memID: nat, size: nat)

  /** Every interop object carries the sentinel size. */
  predicate Valid(m: Mem)
  {
    m.isGL ==> m.size == INTEROP_SIZE
  }

  /** The device-private constructor: `clCreateBuffer`, throwing on failure. */
  method NewDeviceMem(drv: Driver, context: nat, t: MemType, size: nat) returns (o: Outcome<Mem>)
    modifies drv
    ensures drv.calls == old(drv.calls) + [ClCreateBuffer(context, MemFlags(t), size)]
    ensures o.Made? <==> drv.status(ClCreateBuffer(context, MemFlags(t), size)) == CL_SUCCESS
    ensures o.Thrown? ==> o.code == drv.status(ClCreateBuffer(context, MemFlags(t), size))
    ensures o.Made? ==> o.value == Mem(t, false, drv.handle(ClCreateBuffer(context, MemFlags(t), size), |old(drv.calls)|), size)
    ensures o.Made? ==> Valid(o.value)
  {
    var ret, id := drv.Query(ClCreateBuffer(context, MemFlags(t), size));
    if ret != CL_SUCCESS {
      return Thrown(ret);
    }
    return Made(Mem(t, false, id, size));
  }

  /** The constructor sharing a GL buffer: `clCreateFromGLBuffer`. */
  method NewBufferMem(drv: Driver, context: nat, t: MemType, buf: GlBuffer) returns (o: Outcome<Mem>)
    modifies drv
    ensures drv.calls == old(drv.calls) + [ClCreateFromGLBuffer(context, MemFlags(t), buf.bID)]
    ensures o.Made? <==> drv.status(ClCreateFromGLBuffer(context, MemFlags(t), buf.bID)) == CL_SUCCESS
    ensures o.Thrown? ==> o.code == drv.status(ClCreateFromGLBuffer(context, MemFlags(t), buf.bID))
    ensures o.Made? ==> o.value == Mem(t, true, drv.handle(ClCreateFromGLBuffer(context, MemFlags(t), buf.bID), |old(drv.calls)|), INTEROP_SIZE)
    ensures o.Made? ==> Valid(o.value)
  {
    var ret, id := drv.Query(ClCreateFromGLBuffer(context, MemFlags(t), buf.bID));
    if ret != CL_SUCCESS {
      return Thrown(ret);
    }
    return Made(Mem(t, true, id, INTEROP_SIZE));
  }

  /** The constructor sharing mip level 0 of a GL texture:
      `clCreateFromGLTexture`. */
  method NewTextureMem(drv: Driver, context: nat, t: MemType, tex: GlTexture) returns (o: Outcome<Mem>)
    modifies drv
    ensures drv.calls == old(drv.calls) + [ClCreateFromGLTexture(context, MemFlags(t), TexTargetOf(tex.texType), 0, tex.tID)]
    ensures o.Made? <==> drv.status(ClCreateFromGLTexture(context, MemFlags(t), TexTargetOf(tex.texType), 0, tex.tID)) == CL_SUCCESS
    ensures o.Thrown? ==> o.code == drv.status(ClCreateFromGLTexture(context, MemFlags(t), TexTargetOf(tex.texType), 0, tex.tID))
    ensures o.Made? ==> o.value == Mem(t, true, drv.handle(ClCreateFromGLTexture(context, MemFlags(t), TexTargetOf(tex.texType), 0, tex.tID),
                                                            |old(drv.calls)|), INTEROP_SIZE)
    ensures o.Made? ==> Valid(o.value)
  {
    var ret, id := drv.Query(ClCreateFromGLTexture(context, MemFlags(t), TexTargetOf(tex.texType), 0, tex.tID));
    if ret != CL_SUCCESS {
      return Thrown(ret);
    }
    return Made(Mem(t, true, id, INTEROP_SIZE));
  }

  function AcquireCall(m: Mem, q: Queue): Call
  {
    ClEnqueueAcquireGLObjects(q.cmdQue, m.memID)
  }

  function ReleaseCall(m: Mem, q: Queue): Call
  {
    ClEnqueueReleaseGLObjects(q.cmdQue, m.memID)
  }

  /** The calls `lock` issues. */
  function LockCalls(m: Mem, q: Queue): seq<Call>
  {
    if m.isGL then [GlFlush, AcquireCall(m, q)] else []
  }

  /** The calls `unlock` issues: the queue is flushed before the release is
      enqueued. */
  function UnlockCalls(m: Mem, q: Queue): seq<Call>
  {
    if m.isGL then [ClFlush(q.cmdQue), ReleaseCall(m, q)] else []
  }

  /** `lock`: refused for a device-private object, which issues nothing; for
      an interop object GL is flushed, then the acquire is enqueued, and the
      lock holds exactly when the acquire succeeded. */
  method Lock(drv: Driver, m: Mem, q: Queue) returns (ok: bool)
    modifies drv
    ensures drv.calls == old(drv.calls) + LockCalls(m, q)
    ensures !m.isGL ==> !ok && drv.calls == old(drv.calls)
    ensures m.isGL ==> drv.calls == old(drv.calls) + [GlFlush, ClEnqueueAcquireGLObjects(q.cmdQue, m.memID)]
    ensures ok <==> m.isGL && drv.status(AcquireCall(m, q)) == CL_SUCCESS
  {
    if !m.isGL {
      return false;
    }
    var _ := drv.Issue(GlFlush);
    var ret := drv.Issue(AcquireCall(m, q));
    return ret == CL_SUCCESS;
  }

  /** `unlock`: refused for a device-private object; for an interop object
      the queue is flushed, then the release is enqueued, and the unlock
      holds exactly when the release succeeded. */
  method Unlock(drv: Driver, m: Mem, q: Queue) returns (ok: bool)
    modifies drv
    ensures drv.calls == old(drv.calls) + UnlockCalls(m, q)
    ensures !m.isGL ==> !ok && drv.calls == old(drv.calls)
    ensures m.isGL ==> drv.calls == old(drv.calls) + [ClFlush(q.cmdQue), ClEnqueueReleaseGLObjects(q.cmdQue, m.memID)]
    ensures ok <==> m.isGL && drv.status(ReleaseCall(m, q)) == CL_SUCCESS
  {
    if !m.isGL {
      return false;
    }
    var _ := drv.Issue(ClFlush(q.cmdQue));
    var ret := drv.Issue(ReleaseCall(m, q));
    return ret == CL_SUCCESS;
  }

  /** `min(requested, size)`: the bytes a transfer moves. */
  function TransferSize(m: Mem, requested: nat): (n: nat)
    ensures n <= requested && n <= m.size
    ensures n == requested || n == m.size
  {
    if requested < m.size then requested else m.size
  }

  /** An interop object never clamps a transfer that fits a 31-bit size. */
  lemma InteropUnclamped(m: Mem, requested: nat)
    requires Valid(m) && m.isGL && requested <= INTEROP_SIZE
    ensures TransferSize(m, requested) == requested
  {
  }

  function WriteCall(m: Mem, q: Queue, requested: nat, blocking: bool): Call
  {
    ClEnqueueWriteBuffer(q.cmdQue, m.memID, blocking, 0, TransferSize(m, requested))
  }

  function ReadCall(m: Mem, q: Queue, requested: nat, blocking: bool): Call
  {
    ClEnqueueReadBuffer(q.cmdQue, m.memID, blocking, 0, TransferSize(m, requested))
  }

  /** `write`: one enqueued write of `min(requested, size)` bytes at offset
      0; it succeeds exactly when the driver accepts it. */
  method Write(drv: Driver, m: Mem, q: Queue, requested: nat, blocking: bool) returns (ok: bool)
    modifies drv
    ensures drv.calls == old(drv.calls) + [WriteCall(m, q, requested, blocking)]
    ensures ok <==> drv.status(WriteCall(m, q, requested, blocking)) == CL_SUCCESS
  {
    var n := if requested < m.size then requested else m.size;
    var ret := drv.Issue(ClEnqueueWriteBuffer(q.cmdQue, m.memID, blocking, 0, n));
    return ret == CL_SUCCESS;
  }

  /** `read`: the mirror image of `write`. */
  method Read(drv: Driver, m: Mem, q: Queue, requested: nat, blocking: bool) returns (ok: bool)
    modifies drv
    ensures drv.calls == old(drv.calls) + [ReadCall(m, q, requested, blocking)]
    ensures ok <==> drv.status(ReadCall(m, q, requested, blocking)) == CL_SUCCESS
  {
    var n := if requested < m.size then requested else m.size;
    var ret := drv.Issue(ClEnqueueReadBuffer(q.cmdQue, m.memID, blocking, 0, n));
    return ret == CL_SUCCESS;
  }

  /** A successful lock hands the object to the compute side; a failed one
      leaves ownership where it was. */
  lemma LockOwnership(t: seq<Call>, status: Call -> int, m: Mem, q: Queue)
    requires m.isGL
    ensures ComputeOwns(t + LockCalls(m, q), status, m.memID)
            == (status(AcquireCall(m, q)) == CL_SUCCESS || ComputeOwns(t, status, m.memID))
  {
    var e := OwnEffect(status, m.memID);
    LastSnoc(t, GlFlush, e, false);
    LastSnoc(t + [GlFlush], AcquireCall(m, q), e, false);
    assert t + LockCalls(m, q) == t + [GlFlush] + [AcquireCall(m, q)];
  }

  /** A successful unlock hands the object back to graphics; a failed one
      leaves ownership where it was. */
  lemma UnlockOwnership(t: seq<Call>, status: Call -> int, m: Mem, q: Queue)
    requires m.isGL
    ensures ComputeOwns(t + UnlockCalls(m, q), status, m.memID)
            == (status(ReleaseCall(m, q)) != CL_SUCCESS && ComputeOwns(t, status, m.memID))
  {
    var e := OwnEffect(status, m.memID);
    LastSnoc(t, ClFlush(q.cmdQue), e, false);
    LastSnoc(t + [ClFlush(q.cmdQue)], ReleaseCall(m, q), e, false);
    assert t + UnlockCalls(m, q) == t + [ClFlush(q.cmdQue)] + [ReleaseCall(m, q)];
  }

  /** Lock, work that neither acquires nor releases the object, unlock: when
      both succeed the compute side owns the object throughout the work and
      graphics owns it again afterwards. */
  lemma LockedSpan(t: seq<Call>, status: Call -> int, m: Mem, q: Queue, body: seq<Call>, k: nat)
    requires m.isGL && k <= |body|
    requires status(AcquireCall(m, q)) == CL_SUCCESS && status(ReleaseCall(m, q)) == CL_SUCCESS
    requires Untouched(body, OwnEffect(status, m.memID))
    ensures ComputeOwns(t + LockCalls(m, q) + body[..k], status, m.memID)
    ensures !ComputeOwns(t + LockCalls(m, q) + body + UnlockCalls(m, q), status, m.memID)
  {
    var e := OwnEffect(status, m.memID);
    LockOwnership(t, status, m, q);
    assert Untouched(body[..k], e) by {
      forall i | 0 <= i < k ensures e(body[..k][i]).None? {
        assert body[..k][i] == body[i];
      }
    }
    LastUntouched(t + LockCalls(m, q), body[..k], e, false);
    UnlockOwnership(t + LockCalls(m, q) + body, status, m, q);
  }
}
