/** The application (main.cpp): the per-frame compute dispatch `runCL`, the
    mode cycling of the Enter key, the window reshape and the mouse drag
    state. */
module App {

  import opened Drivers
  import opened GlUtil
  import opened ClMem
  import opened ClProgram

  /** A kernel argument of the dispatch table: an `int` or a memory object. */
  datatype Arg = IntArg(v: int32) | MemArg(m: Mem)

  /** One kernel of a mode: its arguments, by index, then a blocking run. */
  datatype Step = Step(k: Kernel, args: seq<(nat, Arg)>)

  /** The five kernels of test.cl. */
  datatype Kernels = Kernels(colorful: Kernel, stepNoise: Kernel, multiNoise: Kernel, noiseBase: Kernel, noiseMulti: Kernel)

  /** The switch of `runCL`: what each mode runs; a mode outside 0..3 runs
      nothing. */
  function ModeSteps(mode: int, ks: Kernels, pbo: Mem, tmp: Mem): seq<Step>
  {
    if mode == 0 then [Step(ks.colorful, [(0, MemArg(pbo))])]
    else if mode == 1 then [Step(ks.stepNoise, [(0, IntArg(1)), (1, MemArg(pbo))])]
    else if mode == 2 then [Step(ks.noiseBase, [(0, MemArg(tmp))]),
                            Step(ks.noiseMulti, [(0, IntArg(6)), (1, MemArg(tmp)), (2, MemArg(pbo))])]
    else if mode == 3 then [Step(ks.multiNoise, [(0, IntArg(6)), (1, MemArg(pbo))])]
    else []
  }

  function ArgCall(k: Kernel, idx: nat, a: Arg): Call
  {
    match a
    case IntArg(v) => SetArgCall(k, idx, 4, ValueBytes(Int32Bytes(v)))
    case MemArg(m) => SetArgCall(k, idx, POINTER_SIZE, MemHandle(m.memID))
  }

  function ArgCalls(k: Kernel, args: seq<(nat, Arg)>): seq<Call>
  {
    if args == [] then [] else [ArgCall(k, args[0].0, args[0].1)] + ArgCalls(k, args[1..])
  }

  function StepCalls(s: Step, q: Queue, ws: seq<nat>): seq<Call>
  {
    ArgCalls(s.k, s.args) + RunCalls(s.k, q, ws, Zeros(|ws|), true)
  }

  function StepsCalls(steps: seq<Step>, q: Queue, ws: seq<nat>): seq<Call>
  {
    if steps == [] then [] else StepCalls(steps[0], q, ws) + StepsCalls(steps[1..], q, ws)
  }

  lemma ArgCallsCons(k: Kernel, a: (nat, Arg), rest: seq<(nat, Arg)>)
    ensures ArgCalls(k, [a] + rest) == [ArgCall(k, a.0, a.1)] + ArgCalls(k, rest)
  {
    assert ([a] + rest)[1..] == rest;
  }

  lemma StepsCallsCons(s: Step, rest: seq<Step>, q: Queue, ws: seq<nat>)
    ensures StepsCalls([s] + rest, q, ws) == StepCalls(s, q, ws) + StepsCalls(rest, q, ws)
  {
    assert ([s] + rest)[1..] == rest;
  }

  /** `size_t` from a non-negative C `int`. */
  function SizeT(v: int32): nat
  {
    if v < 0 then v + 0x1_0000_0000_0000_0000 else v
  }

  /** The handles `initGL` and `initCL` leave in the globals. */
  datatype Globals = Globals(queue: Queue, pbo: Mem, tmp: Mem, ks: Kernels, tex: GlTexture, pixelBuf: GlBuffer)

  /** The globals as `initCL` creates them: `pbo` shares the pixel buffer
      with GL (and so carries the interop size), `tmp` is a plain read-write
      device buffer. */
  predicate GlobalsValid(g: Globals)
  {
    g.pbo.isGL && Valid(g.pbo) && !g.tmp.isGL && g.tmp.memType == ReadWrite
  }

  /** Everything one `runCL(mode)` issues, for a camera of `w` by `h`. */
  function FrameCalls(g: Globals, mode: int, w: int32, h: int32): seq<Call>
  {
    var ws := [SizeT(w), SizeT(h)];
    LockCalls(g.pbo, g.queue)
    + StepsCalls(ModeSteps(mode, g.ks, g.pbo, g.tmp), g.queue, ws)
    + UnlockCalls(g.pbo, g.queue)
    + SetDataFromBufferCalls(g.tex, RGBAf, w, h, g.pixelBuf)
  }

  // ------------------------------------------------ what a frame consists of

  /** Every call of the kernel part of a frame binds an argument, enqueues a
      blocking two-dimensional run over `ws` from offset zero without a local
      size, waits on it or releases its event. */
  predicate KernelPart(c: Call, q: Queue, ws: seq<nat>)
  {
    c.ClSetKernelArg?
    || (c.ClEnqueueNDRangeKernel? && c.queue == q.cmdQue && c.dims == |ws| && c.workOffset == Zeros(|ws|)
        && c.global == ws && !c.hasLocal && c.wantsEvent)
    || c.ClWaitForEvents? || c.ClReleaseEvent?
  }

  lemma {:induction false} ArgCallsAreKernelPart(k: Kernel, args: seq<(nat, Arg)>)
    ensures forall i :: 0 <= i < |ArgCalls(k, args)| ==> ArgCalls(k, args)[i].ClSetKernelArg?
  {
    if args != [] {
      ArgCallsAreKernelPart(k, args[1..]);
      var c := ArgCalls(k, args);
      forall i | 0 <= i < |c| ensures c[i].ClSetKernelArg? {
        if i > 0 {
          assert c[i] == ArgCalls(k, args[1..])[i - 1];
        }
      }
    }
  }

  lemma {:induction false} StepsCallsAreKernelPart(steps: seq<Step>, q: Queue, ws: seq<nat>)
    ensures forall i :: 0 <= i < |StepsCalls(steps, q, ws)| ==> KernelPart(StepsCalls(steps, q, ws)[i], q, ws)
  {
    if steps != [] {
      StepsCallsAreKernelPart(steps[1..], q, ws);
      ArgCallsAreKernelPart(steps[0].k, steps[0].args);
      var a := ArgCalls(steps[0].k, steps[0].args);
      var r := RunCalls(steps[0].k, q, ws, Zeros(|ws|), true);
      var rest := StepsCalls(steps[1..], q, ws);
      var c := StepsCalls(steps, q, ws);
      assert c == a + r + rest;
      forall i | 0 <= i < |c| ensures KernelPart(c[i], q, ws) {
        if i < |a| {
          assert c[i] == a[i];
        } else if i < |a| + |r| {
          assert c[i] == r[i - |a|];
        } else {
          assert c[i] == rest[i - |a| - |r|];
        }
      }
    }
  }

  /** No call of the trace enqueues a kernel. */
  predicate NoKernels(calls: seq<Call>)
  {
    forall i :: 0 <= i < |calls| ==> !calls[i].ClEnqueueNDRangeKernel?
  }

  /** Every acquire and every release in the trace is of `mem`. */
  predicate HandsOverOnly(calls: seq<Call>, mem: nat)
  {
    forall i :: 0 <= i < |calls| && (calls[i].ClEnqueueAcquireGLObjects? || calls[i].ClEnqueueReleaseGLObjects?) ==>
      calls[i].mem == mem
  }

  /** No call of the trace acquires or releases anything. */
  predicate HandsOverNothing(calls: seq<Call>)
  {
    forall i :: 0 <= i < |calls| ==> !calls[i].ClEnqueueAcquireGLObjects? && !calls[i].ClEnqueueReleaseGLObjects?
  }

  lemma NoKernelsAppend(a: seq<Call>, b: seq<Call>)
    requires NoKernels(a) && NoKernels(b)
    ensures NoKernels(a + b)
  {
    forall i | 0 <= i < |a + b| ensures !(a + b)[i].ClEnqueueNDRangeKernel? {
      if i >= |a| {
        assert (a + b)[i] == b[i - |a|];
      }
    }
  }

  lemma HandsOverOnlyAppend(a: seq<Call>, b: seq<Call>, mem: nat)
    requires HandsOverOnly(a, mem) && HandsOverOnly(b, mem)
    ensures HandsOverOnly(a + b, mem)
  {
    forall i | 0 <= i < |a + b| && ((a + b)[i].ClEnqueueAcquireGLObjects? || (a + b)[i].ClEnqueueReleaseGLObjects?)
      ensures (a + b)[i].mem == mem
    {
      if i >= |a| {
        assert (a + b)[i] == b[i - |a|];
      }
    }
  }

  /** A trace that acquires and releases nothing changes no ownership. */
  lemma NothingHandedOver(calls: seq<Call>, status: Call -> int, mem: nat)
    requires HandsOverNothing(calls)
    ensures Untouched(calls, OwnEffect(status, mem))
  {
  }

  lemma LockShape(m: Mem, q: Queue)
    ensures NoKernels(LockCalls(m, q)) && HandsOverOnly(LockCalls(m, q), m.memID)
    ensures NoKernels(UnlockCalls(m, q)) && HandsOverOnly(UnlockCalls(m, q), m.memID)
  {
  }

  lemma UploadShape(tex: GlTexture, f: Format, w: int, h: int, buf: GlBuffer)
    ensures NoKernels(SetDataFromBufferCalls(tex, f, w, h, buf))
    ensures HandsOverNothing(SetDataFromBufferCalls(tex, f, w, h, buf))
  {
  }

  lemma StepsShape(steps: seq<Step>, q: Queue, ws: seq<nat>)
    ensures HandsOverNothing(StepsCalls(steps, q, ws))
  {
    StepsCallsAreKernelPart(steps, q, ws);
  }

  /** The frame cut into its four parts: lock, kernel work, unlock, upload. */
  lemma FrameParts(g: Globals, mode: int, w: int32, h: int32) returns (lock: seq<Call>, work: seq<Call>, unlock: seq<Call>, upload: seq<Call>)
    ensures FrameCalls(g, mode, w, h) == lock + work + unlock + upload
    ensures lock == LockCalls(g.pbo, g.queue) && unlock == UnlockCalls(g.pbo, g.queue)
    ensures work == StepsCalls(ModeSteps(mode, g.ks, g.pbo, g.tmp), g.queue, [SizeT(w), SizeT(h)])
    ensures upload == SetDataFromBufferCalls(g.tex, RGBAf, w, h, g.pixelBuf)
    ensures NoKernels(lock) && NoKernels(unlock) && NoKernels(upload)
    ensures HandsOverOnly(lock, g.pbo.memID) && HandsOverOnly(unlock, g.pbo.memID)
    ensures HandsOverNothing(work) && HandsOverNothing(upload)
    ensures forall i :: 0 <= i < |work| ==> KernelPart(work[i], g.queue, [SizeT(w), SizeT(h)])
  {
    lock, unlock := LockCalls(g.pbo, g.queue), UnlockCalls(g.pbo, g.queue);
    work := StepsCalls(ModeSteps(mode, g.ks, g.pbo, g.tmp), g.queue, [SizeT(w), SizeT(h)]);
    upload := SetDataFromBufferCalls(g.tex, RGBAf, w, h, g.pixelBuf);
    LockShape(g.pbo, g.queue);
    UploadShape(g.tex, RGBAf, w, h, g.pixelBuf);
    StepsShape(ModeSteps(mode, g.ks, g.pbo, g.tmp), g.queue, [SizeT(w), SizeT(h)]);
    StepsCallsAreKernelPart(ModeSteps(mode, g.ks, g.pbo, g.tmp), g.queue, [SizeT(w), SizeT(h)]);
  }

  /** Every kernel of every mode runs strictly between the lock and the
      unlock of the pixel buffer, as a blocking run over the camera size from
      offset zero without a local size. */
  lemma FrameKernelsInsideLock(g: Globals, mode: int, w: int32, h: int32)
    ensures var f := FrameCalls(g, mode, w, h);
      var lo := |LockCalls(g.pbo, g.queue)|;
      var hi := |f| - |UnlockCalls(g.pbo, g.queue)| - 4;
      f[..lo] == LockCalls(g.pbo, g.queue)
      && f[hi..hi + |UnlockCalls(g.pbo, g.queue)|] == UnlockCalls(g.pbo, g.queue)
      && forall i :: 0 <= i < |f| && f[i].ClEnqueueNDRangeKernel? ==>
           lo <= i < hi && f[i].global == [SizeT(w), SizeT(h)] && f[i].dims == 2 && f[i].workOffset == [0, 0]
           && !f[i].hasLocal && f[i].wantsEvent
  {
    var lock, work, unlock, upload := FrameParts(g, mode, w, h);
    LockShape(g.pbo, g.queue);
    UploadShape(g.tex, RGBAf, w, h, g.pixelBuf);
    StepsCallsAreKernelPart(ModeSteps(mode, g.ks, g.pbo, g.tmp), g.queue, [SizeT(w), SizeT(h)]);
    KernelsInMiddle(lock, work, unlock, upload);
    Slices(lock, work, unlock, upload);
    assert Zeros(2) == [0, 0];
  }

  lemma AppendFour(t: seq<Call>, a: seq<Call>, b: seq<Call>, c: seq<Call>, d: seq<Call>)
    ensures t + a + b + c + d == t + (a + b + c + d)
  {
  }

  /** The parts of a four-part trace, cut back out. */
  lemma Slices(a: seq<Call>, b: seq<Call>, c: seq<Call>, d: seq<Call>)
    ensures (a + b + c + d)[..|a|] == a
    ensures (a + b + c + d)[|a| + |b|..|a| + |b| + |c|] == c
    ensures (a + b + c + d)[|a| + |b| + |c|..] == d
  {
    var f := a + b + c + d;
    assert f[..|a|] == a;
    assert f[|a| + |b|..|a| + |b| + |c|] == c;
    assert f[|a| + |b| + |c|..] == d;
  }

  /** In a four-part trace whose parts other than the second enqueue no
      kernel, every enqueue is one of the second part. */
  lemma KernelsInMiddle(a: seq<Call>, b: seq<Call>, c: seq<Call>, d: seq<Call>)
    requires NoKernels(a) && NoKernels(c) && NoKernels(d)
    ensures forall i :: 0 <= i < |a + b + c + d| && (a + b + c + d)[i].ClEnqueueNDRangeKernel? ==>
              |a| <= i < |a| + |b| && (a + b + c + d)[i] == b[i - |a|]
  {
    var f := a + b + c + d;
    forall i | 0 <= i < |f|
      ensures f[i].ClEnqueueNDRangeKernel? ==> |a| <= i < |a| + |b| && f[i] == b[i - |a|]
    {
      if i < |a| {
        assert f[i] == a[i];
      } else if i < |a| + |b| {
        assert f[i] == b[i - |a|];
      } else if i < |a| + |b| + |c| {
        assert f[i] == c[i - |a| - |b|];
      } else {
        assert f[i] == d[i - |a| - |b| - |c|];
      }
    }
  }

  /** A prefix of a four-part trace that ends inside the second part, and the
      whole trace with its last part split off. */
  lemma PrefixOfParts(t: seq<Call>, a: seq<Call>, b: seq<Call>, c: seq<Call>, d: seq<Call>, k: nat)
    requires k <= |b|
    ensures t + (a + b + c + d)[..|a| + k] == t + a + b[..k]
    ensures t + (a + b + c + d) == (t + a + b + c) + d
  {
    assert (a + b + c + d)[..|a| + k] == a + b[..k];
  }

  /** Only the pixel buffer is ever acquired or released by a frame; the
      device-private buffer never is. */
  lemma FrameLocksOnlyPbo(g: Globals, mode: int, w: int32, h: int32)
    ensures HandsOverOnly(FrameCalls(g, mode, w, h), g.pbo.memID)
  {
    var lock, work, unlock, upload := FrameParts(g, mode, w, h);
    HandsOverOnlyAppend(lock, work, g.pbo.memID);
    HandsOverOnlyAppend(lock + work, unlock, g.pbo.memID);
    HandsOverOnlyAppend(lock + work + unlock, upload, g.pbo.memID);
  }

  /** A mode outside 0..3 runs no kernel, yet still locks, unlocks and
      uploads. */
  lemma FrameOutsideModes(g: Globals, mode: int, w: int32, h: int32)
    requires mode < 0 || mode > 3
    ensures FrameCalls(g, mode, w, h) == LockCalls(g.pbo, g.queue) + UnlockCalls(g.pbo, g.queue)
                                         + SetDataFromBufferCalls(g.tex, RGBAf, w, h, g.pixelBuf)
    ensures NoKernels(FrameCalls(g, mode, w, h))
  {
    var lock, work, unlock, upload := FrameParts(g, mode, w, h);
    assert work == [];
    assert lock + work + unlock + upload == lock + unlock + upload;
    NoKernelsAppend(lock, unlock);
    NoKernelsAppend(lock + unlock, upload);
  }

  /** The upload of `runCL`: 32-bit float RGBA of the given size, from
      whatever is bound as the pixel-unpack buffer. */
  lemma UploadIsRgbaFloat(tex: GlTexture, w: int, h: int, buf: GlBuffer)
    ensures SetDataFromBufferCalls(tex, RGBAf, w, h, buf)[2] == GlTexImage2D(GL_TEXTURE_2D, 0, GL_RGBA32F, w, h, GL_RGBA, GL_FLOAT, false)
  {
  }

  /** A frame ends with the upload of the texture from the pixel buffer, as
      32-bit float RGBA of exactly the camera size; afterwards no pixel
      buffer is bound and the texture is. */
  lemma FrameEndsWithUpload(t: seq<Call>, g: Globals, mode: int, w: int32, h: int32)
    ensures var f := FrameCalls(g, mode, w, h);
      |f| >= 4 && f[|f| - 4..] == SetDataFromBufferCalls(g.tex, RGBAf, w, h, g.pixelBuf)
      && f[|f| - 2] == GlTexImage2D(GL_TEXTURE_2D, 0, GL_RGBA32F, w, h, GL_RGBA, GL_FLOAT, false)
      && BoundAt(t + f, BufferTarget(GL_PIXEL_UNPACK_BUFFER)) == 0
      && BoundAt(t + f, TextureTarget(GL_TEXTURE_2D)) == g.tex.tID
  {
    var lock, work, unlock, upload := FrameParts(g, mode, w, h);
    Slices(lock, work, unlock, upload);
    assert |upload| == 4;
    UploadIsRgbaFloat(g.tex, w, h, g.pixelBuf);
    PrefixOfParts(t, lock, work, unlock, upload, 0);
    SetDataFromBufferBindings(t + lock + work + unlock, g.tex, RGBAf, w, h, g.pixelBuf);
  }

  /** When the acquire and the release succeed, the compute side owns the
      pixel buffer throughout the kernel work and graphics owns it again by
      the time the texture is uploaded from it. */
  lemma FrameOwnership(t: seq<Call>, status: Call -> int, g: Globals, mode: int, w: int32, h: int32, k: nat)
    requires GlobalsValid(g)
    requires status(AcquireCall(g.pbo, g.queue)) == CL_SUCCESS && status(ReleaseCall(g.pbo, g.queue)) == CL_SUCCESS
    requires k <= |StepsCalls(ModeSteps(mode, g.ks, g.pbo, g.tmp), g.queue, [SizeT(w), SizeT(h)])|
    ensures ComputeOwns(t + FrameCalls(g, mode, w, h)[..2 + k], status, g.pbo.memID)
    ensures !ComputeOwns(t + FrameCalls(g, mode, w, h), status, g.pbo.memID)
  {
    var lock, work, unlock, upload := FrameParts(g, mode, w, h);
    var e := OwnEffect(status, g.pbo.memID);
    StepsShape(ModeSteps(mode, g.ks, g.pbo, g.tmp), g.queue, [SizeT(w), SizeT(h)]);
    UploadShape(g.tex, RGBAf, w, h, g.pixelBuf);
    NothingHandedOver(work, status, g.pbo.memID);
    NothingHandedOver(upload, status, g.pbo.memID);
    LockedSpan(t, status, g.pbo, g.queue, work, k);
    assert |lock| == 2;
    PrefixOfParts(t, lock, work, unlock, upload, k);
    LastUntouched(t + lock + work + unlock, upload, e, false);
  }

  /** The kernels a trace enqueues, in order. */
  function KernelsRun(calls: seq<Call>): seq<nat>
  {
    if calls == [] then []
    else KernelsRun(calls[..|calls| - 1])
         + (if calls[|calls| - 1].ClEnqueueNDRangeKernel? then [calls[|calls| - 1].kernel] else [])
  }

  lemma {:induction false} KernelsRunAppend(a: seq<Call>, b: seq<Call>)
    ensures KernelsRun(a + b) == KernelsRun(a) + KernelsRun(b)
    decreases |b|
  {
    if b == [] {
      assert a + b == a;
    } else {
      var b' := b[..|b| - 1];
      assert (a + b)[..|a + b| - 1] == a + b';
      assert (a + b)[|a + b| - 1] == b[|b| - 1];
      KernelsRunAppend(a, b');
    }
  }

  lemma {:induction false} KernelsRunNone(calls: seq<Call>)
    requires NoKernels(calls)
    ensures KernelsRun(calls) == []
  {
    if calls != [] {
      KernelsRunNone(calls[..|calls| - 1]);
    }
  }

  /** Each step runs its own kernel once. */
  lemma StepRunsItsKernel(s: Step, q: Queue, ws: seq<nat>)
    ensures KernelsRun(StepCalls(s, q, ws)) == [s.k.kernel]
  {
    var a := ArgCalls(s.k, s.args);
    ArgCallsAreKernelPart(s.k, s.args);
    KernelsRunNone(a);
    var r := RunCalls(s.k, q, ws, Zeros(|ws|), true);
    var tail := [ClWaitForEvents, ClReleaseEvent];
    assert r == [r[0]] + tail;
    KernelsRunNone(tail);
    KernelsRunAppend([r[0]], tail);
    assert [r[0]][..0] == [];
    KernelsRunAppend(a, r);
  }

  /** The kernels of a mode's steps, in order. */
  function StepKernels(steps: seq<Step>): seq<nat>
  {
    if steps == [] then [] else [steps[0].k.kernel] + StepKernels(steps[1..])
  }

  lemma {:induction false} StepsRunTheirKernels(steps: seq<Step>, q: Queue, ws: seq<nat>)
    ensures KernelsRun(StepsCalls(steps, q, ws)) == StepKernels(steps)
  {
    if steps != [] {
      StepsRunTheirKernels(steps[1..], q, ws);
      StepRunsItsKernel(steps[0], q, ws);
      KernelsRunAppend(StepCalls(steps[0], q, ws), StepsCalls(steps[1..], q, ws));
    }
  }

  lemma ModeKernels(mode: int, ks: Kernels, pbo: Mem, tmp: Mem)
    ensures StepKernels(ModeSteps(mode, ks, pbo, tmp))
            == if mode == 0 then [ks.colorful.kernel]
               else if mode == 1 then [ks.stepNoise.kernel]
               else if mode == 2 then [ks.noiseBase.kernel, ks.noiseMulti.kernel]
               else if mode == 3 then [ks.multiNoise.kernel]
               else []
  {
    var steps := ModeSteps(mode, ks, pbo, tmp);
    if 0 <= mode <= 3 {
      assert StepKernels(steps[|steps|..]) == [];
      if mode == 2 {
        assert steps[1..] == [steps[1]];
        assert StepKernels(steps[1..]) == [steps[1].k.kernel] + StepKernels(steps[1..][1..]);
      }
    }
  }

  /** The mode table, as the kernels each frame enqueues: mode 0 colourful,
      mode 1 step noise, mode 2 the noise base then the noise combination,
      mode 3 multi noise, any other mode none. */
  lemma FrameKernels(g: Globals, mode: int, w: int32, h: int32)
    ensures KernelsRun(FrameCalls(g, mode, w, h))
            == if mode == 0 then [g.ks.colorful.kernel]
               else if mode == 1 then [g.ks.stepNoise.kernel]
               else if mode == 2 then [g.ks.noiseBase.kernel, g.ks.noiseMulti.kernel]
               else if mode == 3 then [g.ks.multiNoise.kernel]
               else []
  {
    var lock, work, unlock, upload := FrameParts(g, mode, w, h);
    var steps := ModeSteps(mode, g.ks, g.pbo, g.tmp);
    StepsRunTheirKernels(steps, g.queue, [SizeT(w), SizeT(h)]);
    ModeKernels(mode, g.ks, g.pbo, g.tmp);
    KernelsRunNone(lock);
    KernelsRunNone(unlock);
    KernelsRunNone(upload);
    KernelsRunAppend(lock, work);
    KernelsRunAppend(lock + work, unlock);
    KernelsRunAppend(lock + work + unlock, upload);
  }

  // ---------------------------------------------------------- mode cycling

  const ENTER: uint8 := 13

  /** C's `%`, which truncates toward zero. */
  function CRem(a: int, b: int): int
    requires b > 0
  {
    if a >= 0 then a % b else -((-a) % b)
  }

  /** `onKeyboard`: Enter advances the mode modulo 4; other keys leave it. */
  function NextMode(m: int, key: uint8): int
  {
    if key == ENTER then CRem(m + 1, 4) else m
  }

  /** The mode after a run of key presses, starting from `m`. */
  function ModeAfter(m: int, keys: seq<uint8>): int
  {
    if keys == [] then m else NextMode(ModeAfter(m, keys[..|keys| - 1]), keys[|keys| - 1])
  }

  function Enters(keys: seq<uint8>): nat
  {
    if keys == [] then 0 else Enters(keys[..|keys| - 1]) + (if keys[|keys| - 1] == ENTER then 1 else 0)
  }

  /** Starting from mode 0, the mode is the number of Enter presses modulo
      4, so it never leaves 0..3. */
  lemma {:induction false} ModeCountsEnters(keys: seq<uint8>)
    ensures ModeAfter(0, keys) == Enters(keys) % 4
    ensures 0 <= ModeAfter(0, keys) < 4
  {
    if keys != [] {
      ModeCountsEnters(keys[..|keys| - 1]);
    }
  }

  // ---------------------------------------------------------------- reshape

  /** `w & 0x8fc0` for the bits of a C `int`. */
  function ReshapeMask(w: bv32): (r: int)
    ensures 0 <= r <= 0x8fc0
    ensures r % 64 == 0
    ensures w < 0x8000_0000 ==> r <= w as int
  {
    (w & 0x8fc0) as int
  }

  /** Below 4096 the mask rounds down to a multiple of 64, and the viewport
      offset of `setProject` splits the remainder evenly around the camera. */
  lemma ReshapeCentres(w: bv32)
    requires w < 0x1000
    ensures w as int - 64 < ReshapeMask(w) <= w as int
    ensures w as int - 1 <= ReshapeMask(w) + 2 * ViewportOffset(w) <= w as int
  {
    assert (w & 0x8fc0) as int + (w & 0x3f) as int == w as int;
    assert (w & 0x3f) as int < 64;
  }

  /** The mask keeps bit 15 and bits 6 to 11 only: bits 12 to 14 of the
      width never reach the camera, so below 32768 only the width modulo
      4096 (its low twelve bits) counts. */
  lemma ReshapeDropsBits12To14(w: bv32)
    ensures ReshapeMask(w) == ReshapeMask(w & 0xffff_8fff)
    ensures w < 0x8000 ==> ReshapeMask(w) == ReshapeMask(w & 0xfff)
  {
    assert w & 0x8fc0 == (w & 0xffff_8fff) & 0x8fc0;
    if w < 0x8000 {
      assert w & 0x8fc0 == (w & 0xfff) & 0x8fc0;
    }
  }

  /** A window whose width below 32768 is a whole multiple of 4096 (its low
      twelve bits clear: 4096, 8192, ...) gets a camera 0 wide. */
  lemma WideWindowLosesCamera(w: bv32)
    requires w < 0x8000 && w & 0xfff == 0
    ensures ReshapeMask(w) == 0
  {
    ReshapeDropsBits12To14(w);
    assert ReshapeMask(0) == 0;
  }

  // ------------------------------------------------------------ mouse drag

  const GLUT_LEFT_BUTTON: int := 0
  const GLUT_DOWN: int := 0

  /** The drag state: whether the point of interest is being moved and the
      last pointer position. */
  datatype Drag = Drag(moving: bool, sx: int, sy: int)

  function MouseStep(d: Drag, button: int, state: int, x: int, y: int): Drag
  {
    if button != GLUT_LEFT_BUTTON then d
    else if state == GLUT_DOWN then Drag(true, x, y)
    else d.(moving := false)
  }

  function MotionStep(d: Drag, x: int, y: int): Drag
  {
    if d.moving then d.(sx := x, sy := y) else d
  }

  function Motions(d: Drag, pts: seq<(int, int)>): Drag
  {
    if pts == [] then d else MotionStep(Motions(d, pts[..|pts| - 1]), pts[|pts| - 1].0, pts[|pts| - 1].1)
  }

  /** While dragging, the recorded position follows the pointer; when not
      dragging, motion changes nothing. */
  lemma {:induction false} MotionsFollowPointer(d: Drag, pts: seq<(int, int)>)
    ensures !d.moving ==> Motions(d, pts) == d
    ensures d.moving && pts != [] ==> Motions(d, pts) == Drag(true, pts[|pts| - 1].0, pts[|pts| - 1].1)
    ensures d.moving && pts == [] ==> Motions(d, pts) == d
  {
    if pts != [] {
      MotionsFollowPointer(d, pts[..|pts| - 1]);
    }
  }

  /** A left press starts a drag at the pointer, a left release ends it
      keeping the last position, other buttons change nothing. */
  lemma MouseStepCases(d: Drag, button: int, state: int, x: int, y: int)
    ensures button == GLUT_LEFT_BUTTON && state == GLUT_DOWN ==> MouseStep(d, button, state, x, y) == Drag(true, x, y)
    ensures button == GLUT_LEFT_BUTTON && state != GLUT_DOWN ==>
              !MouseStep(d, button, state, x, y).moving && MouseStep(d, button, state, x, y).sx == d.sx
              && MouseStep(d, button, state, x, y).sy == d.sy
    ensures button != GLUT_LEFT_BUTTON ==> MouseStep(d, button, state, x, y) == d
  {
  }

  /** A whole gesture: a left press at (x0, y0), motions over `pts`, a left
      release anywhere, then more motions. The drag follows the pointer up
      to the release and ends at the last point reached while pressed;
      motions after the release leave it there. */
  lemma DragGesture(d: Drag, x0: int, y0: int, pts: seq<(int, int)>, state: int, rx: int, ry: int, later: seq<(int, int)>)
    requires state != GLUT_DOWN
    ensures var path := [(x0, y0)] + pts;
            var held := Motions(MouseStep(d, GLUT_LEFT_BUTTON, GLUT_DOWN, x0, y0), pts);
            held == Drag(true, path[|path| - 1].0, path[|path| - 1].1)
            && Motions(MouseStep(held, GLUT_LEFT_BUTTON, state, rx, ry), later)
               == Drag(false, path[|path| - 1].0, path[|path| - 1].1)
  {
    var path := [(x0, y0)] + pts;
    var held := Motions(MouseStep(d, GLUT_LEFT_BUTTON, GLUT_DOWN, x0, y0), pts);
    MotionsFollowPointer(Drag(true, x0, y0), pts);
    if pts != [] {
      assert path[|path| - 1] == pts[|pts| - 1];
    }
    var released := MouseStep(held, GLUT_LEFT_BUTTON, state, rx, ry);
    assert released == Drag(false, path[|path| - 1].0, path[|path| - 1].1);
    MotionsFollowPointer(released, later);
  }

  // ------------------------------------------------------- the application

  /** The globals of main.cpp that the handlers update, and the handles the
      initialisation leaves. */
  class Application {
    var clMode: int
    var bMovPOI: bool
    var sx: int
    var sy: int
    var camWidth: int32
    var camHeight: int32
    const g: Globals

    constructor (g: Globals, camWidth: int32, camHeight: int32)
      ensures this.g == g && this.camWidth == camWidth && this.camHeight == camHeight
      ensures clMode == 0 && !bMovPOI && sx == 0 && sy == 0
    {
      this.g := g;
      this.camWidth, this.camHeight := camWidth, camHeight;
      clMode, bMovPOI, sx, sy := 0, false, 0, 0;
    }

    function DragState(): Drag
      reads this
    {
      Drag(bMovPOI, sx, sy)
    }

    /** The switch of `runCL`, one branch per mode. */
    method RunMode(drv: Driver, mode: int, ws: seq<nat>)
      requires |ws| == 2
      modifies drv
      ensures drv.calls == old(drv.calls) + StepsCalls(ModeSteps(mode, g.ks, g.pbo, g.tmp), g.queue, ws)
    {
      if mode == 0 {
        RunColorful(drv, ws);
      } else if mode == 1 {
        RunStepNoise(drv, ws);
      } else if mode == 2 {
        RunNoise(drv, ws);
      } else if mode == 3 {
        RunMultiNoise(drv, ws);
      }
    }

    /** Case 0: `colorful(pbo)`. */
    method RunColorful(drv: Driver, ws: seq<nat>)
      requires |ws| == 2
      modifies drv
      ensures drv.calls == old(drv.calls) + StepsCalls(ModeSteps(0, g.ks, g.pbo, g.tmp), g.queue, ws)
    {
      var k := g.ks.colorful;
      var _ := SetArgMem(drv, k, 0, g.pbo);
      var _ := Run(drv, k, g.queue, ws, true, Zeros(2));
      var only := Step(k, [(0, MemArg(g.pbo))]);
      ArgCallsCons(k, (0, MemArg(g.pbo)), []);
      assert [(0, MemArg(g.pbo))] + [] == only.args;
      StepsCallsCons(only, [], g.queue, ws);
      assert [only] + [] == ModeSteps(0, g.ks, g.pbo, g.tmp);
    }

    /** Case 1: `stepNoise(1, pbo)`. */
    method RunStepNoise(drv: Driver, ws: seq<nat>)
      requires |ws| == 2
      modifies drv
      ensures drv.calls == old(drv.calls) + StepsCalls(ModeSteps(1, g.ks, g.pbo, g.tmp), g.queue, ws)
    {
      var k := g.ks.stepNoise;
      var _ := SetArgInt(drv, k, 0, 1);
      var _ := SetArgMem(drv, k, 1, g.pbo);
      var _ := Run(drv, k, g.queue, ws, true, Zeros(2));
      var only := Step(k, [(0, IntArg(1)), (1, MemArg(g.pbo))]);
      ArgCallsCons(k, (1, MemArg(g.pbo)), []);
      ArgCallsCons(k, (0, IntArg(1)), [(1, MemArg(g.pbo))]);
      assert [(1, MemArg(g.pbo))] + [] == [(1, MemArg(g.pbo))];
      assert [(0, IntArg(1))] + [(1, MemArg(g.pbo))] == only.args;
      StepsCallsCons(only, [], g.queue, ws);
      assert [only] + [] == ModeSteps(1, g.ks, g.pbo, g.tmp);
    }

    /** Case 2: `noiseBase(tmp)`, then `noiseMulti(6, tmp, pbo)`. */
    method RunNoise(drv: Driver, ws: seq<nat>)
      requires |ws| == 2
      modifies drv
      ensures drv.calls == old(drv.calls) + StepsCalls(ModeSteps(2, g.ks, g.pbo, g.tmp), g.queue, ws)
    {
      var base, multi := g.ks.noiseBase, g.ks.noiseMulti;
      ghost var c0 := drv.calls;
      var _ := SetArgMem(drv, base, 0, g.tmp);
      var _ := Run(drv, base, g.queue, ws, true, Zeros(2));
      var first := Step(base, [(0, MemArg(g.tmp))]);
      ArgCallsCons(base, (0, MemArg(g.tmp)), []);
      assert [(0, MemArg(g.tmp))] + [] == first.args;
      ghost var c1 := drv.calls;
      assert c1 == c0 + StepCalls(first, g.queue, ws);
      var _ := SetArgInt(drv, multi, 0, 6);
      var _ := SetArgMem(drv, multi, 1, g.tmp);
      var _ := SetArgMem(drv, multi, 2, g.pbo);
      var _ := Run(drv, multi, g.queue, ws, true, Zeros(2));
      var second := Step(multi, [(0, IntArg(6)), (1, MemArg(g.tmp)), (2, MemArg(g.pbo))]);
      ArgCallsCons(multi, (2, MemArg(g.pbo)), []);
      ArgCallsCons(multi, (1, MemArg(g.tmp)), [(2, MemArg(g.pbo))]);
      ArgCallsCons(multi, (0, IntArg(6)), [(1, MemArg(g.tmp)), (2, MemArg(g.pbo))]);
      assert [(2, MemArg(g.pbo))] + [] == [(2, MemArg(g.pbo))];
      assert [(1, MemArg(g.tmp))] + [(2, MemArg(g.pbo))] == [(1, MemArg(g.tmp)), (2, MemArg(g.pbo))];
      assert [(0, IntArg(6))] + [(1, MemArg(g.tmp)), (2, MemArg(g.pbo))] == second.args;
      assert drv.calls == c1 + StepCalls(second, g.queue, ws);
      StepsCallsCons(second, [], g.queue, ws);
      StepsCallsCons(first, [second], g.queue, ws);
      assert [second] + [] == [second];
      assert [first] + [second] == ModeSteps(2, g.ks, g.pbo, g.tmp);
    }

    /** Case 3: `multiNoise(6, pbo)`. */
    method RunMultiNoise(drv: Driver, ws: seq<nat>)
      requires |ws| == 2
      modifies drv
      ensures drv.calls == old(drv.calls) + StepsCalls(ModeSteps(3, g.ks, g.pbo, g.tmp), g.queue, ws)
    {
      var k := g.ks.multiNoise;
      var _ := SetArgInt(drv, k, 0, 6);
      var _ := SetArgMem(drv, k, 1, g.pbo);
      var _ := Run(drv, k, g.queue, ws, true, Zeros(2));
      var only := Step(k, [(0, IntArg(6)), (1, MemArg(g.pbo))]);
      ArgCallsCons(k, (1, MemArg(g.pbo)), []);
      ArgCallsCons(k, (0, IntArg(6)), [(1, MemArg(g.pbo))]);
      assert [(1, MemArg(g.pbo))] + [] == [(1, MemArg(g.pbo))];
      assert [(0, IntArg(6))] + [(1, MemArg(g.pbo))] == only.args;
      StepsCallsCons(only, [], g.queue, ws);
      assert [only] + [] == ModeSteps(3, g.ks, g.pbo, g.tmp);
    }

    /** `runCL(mode)`: lock the pixel buffer, run the mode's kernels over the
        camera size, unlock, upload the texture from the pixel buffer. A
        failed lock or unlock only waits for a key press, so the frame is the
        same whatever the driver answers. */
    method RunCL(drv: Driver, mode: int)
      modifies drv
      ensures drv.calls == old(drv.calls) + FrameCalls(g, mode, camWidth, camHeight)
    {
      var pbo, q := g.pbo, g.queue;
      var ws := [SizeT(camWidth), SizeT(camHeight)];
      ghost var lock, work, unlock, upload := FrameParts(g, mode, camWidth, camHeight);
      ghost var c0 := drv.calls;
      var locked := Lock(drv, pbo, q);
      ghost var c1 := drv.calls;
      assert c1 == c0 + lock;
      RunMode(drv, mode, ws);
      ghost var c2 := drv.calls;
      assert c2 == c1 + work;
      var unlocked := Unlock(drv, pbo, q);
      ghost var c3 := drv.calls;
      assert c3 == c2 + unlock;
      SetDataFromBuffer(drv, g.tex, RGBAf, camWidth, camHeight, g.pixelBuf);
      assert drv.calls == c3 + upload;
      AppendFour(c0, lock, work, unlock, upload);
    }

    /** `onKeyboard`. */
    method OnKeyboard(key: uint8)
      modifies this`clMode
      ensures clMode == NextMode(old(clMode), key)
    {
      if key == 13 {
        clMode := CRem(clMode + 1, 4);
      }
    }

    /** `reshape`: the camera takes the masked size, then the projection is
        set from it and the window size. */
    method Reshape(drv: Driver, prog: GlProgram, w: bv32, h: bv32)
      modifies this`camWidth, this`camHeight, drv
      ensures camWidth == ReshapeMask(w) && camHeight == ReshapeMask(h)
      ensures drv.calls == old(drv.calls) + [GlViewport(ViewportOffset(w), ViewportOffset(h), camWidth, camHeight),
                                             GlUniformMatrix4fv(INVALID_LOCATION)]
    {
      camWidth, camHeight := (w & 0x8fc0) as int, (h & 0x8fc0) as int;
      prog.SetProject(drv, camWidth, camHeight, w, h);
    }

    /** `onMouse`. */
    method OnMouse(button: int, state: int, x: int, y: int)
      modifies this`bMovPOI, this`sx, this`sy
      ensures DragState() == MouseStep(old(DragState()), button, state, x, y)
    {
      if button == 0 {
        if state == 0 {
          bMovPOI := true;
          sx, sy := x, y;
        } else {
          bMovPOI := false;
        }
      }
    }

    /** `onMotion`, without the camera move it would compute. */
    method OnMotion(x: int, y: int)
      modifies this`sx, this`sy
      ensures DragState() == MotionStep(old(DragState()), x, y)
    {
      if bMovPOI {
        sx, sy := x, y;
      }
    }
  }
}
