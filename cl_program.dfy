/** OpenCL programs and kernels (`_oclProgram`, `_oclKernel`, oclUtil.h and
    oclUtil.cpp): loading and building a program, creating kernels, binding
    kernel arguments and enqueueing a run. */
module ClProgram {

  import opened Drivers
  import opened ClMem
  import opened ClPlatform

  // ------------------------------------------------------- decimal numbers

  function DigitChar(d: nat): (c: char)
    requires d < 10
    ensures '0' <= c <= '9'
  {
    ('0' as int + d) as char
  }

  predicate AllDigits(s: string)
  {
    forall i :: 0 <= i < |s| ==> '0' <= s[i] <= '9'
  }

  /** The decimal digits of `n`, most significant first. */
  function Digits(n: nat): (s: string)
    ensures |s| >= 1 && AllDigits(s)
    ensures s[0] == '0' ==> n == 0
  {
    if n < 10 then [DigitChar(n)] else Digits(n / 10) + [DigitChar(n % 10)]
  }

  /** `%d`: an optional minus sign, then the digits. */
  function Decimal(n: int): string
  {
    if n < 0 then "-" + Digits(-n) else Digits(n)
  }

  /** The value of a string of decimal digits. */
  function DigitsValue(s: string): nat
    requires AllDigits(s)
  {
    if s == [] then 0 else DigitsValue(s[..|s| - 1]) * 10 + (s[|s| - 1] as int - '0' as int)
  }

  function ParseDecimal(s: string): int
    requires (|s| > 0 && s[0] == '-' ==> AllDigits(s[1..])) && (|s| > 0 && s[0] != '-' ==> AllDigits(s))
  {
    if |s| == 0 then 0
    else if s[0] == '-' then -(DigitsValue(s[1..]) as int)
    else DigitsValue(s)
  }

  lemma {:induction false} DigitsRoundTrip(n: nat)
    ensures DigitsValue(Digits(n)) == n
  {
    if n >= 10 {
      DigitsRoundTrip(n / 10);
      var s := Digits(n);
      assert s[..|s| - 1] == Digits(n / 10);
    }
  }

  /** `%d` loses nothing: the number can be read back from its text. */
  lemma DecimalRoundTrip(n: int)
    ensures var s := Decimal(n); (|s| > 0 && s[0] == '-' ==> AllDigits(s[1..])) && (|s| > 0 && s[0] != '-' ==> AllDigits(s))
    ensures ParseDecimal(Decimal(n)) == n
  {
    if n < 0 {
      DigitsRoundTrip(-n);
      assert Decimal(n)[1..] == Digits(-n);
    } else {
      DigitsRoundTrip(n);
    }
  }

  // -------------------------------------------------------------- programs

  const CANNOT_OPEN: string := "cannot open file\n"
  const CREATE_FAILED: string := "Fail when create program, error code: "

  /** The message of a failed `clCreateProgramWithSource`. */
  function CreateFailedMessage(code: int): string
  {
    CREATE_FAILED + Decimal(code)
  }

  /** The error code can be read back from the message. */
  lemma CreateFailedMessageCode(code: int)
    ensures |CreateFailedMessage(code)| > |CREATE_FAILED|
    ensures CreateFailedMessage(code)[..|CREATE_FAILED|] == CREATE_FAILED
    ensures var tail := CreateFailedMessage(code)[|CREATE_FAILED|..];
      (tail[0] == '-' ==> AllDigits(tail[1..])) && (tail[0] != '-' ==> AllDigits(tail))
      && ParseDecimal(tail) == code
  {
    var tail := CreateFailedMessage(code)[|CREATE_FAILED|..];
    assert tail == Decimal(code);
    DecimalRoundTrip(code);
  }

  function CreateProgramCall(context: nat, src: string): Call
  {
    ClCreateProgramWithSource(context, src)
  }

  /** `_oclProgram`: the platform it is built for, the program object and its
      source text. */
  class Program {
    const plat: Platform
    var program: nat
    var src: string

    /** The constructor initialises the platform (a no-op when it already
        was). */
    constructor (drv: Driver, plat: Platform)
      modifies plat`isFirst, plat`context, plat`defDev, drv
      ensures this.plat == plat && program == 0 && src == ""
      ensures !plat.isFirst
      ensures !old(plat.isFirst) ==> drv.calls == old(drv.calls) && plat.context == old(plat.context)
      ensures old(plat.isFirst) ==> drv.calls == old(drv.calls) + [ClCreateContext(plat.pID, plat.defDevID, false)]
      ensures old(plat.isFirst) ==> plat.context == drv.handle(ClCreateContext(plat.pID, plat.defDevID, false), |old(drv.calls)|)
                                    && plat.defDev == LastMatching(plat.devs, plat.defDevID, old(plat.defDev))
      ensures !old(plat.isFirst) ==> plat.defDev == old(plat.defDev)
    {
      plat.Init(drv);
      this.plat := plat;
      program := 0;
      src := "";
    }

    /** `load`, with the file's contents given as `file` (None when it cannot
        be opened). Three ways to fail, each with its message: the file
        cannot be opened, the program cannot be created (the message carries
        the error code) or it does not build (the message is the build log).
        On success `msg` is left as it was. */
    method Load(drv: Driver, file: Option<string>, msg: string) returns (ok: bool, msg': string)
      modifies this`program, this`src, drv
      ensures ok <==> file.Some? && drv.status(CreateProgramCall(plat.context, file.value)) == CL_SUCCESS
                      && drv.status(ClBuildProgram(program, plat.defDevID)) == CL_SUCCESS
      ensures file.None? ==> msg' == CANNOT_OPEN && drv.calls == old(drv.calls)
                             && program == old(program) && src == old(src)
      ensures file.Some? ==> src == file.value
                             && program == drv.handle(CreateProgramCall(plat.context, file.value), |old(drv.calls)|)
      ensures file.Some? && drv.status(CreateProgramCall(plat.context, file.value)) != CL_SUCCESS ==>
                msg' == CreateFailedMessage(drv.status(CreateProgramCall(plat.context, file.value)))
                && drv.calls == old(drv.calls) + [CreateProgramCall(plat.context, file.value)]
      ensures ok ==> msg' == msg
                     && drv.calls == old(drv.calls) + [CreateProgramCall(plat.context, file.value), ClBuildProgram(program, plat.defDevID)]
      ensures file.Some? && drv.status(CreateProgramCall(plat.context, file.value)) == CL_SUCCESS && !ok ==>
                msg' == drv.text(ClGetProgramBuildInfo(program, plat.defDevID, CL_PROGRAM_BUILD_LOG))
                && drv.calls == old(drv.calls) + [CreateProgramCall(plat.context, file.value), ClBuildProgram(program, plat.defDevID),
                                                  ClGetProgramBuildInfo(program, plat.defDevID, CL_PROGRAM_BUILD_LOG)]
    {
      if file.None? {
        return false, CANNOT_OPEN;
      }
      src := file.value;
      var ret, id := drv.Query(CreateProgramCall(plat.context, src));
      program := id;
      if ret != CL_SUCCESS {
        return false, CreateFailedMessage(ret);
      }
      ret := drv.Issue(ClBuildProgram(program, plat.defDevID));
      if ret != CL_SUCCESS {
        var _ := drv.Issue(ClGetProgramBuildInfo(program, plat.defDevID, CL_PROGRAM_BUILD_LOG));
        return false, drv.text(ClGetProgramBuildInfo(program, plat.defDevID, CL_PROGRAM_BUILD_LOG));
      }
      return true, msg;
    }
  }

  // --------------------------------------------------------------- kernels

  /** `_oclKernel`: the kernel object. */
  datatype Kernel = Kernel(kernel: nat)

  /** `getKernel`: the kernel named `name` of the program, or null when the
      driver cannot create it. */
  method GetKernel(drv: Driver, prog: Program, name: string) returns (k: Option<Kernel>)
    modifies drv
    ensures drv.calls == old(drv.calls) + [ClCreateKernel(prog.program, name)]
    ensures k.Some? <==> drv.status(ClCreateKernel(prog.program, name)) == CL_SUCCESS
    ensures k.Some? ==> k.value.kernel == drv.handle(ClCreateKernel(prog.program, name), |old(drv.calls)|)
  {
    var o := NewKernel(drv, prog, name);
    k := Caught(o);
  }

  /** The `_oclKernel` constructor, which throws the driver's code. */
  method NewKernel(drv: Driver, prog: Program, name: string) returns (o: Outcome<Kernel>)
    modifies drv
    ensures drv.calls == old(drv.calls) + [ClCreateKernel(prog.program, name)]
    ensures o.Made? <==> drv.status(ClCreateKernel(prog.program, name)) == CL_SUCCESS
    ensures o.Thrown? ==> o.code == drv.status(ClCreateKernel(prog.program, name))
    ensures o.Made? ==> o.value.kernel == drv.handle(ClCreateKernel(prog.program, name), |old(drv.calls)|)
  {
    var ret, id := drv.Query(ClCreateKernel(prog.program, name));
    if ret != CL_SUCCESS {
      return Thrown(ret);
    }
    return Made(Kernel(id));
  }

  /** `sizeof(cl_mem)`: a pointer on a 64-bit target. */
  const POINTER_SIZE: nat := 8

  /** C `int`. */
  type int32 = x: int | -0x8000_0000 <= x < 0x8000_0000

  /** The four bytes of an `int`, least significant first. */
  function Int32Bytes(v: int32): (b: seq<byte>)
    ensures |b| == 4
  {
    var u := if v < 0 then v + 0x1_0000_0000 else v;
    var a := u / 256;
    var c := a / 256;
    [(u % 256) as byte, (a % 256) as byte, (c % 256) as byte, (c / 256) as byte]
  }

  /** The `int` four bytes hold. */
  function Int32Value(b: seq<byte>): int
    requires |b| == 4
  {
    var u := b[0] as int + 256 * (b[1] as int + 256 * (b[2] as int + 256 * b[3] as int));
    if u >= 0x8000_0000 then u - 0x1_0000_0000 else u
  }

  /** The bytes bound for an `int` argument are that `int`. */
  lemma Int32RoundTrip(v: int32)
    ensures Int32Value(Int32Bytes(v)) == v
  {
    var u := if v < 0 then v + 0x1_0000_0000 else v;
    var a := u / 256;
    var c := a / 256;
    assert u == u % 256 + 256 * a;
    assert a == a % 256 + 256 * c;
    assert c == c % 256 + 256 * (c / 256);
  }

  function SetArgCall(k: Kernel, idx: nat, size: nat, arg: ArgValue): Call
  {
    ClSetKernelArg(k.kernel, idx, size, arg)
  }

  /** `setArg(idx, mem)`: the argument is the memory object's handle, a
      pointer-sized value. */
  method SetArgMem(drv: Driver, k: Kernel, idx: nat, m: Mem) returns (ok: bool)
    modifies drv
    ensures drv.calls == old(drv.calls) + [SetArgCall(k, idx, POINTER_SIZE, MemHandle(m.memID))]
    ensures ok <==> drv.status(SetArgCall(k, idx, POINTER_SIZE, MemHandle(m.memID))) == CL_SUCCESS
  {
    var ret := drv.Issue(ClSetKernelArg(k.kernel, idx, 8, MemHandle(m.memID)));
    return ret == CL_SUCCESS;
  }

  /** `setArg<T>(idx, dat)`: the bytes of `dat`, exactly `sizeof(T)` of
      them. */
  method SetArgValue(drv: Driver, k: Kernel, idx: nat, bytes: seq<byte>) returns (ok: bool)
    modifies drv
    ensures drv.calls == old(drv.calls) + [SetArgCall(k, idx, |bytes|, ValueBytes(bytes))]
    ensures ok <==> drv.status(SetArgCall(k, idx, |bytes|, ValueBytes(bytes))) == CL_SUCCESS
  {
    var ret := drv.Issue(ClSetKernelArg(k.kernel, idx, |bytes|, ValueBytes(bytes)));
    return ret == CL_SUCCESS;
  }

  /** `setArg<int>`: four bytes. */
  method SetArgInt(drv: Driver, k: Kernel, idx: nat, v: int32) returns (ok: bool)
    modifies drv
    ensures drv.calls == old(drv.calls) + [SetArgCall(k, idx, 4, ValueBytes(Int32Bytes(v)))]
    ensures ok <==> drv.status(SetArgCall(k, idx, 4, ValueBytes(Int32Bytes(v)))) == CL_SUCCESS
  {
    ok := SetArgValue(drv, k, idx, Int32Bytes(v));
  }

  /** The elements of an array laid out one after the other. */
  function Concat(elems: seq<seq<byte>>): seq<byte>
  {
    if elems == [] then [] else Concat(elems[..|elems| - 1]) + elems[|elems| - 1]
  }

  /** An array of `N` elements of `elemSize` bytes occupies `elemSize * N`
      bytes, element `i` at byte `elemSize * i`. */
  lemma {:induction false} ConcatLayout(elems: seq<seq<byte>>, elemSize: nat)
    requires forall i :: 0 <= i < |elems| ==> |elems[i]| == elemSize
    ensures |Concat(elems)| == elemSize * |elems|
    ensures forall i, j :: 0 <= i < |elems| && 0 <= j < elemSize ==>
              elemSize * i + j < |Concat(elems)| && Concat(elems)[elemSize * i + j] == elems[i][j]
  {
    if elems != [] {
      var init := elems[..|elems| - 1];
      ConcatLayout(init, elemSize);
      var c, n := Concat(elems), |init|;
      assert c == Concat(init) + elems[n];
      SlotsGrow(elemSize, n);
      assert |c| == elemSize * n + elemSize;
      forall i, j | 0 <= i < |elems| && 0 <= j < elemSize
        ensures elemSize * i + j < |c| && c[elemSize * i + j] == elems[i][j]
      {
        if i < n {
          SlotBelow(elemSize, i, j, n);
          assert init[i] == elems[i];
        } else {
          assert elemSize * i + j == elemSize * n + j;
        }
      }
    }
  }

  lemma SlotsGrow(size: nat, n: nat)
    ensures size * (n + 1) == size * n + size
  {
  }

  /** Byte `j` of slot `i` lies before slot `n` when `i < n`. */
  lemma SlotBelow(size: nat, i: nat, j: nat, n: nat)
    requires i < n && j < size
    ensures size * i + j < size * n
  {
    calc {
      size * i + j;
    <  size * i + size;
    == size * (i + 1);
    <= size * n;
    }
  }

  /** `setArg<T, N>(idx, dat)`: the whole array, `sizeof(T) * N` bytes from
      `dat[0]`. */
  method SetArgArray(drv: Driver, k: Kernel, idx: nat, elems: seq<seq<byte>>, elemSize: nat) returns (ok: bool)
    requires forall i :: 0 <= i < |elems| ==> |elems[i]| == elemSize
    modifies drv
    ensures drv.calls == old(drv.calls) + [SetArgCall(k, idx, elemSize * |elems|, ValueBytes(Concat(elems)))]
    ensures ok <==> drv.status(SetArgCall(k, idx, elemSize * |elems|, ValueBytes(Concat(elems)))) == CL_SUCCESS
  {
    var ret := drv.Issue(ClSetKernelArg(k.kernel, idx, elemSize * |elems|, ValueBytes(Concat(elems))));
    return ret == CL_SUCCESS;
  }

  /** The default work offset: zeros in every dimension. */
  function Zeros(n: nat): (z: seq<nat>)
    ensures |z| == n && forall i :: 0 <= i < n ==> z[i] == 0
  {
    seq(n, _ => 0)
  }

  function EnqueueCall(k: Kernel, q: Queue, ws: seq<nat>, offset: seq<nat>, blocking: bool): Call
  {
    ClEnqueueNDRangeKernel(q.cmdQue, k.kernel, |ws|, offset, ws, false, blocking)
  }

  /** What `run<N>` issues: the enqueue (no local size), and in blocking mode
      a wait on its event and the event's release. */
  function RunCalls(k: Kernel, q: Queue, ws: seq<nat>, offset: seq<nat>, blocking: bool): seq<Call>
  {
    if blocking then [EnqueueCall(k, q, ws, offset, true), ClWaitForEvents, ClReleaseEvent]
    else [EnqueueCall(k, q, ws, offset, false)]
  }

  /** `run<N>`: an N-dimensional range of `ws`; the result is whether the
      enqueue succeeded, whatever the wait returns. */
  method Run(drv: Driver, k: Kernel, q: Queue, ws: seq<nat>, blocking: bool, offset: seq<nat>) returns (ok: bool)
    requires |offset| == |ws|
    modifies drv
    ensures drv.calls == old(drv.calls) + RunCalls(k, q, ws, offset, blocking)
    ensures ok <==> drv.status(EnqueueCall(k, q, ws, offset, blocking)) == CL_SUCCESS
  {
    var ret := drv.Issue(EnqueueCall(k, q, ws, offset, blocking));
    if blocking {
      var _ := drv.Issue(ClWaitForEvents);
      var _ := drv.Issue(ClReleaseEvent);
    }
    return ret == CL_SUCCESS;
  }
}
