/** The OpenCL and OpenGL drivers, seen from the program.

    Every driver entry point the program calls is one `Call` value. A `Driver`
    object keeps the trace of calls issued so far, in issue order, and answers
    each call through four fixed oracles: the status code it returns, the
    object handle it creates, the text it reports (names, logs) and the list of
    ids it enumerates. Nothing about what the GPU computes is modelled: the
    trace is the observable behaviour of the program. */
module Drivers {

  datatype Option<T> = None | Some(value: T)

  /** What a throwing constructor does: it yields the object, or throws the
      driver's `cl_int` status. */
  datatype Outcome<T> = Made(value: T) | Thrown(code: int)

  /** `try { ... } catch (cl_int) { return nullptr; }`: a thrown code becomes
      a null handle. */
  function Caught<T>(o: Outcome<T>): Option<T>
  {
    match o
    case Made(v) => Some(v)
    case Thrown(_) => None
  }

  /** One byte of host memory. */
  newtype byte = x: int | 0 <= x < 256

  /** The id a query writes into a one-element output array: the first id the
      driver reports (0 when it reports none). */
  function FirstId(ids: seq<nat>): nat
  {
    if ids == [] then 0 else ids[0]
  }

  /** `cl_int` status codes used by the program. */
  const CL_SUCCESS: int := 0

  // OpenCL enumerants (cl.h, cl_gl.h)
  const CL_MEM_READ_WRITE: int := 1
  const CL_MEM_WRITE_ONLY: int := 2
  const CL_MEM_READ_ONLY: int := 4
  const CL_MEM_USE_HOST_PTR: int := 8
  const CL_MEM_ALLOC_HOST_PTR: int := 16
  const CL_MEM_COPY_HOST_PTR: int := 32
  const CL_DEVICE_TYPE_DEFAULT: int := 1
  const CL_DEVICE_TYPE_ALL: int := 0xFFFF_FFFF
  const CL_PLATFORM_VERSION: int := 0x0901
  const CL_PLATFORM_NAME: int := 0x0902
  const CL_DEVICE_NAME: int := 0x102B
  const CL_DEVICE_VENDOR: int := 0x102C
  const CL_DEVICE_PROFILE: int := 0x102E
  const CL_PROGRAM_BUILD_LOG: int := 0x1183
  const CL_CURRENT_DEVICE_FOR_GL_CONTEXT_KHR: int := 0x2006

  // OpenGL enumerants (gl.h, glext.h)
  const GL_TRIANGLES: int := 0x0004
  const GL_TEXTURE_2D: int := 0x0DE1
  const GL_UNSIGNED_BYTE: int := 0x1401
  const GL_FLOAT: int := 0x1406
  const GL_RGB: int := 0x1907
  const GL_RGBA: int := 0x1908
  const GL_NEAREST: int := 0x2600
  const GL_LINEAR: int := 0x2601
  const GL_TEXTURE_MAG_FILTER: int := 0x2800
  const GL_TEXTURE_MIN_FILTER: int := 0x2801
  const GL_TEXTURE_WRAP_S: int := 0x2802
  const GL_TEXTURE_WRAP_T: int := 0x2803
  const GL_CLAMP: int := 0x2900
  const GL_REPEAT: int := 0x2901
  const GL_RGBA32F: int := 0x8814
  const GL_RGB32F: int := 0x8815
  const GL_TEXTURE0: int := 0x84C0
  const GL_ARRAY_BUFFER: int := 0x8892
  const GL_ELEMENT_ARRAY_BUFFER: int := 0x8893
  const GL_PIXEL_UNPACK_BUFFER: int := 0x88EC
  const GL_UNIFORM_BUFFER: int := 0x8A11
  const GL_STREAM_DRAW: int := 0x88E0
  const GL_STREAM_READ: int := 0x88E1
  const GL_STREAM_COPY: int := 0x88E2
  const GL_STATIC_DRAW: int := 0x88E4
  const GL_STATIC_READ: int := 0x88E5
  const GL_STATIC_COPY: int := 0x88E6
  const GL_DYNAMIC_DRAW: int := 0x88E8
  const GL_DYNAMIC_READ: int := 0x88E9
  const GL_DYNAMIC_COPY: int := 0x88EA
  const GL_FRAGMENT_SHADER: int := 0x8B30
  const GL_VERTEX_SHADER: int := 0x8B31
  const GL_COMPILE_STATUS: int := 0x8B81
  const GL_LINK_STATUS: int := 0x8B82
  const GL_GEOMETRY_SHADER: int := 0x8DD9
  const GL_TESS_EVALUATION_SHADER: int := 0x8E87
  const GL_TESS_CONTROL_SHADER: int := 0x8E88
  const GL_COMPUTE_SHADER: int := 0x91B9

  /** What `clSetKernelArg` is given: the bytes of a value, or a memory
      object's handle (passed as the `cl_mem` pointer value). */
  datatype ArgValue = ValueBytes(bytes: seq<byte>) | MemHandle(mem: nat)

  /** One driver entry point with its arguments. Handles are naturals, 0 is
      the null handle (the GL default binding). */
  datatype Call =
    // OpenCL: discovery
    | ClGetPlatformIDs
    | ClGetPlatformInfo(platform: nat, param: int)
    | ClGetDeviceIDs(platform: nat, deviceType: int)
    | ClGetDeviceInfo(device: nat, param: int)
    | ClGetGLContextInfo(platform: nat, param: int)
    | ClCreateContext(platform: nat, device: nat, sharesGL: bool)
    | ClCreateCommandQueue(context: nat, device: nat)
    // OpenCL: memory objects
    | ClCreateBuffer(context: nat, flags: int, size: nat)
    | ClCreateFromGLBuffer(context: nat, flags: int, glBuffer: nat)
    | ClCreateFromGLTexture(context: nat, flags: int, glTarget: int, level: int, glTexture: nat)
    | ClEnqueueAcquireGLObjects(queue: nat, mem: nat)
    | ClEnqueueReleaseGLObjects(queue: nat, mem: nat)
    | ClFlush(queue: nat)
    | ClEnqueueWriteBuffer(queue: nat, mem: nat, blocking: bool, offset: nat, size: nat)
    | ClEnqueueReadBuffer(queue: nat, mem: nat, blocking: bool, offset: nat, size: nat)
    // OpenCL: programs and kernels
    | ClCreateProgramWithSource(context: nat, source: string)
    | ClBuildProgram(program: nat, device: nat)
    | ClGetProgramBuildInfo(program: nat, device: nat, param: int)
    | ClCreateKernel(program: nat, name: string)
    | ClSetKernelArg(kernel: nat, index: nat, size: nat, arg: ArgValue)
    | ClEnqueueNDRangeKernel(queue: nat, kernel: nat, dims: nat, workOffset: seq<nat>,
                             global: seq<nat>, hasLocal: bool, wantsEvent: bool)
    | ClWaitForEvents
    | ClReleaseEvent
    // OpenGL: buffers, textures, vertex arrays
    | GlFlush
    | GlBindBuffer(target: int, buffer: nat)
    | GlBufferData(target: int, size: nat, hasData: bool, usage: int)
    | GlBufferSubData(target: int, offset: nat, size: nat)
    | GlBindTexture(target: int, texture: nat)
    | GlTexParameteri(target: int, pname: int, param: int)
    | GlTexImage2D(target: int, level: int, internalFormat: int, width: int, height: int,
                   format: int, dataType: int, fromHost: bool)
    | GlActiveTexture(unit: int)
    | GlBindVertexArray(vao: nat)
    | GlEnableVertexAttribArray(index: nat)
    | GlVertexAttribPointer(index: nat, components: int, dataType: int, normalized: bool,
                            stride: int, pointer: int)
    | GlDrawArrays(mode: int, first: int, count: int)
    | GlViewport(x: int, y: int, width: int, height: int)
    | GlUniformMatrix4fv(location: int)
    // OpenGL: shaders and programs
    | GlCreateShader(shaderType: int)
    | GlShaderSource(shader: nat, source: string)
    | GlCompileShader(shader: nat)
    | GlGetShaderiv(shader: nat, param: int)
    | GlGetShaderInfoLog(shader: nat)
    | GlDeleteShader(shader: nat)
    | GlCreateProgram
    | GlGenBuffers
    | GlAttachShader(program: nat, shader: nat)
    | GlLinkProgram(program: nat)
    | GlGetProgramiv(program: nat, param: int)
    | GlGetProgramInfoLog(program: nat)
    | GlDeleteProgram(program: nat)
    | GlGetUniformLocation(program: nat, name: string)
    | GlUniform1i(location: int, value: int)

  /** The two drivers as one object: the trace of calls issued so far and the
      fixed answers to every call. */
  class Driver {
    var calls: seq<Call>
    const status: Call -> int
    const handle: (Call, nat) -> nat
    const text: Call -> string
    const list: Call -> seq<nat>

    constructor (status: Call -> int, handle: (Call, nat) -> nat, text: Call -> string, list: Call -> seq<nat>)
      ensures calls == []
      ensures this.status == status && this.handle == handle
      ensures this.text == text && this.list == list
    {
      calls := [];
      this.status := status;
      this.handle := handle;
      this.text := text;
      this.list := list;
    }

    /** Issue one call; `ret` is the integer the driver answers. */
    method Issue(c: Call) returns (ret: int)
      modifies this
      ensures calls == old(calls) + [c]
      ensures ret == status(c)
    {
      calls := calls + [c];
      ret := status(c);
    }

    /** Issue a sequence of calls in order, ignoring what they return. */
    method IssueAll(cs: seq<Call>)
      modifies this
      ensures calls == old(calls) + cs
    {
      var i := 0;
      while i < |cs|
        invariant 0 <= i <= |cs|
        invariant calls == old(calls) + cs[..i]
      {
        calls := calls + [cs[i]];
        assert cs[..i + 1] == cs[..i] + [cs[i]];
        i := i + 1;
      }
      assert cs[..i] == cs;
    }

    /** Issue one call that both answers a status and writes back an id. */
    method Query(c: Call) returns (ret: int, h: nat)
      modifies this
      ensures calls == old(calls) + [c]
      ensures ret == status(c) && h == handle(c, |old(calls)|)
    {
      h := handle(c, |calls|);
      calls := calls + [c];
      ret := status(c);
    }

    /** Issue one call that creates an object; `h` is the new handle. */
    method Create(c: Call) returns (h: nat)
      modifies this
      ensures calls == old(calls) + [c]
      ensures h == handle(c, |old(calls)|)
    {
      h := handle(c, |calls|);
      calls := calls + [c];
    }
  }

  /** The latest effect a trace has on some piece of driver state: `effect`
      says which calls set that state and to what; `initial` is the state
      before any such call. */
  function Last<T>(calls: seq<Call>, effect: Call -> Option<T>, initial: T): T
  {
    if calls == [] then initial
    else match effect(calls[|calls| - 1])
      case Some(v) => v
      case None => Last(calls[..|calls| - 1], effect, initial)
  }

  /** No call of the trace has an effect on the state. */
  predicate Untouched<T>(calls: seq<Call>, effect: Call -> Option<T>)
  {
    forall i :: 0 <= i < |calls| ==> effect(calls[i]).None?
  }

  /** Calls without an effect leave the state as it was. */
  lemma {:induction false} LastUntouched<T>(a: seq<Call>, b: seq<Call>, effect: Call -> Option<T>, initial: T)
    requires Untouched(b, effect)
    ensures Last(a + b, effect, initial) == Last(a, effect, initial)
  {
    if b != [] {
      var b' := b[..|b| - 1];
      assert (a + b)[..|a + b| - 1] == a + b';
      assert (a + b)[|a + b| - 1] == b[|b| - 1];
      assert Untouched(b', effect) by {
        forall i | 0 <= i < |b'| ensures effect(b'[i]).None? {
          assert b'[i] == b[i];
        }
      }
      LastUntouched(a, b', effect, initial);
    } else {
      assert a + b == a;
    }
  }

  /** One more call changes the state exactly when it has an effect. */
  lemma LastSnoc<T>(s: seq<Call>, c: Call, effect: Call -> Option<T>, initial: T)
    ensures effect(c).Some? ==> Last(s + [c], effect, initial) == effect(c).value
    ensures effect(c).None? ==> Last(s + [c], effect, initial) == Last(s, effect, initial)
  {
    assert (s + [c])[..|s|] == s;
  }

  /** A GL binding point: one per buffer target, one per texture target, and
      the vertex-array binding. */
  datatype BindPoint = BufferTarget(target: int) | TextureTarget(target: int) | VertexArray

  function BindEffect(p: BindPoint): Call -> Option<nat>
  {
    (c: Call) =>
      if c.GlBindBuffer? && p == BufferTarget(c.target) then Some(c.buffer)
      else if c.GlBindTexture? && p == TextureTarget(c.target) then Some(c.texture)
      else if c.GlBindVertexArray? && p == VertexArray then Some(c.vao)
      else None
  }

  /** The object bound at `p` after the trace (0 when nothing was bound). */
  function BoundAt(calls: seq<Call>, p: BindPoint): nat
  {
    Last(calls, BindEffect(p), 0)
  }

  /** Whether the compute side owns the interop object `mem` after the trace:
      a successful acquire hands it to compute, a successful release hands it
      back to graphics; failed calls hand nothing over. */
  function OwnEffect(status: Call -> int, mem: nat): Call -> Option<bool>
  {
    (c: Call) =>
      if c.ClEnqueueAcquireGLObjects? && c.mem == mem && status(c) == CL_SUCCESS then Some(true)
      else if c.ClEnqueueReleaseGLObjects? && c.mem == mem && status(c) == CL_SUCCESS then Some(false)
      else None
  }

  function ComputeOwns(calls: seq<Call>, status: Call -> int, mem: nat): bool
  {
    Last(calls, OwnEffect(status, mem), false)
  }
}
