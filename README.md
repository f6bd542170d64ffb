# AdvectedTexture: the OpenCL/OpenGL interop core, in Dafny

AdvectedTexture draws a full-screen texture whose pixels an OpenCL kernel
computes each frame, straight into an OpenGL pixel buffer shared with the
compute side. This project models the control logic around the driver calls:

- the shared memory objects and their lock/unlock ownership protocol (`ClMem`);
- platform discovery, GL-interop filtering, context creation and the choice
  of default device (`ClPlatform`);
- the error-name table (`ClErrors`);
- program loading, kernel creation, argument binding and kernel runs
  (`ClProgram`);
- the OpenGL helpers: buffers, textures and their property chains,
  vertex-array descriptor chains, shaders, and the uniform-location cache
  (`GlUtil`);
- the application: the per-frame dispatch `runCL`, mode cycling, reshape and
  the mouse drag (`App`).

Both drivers are one `Drivers.Driver` object. It holds the trace `calls` of
every call issued so far, in order. It answers each call through fixed
oracles: a status code, the handle of a created object, a text (names and
logs) and a list of ids. Every operation is a method that appends its calls
to the trace. Its `ensures` gives the exact calls issued and ties its result
to the oracles' answers. Properties are stated on the trace:

- `BoundAt` is the object bound at a GL binding point after a trace;
- `ComputeOwns` is whether the compute side owns an interop object after a
  trace (the last successful acquire or release decides);
- `KernelsRun` is the kernels a trace enqueues, in order.

A C++ constructor that throws a `cl_int` becomes an `Outcome` (`Made` or
`Thrown`). The `catch` that turns a throw into a null `shared_ptr` becomes
`Caught`, which yields an `Option`. Objects the program never changes after
construction are datatypes: memory objects, kernels, queues, devices, GL
buffers, textures and vertex arrays. Objects whose fields it updates are
classes: `_oclPlatfrom`, the static state of `oclUtil`, `_oclProgram`,
`oglProgram`, and the globals of main.cpp.

Three points of the code shape the model of a frame:

- `unlock` flushes the queue first and only then enqueues the release of the
  shared buffer (oclUtil.cpp:142-149).
- Every mode dispatches over the camera size and writes only the one shared
  pixel buffer.
- Mode 2 runs two kernels in sequence: noise base, then noise combination.

## Model

| member | source | states |
|---|---|---|
| ClErrors.ErrorString | AdvectedTexture/oclUtil/oclUtil.cpp:381-457 | the table is total: a code gets a name other than the fallback exactly when it is a listed code (0..-19, -30..-68, -1000..-1005); every other code, -20..-29 included, gets "Unknown OpenCL error" |
| ClErrors.RunTimeName | AdvectedTexture/oclUtil/oclUtil.cpp:385-405 | each run-time code 0..-19 gets a name other than the fallback "Unknown OpenCL error" |
| ClErrors.CompileTimeName | AdvectedTexture/oclUtil/oclUtil.cpp:407-446 | each compile-time code -30..-68 gets a name other than the fallback "Unknown OpenCL error" |
| ClErrors.ExtensionName | AdvectedTexture/oclUtil/oclUtil.cpp:448-454 | each extension code -1000..-1005 gets a name other than the fallback "Unknown OpenCL error" |
| ClMem.NewDeviceMem | AdvectedTexture/oclUtil/oclUtil.cpp:106-113 | issues one `clCreateBuffer` with the type's flags and size; it yields a device-private object of that size and the driver's handle exactly when the driver answers CL_SUCCESS, and otherwise throws the driver's code |
| ClMem.NewBufferMem | AdvectedTexture/oclUtil/oclUtil.cpp:115-122 | issues one `clCreateFromGLBuffer` on the buffer's id; on success it yields an interop object with the sentinel size 0x7fffffff, otherwise it throws the driver's code |
| ClMem.NewTextureMem | AdvectedTexture/oclUtil/oclUtil.cpp:124-131 | issues one `clCreateFromGLTexture` on mip level 0 of the texture's target and id; on success it yields an interop object with the sentinel size, otherwise it throws the driver's code |
| ClMem.Lock | AdvectedTexture/oclUtil/oclUtil.cpp:133-140 | a device-private object: returns false and issues nothing. An interop object: a GL flush, then the acquire, and the result is true exactly when the acquire answered CL_SUCCESS |
| ClMem.Unlock | AdvectedTexture/oclUtil/oclUtil.cpp:142-149 | a device-private object: returns false and issues nothing. An interop object: a queue flush, then the release, and the result is true exactly when the release answered CL_SUCCESS |
| ClMem.TransferSize | AdvectedTexture/oclUtil/oclUtil.cpp:151-161 | the bytes a transfer moves are `min(requested, size)`: at most both, and equal to one of them |
| ClMem.InteropUnclamped | AdvectedTexture/oclUtil/oclUtil.cpp:115-131 | because of the sentinel size, an interop object moves every requested byte count up to 0x7fffffff |
| ClMem.Write | AdvectedTexture/oclUtil/oclUtil.cpp:151-155 | one enqueued write of `min(requested, size)` bytes at offset 0, blocking as asked; true exactly when the driver accepts it |
| ClMem.Read | AdvectedTexture/oclUtil/oclUtil.cpp:157-161 | one enqueued read of `min(requested, size)` bytes at offset 0, blocking as asked; true exactly when the driver accepts it |
| ClMem.LockOwnership | AdvectedTexture/oclUtil/oclUtil.cpp:133-140 | after `lock`, the compute side owns the object exactly when the acquire succeeded or it already owned it |
| ClMem.UnlockOwnership | AdvectedTexture/oclUtil/oclUtil.cpp:142-149 | after `unlock`, the compute side still owns the object exactly when the release failed and it owned it before |
| ClMem.LockedSpan | AdvectedTexture/main.cpp:140-170 | for lock, work that neither acquires nor releases, then unlock, with both succeeding: compute owns the object at every point of the work, and graphics owns it after the unlock |
| ClPlatform.QueryDevices | AdvectedTexture/oclUtil/oclUtil.cpp:183-192 | one device per reported id, in order, each with the name, vendor and profile the driver reports; the three info queries per device are issued in that order |
| ClPlatform.QueryPlatform | AdvectedTexture/oclUtil/oclUtil.cpp:170-193 | the platform's name and version, then the default-device query, the device count, the id list and every device's info, as the driver reports them |
| ClPlatform.LastMatchingNone | AdvectedTexture/oclUtil/oclUtil.cpp:206-210 | with no device of the default id, the default device stays as it was |
| ClPlatform.LastMatchingAt | AdvectedTexture/oclUtil/oclUtil.cpp:206-210 | the device at position j, when no later device has the same id, is the one chosen |
| ClPlatform.LastMatchingIsLast | AdvectedTexture/oclUtil/oclUtil.cpp:206-210 | the default device is the last device in `devs` whose id is `defDevID`, or the previous default when there is none |
| ClPlatform.Platform.constructor | AdvectedTexture/oclUtil/oclUtil.cpp:170-193 | a new platform has `isFirst` set and no context; `defDevID` is the first default-type device, `devs` lists every device, and name and version are the driver's |
| ClPlatform.Platform.SelectDefault | AdvectedTexture/oclUtil/oclUtil.cpp:206-210 | the loop over `devs` leaves in `defDev` the last device whose id is `defDevID` |
| ClPlatform.Platform.Init | AdvectedTexture/oclUtil/oclUtil.cpp:195-211 | once-only: the first call creates a context on the default device and selects the default device; later calls issue nothing and change nothing |
| ClPlatform.Platform.GlInit | AdvectedTexture/oclUtil/oclUtil.cpp:213-224 | creates a GL-sharing context unconditionally, clears `isFirst` and selects the default device |
| ClPlatform.Platform.CreateBufferMem | AdvectedTexture/oclUtil/oclUtil.cpp:232-243 | a read-write interop object on the platform's context, or null exactly when the driver refuses |
| ClPlatform.Platform.CreateTextureMem | AdvectedTexture/oclUtil/oclUtil.cpp:245-256 | a read-write interop texture object with the driver's handle, or null exactly when the driver refuses |
| ClPlatform.Platform.CreateDeviceMem | AdvectedTexture/oclUtil/oclUtil.cpp:258-269 | a device-private object of the asked type and size with the driver's handle, or null exactly when the driver refuses |
| ClPlatform.InteropIDsMembers | AdvectedTexture/oclUtil/oclUtil.cpp:47-77 | the interop filter keeps exactly the platforms whose GL-context query succeeds, and never adds any |
| ClPlatform.InteropIDsAppend | AdvectedTexture/oclUtil/oclUtil.cpp:51-75 | the filter is stable: filtering a concatenation concatenates the filtered parts |
| ClPlatform.PlatformIDsSnoc | AdvectedTexture/oclUtil/oclUtil.cpp:31-37 | appending a platform appends its id |
| ClPlatform.GlPlatformFor | AdvectedTexture/oclUtil/oclUtil.cpp:65-74 | a new platform exactly when the GL-context query succeeds; it is initialised with `defDevID` the queried device, its default device is the last device of that id, and its context is the one created last, sharing GL on that device; the driver sees the query, then on success the constructor's queries and that context creation, and nothing else |
| ClPlatform.Registry.constructor | AdvectedTexture/oclUtil/oclUtil.cpp:18-21 | the registry starts empty with its once-only flag set |
| ClPlatform.Registry.Init | AdvectedTexture/oclUtil/oclUtil.cpp:19-39 | once-only: the first call appends one new, uninitialised platform per enumerated id, in driver order; later calls leave `plfs` and the trace unchanged |
| ClPlatform.Registry.AddPlatforms | AdvectedTexture/oclUtil/oclUtil.cpp:31-37 | the loop appends one fresh platform per id, in order, and keeps the earlier ones |
| ClPlatform.Registry.AddPlatform | AdvectedTexture/oclUtil/oclUtil.cpp:33-36 | one `push_back` of a fresh platform for the id |
| ClPlatform.Registry.GetPlatforms | AdvectedTexture/oclUtil/oclUtil.cpp:41-45 | returns the registry's list; the first call enumerates, so the list gains one platform per id the driver lists, with exactly the enumeration calls; once initialised, every call returns the same list and issues nothing |
| ClPlatform.Registry.GetGLInteropPlatforms | AdvectedTexture/oclUtil/oclUtil.cpp:47-77 | returns, in registry order, one new interop-ready platform (context created to share GL on the queried device) for each registered platform whose GL-context query succeeds; on the first call the registered platforms are those the enumeration adds, one per listed id; the driver sees the enumeration on the first call only, then each platform's interop calls in registry order |
| ClPlatform.InteropPlatforms | AdvectedTexture/oclUtil/oclUtil.cpp:51-76 | the loop of `getGLinterOPPlatforms`: the ids it returns are the interop filter of the input ids, each platform is fresh and interop-ready with a GL-sharing context, and the driver trace is the per-platform interop calls in input order |
| ClPlatform.GetCommandQueue | AdvectedTexture/oclUtil/oclUtil.cpp:84-89 | initialises the platform if it was not yet (a fresh context on its default device id, the default device the last device of that id; otherwise context and default device unchanged), then creates a queue on its context for the device |
| ClPlatform.GetDefaultCommandQueue | AdvectedTexture/oclUtil/oclUtil.cpp:79-82 | the same, for the platform's default device |
| ClProgram.DigitsRoundTrip | AdvectedTexture/oclUtil/oclUtil.cpp:342 | reading back the decimal digits of a natural gives the natural |
| ClProgram.DecimalRoundTrip | AdvectedTexture/oclUtil/oclUtil.cpp:342 | `%d` formatting is read back as the same integer, negatives included |
| ClProgram.CreateFailedMessageCode | AdvectedTexture/oclUtil/oclUtil.cpp:340-345 | the create-failure message is the fixed prefix followed by the decimal error code, from which the code can be read back |
| ClProgram.Program.constructor | AdvectedTexture/oclUtil/oclUtil.cpp:302-305 | building a program object initialises its platform (once only): on the first initialisation a fresh context on the default device id and the default device the last device of that id; otherwise context and default device unchanged and nothing issued |
| ClProgram.Program.Load | AdvectedTexture/oclUtil/oclUtil.cpp:314-356 | three failures, each with its message and calls: no file ("cannot open file", nothing issued); creation fails (message with the code, nothing built); build fails (message is the build log). Success exactly when both driver calls succeed, with `msg` untouched |
| ClProgram.GetKernel | AdvectedTexture/oclUtil/oclUtil.cpp:91-102 | the named kernel with the driver's handle, or null exactly when creation fails |
| ClProgram.NewKernel | AdvectedTexture/oclUtil/oclUtil.cpp:360-366 | `clCreateKernel` on the program; throws the driver's code on failure |
| ClProgram.Int32RoundTrip | oclUtil/oclUtil.h:141-146 | the four bytes `setArg<int>` passes decode back to the value |
| ClProgram.SetArgMem | AdvectedTexture/oclUtil/oclUtil.cpp:373-377 | binds the object's handle as `sizeof(cl_mem)` bytes at the index; true exactly on CL_SUCCESS |
| ClProgram.SetArgValue | oclUtil/oclUtil.h:141-146 | binds exactly `sizeof(T)` bytes, the value's, at the index; true exactly on CL_SUCCESS |
| ClProgram.SetArgInt | oclUtil/oclUtil.h:141-146 | an `int` argument binds its 4 bytes; true exactly on CL_SUCCESS |
| ClProgram.ConcatLayout | oclUtil/oclUtil.h:147-152 | an array of N elements of `sizeof(T)` bytes is `sizeof(T)*N` bytes, element i's byte j at offset `sizeof(T)*i + j` |
| ClProgram.SetArgArray | oclUtil/oclUtil.h:147-152 | binds exactly `sizeof(T)*N` bytes from `dat[0]`; true exactly on CL_SUCCESS |
| ClProgram.Run | oclUtil/oclUtil.h:154-168 | one N-dimensional enqueue of the work sizes without a local size; in blocking mode, a wait on its event and the event's release follow. The result is true exactly when the enqueue succeeded, whatever the wait answers |
| GlUtil.BracketBinding | AdvectedTexture/oglUtil/oglUtil.cpp:164-169 | a bind/act/unbind bracket whose body does not rebind: the object is bound throughout the body, and the binding point is 0 afterwards |
| GlUtil.WriteBuffer | AdvectedTexture/oglUtil/oglUtil.cpp:164-169 | binds the buffer to its target, uploads `size` bytes with the mode's usage, then unbinds to 0 |
| GlUtil.ParseFormat | AdvectedTexture/oglUtil/oglUtil.cpp:190-215 | the internal format is the format's own enumerant; the data type is FLOAT exactly for RGBf and RGBAf (else UNSIGNED_BYTE); the components are RGBA exactly for RGBA and RGBAf (else RGB) |
| GlUtil.SetDataFromHost | AdvectedTexture/oglUtil/oglUtil.cpp:227-236 | binds the texture, then uploads level 0 from host memory with the parsed format |
| GlUtil.SetDataFromBuffer | AdvectedTexture/oglUtil/oglUtil.cpp:238-250 | binds the texture and the buffer as pixel-unpack source, uploads with a null data pointer, then unbinds pixel-unpack |
| GlUtil.SetDataFromBufferBindings | AdvectedTexture/oglUtil/oglUtil.cpp:238-250 | the buffer is bound as pixel-unpack during the upload; afterwards no pixel-unpack buffer is bound and the texture still is |
| GlUtil.PropertyCallsAt | oglUtil/oglUtil.h:195-211 | the chain is processed left to right, two calls per pair: Wrap sets WRAP_S then WRAP_T, Filter sets MAG then MIN, both to the pair's value |
| GlUtil.PropertyCallsBindNothing | oglUtil/oglUtil.h:195-211 | the property chain binds nothing |
| GlUtil.SetProperty | oglUtil/oglUtil.h:139-145 | binds the texture, runs the chain, then unbinds to 0 |
| GlUtil.Draw | AdvectedTexture/oglUtil/oglUtil.cpp:183-188 | binds the vertex array, draws `size` vertices from `offset` in its mode, then unbinds to 0 |
| GlUtil.PrepareStopsAtTexture | oglUtil/oglUtil.h:173-178 | the chain stops at its first texture descriptor: nothing after it is issued |
| GlUtil.PrepareAllBuffers | oglUtil/oglUtil.h:215-230 | a chain of buffer descriptors issues three calls each (bind, enable, pointer), all of them |
| GlUtil.PrepareBindsNoVao | oglUtil/oglUtil.h:161-178 | no descriptor changes the vertex-array binding |
| GlUtil.Prepare | oglUtil/oglUtil.h:183-189 | binds the vertex array, runs the descriptor chain, then unbinds to 0 |
| GlUtil.NewShader | AdvectedTexture/oglUtil/oglUtil.cpp:8-28 | a file that cannot be opened leaves the shader id at 0 and issues nothing; otherwise a shader of the type is created and given the file's text |
| GlUtil.Compile | AdvectedTexture/oglUtil/oglUtil.cpp:36-51 | true exactly when the compile status is non-zero; on failure `msg` is the info log |
| GlUtil.DestroyShader | AdvectedTexture/oglUtil/oglUtil.cpp:30-34 | deletes the shader only when its id is non-zero |
| GlUtil.LightOffset | AdvectedTexture/oglUtil/oglUtil.cpp:125-129 | a light's byte offset is a multiple of 96 and its 96-byte slot fits the 256 slots |
| GlUtil.LightSlotsDisjoint | AdvectedTexture/oglUtil/oglUtil.cpp:125-129 | the slots of two different lights do not overlap |
| GlUtil.ViewportOffset | AdvectedTexture/oglUtil/oglUtil.cpp:111 | `(w & 0x3f) / 2` lies in 0..31 |
| GlUtil.GlProgram.constructor | AdvectedTexture/oglUtil/oglUtil.cpp:64-69 | creates the program and the light and material buffers; no shaders and an empty uniform cache |
| GlUtil.GlProgram.AddShader | AdvectedTexture/oglUtil/oglUtil.cpp:77-81 | attaches the shader and appends it to `shaders` |
| GlUtil.GlProgram.Link | AdvectedTexture/oglUtil/oglUtil.cpp:83-99 | true exactly when the link status is non-zero; on failure `msg` is the info log and the program is deleted |
| GlUtil.GlProgram.Destroy | AdvectedTexture/oglUtil/oglUtil.cpp:71-75 | deletes the program only when its id is non-zero |
| GlUtil.GlProgram.GetUniLoc | AdvectedTexture/oglUtil/oglUtil.cpp:53-62 | a cached name is answered from the cache with no GL call; a new name is queried once and added; existing entries never change, and every cached location is the answer the driver gives for that program id and name |
| GlUtil.GlProgram.SetProject | AdvectedTexture/oglUtil/oglUtil.cpp:109-116 | viewport origin `((w & 0x3f)/2, (h & 0x3f)/2)` and size the camera's, then the projection upload |
| GlUtil.GlProgram.SetLight | AdvectedTexture/oglUtil/oglUtil.cpp:125-129 | binds the light buffer and writes 96 bytes at offset `96*id` |
| GlUtil.GlProgram.SetMaterial | AdvectedTexture/oglUtil/oglUtil.cpp:131-135 | binds the material buffer and writes 80 bytes at offset 0 |
| App.StepsCallsAreKernelPart | AdvectedTexture/main.cpp:138-167 | every call of the kernel work is an argument binding, a blocking two-dimensional run over `ws` from offset zero without a local size, or its wait or event release |
| App.FrameKernelsInsideLock | AdvectedTexture/main.cpp:138-170 | every frame starts with the lock calls and has the unlock calls right before the upload; every kernel enqueue lies strictly between them and runs over (camera width, camera height) from offset (0, 0) |
| App.FrameLocksOnlyPbo | AdvectedTexture/main.cpp:140-170 | the only object a frame acquires or releases is the pixel buffer, never the scratch buffer |
| App.FrameOutsideModes | AdvectedTexture/main.cpp:143-172 | a mode outside 0..3 runs no kernel, yet still locks, unlocks and uploads |
| App.UploadIsRgbaFloat | AdvectedTexture/main.cpp:172 | the upload is 32-bit float RGBA of the given size with a null data pointer |
| App.FrameEndsWithUpload | AdvectedTexture/main.cpp:172 | a frame ends with the texture upload from the pixel buffer at exactly the camera size; afterwards no pixel-unpack buffer is bound and the texture is |
| App.FrameOwnership | AdvectedTexture/main.cpp:140-172 | for globals as `initCL` leaves them (pixel buffer shared with GL), when acquire and release succeed, the compute side owns the pixel buffer throughout the kernel work, and graphics owns it again when the texture is uploaded |
| App.StepsRunTheirKernels | AdvectedTexture/main.cpp:143-167 | a sequence of (kernel, arguments) steps enqueues exactly those kernels, in order |
| App.ModeKernels | AdvectedTexture/main.cpp:143-167 | the mode table: 0 colourful; 1 step noise; 2 noise base then noise combination; 3 multi noise; any other mode nothing |
| App.FrameKernels | AdvectedTexture/main.cpp:143-167 | the kernels a whole frame enqueues are exactly the mode table's, in order |
| App.ModeCountsEnters | AdvectedTexture/main.cpp:215-227 | starting from mode 0, the mode is the number of Enter presses modulo 4, so it stays in 0..3 |
| App.ReshapeMask | AdvectedTexture/main.cpp:191 | `w & 0x8fc0` is a multiple of 64 in 0..0x8fc0, and no larger than `w` when `w` is non-negative |
| App.ReshapeCentres | AdvectedTexture/main.cpp:189-194 | below 4096 the mask rounds down to a multiple of 64, and twice the viewport offset fills the remainder to within one pixel |
| App.ReshapeDropsBits12To14 | AdvectedTexture/main.cpp:191 | for every width, bits 12 to 14 never reach the camera size; below 32768 only the width's low twelve bits count |
| App.WideWindowLosesCamera | AdvectedTexture/main.cpp:191 | a window below 32768 wide whose width is a multiple of 4096 gets a camera 0 wide |
| App.MouseStepCases | AdvectedTexture/main.cpp:229-244 | a left press starts a drag at the pointer, a left release ends it and keeps the position, other buttons change nothing |
| App.MotionsFollowPointer | AdvectedTexture/main.cpp:246-256 | while dragging, the recorded position follows the pointer; when not dragging, motion changes nothing |
| App.DragGesture | AdvectedTexture/main.cpp:229-256 | a left press, motions, a left release and more motions leave the drag ended at the last point reached while the button was held |
| App.Application.constructor | AdvectedTexture/main.cpp:28-31 | mode 0, no drag, position (0, 0) |
| App.Application.RunMode | AdvectedTexture/main.cpp:143-167 | the switch issues exactly the mode table's argument bindings and blocking runs over `ws` |
| App.Application.RunColorful | AdvectedTexture/main.cpp:145-148 | binds the pixel buffer at 0 and runs the colourful kernel |
| App.Application.RunStepNoise | AdvectedTexture/main.cpp:149-153 | binds 1 at 0 and the pixel buffer at 1, then runs the step-noise kernel |
| App.Application.RunNoise | AdvectedTexture/main.cpp:154-161 | the noise base on the scratch buffer, then the noise combination with 6, the scratch buffer and the pixel buffer |
| App.Application.RunMultiNoise | AdvectedTexture/main.cpp:162-166 | binds 6 at 0 and the pixel buffer at 1, then runs the multi-noise kernel |
| App.Application.RunCL | AdvectedTexture/main.cpp:135-176 | issues exactly one frame: lock, the mode's kernel work, unlock and upload, whatever lock and unlock answer |
| App.Application.OnKeyboard | AdvectedTexture/main.cpp:215-227 | Enter advances the mode modulo 4 (C remainder); other keys leave it |
| App.Application.Reshape | AdvectedTexture/main.cpp:189-194 | the camera takes the masked size, then the projection is set from it and the window size |
| App.Application.OnMouse | AdvectedTexture/main.cpp:229-244 | the drag state moves by one mouse step |
| App.Application.OnMotion | AdvectedTexture/main.cpp:246-256 | the drag state moves by one motion step |

## Left out

- What the GPU computes, the contents of buffers and textures, and the kernels of test.cl: the driver is an oracle, and only the calls issued are modelled.
- The 127-byte info buffers and the 4096- and 20480-byte log buffers: names and logs are the driver's text, whatever their length.
- File reading in `_oclProgram::load` and the `oglShader` constructor: a file is its contents or `None`. Truncation of the source at a NUL byte is not modelled.
- The lookup of `clGetGLContextInfoKHR` through `clGetExtensionFunctionAddressForPlatform`, and the WGL context and device-context handles: the query is one driver call per platform.
- `ErrorConstruct`'s `printf`, all other printing, the wall-clock timing of `runCL`, and the `getchar` that blocks when lock or unlock fails: the model goes on to the next call, as the program does after the key press.
- Destructors and `shared_ptr` lifetimes (`clRelease*`, `glDelete*` on buffers, textures and vertex arrays). Shader and program deletion are modelled as explicit `DestroyShader` and `GlProgram.Destroy`.
- `oglProgram::use`, `setCamera` and `drawObject`, the glm matrices of `setProject`, and the camera move that `onMotion` would compute from float deltas (commented out in the source).
- `initGL`, `genScreenBox`, `display`, `main`, the GLUT callbacks other than keyboard, mouse, motion and reshape, and `onSpecialKey`/`onWheel`: `Application` takes the handles `initGL` and `initCL` leave as its `Globals`.
- The back-references `glBuf`/`glTex` of `_oclMem`: they only keep the GL objects alive.
- `ClProgram.SetArgMem`: assumes a 64-bit target, so `sizeof(cl_mem)` is 8.
- `ClProgram.Int32Bytes`: assumes a little-endian host, so an `int` argument's bytes are sent least significant first.
- `GlUtil.GlProgram.GetUniLoc`: the driver's answer for a uniform name is taken as fixed per program id, whatever the link state. `uniLocs` is never cleared, so a location cached before a (re-)link goes stale in the source; the model does not capture that. The program links once, before any lookup.
- `ClPlatform.Platform.constructor`: when the driver reports no default device, `defDevID` is uninitialised in the source; the model takes 0.
- `App.SizeT`: a negative camera size converts to `size_t` by adding 2^64, as on a 64-bit target. `reshape` never produces one.
- `ClPlatform.GetDefaultCommandQueue`: requires that the platform has a default device. The source would dereference a null device otherwise.
- `ClProgram.Run`: the local size is always null, because no caller passes one.
- Null kernels and null memory objects passed to `setArg`/`run`: the model's kernels and objects always exist. A failed `getKernel` yields `None`, and its uses are not modelled.
- Concurrency between the GL and CL command streams: only the order in which the program issues calls is modelled.
- The float vector math of 3dBasic and the camera's float fields: the camera is its integer width and height.
