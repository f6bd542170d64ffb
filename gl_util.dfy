/** The OpenGL wrapper classes (oglUtil.h, oglUtil.cpp): buffers, textures,
    vertex arrays, shaders and the shader program. Each operation is the
    sequence of GL calls it issues; most are "bind, act, unbind" brackets. */
module GlUtil {

  import opened Drivers

  /** C++ `uint8_t`. */
  newtype uint8 = x: int | 0 <= x < 256

  /** `[bind p to x] + body + [bind p to 0]`: the shape of every GL operation
      that must leave the binding point clean. */
  function BindCall(p: BindPoint, x: nat): Call
  {
    match p
    case BufferTarget(t) => GlBindBuffer(t, x)
    case TextureTarget(t) => GlBindTexture(t, x)
    case VertexArray => GlBindVertexArray(x)
  }

  function Bracket(p: BindPoint, x: nat, body: seq<Call>): seq<Call>
  {
    [BindCall(p, x)] + body + [BindCall(p, 0)]
  }

  /** While the body of a bracket runs the object is bound at `p`; after the
      bracket `p` is bound to 0 again, whatever was bound before. */
  lemma BracketBinding(t: seq<Call>, p: BindPoint, x: nat, body: seq<Call>, k: nat)
    requires Untouched(body, BindEffect(p))
    requires k <= |body|
    ensures BoundAt(t + [BindCall(p, x)] + body[..k], p) == x
    ensures BoundAt(t + Bracket(p, x, body), p) == 0
  {
    var pre := t + [BindCall(p, x)];
    LastSnoc(t, BindCall(p, x), BindEffect(p), 0);
    assert Untouched(body[..k], BindEffect(p)) by {
      forall i | 0 <= i < k ensures BindEffect(p)(body[..k][i]).None? {
        assert body[..k][i] == body[i];
      }
    }
    LastUntouched(pre, body[..k], BindEffect(p), 0);
    assert t + Bracket(p, x, body) == (pre + body) + [BindCall(p, 0)];
    LastSnoc(pre + body, BindCall(p, 0), BindEffect(p), 0);
  }

  // ---------------------------------------------------------------- buffers

  datatype BufferType = ArrayBuffer | ElementBuffer | UniformBuffer | PixelBuffer

  function BufferTargetOf(t: BufferType): int
  {
    match t
    case ArrayBuffer => GL_ARRAY_BUFFER
    case ElementBuffer => GL_ELEMENT_ARRAY_BUFFER
    case UniformBuffer => GL_UNIFORM_BUFFER
    case PixelBuffer => GL_PIXEL_UNPACK_BUFFER
  }

  datatype DrawMode =
    | StreamDraw | StreamRead | StreamCopy
    | StaticDraw | StaticRead | StaticCopy
    | DynamicDraw | DynamicRead | DynamicCopy

  function UsageOf(m: DrawMode): int
  {
    match m
    case StreamDraw => GL_STREAM_DRAW
    case StreamRead => GL_STREAM_READ
    case StreamCopy => GL_STREAM_COPY
    case StaticDraw => GL_STATIC_DRAW
    case StaticRead => GL_STATIC_READ
    case StaticCopy => GL_STATIC_COPY
    case DynamicDraw => GL_DYNAMIC_DRAW
    case DynamicRead => GL_DYNAMIC_READ
    case DynamicCopy => GL_DYNAMIC_COPY
  }

  /** A GL buffer object (`_oglBuffer`): its target and its name. */
  datatype GlBuffer = GlBuffer(bufferType: BufferType, bID: nat)

  /** `_oglBuffer::write`: bind, upload `size` bytes (`hasData` is false when
      the data pointer is null), unbind. */
  method WriteBuffer(drv: Driver, buf: GlBuffer, size: nat, hasData: bool, mode: DrawMode)
    modifies drv
    ensures drv.calls == old(drv.calls) + Bracket(BufferTarget(BufferTargetOf(buf.bufferType)), buf.bID,
                                                 [GlBufferData(BufferTargetOf(buf.bufferType), size, hasData, UsageOf(mode))])
  {
    var t := BufferTargetOf(buf.bufferType);
    var _ := drv.Issue(GlBindBuffer(t, buf.bID));
    var _ := drv.Issue(GlBufferData(t, size, hasData, UsageOf(mode)));
    var _ := drv.Issue(GlBindBuffer(t, 0));
  }

  // --------------------------------------------------------------- textures

  datatype TexType = Tex2D

  function TexTargetOf(t: TexType): int
  {
    match t
    case Tex2D => GL_TEXTURE_2D
  }

  /** A GL texture object (`_oglTexture`). */
  datatype GlTexture = GlTexture(texType: TexType, tID: nat)

  datatype Format = RGB | RGBA | RGBf | RGBAf

  /** The value the source gives each `Format` enumerator. */
  function FormatValue(f: Format): int
  {
    match f
    case RGB => GL_RGB
    case RGBA => GL_RGBA
    case RGBf => GL_RGB32F
    case RGBAf => GL_RGBA32F
  }

  predicate HasAlpha(f: Format) { f == RGBA || f == RGBAf }
  predicate IsFloat(f: Format) { f == RGBf || f == RGBAf }

  /** The three format arguments of `glTexImage2D`. */
  datatype TexFormat = TexFormat(internal: int, dataType: int, components: int)

  /** `_oglTexture::parseFormat`: the internal format is the enumerator's own
      value, the data type is float exactly for the float formats, and the
      client components carry alpha exactly for the alpha formats. */
  function ParseFormat(f: Format): (r: TexFormat)
    ensures r.internal == FormatValue(f)
    ensures r.dataType == GL_FLOAT <==> IsFloat(f)
    ensures r.dataType == GL_FLOAT || r.dataType == GL_UNSIGNED_BYTE
    ensures r.components == GL_RGBA <==> HasAlpha(f)
    ensures r.components == GL_RGBA || r.components == GL_RGB
  {
    match f
    case RGB => TexFormat(GL_RGB, GL_UNSIGNED_BYTE, GL_RGB)
    case RGBA => TexFormat(GL_RGBA, GL_UNSIGNED_BYTE, GL_RGBA)
    case RGBf => TexFormat(GL_RGB32F, GL_FLOAT, GL_RGB)
    case RGBAf => TexFormat(GL_RGBA32F, GL_FLOAT, GL_RGBA)
  }

  function TexImageCall(tex: GlTexture, f: Format, w: int, h: int, fromHost: bool): Call
  {
    var pf := ParseFormat(f);
    GlTexImage2D(TexTargetOf(tex.texType), 0, pf.internal, w, h, pf.components, pf.dataType, fromHost)
  }

  /** `setData` from host memory: bind the texture and upload; the texture
      stays bound. */
  method SetDataFromHost(drv: Driver, tex: GlTexture, f: Format, w: int, h: int)
    modifies drv
    ensures drv.calls == old(drv.calls) + [GlBindTexture(TexTargetOf(tex.texType), tex.tID), TexImageCall(tex, f, w, h, true)]
  {
    var _ := drv.Issue(GlBindTexture(TexTargetOf(tex.texType), tex.tID));
    var _ := drv.Issue(TexImageCall(tex, f, w, h, true));
  }

  function SetDataFromBufferCalls(tex: GlTexture, f: Format, w: int, h: int, buf: GlBuffer): seq<Call>
  {
    [GlBindTexture(TexTargetOf(tex.texType), tex.tID)]
    + Bracket(BufferTarget(GL_PIXEL_UNPACK_BUFFER), buf.bID, [TexImageCall(tex, f, w, h, false)])
  }

  /** `setData` from a GL buffer: bind the texture, bind the buffer as the
      pixel-unpack source, upload with a null pointer (so from the buffer),
      unbind the pixel-unpack buffer; the texture stays bound. */
  method SetDataFromBuffer(drv: Driver, tex: GlTexture, f: Format, w: int, h: int, buf: GlBuffer)
    modifies drv
    ensures drv.calls == old(drv.calls) + SetDataFromBufferCalls(tex, f, w, h, buf)
  {
    var _ := drv.Issue(GlBindTexture(TexTargetOf(tex.texType), tex.tID));
    var _ := drv.Issue(GlBindBuffer(GL_PIXEL_UNPACK_BUFFER, buf.bID));
    var _ := drv.Issue(TexImageCall(tex, f, w, h, false));
    var _ := drv.Issue(GlBindBuffer(GL_PIXEL_UNPACK_BUFFER, 0));
  }

  /** After an upload from a buffer the texture is still bound, the
      pixel-unpack binding is 0 again, and the upload itself ran while the
      buffer was the pixel-unpack source. */
  lemma SetDataFromBufferBindings(t: seq<Call>, tex: GlTexture, f: Format, w: int, h: int, buf: GlBuffer)
    ensures BoundAt(t + SetDataFromBufferCalls(tex, f, w, h, buf), TextureTarget(TexTargetOf(tex.texType))) == tex.tID
    ensures BoundAt(t + SetDataFromBufferCalls(tex, f, w, h, buf), BufferTarget(GL_PIXEL_UNPACK_BUFFER)) == 0
    ensures BoundAt(t + SetDataFromBufferCalls(tex, f, w, h, buf)[..2], BufferTarget(GL_PIXEL_UNPACK_BUFFER)) == buf.bID
  {
    var p := BufferTarget(GL_PIXEL_UNPACK_BUFFER);
    var q := TextureTarget(TexTargetOf(tex.texType));
    var c := SetDataFromBufferCalls(tex, f, w, h, buf);
    var t1, t2, t3 := t + c[..1], t + c[..2], t + c[..3];
    assert t1 == t + [c[0]] && t2 == t1 + [c[1]] && t3 == t2 + [c[2]] && t + c == t3 + [c[3]];
    LastSnoc(t, c[0], BindEffect(q), 0);
    LastSnoc(t1, c[1], BindEffect(q), 0);
    LastSnoc(t2, c[2], BindEffect(q), 0);
    LastSnoc(t3, c[3], BindEffect(q), 0);
    LastSnoc(t1, c[1], BindEffect(p), 0);
    LastSnoc(t3, c[3], BindEffect(p), 0);
  }

  datatype PropType = Wrap | Filter
  datatype PropVal = Linear | Nearest | Repeat | Clamp

  function PropValue(v: PropVal): int
  {
    match v
    case Linear => GL_LINEAR
    case Nearest => GL_NEAREST
    case Repeat => GL_REPEAT
    case Clamp => GL_CLAMP
  }

  /** `_setProperty`: the (type, value) pairs, left to right; a wrap pair sets
      both wrap axes, a filter pair both filters. */
  function PropertyCalls(target: int, props: seq<(PropType, PropVal)>): seq<Call>
  {
    if props == [] then []
    else
      var (pt, pv) := props[0];
      var names := if pt == Wrap then [GL_TEXTURE_WRAP_S, GL_TEXTURE_WRAP_T]
                   else [GL_TEXTURE_MAG_FILTER, GL_TEXTURE_MIN_FILTER];
      [GlTexParameteri(target, names[0], PropValue(pv)), GlTexParameteri(target, names[1], PropValue(pv))]
      + PropertyCalls(target, props[1..])
  }

  /** Pair k of the chain becomes calls 2k and 2k+1, both setting the pair's
      value: wrap S then T, or magnification then minification. */
  lemma {:induction false} PropertyCallsAt(target: int, props: seq<(PropType, PropVal)>, k: nat)
    requires k < |props|
    ensures |PropertyCalls(target, props)| == 2 * |props|
    ensures var c := PropertyCalls(target, props);
      c[2 * k] == GlTexParameteri(target, if props[k].0 == Wrap then GL_TEXTURE_WRAP_S else GL_TEXTURE_MAG_FILTER,
                                  PropValue(props[k].1))
      && c[2 * k + 1] == GlTexParameteri(target, if props[k].0 == Wrap then GL_TEXTURE_WRAP_T else GL_TEXTURE_MIN_FILTER,
                                         PropValue(props[k].1))
    decreases |props|
  {
    if k == 0 {
      if |props| > 1 {
        PropertyCallsAt(target, props[1..], 0);
      }
    } else {
      PropertyCallsAt(target, props[1..], k - 1);
    }
  }

  lemma {:induction false} PropertyCallsBindNothing(target: int, props: seq<(PropType, PropVal)>, p: BindPoint)
    ensures Untouched(PropertyCalls(target, props), BindEffect(p))
  {
    if props != [] {
      PropertyCallsBindNothing(target, props[1..], p);
      var c := PropertyCalls(target, props);
      forall i | 0 <= i < |c| ensures BindEffect(p)(c[i]).None? {
        if i >= 2 {
          assert c[i] == PropertyCalls(target, props[1..])[i - 2];
        }
      }
    }
  }

  /** `setProperty`: the property chain bracketed by binding the texture;
      afterwards no texture is bound. */
  method SetProperty(drv: Driver, tex: GlTexture, props: seq<(PropType, PropVal)>)
    modifies drv
    ensures drv.calls == old(drv.calls) + Bracket(TextureTarget(TexTargetOf(tex.texType)), tex.tID,
                                                 PropertyCalls(TexTargetOf(tex.texType), props))
    ensures BoundAt(drv.calls, TextureTarget(TexTargetOf(tex.texType))) == 0
  {
    var target := TexTargetOf(tex.texType);
    var _ := drv.Issue(GlBindTexture(target, tex.tID));
    drv.IssueAll(PropertyCalls(target, props));
    var _ := drv.Issue(GlBindTexture(target, 0));
    PropertyCallsBindNothing(target, props, TextureTarget(target));
    BracketBinding(old(drv.calls), TextureTarget(target), tex.tID, PropertyCalls(target, props), 0);
  }

  // ---------------------------------------------------------- vertex arrays

  datatype VaoMode = Triangles

  function VaoModeValue(m: VaoMode): int
  {
    match m
    case Triangles => GL_TRIANGLES
  }

  /** A vertex array object (`oglVAO`). */
  datatype Vao = Vao(vaoMode: VaoMode, vaoID: nat)

  /** `oglVAO::draw`: bind the VAO, draw `size` vertices from `offset` with
      the VAO's mode, unbind. */
  method Draw(drv: Driver, vao: Vao, size: int, offset: int)
    modifies drv
    ensures drv.calls == old(drv.calls) + Bracket(VertexArray, vao.vaoID, [GlDrawArrays(VaoModeValue(vao.vaoMode), offset, size)])
  {
    var _ := drv.Issue(GlBindVertexArray(vao.vaoID));
    var _ := drv.Issue(GlDrawArrays(VaoModeValue(vao.vaoMode), offset, size));
    var _ := drv.Issue(GlBindVertexArray(0));
  }

  /** One argument group of `prepare`: a vertex attribute read from a buffer,
      or a texture bound to a unit and a sampler uniform. */
  datatype Descriptor =
    | BufferDesc(buf: GlBuffer, index: nat, size: int, dataType: int, normalized: bool, stride: int, offset: int)
    | TextureDesc(tex: GlTexture, location: int, unit: uint8)

  /** `_prepare`: a buffer descriptor binds its buffer, enables and points the
      attribute and goes on with the rest; a texture descriptor activates its
      unit, binds the texture, sets the sampler and ends the chain. */
  function PrepareCalls(descs: seq<Descriptor>): seq<Call>
  {
    if descs == [] then []
    else match descs[0]
      case BufferDesc(buf, index, size, dataType, normalized, stride, offset) =>
        [GlBindBuffer(BufferTargetOf(buf.bufferType), buf.bID),
         GlEnableVertexAttribArray(index),
         GlVertexAttribPointer(index, size, dataType, normalized, stride, offset)]
        + PrepareCalls(descs[1..])
      case TextureDesc(tex, location, unit) =>
        [GlActiveTexture(GL_TEXTURE0 + unit as int),
         GlBindTexture(TexTargetOf(tex.texType), tex.tID),
         GlUniform1i(location, unit as int)]
  }

  /** Descriptors after the first texture descriptor are ignored: the chain is
      three calls for each descriptor up to and including that one. */
  lemma {:induction false} PrepareStopsAtTexture(descs: seq<Descriptor>, k: nat)
    requires k < |descs| && descs[k].TextureDesc?
    requires forall j :: 0 <= j < k ==> descs[j].BufferDesc?
    ensures PrepareCalls(descs) == PrepareCalls(descs[..k + 1])
    ensures |PrepareCalls(descs)| == 3 * (k + 1)
    decreases k
  {
    if k > 0 {
      assert descs[..k + 1][1..] == descs[1..][..k];
      PrepareStopsAtTexture(descs[1..], k - 1);
    }
  }

  /** Without a texture descriptor every descriptor contributes its three
      calls. */
  lemma {:induction false} PrepareAllBuffers(descs: seq<Descriptor>)
    requires forall j :: 0 <= j < |descs| ==> descs[j].BufferDesc?
    ensures |PrepareCalls(descs)| == 3 * |descs|
  {
    if descs != [] {
      PrepareAllBuffers(descs[1..]);
    }
  }

  lemma {:induction false} PrepareBindsNoVao(descs: seq<Descriptor>)
    ensures Untouched(PrepareCalls(descs), BindEffect(VertexArray))
  {
    if descs != [] {
      var c := PrepareCalls(descs);
      if descs[0].BufferDesc? {
        PrepareBindsNoVao(descs[1..]);
        forall i | 0 <= i < |c| ensures BindEffect(VertexArray)(c[i]).None? {
          if i >= 3 {
            assert c[i] == PrepareCalls(descs[1..])[i - 3];
          }
        }
      } else {
        forall i | 0 <= i < |c| ensures BindEffect(VertexArray)(c[i]).None? {
        }
      }
    }
  }

  /** `oglVAO::prepare`: the descriptor chain bracketed by binding the VAO;
      afterwards no VAO is bound. */
  method Prepare(drv: Driver, vao: Vao, descs: seq<Descriptor>)
    modifies drv
    ensures drv.calls == old(drv.calls) + Bracket(VertexArray, vao.vaoID, PrepareCalls(descs))
    ensures BoundAt(drv.calls, VertexArray) == 0
  {
    ghost var c0, body := drv.calls, PrepareCalls(descs);
    var _ := drv.Issue(GlBindVertexArray(vao.vaoID));
    drv.IssueAll(PrepareCalls(descs));
    var _ := drv.Issue(GlBindVertexArray(0));
    assert drv.calls == c0 + [BindCall(VertexArray, vao.vaoID)] + body + [BindCall(VertexArray, 0)];
    assert drv.calls == c0 + Bracket(VertexArray, vao.vaoID, body);
    PrepareBindsNoVao(descs);
    BracketBinding(c0, VertexArray, vao.vaoID, body, 0);
  }

  // ------------------------------------------------------- shaders, program

  datatype ShaderType = Vertex | Geometry | Fragment | TessCtrl | TessEval | Compute

  function ShaderTypeValue(t: ShaderType): int
  {
    match t
    case Vertex => GL_VERTEX_SHADER
    case Geometry => GL_GEOMETRY_SHADER
    case Fragment => GL_FRAGMENT_SHADER
    case TessCtrl => GL_TESS_CONTROL_SHADER
    case TessEval => GL_TESS_EVALUATION_SHADER
    case Compute => GL_COMPUTE_SHADER
  }

  /** `oglShader`: `shaderID` stays 0 when the source file could not be
      opened. */
  datatype Shader = Shader(shaderType: ShaderType, shaderID: nat, src: string)

  /** The `oglShader` constructor; `file` is the file's text, or None when it
      cannot be opened. */
  method NewShader(drv: Driver, t: ShaderType, file: Option<string>) returns (sh: Shader)
    modifies drv
    ensures file.None? ==> sh == Shader(t, 0, "") && drv.calls == old(drv.calls)
    ensures file.Some? ==> sh.shaderType == t && sh.src == file.value
    ensures file.Some? ==> sh.shaderID == drv.handle(GlCreateShader(ShaderTypeValue(t)), |old(drv.calls)|)
    ensures file.Some? ==> drv.calls == old(drv.calls) + [GlCreateShader(ShaderTypeValue(t)), GlShaderSource(sh.shaderID, file.value)]
  {
    if file.None? {
      sh := Shader(t, 0, "");
      return;
    }
    var id := drv.Create(GlCreateShader(ShaderTypeValue(t)));
    var _ := drv.Issue(GlShaderSource(id, file.value));
    sh := Shader(t, id, file.value);
  }

  /** `oglShader::compile`: on failure the info log replaces `msg`; on
      success `msg` is left as it was. */
  method Compile(drv: Driver, sh: Shader, msg: string) returns (ok: bool, msg': string)
    modifies drv
    ensures ok <==> drv.status(GlGetShaderiv(sh.shaderID, GL_COMPILE_STATUS)) != 0
    ensures ok ==> msg' == msg
    ensures ok ==> drv.calls == old(drv.calls) + [GlCompileShader(sh.shaderID), GlGetShaderiv(sh.shaderID, GL_COMPILE_STATUS)]
    ensures !ok ==> msg' == drv.text(GlGetShaderInfoLog(sh.shaderID))
    ensures !ok ==> drv.calls == old(drv.calls) + [GlCompileShader(sh.shaderID), GlGetShaderiv(sh.shaderID, GL_COMPILE_STATUS),
                                        GlGetShaderInfoLog(sh.shaderID)]
  {
    var _ := drv.Issue(GlCompileShader(sh.shaderID));
    var result := drv.Issue(GlGetShaderiv(sh.shaderID, GL_COMPILE_STATUS));
    if result == 0 {
      var _ := drv.Issue(GlGetShaderInfoLog(sh.shaderID));
      return false, drv.text(GlGetShaderInfoLog(sh.shaderID));
    }
    return true, msg;
  }

  /** The `oglShader` destructor: a shader that was never created (id 0) is
      not deleted. */
  method DestroyShader(drv: Driver, sh: Shader)
    modifies drv
    ensures sh.shaderID == 0 ==> drv.calls == old(drv.calls)
    ensures sh.shaderID != 0 ==> drv.calls == old(drv.calls) + [GlDeleteShader(sh.shaderID)]
  {
    if sh.shaderID != 0 {
      var _ := drv.Issue(GlDeleteShader(sh.shaderID));
    }
  }

  /** GL_INVALID_INDEX as a uniform location: every matrix index of the
      program is this value, so the matrix uploads go to location -1. */
  const INVALID_LOCATION: int := -1

  /** Size and offset in the uniform buffers of one light and one material. */
  const LIGHT_SIZE: nat := 96
  const MATERIAL_SIZE: nat := 80

  /** The byte range `[offset, offset + LIGHT_SIZE)` light slot `id` occupies. */
  function LightOffset(id: uint8): (offset: nat)
    ensures offset % LIGHT_SIZE == 0
    ensures offset + LIGHT_SIZE <= 256 * LIGHT_SIZE
  {
    96 * id as nat
  }

  /** Distinct light slots never overlap. */
  lemma LightSlotsDisjoint(a: uint8, b: uint8)
    requires a != b
    ensures LightOffset(a) + LIGHT_SIZE <= LightOffset(b) || LightOffset(b) + LIGHT_SIZE <= LightOffset(a)
  {
  }

  /** `(w & 0x3f) / 2` for the 32-bit window size `w`: half of what exceeds a
      multiple of 64. */
  function ViewportOffset(w: bv32): (r: int)
    ensures 0 <= r <= 31
  {
    ((w & 0x3f) as int) / 2
  }

  /** `oglProgram`: the program object, its shaders, the uniform-location
      cache and the two uniform buffers (lights, material). */
  class GlProgram {
    var programID: nat
    var shaders: seq<Shader>
    var uniLocs: map<string, int>
    const lightBuffer: nat
    const materialBuffer: nat

    /** Every cached location is what GL reports for that name in this
        program id; the driver's answer does not depend on the link state. */
    ghost predicate CacheFaithful(drv: Driver)
      reads this
    {
      forall n :: n in uniLocs ==> uniLocs[n] == drv.status(GlGetUniformLocation(programID, n))
    }

    constructor (drv: Driver)
      modifies drv
      ensures programID == drv.handle(GlCreateProgram, |old(drv.calls)|)
      ensures lightBuffer == drv.handle(GlGenBuffers, |old(drv.calls)| + 1)
      ensures materialBuffer == drv.handle(GlGenBuffers, |old(drv.calls)| + 2)
      ensures shaders == [] && uniLocs == map[]
      ensures drv.calls == old(drv.calls) + [GlCreateProgram, GlGenBuffers, GlGenBuffers]
      ensures CacheFaithful(drv)
    {
      var p := drv.Create(GlCreateProgram);
      var l := drv.Create(GlGenBuffers);
      var m := drv.Create(GlGenBuffers);
      programID, lightBuffer, materialBuffer := p, l, m;
      shaders, uniLocs := [], map[];
    }

    method AddShader(drv: Driver, sh: Shader)
      modifies this, drv
      ensures shaders == old(shaders) + [sh]
      ensures programID == old(programID) && uniLocs == old(uniLocs)
      ensures drv.calls == old(drv.calls) + [GlAttachShader(programID, sh.shaderID)]
    {
      var _ := drv.Issue(GlAttachShader(programID, sh.shaderID));
      shaders := shaders + [sh];
    }

    /** `oglProgram::link`: on failure the info log replaces `msg` and the
        program object is deleted (its id is kept, so the destructor deletes
        it a second time). */
    method Link(drv: Driver, msg: string) returns (ok: bool, msg': string)
      modifies drv
      ensures ok <==> drv.status(GlGetProgramiv(programID, GL_LINK_STATUS)) != 0
      ensures ok ==> msg' == msg
      ensures ok ==> drv.calls == old(drv.calls) + [GlLinkProgram(programID), GlGetProgramiv(programID, GL_LINK_STATUS)]
      ensures !ok ==> msg' == drv.text(GlGetProgramInfoLog(programID))
      ensures !ok ==> drv.calls == old(drv.calls) + [GlLinkProgram(programID), GlGetProgramiv(programID, GL_LINK_STATUS),
                                          GlGetProgramInfoLog(programID), GlDeleteProgram(programID)]
    {
      var _ := drv.Issue(GlLinkProgram(programID));
      var result := drv.Issue(GlGetProgramiv(programID, GL_LINK_STATUS));
      if result == 0 {
        var _ := drv.Issue(GlGetProgramInfoLog(programID));
        var _ := drv.Issue(GlDeleteProgram(programID));
        return false, drv.text(GlGetProgramInfoLog(programID));
      }
      return true, msg;
    }

    /** The `oglProgram` destructor. */
    method Destroy(drv: Driver)
      modifies drv
      ensures programID == 0 ==> drv.calls == old(drv.calls)
      ensures programID != 0 ==> drv.calls == old(drv.calls) + [GlDeleteProgram(programID)]
    {
      if programID != 0 {
        var _ := drv.Issue(GlDeleteProgram(programID));
      }
    }

    /** `getUniLoc`: GL is asked only for a name not cached yet; the answer is
        then cached, and existing entries are never overwritten. Whatever
        path is taken, the location returned is the one GL reports. */
    method GetUniLoc(drv: Driver, name: string) returns (loc: int)
      requires CacheFaithful(drv)
      modifies this`uniLocs, drv
      ensures CacheFaithful(drv)
      ensures loc == drv.status(GlGetUniformLocation(programID, name))
      ensures name in old(uniLocs) ==> uniLocs == old(uniLocs) && drv.calls == old(drv.calls)
      ensures name !in old(uniLocs) ==> uniLocs == old(uniLocs)[name := loc]
      ensures name !in old(uniLocs) ==> drv.calls == old(drv.calls) + [GlGetUniformLocation(programID, name)]
      ensures forall n :: n in old(uniLocs) ==> n in uniLocs && uniLocs[n] == old(uniLocs)[n]
    {
      if name in uniLocs {
        return uniLocs[name];
      }
      loc := drv.Issue(GlGetUniformLocation(programID, name));
      uniLocs := uniLocs[name := loc];
    }

    /** `setProject` without the projection matrix: the viewport is offset by
        half of what the window size exceeds a multiple of 64 and sized to
        the camera; the matrix goes to the program's projection index. */
    method SetProject(drv: Driver, camWidth: int, camHeight: int, wdWidth: bv32, wdHeight: bv32)
      modifies drv
      ensures drv.calls == old(drv.calls) + [GlViewport(ViewportOffset(wdWidth), ViewportOffset(wdHeight), camWidth, camHeight),
                                             GlUniformMatrix4fv(INVALID_LOCATION)]
    {
      var _ := drv.Issue(GlViewport(((wdWidth & 0x3f) as int) / 2, ((wdHeight & 0x3f) as int) / 2, camWidth, camHeight));
      var _ := drv.Issue(GlUniformMatrix4fv(INVALID_LOCATION));
    }

    /** `setLight`: light `id` is the 96 bytes at offset 96 * id of the light
        buffer. */
    method SetLight(drv: Driver, id: uint8)
      modifies drv
      ensures drv.calls == old(drv.calls) + [GlBindBuffer(GL_UNIFORM_BUFFER, lightBuffer),
                                             GlBufferSubData(GL_UNIFORM_BUFFER, LightOffset(id), LIGHT_SIZE)]
    {
      var _ := drv.Issue(GlBindBuffer(GL_UNIFORM_BUFFER, lightBuffer));
      var _ := drv.Issue(GlBufferSubData(GL_UNIFORM_BUFFER, 96 * id as nat, 96));
    }

    /** `setMaterial`: the material is the first 80 bytes of its buffer. */
    method SetMaterial(drv: Driver)
      modifies drv
      ensures drv.calls == old(drv.calls) + [GlBindBuffer(GL_UNIFORM_BUFFER, materialBuffer),
                                             GlBufferSubData(GL_UNIFORM_BUFFER, 0, MATERIAL_SIZE)]
    {
      var _ := drv.Issue(GlBindBuffer(GL_UNIFORM_BUFFER, materialBuffer));
      var _ := drv.Issue(GlBufferSubData(GL_UNIFORM_BUFFER, 0, 80));
    }
  }
}
