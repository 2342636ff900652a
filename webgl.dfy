/**
 * The part of a WebGL rendering context the renderer touches, as a value, with one
 * function per WebGL call it makes. Buffer, texture and program objects are handles:
 * an object's handle is its index in the context's list of such objects, and creating
 * one appends to that list.
 */
module WebGL {
  import opened Wrappers
  import opened Bytes

  type BufferId = nat
  type TextureId = nat
  type ProgramId = nat

  datatype Viewport = Viewport(x: int, y: int, width: int, height: int)

  /** The level-0 image of a single-channel (LUMINANCE, UNSIGNED_BYTE) texture. */
  datatype Image = Image(width: int, height: int, pixels: seq<Byte>)

  /** What a texture holds before its first upload. */
  const EmptyImage := Image(0, 0, [])

  /** A vertex attribute fed from a buffer, `size` floats per vertex. */
  datatype Attribute = Attribute(buffer: BufferId, size: nat)

  datatype DrawMode = TriangleStrip

  datatype DrawCall = DrawCall(mode: DrawMode, first: nat, count: nat)

  /** The outcome the driver reports for a shader compilation or a program link. */
  datatype Status = Succeeded | Failed(log: string)

  /** How the driver responds to the renderer's two shaders and its program. */
  datatype ShaderDriver = ShaderDriver(vertex: Status, fragment: Status, link: Status)

  datatype GlState = GlState(
    viewport: Viewport,
    programs: nat,                     // program objects created so far
    program: Option<ProgramId>,        // the program in use
    buffers: seq<seq<real>>,           // contents of each buffer object
    arrayBuffer: Option<BufferId>,     // the buffer bound to ARRAY_BUFFER
    attributes: map<string, Attribute>,
    textures: seq<Image>,              // contents of each texture object
    activeUnit: nat,                   // the active texture unit
    units: map<nat, TextureId>,        // TEXTURE_2D binding of each texture unit
    uniforms: map<string, int>,        // sampler uniforms set with uniform1i
    draws: seq<DrawCall>)              // draw calls issued, oldest first

  /** A rendering context as `canvas.getContext('webgl')` hands it out. */
  datatype Context = Context(state: GlState, driver: ShaderDriver)

  /** A drawing surface; `webgl` is what its getContext('webgl') returns. */
  datatype Canvas = Canvas(webgl: Option<Context>)

  function SetViewport(g: GlState, x: int, y: int, width: int, height: int): GlState
  {
    g.(viewport := Viewport(x, y, width, height))
  }

  function CreateProgram(g: GlState): (GlState, ProgramId)
  {
    (g.(programs := g.programs + 1), g.programs)
  }

  function UseProgram(g: GlState, p: ProgramId): GlState
  {
    g.(program := Some(p))
  }

  function CreateBuffer(g: GlState): (GlState, BufferId)
  {
    (g.(buffers := g.buffers + [[]]), |g.buffers|)
  }

  function BindArrayBuffer(g: GlState, b: BufferId): GlState
  {
    g.(arrayBuffer := Some(b))
  }

  /** bufferData on ARRAY_BUFFER: replaces the contents of the bound buffer. */
  function BufferData(g: GlState, data: seq<real>): GlState
    requires g.arrayBuffer.Some? && g.arrayBuffer.value < |g.buffers|
  {
    g.(buffers := g.buffers[g.arrayBuffer.value := data])
  }

  /** vertexAttribPointer on an enabled attribute: feeds it from the bound buffer. */
  function VertexAttribPointer(g: GlState, name: string, size: nat): GlState
    requires g.arrayBuffer.Some?
  {
    g.(attributes := g.attributes[name := Attribute(g.arrayBuffer.value, size)])
  }

  function CreateTexture(g: GlState): (GlState, TextureId)
  {
    (g.(textures := g.textures + [EmptyImage]), |g.textures|)
  }

  function ActiveTexture(g: GlState, unit: nat): GlState
  {
    g.(activeUnit := unit)
  }

  /** bindTexture on TEXTURE_2D of the active unit; None unbinds. */
  function BindTexture(g: GlState, t: Option<TextureId>): GlState
  {
    match t
    case Some(id) => g.(units := g.units[g.activeUnit := id])
    case None => g.(units := g.units - {g.activeUnit})
  }

  /** texImage2D on TEXTURE_2D: replaces the image of the texture bound to the active unit. */
  function TexImage2D(g: GlState, width: int, height: int, pixels: seq<Byte>): GlState
    requires g.activeUnit in g.units && g.units[g.activeUnit] < |g.textures|
  {
    g.(textures := g.textures[g.units[g.activeUnit] := Image(width, height, pixels)])
  }

  function Uniform1i(g: GlState, name: string, value: int): GlState
  {
    g.(uniforms := g.uniforms[name := value])
  }

  function DrawArrays(g: GlState, mode: DrawMode, first: nat, count: nat): GlState
  {
    g.(draws := g.draws + [DrawCall(mode, first, count)])
  }
}
