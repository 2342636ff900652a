/**
 * The Renderer class of renderer.js: it owns a WebGL context, sets up a full-viewport
 * quad, a texture-coordinate buffer and three luminance textures bound to the samplers
 * ySampler, uSampler and vSampler, and draws one I420 frame per call.
 */
module Rendering {
  import opened Wrappers
  import opened Bytes
  import opened I420
  import opened Geometry
  import opened WebGL

  /** Why the Renderer constructor throws. */
  datatype InitError =
    | InvalidCanvas
    | NoWebGLContext
    | VertexShaderError(log: string)
    | FragmentShaderError(log: string)
    | LinkError(log: string)

  /** The text of the Error thrown; the three shader errors end with the driver's info log. */
  function Message(e: InitError): (m: string)
    ensures !e.InvalidCanvas? && !e.NoWebGLContext? ==> |e.log| <= |m| && m[|m| - |e.log|..] == e.log
    ensures e.InvalidCanvas? || e.NoWebGLContext? ==> |m| > 0
  {
    match e
    case InvalidCanvas => "Please try passing a valid can element"
    case NoWebGLContext => "Failed to get the WebGL context"
    case VertexShaderError(log) => "Vertex shader failed to compile: " + log
    case FragmentShaderError(log) => "Fragment shader failed to compile: " + log
    case LinkError(log) => "Program failed to compile: " + log
  }

  /**
   * compileVerticalShader, compileFragmentShader and createProgram: the vertex shader is
   * compiled first, then the fragment shader, then the program is linked and put in use.
   * The first step the driver rejects throws, carrying the driver's log.
   */
  function BuildProgram(g: GlState, d: ShaderDriver): (r: Result<(GlState, ProgramId), InitError>)
    ensures r.Success? <==> d.vertex.Succeeded? && d.fragment.Succeeded? && d.link.Succeeded?
    ensures d.vertex.Failed? ==> r == Failure(VertexShaderError(d.vertex.log))
    ensures d.vertex.Succeeded? && d.fragment.Failed? ==> r == Failure(FragmentShaderError(d.fragment.log))
    ensures d.vertex.Succeeded? && d.fragment.Succeeded? && d.link.Failed? ==> r == Failure(LinkError(d.link.log))
    ensures r.Success? ==>
      r.value.1 == g.programs && r.value.0.programs == g.programs + 1 &&
      r.value.0.program == Some(r.value.1) &&
      r.value.0 == g.(programs := r.value.0.programs, program := r.value.0.program)
  {
    if d.vertex.Failed? then Failure(VertexShaderError(d.vertex.log))
    else if d.fragment.Failed? then Failure(FragmentShaderError(d.fragment.log))
    else
      var (g1, p) := CreateProgram(g);
      if d.link.Failed? then Failure(LinkError(d.link.log))
      else Success((UseProgram(g1, p), p))
  }

  /** The GL objects a frame writes to: the texture-coordinate buffer and the Y, U, V textures. */
  datatype Targets = Targets(texturePos: BufferId, y: TextureId, u: TextureId, v: TextureId)

  /** The targets exist in the context and the three textures are distinct objects. */
  predicate TargetsIn(g: GlState, t: Targets)
  {
    t.texturePos < |g.buffers| &&
    t.y < |g.textures| && t.u < |g.textures| && t.v < |g.textures| &&
    t.y != t.u && t.u != t.v && t.y != t.v
  }

  /**
   * What drawNextOuptutPictureGL demands of its arguments: non-zero frame dimensions when
   * they divide the crop, even source dimensions and a buffer holding a whole I420 frame.
   */
  predicate FrameArgs(width: int, height: int, remoteWidth: nat, remoteHeight: nat,
                      crop: Option<CropRect>, data: seq<Byte>)
  {
    (crop.Some? ==> width != 0 && height != 0) &&
    EvenDims(remoteWidth, remoteHeight) && FrameLength(remoteWidth, remoteHeight) <= |data|
  }

  /** An image whose pixel count matches its dimensions. */
  predicate WellFormed(img: Image)
  {
    0 <= img.width && 0 <= img.height && |img.pixels| == img.width * img.height
  }

  /** The viewport a frame sets: the renderer's origin and the frame size, or the crop size at 0,0. */
  function FrameViewport(xStart: int, yStart: int, width: int, height: int, crop: Option<CropRect>): Viewport
  {
    match crop
    case None => Viewport(xStart, yStart, width, height)
    case Some(c) => Viewport(0, 0, c.width, c.height)
  }

  /** The draw every frame ends with: one triangle strip over the 4 quad vertices. */
  const QuadDraw := DrawCall(TriangleStrip, 0, 4)

  /**
   * The context after one drawNextOuptutPictureGL call. The texture-coordinate buffer is
   * rewritten only for a crop; the Y, U and V textures receive the three planes of the
   * frame, which together are exactly the frame's bytes; no object is created; one draw
   * call is added; programs, attributes and sampler uniforms are untouched.
   */
  function FrameEffect(g: GlState, xStart: int, yStart: int, t: Targets,
                       width: int, height: int, remoteWidth: nat, remoteHeight: nat,
                       crop: Option<CropRect>, data: seq<Byte>): (g': GlState)
    requires TargetsIn(g, t) && FrameArgs(width, height, remoteWidth, remoteHeight, crop, data)
    ensures TargetsIn(g', t)
    ensures g'.viewport == FrameViewport(xStart, yStart, width, height, crop)
    ensures |g'.buffers| == |g.buffers| && |g'.textures| == |g.textures|
    ensures crop.None? ==> g'.buffers == g.buffers && g'.arrayBuffer == g.arrayBuffer
    ensures crop.Some? ==>
      g'.buffers == g.buffers[t.texturePos := CropTexCoords(crop.value, width, height)] &&
      g'.arrayBuffer == Some(t.texturePos)
    ensures g'.textures[t.y] == Image(remoteWidth, remoteHeight, g'.textures[t.y].pixels)
    ensures g'.textures[t.u] == Image(remoteWidth / 2, remoteHeight / 2, g'.textures[t.u].pixels)
    ensures g'.textures[t.v] == Image(remoteWidth / 2, remoteHeight / 2, g'.textures[t.v].pixels)
    ensures WellFormed(g'.textures[t.y]) && WellFormed(g'.textures[t.u]) && WellFormed(g'.textures[t.v])
    ensures g'.textures[t.y].pixels + g'.textures[t.u].pixels + g'.textures[t.v].pixels
      == data[..FrameLength(remoteWidth, remoteHeight)]
    ensures forall k :: 0 <= k < |g.textures| && k != t.y && k != t.u && k != t.v ==>
      g'.textures[k] == g.textures[k]
    ensures g'.activeUnit == 2 && g'.units == g.units[0 := t.y][1 := t.u][2 := t.v]
    ensures g'.draws == g.draws + [QuadDraw]
    ensures g'.programs == g.programs && g'.program == g.program
    ensures g'.attributes == g.attributes && g'.uniforms == g.uniforms
  {
    var p := Slice(data, remoteWidth, remoteHeight);
    var w2, h2 := remoteWidth / 2, remoteHeight / 2;
    assert |p.cb| == w2 * h2;
    g.(viewport := FrameViewport(xStart, yStart, width, height, crop),
       buffers := if crop.None? then g.buffers
                  else g.buffers[t.texturePos := CropTexCoords(crop.value, width, height)],
       arrayBuffer := if crop.None? then g.arrayBuffer else Some(t.texturePos),
       textures := g.textures[t.y := Image(remoteWidth, remoteHeight, p.y)]
                             [t.u := Image(w2, h2, p.cb)]
                             [t.v := Image(w2, h2, p.cr)],
       activeUnit := 2,
       units := g.units[0 := t.y][1 := t.u][2 := t.v],
       draws := g.draws + [QuadDraw])
  }

  /**
   * Drawing the same frame twice leaves the context as drawing it once, apart from the
   * second draw call: uploads replace rather than accumulate, and no object leaks.
   */
  lemma RedrawSameFrame(g: GlState, xStart: int, yStart: int, t: Targets,
                        width: int, height: int, remoteWidth: nat, remoteHeight: nat,
                        crop: Option<CropRect>, data: seq<Byte>)
    requires TargetsIn(g, t) && FrameArgs(width, height, remoteWidth, remoteHeight, crop, data)
    ensures var once := FrameEffect(g, xStart, yStart, t, width, height, remoteWidth, remoteHeight, crop, data);
      FrameEffect(once, xStart, yStart, t, width, height, remoteWidth, remoteHeight, crop, data)
        == once.(draws := once.draws + [QuadDraw])
  {
  }

  /**
   * The texture coordinates stay in [0, 1] across a frame whose crop, if any, lies inside
   * the width x height frame.
   */
  lemma FrameKeepsTexCoordsInUnit(g: GlState, xStart: int, yStart: int, t: Targets,
                                  width: int, height: int, remoteWidth: nat, remoteHeight: nat,
                                  crop: Option<CropRect>, data: seq<Byte>)
    requires TargetsIn(g, t) && FrameArgs(width, height, remoteWidth, remoteHeight, crop, data)
    requires crop.Some? ==> InsideFrame(crop.value, width, height)
    requires forall i :: 0 <= i < |g.buffers[t.texturePos]| ==> 0.0 <= g.buffers[t.texturePos][i] <= 1.0
    ensures var g' := FrameEffect(g, xStart, yStart, t, width, height, remoteWidth, remoteHeight, crop, data);
      forall i :: 0 <= i < |g'.buffers[t.texturePos]| ==> 0.0 <= g'.buffers[t.texturePos][i] <= 1.0
  {
    if crop.Some? {
      CropTexCoordsInUnit(crop.value, width, height);
    }
  }

  /**
   * An uncropped frame does not restore the default texture coordinates: after a cropped
   * frame, every later uncropped frame still samples the crop region, while its viewport
   * covers the whole frame size. Unless the crop is as wide as the frame, the buffer then
   * differs from the default coordinates.
   */
  lemma UncroppedFrameKeepsCrop(g: GlState, xStart: int, yStart: int, t: Targets,
                                crop: CropRect, width: int, height: int, remoteWidth: nat, remoteHeight: nat,
                                data: seq<Byte>,
                                width2: int, height2: int, remoteWidth2: nat, remoteHeight2: nat,
                                data2: seq<Byte>)
    requires TargetsIn(g, t)
    requires FrameArgs(width, height, remoteWidth, remoteHeight, Some(crop), data)
    requires FrameArgs(width2, height2, remoteWidth2, remoteHeight2, None, data2)
    ensures var cropped := FrameEffect(g, xStart, yStart, t, width, height, remoteWidth, remoteHeight, Some(crop), data);
      var after := FrameEffect(cropped, xStart, yStart, t, width2, height2, remoteWidth2, remoteHeight2, None, data2);
      after.viewport == Viewport(xStart, yStart, width2, height2) &&
      after.buffers[t.texturePos] == CropTexCoords(crop, width, height) &&
      (crop.width != width ==> after.buffers[t.texturePos] != DefaultTexCoords)
  {
  }

  /** A 640 x 480 frame drawn uncropped at the default origin fills the 640 x 480 viewport. */
  lemma VgaFrame(g: GlState, t: Targets, data: seq<Byte>)
    requires TargetsIn(g, t) && |data| == 460800
    ensures FrameArgs(640, 480, 640, 480, None, data)
    ensures var g' := FrameEffect(g, 0, 0, t, 640, 480, 640, 480, None, data);
      g'.viewport == Viewport(0, 0, 640, 480) && g'.draws == g.draws + [QuadDraw] &&
      g'.textures[t.y].pixels + g'.textures[t.u].pixels + g'.textures[t.v].pixels == data
  {
    VgaFrameLength();
    assert data[..460800] == data;
  }

  class Renderer {
    var xStart: int
    var yStart: int
    var gl: GlState
    var shaderProgram: ProgramId
    var texturePosBuffer: BufferId
    var yTextureRef: TextureId
    var uTextureRef: TextureId
    var vTextureRef: TextureId
    /** The quad's buffer; renderer.js keeps it only in a local of initializeBuffers. */
    ghost var vertexPosBuffer: BufferId

    function Handles(): Targets
      reads this
    {
      Targets(texturePosBuffer, yTextureRef, uTextureRef, vTextureRef)
    }

    /**
     * The renderer's program is in use; the quad buffer holds the quad and feeds vertexPos;
     * the texture-coordinate buffer holds a rectangle's corners and feeds texturePos; the
     * three textures are distinct objects; the samplers read units 0, 1 and 2.
     */
    ghost predicate Valid()
      reads this
    {
      TargetsIn(gl, Handles()) &&
      gl.program == Some(shaderProgram) &&
      vertexPosBuffer < |gl.buffers| && vertexPosBuffer != texturePosBuffer &&
      gl.buffers[vertexPosBuffer] == QuadPositions &&
      IsRectangle(gl.buffers[texturePosBuffer]) &&
      "vertexPos" in gl.attributes && gl.attributes["vertexPos"] == Attribute(vertexPosBuffer, 2) &&
      "texturePos" in gl.attributes && gl.attributes["texturePos"] == Attribute(texturePosBuffer, 2) &&
      "ySampler" in gl.uniforms && gl.uniforms["ySampler"] == 0 &&
      "uSampler" in gl.uniforms && gl.uniforms["uSampler"] == 1 &&
      "vSampler" in gl.uniforms && gl.uniforms["vSampler"] == 2
    }

    /**
     * The state construction leaves over the context's state s: origin 0,0; two new
     * buffers holding the quad and the default texture coordinates; three new, empty
     * textures for Y, U and V; samplers y/u/v on units 0/1/2.
     */
    ghost predicate Initialized(s: GlState, program: ProgramId)
      reads this
    {
      xStart == 0 && yStart == 0 && shaderProgram == program &&
      vertexPosBuffer == |s.buffers| && texturePosBuffer == |s.buffers| + 1 &&
      gl.buffers == s.buffers + [QuadPositions, DefaultTexCoords] &&
      gl.arrayBuffer == Some(texturePosBuffer) &&
      gl.attributes == s.attributes["vertexPos" := Attribute(vertexPosBuffer, 2)]
                                    ["texturePos" := Attribute(texturePosBuffer, 2)] &&
      yTextureRef == |s.textures| && uTextureRef == |s.textures| + 1 && vTextureRef == |s.textures| + 2 &&
      gl.textures == s.textures + [EmptyImage, EmptyImage, EmptyImage] &&
      gl.uniforms == s.uniforms["ySampler" := 0]["uSampler" := 1]["vSampler" := 2] &&
      gl.viewport == s.viewport && gl.draws == s.draws && gl.program == Some(program) &&
      gl.programs == s.programs && gl.activeUnit == s.activeUnit &&
      gl.units == s.units - {s.activeUnit}
    }

    /**
     * The Renderer constructor: throws for a missing canvas, a canvas without a WebGL
     * context, or shaders the driver rejects; otherwise builds the program, the buffers and
     * the textures. No renderer exists after a throw.
     */
    static method Create(canvas: Option<Canvas>) returns (r: Result<Renderer, InitError>)
      ensures canvas.None? ==> r == Failure(InvalidCanvas)
      ensures canvas.Some? && canvas.value.webgl.None? ==> r == Failure(NoWebGLContext)
      ensures canvas.Some? && canvas.value.webgl.Some? ==>
        var ctx := canvas.value.webgl.value;
        var built := BuildProgram(ctx.state, ctx.driver);
        (built.Failure? ==> r == Failure(built.error)) &&
        (built.Success? ==> r.Success? && fresh(r.value) && r.value.Valid() &&
                            r.value.Initialized(built.value.0, built.value.1))
    {
      if canvas.None? {
        return Failure(InvalidCanvas);
      }
      var webgl := canvas.value.webgl;
      if webgl.None? {
        return Failure(NoWebGLContext);
      }
      var built := BuildProgram(webgl.value.state, webgl.value.driver);
      if built.Failure? {
        return Failure(built.error);
      }
      var renderer := new Renderer(built.value.0, built.value.1);
      return Success(renderer);
    }

    /** The part of the constructor after the program is in use. */
    constructor (state: GlState, program: ProgramId)
      requires state.program == Some(program)
      ensures Valid() && Initialized(state, program)
    {
      xStart := 0;
      yStart := 0;
      gl := state;
      shaderProgram := program;
      new;
      InitializeBuffers();
      InitializeTextures();
    }

    /** initializeBuffers: the quad positions and the default texture coordinates, two floats per vertex. */
    method InitializeBuffers()
      requires gl.program.Some?
      modifies this`gl, this`texturePosBuffer, this`vertexPosBuffer
      ensures vertexPosBuffer == |old(gl.buffers)| && texturePosBuffer == |old(gl.buffers)| + 1
      ensures gl == old(gl).(buffers := old(gl.buffers) + [QuadPositions, DefaultTexCoords],
                            arrayBuffer := Some(texturePosBuffer),
                            attributes := old(gl.attributes)["vertexPos" := Attribute(vertexPosBuffer, 2)]
                                                           ["texturePos" := Attribute(texturePosBuffer, 2)])
    {
      var created := CreateBuffer(gl);
      var vertexPos := created.1;
      gl := created.0;
      gl := BindArrayBuffer(gl, vertexPos);
      gl := BufferData(gl, QuadPositions);
      gl := VertexAttribPointer(gl, "vertexPos", 2);

      created := CreateBuffer(gl);
      var texturePos := created.1;
      gl := created.0;
      gl := BindArrayBuffer(gl, texturePos);
      gl := BufferData(gl, DefaultTexCoords);
      gl := VertexAttribPointer(gl, "texturePos", 2);

      vertexPosBuffer := vertexPos;
      texturePosBuffer := texturePos;
    }

    /** initializeTextures: three textures, the samplers y/u/v set to units 0/1/2. */
    method InitializeTextures()
      modifies this`gl, this`yTextureRef, this`uTextureRef, this`vTextureRef
      ensures yTextureRef == |old(gl.textures)| && uTextureRef == yTextureRef + 1 && vTextureRef == yTextureRef + 2
      ensures gl == old(gl).(textures := old(gl.textures) + [EmptyImage, EmptyImage, EmptyImage],
                            units := old(gl.units) - {old(gl.activeUnit)},
                            uniforms := old(gl.uniforms)["ySampler" := 0]["uSampler" := 1]["vSampler" := 2])
    {
      var y := InitTexture();
      gl := Uniform1i(gl, "ySampler", 0);
      yTextureRef := y;

      var u := InitTexture();
      gl := Uniform1i(gl, "uSampler", 1);
      uTextureRef := u;

      var v := InitTexture();
      gl := Uniform1i(gl, "vSampler", 2);
      vTextureRef := v;
    }

    /**
     * initTexture: a new, empty texture object, left unbound; its filtering and wrapping
     * parameters are not modelled.
     */
    method InitTexture() returns (t: TextureId)
      modifies this`gl
      ensures t == |old(gl.textures)|
      ensures gl == old(gl).(textures := old(gl.textures) + [EmptyImage],
                            units := old(gl.units) - {old(gl.activeUnit)})
    {
      var created := CreateTexture(gl);
      t := created.1;
      gl := created.0;
      gl := BindTexture(gl, Some(t));
      gl := BindTexture(gl, None);
    }

    /**
     * drawNextOuptutPictureGL: sets the viewport and, for a crop, the texture coordinates;
     * uploads the Y, Cb and Cr planes of the I420 frame into the textures of units 0, 1 and
     * 2; draws the quad. Only the context changes.
     */
    method DrawNextOutputPicture(width: int, height: int, remoteWidth: nat, remoteHeight: nat,
                                 croppingParams: Option<CropRect>, data: seq<Byte>)
      requires Valid() && FrameArgs(width, height, remoteWidth, remoteHeight, croppingParams, data)
      modifies this`gl
      ensures Valid()
      ensures gl == FrameEffect(old(gl), xStart, yStart, Handles(), width, height,
                                remoteWidth, remoteHeight, croppingParams, data)
    {
      ghost var before := gl;
      if croppingParams.None? {
        gl := SetViewport(gl, xStart, yStart, width, height);
      } else {
        var crop := croppingParams.value;
        gl := SetViewport(gl, 0, 0, crop.width, crop.height);
        var texturePosValues := CropTexCoords(crop, width, height);
        gl := BindArrayBuffer(gl, texturePosBuffer);
        gl := BufferData(gl, texturePosValues);
      }
      ghost var placed := gl;
      assert placed.textures == before.textures && placed.units == before.units;

      ghost var planes := Slice(data, remoteWidth, remoteHeight);
      ChromaIsQuarter(remoteWidth, remoteHeight);
      var yDataLength := remoteWidth * remoteHeight;
      var yData := data[0..yDataLength];
      assert yData == planes.y;
      gl := ActiveTexture(gl, 0);
      gl := BindTexture(gl, Some(yTextureRef));
      gl := TexImage2D(gl, remoteWidth, remoteHeight, yData);

      var cbDataLength := (remoteWidth / 2) * (remoteHeight / 2);
      var cbData := data[yDataLength..yDataLength + cbDataLength];
      assert cbData == planes.cb;
      gl := ActiveTexture(gl, 1);
      gl := BindTexture(gl, Some(uTextureRef));
      gl := TexImage2D(gl, remoteWidth / 2, remoteHeight / 2, cbData);

      var crDataLength := cbDataLength;
      var crData := data[yDataLength + cbDataLength..yDataLength + cbDataLength + crDataLength];
      assert crData == planes.cr;
      gl := ActiveTexture(gl, 2);
      gl := BindTexture(gl, Some(vTextureRef));
      gl := TexImage2D(gl, remoteWidth / 2, remoteHeight / 2, crData);

      gl := DrawArrays(gl, TriangleStrip, 0, 4);
    }
  }
}
