# Renderer: a verified model of the WebGL I420 frame renderer

This project models the `Renderer` class of `renderer.js`. The class draws one planar
YUV 4:2:0 (I420) video frame per call onto a canvas through WebGL. The colour conversion
happens in the fragment shader, which is not part of this model. The model covers:

- **construction**: the null checks on the canvas and on its WebGL context, and the shader
  build as an abstract driver outcome. On success it sets up the quad-position buffer, the
  texture-coordinate buffer and three luminance textures. The samplers `ySampler`,
  `uSampler` and `vSampler` are set to texture units 0, 1 and 2.
- **each frame** (`drawNextOuptutPictureGL`): the viewport, the crop texture coordinates,
  the cutting of the frame into its Y, Cb and Cr planes, the three texture uploads, and the
  single triangle-strip draw.

Files:

- `wrappers.dfy`: `Option` and `Result` (stand-ins for JavaScript `null` and exceptions),
  and `Byte`.
- `i420.dfy` (module `I420`): plane sizes and offsets, `Slice` (the three `subarray` cuts),
  and lemmas showing that the planes partition the frame.
- `geometry.dfy` (module `Geometry`): the quad positions, the default texture coordinates
  and the crop texture coordinates, with exact `real` arithmetic.
- `webgl.dfy` (module `WebGL`): the WebGL context as a value, `GlState`, with one function
  per WebGL call the model keeps. Buffer, texture and program objects are handles: an
  object's handle is its index in the context's list of such objects.
- `renderer.dfy` (module `Rendering`): the `Renderer` class. It holds the context in a
  field `gl` that its methods reassign call by call, as the source does. Its invariant is
  `Valid()`. `FrameEffect` states the context after one frame, and
  `DrawNextOutputPicture` is proved to produce exactly that state.

`tRight` is `crop.width / width`, not `(crop.left + crop.width) / width`, so the sampled
horizontal span is `(crop.width - crop.left) / width`. It equals `crop.width / width` exactly
when `crop.left` is 0; the vertical span behaves the same way with `top`. See
`Geometry.CropTexCoordsSpan`. The corner order is kept exactly as written.

An uncropped frame leaves the texture-coordinate buffer as it was; it does not restore the
default coordinates. So after the first cropped frame, every later uncropped frame still
samples the old crop region, while its viewport covers the whole frame size. The default
mapping therefore holds for uncropped frames only until the first crop. See
`Rendering.UncroppedFrameKeepsCrop`.

## Model

| member | source | states |
|---|---|---|
| `I420.ChromaIsQuarter` | renderer.js:142-158 | for even dimensions each chroma plane `(w/2)*(h/2)` is a quarter of the luma plane `w*h`, and a frame is `3*w*h/2` bytes |
| `I420.Slice` | renderer.js:142-160 | the Y, Cb, Cr cuts have sizes `w*h`, `(w/2)*(h/2)`, `(w/2)*(h/2)`; `|Cb| = |Cr| = |Y|/4`; the three sizes sum to `1.5*w*h`; laid end to end they are exactly the first `1.5*w*h` bytes of the buffer |
| `I420.SliceJoin` | renderer.js:142-160 | slicing a buffer made of three correctly sized planes in Y, Cb, Cr order gives those planes back (the inverse of laying them out) |
| `I420.ByteInOnePlane` | renderer.js:143-160 | every byte of the frame lies in exactly one plane at its offset there: Y below `w*h`, Cb up to `w*h + (w/2)*(h/2)`, Cr after that, so the planes are contiguous, disjoint and in order |
| `I420.VgaFrameLength` | renderer.js:142-158 | a 640 x 480 frame has 307200 luma bytes, 76800 bytes per chroma plane and 460800 bytes in all |
| `Geometry.CropTexCoords` | renderer.js:129-134 | the eight values `[tRight,tTop,tLeft,tTop,tRight,tBottom,tLeft,tBottom]` are the corners of an axis-aligned rectangle, in the same corner order as the default coordinates |
| `Geometry.CropTexCoordsInUnit` | renderer.js:129-134 | for a crop inside the frame (non-negative fields, `top+height <= H`, `left+width <= W`), every crop texture coordinate lies in `[0,1]` |
| `Geometry.CropTexCoordsSpan` | renderer.js:129-134 | the sampled region spans `(crop.width-left)/W` by `(crop.height-top)/H`, which equals `crop.width/W` (resp. `crop.height/H`) exactly when `left` (resp. `top`) is 0 |
| `Geometry.WholeFrameCropIsDefault` | renderer.js:72-73 | cropping to the whole frame gives the default coordinates `[1,0,0,0,1,1,0,1]` set at initialisation, and the default coordinates form a rectangle |
| `Geometry.QuarterCrop` | renderer.js:129-134 | a 320 x 240 crop at 0,0 of a 640 x 480 frame gives `tRight = tBottom = 0.5` and `tTop = tLeft = 0` |
| `Rendering.Message` | renderer.js:6-48 | the thrown messages; the messages for the two compile errors and the link error end with the driver's info log |
| `Rendering.BuildProgram` | renderer.js:17-54 | the build succeeds iff the driver accepts both shaders and the link; otherwise the error is for the vertex shader first, then the fragment shader, then the link, carrying the driver's log; on success a newly created program (the next handle; the program count grows by one) is in use and nothing else in the context changes |
| `Rendering.FrameEffect` | renderer.js:123-168 | after a frame: the viewport is `(xStart,yStart,width,height)` without a crop and `(0,0,crop.width,crop.height)` with one; the texture-coordinate buffer is untouched without a crop and holds the crop coordinates with one, and no other buffer changes; the Y texture is `remoteWidth x remoteHeight` and U, V are `remoteWidth/2 x remoteHeight/2`, each with as many pixels as its size; their pixels laid end to end are exactly the frame's bytes; no texture is created and no other texture changes; units 0/1/2 hold Y/U/V; exactly one 4-vertex triangle-strip draw is added; programs, attributes and sampler uniforms are unchanged |
| `Rendering.RedrawSameFrame` | renderer.js:140-167 | drawing the same frame twice leaves the same context as drawing it once, apart from the second draw call: uploads replace in place and no object accumulates |
| `Rendering.FrameKeepsTexCoordsInUnit` | renderer.js:124-137 | if the texture coordinates lie in `[0,1]` before a frame whose crop, if any, lies inside the frame, they still do after it |
| `Rendering.UncroppedFrameKeepsCrop` | renderer.js:124-137 | after a cropped frame, a later uncropped frame sets the viewport to `(xStart,yStart,width,height)` but keeps the crop's texture coordinates, which differ from the default ones whenever the crop is narrower or wider than the frame |
| `Rendering.VgaFrame` | renderer.js:123-168 | an uncropped 640 x 480 frame of 460800 bytes at origin 0,0 sets the viewport `(0,0,640,480)`, issues exactly one draw, and its three uploaded planes make up the whole buffer |
| `Rendering.Renderer.Create` | renderer.js:5-22 | a missing canvas throws the invalid-canvas error; a canvas without a WebGL context throws the context error; a rejected shader or link throws that error; in each case no renderer is produced; otherwise a new, valid renderer in the initial state is produced |
| `Rendering.Renderer.constructor` | renderer.js:10-21 | establishes `Valid()` and the initial state: origin 0,0; a new buffer holding `[1,1,-1,1,1,-1,-1,-1]` that feeds `vertexPos`; a new buffer holding `[1,0,0,0,1,1,0,1]` that feeds `texturePos`; three new, distinct, empty textures; samplers y/u/v on units 0/1/2 |
| `Rendering.Renderer.InitializeBuffers` | renderer.js:59-81 | appends the quad-position and default texture-coordinate buffers, binds them to `vertexPos` and `texturePos` at two floats per vertex, and leaves the texture-coordinate buffer bound |
| `Rendering.Renderer.InitializeTextures` | renderer.js:86-101 | creates the Y, U, V textures in that order as three consecutive new objects and sets `ySampler=0`, `uSampler=1`, `vSampler=2` |
| `Rendering.Renderer.InitTexture` | renderer.js:106-116 | creates one new, empty texture object and leaves the active unit's TEXTURE_2D binding cleared |
| `Rendering.Renderer.DrawNextOutputPicture` | renderer.js:123-168 | keeps `Valid()`, changes nothing but the WebGL context, and leaves it exactly as `FrameEffect` states |

## Left out

- Shader compilation and linking are an abstract driver outcome (`ShaderDriver`). The
  shader sources `./vertical-shader` and `./fragment-shader` are not part of this model.
  Neither are the shader objects and the fields `vertexShader` and `fragmentShader`.
- The YUV to RGB conversion happens in the fragment shader, which is not part of this model.
- `texParameteri` (linear filtering, clamp-to-edge wrapping) is not modelled: it sets
  constant driver parameters. The `STATIC_DRAW` and `DYNAMIC_DRAW` usage hints are not
  modelled either.
- `canvas.getContext('webgl')` is a field of `Canvas`, and the stored `this.canvas` is not
  modelled. `getAttribLocation` and `getUniformLocation` become the attribute or uniform
  name. `enableVertexAttribArray` is folded into `VertexAttribPointer`.
- Texture coordinates are exact reals. The source rounds them to 32-bit floats.
- `Rendering.Renderer.DrawNextOutputPicture`: the caller must pass even source dimensions
  and a buffer of at least `1.5*w*h` bytes. The source does not check either. For those
  inputs JavaScript would use non-integer chroma sizes, or `subarray` would silently return
  short planes. The model does not reproduce that behaviour, and it has no buffer-size error
  path because the source has none.
- `Rendering.Renderer.DrawNextOutputPicture`: with a crop, the frame width and height must be
  non-zero. JavaScript would divide by zero and upload `Infinity` or `NaN`.
- `Rendering.Renderer.DrawNextOutputPicture`: only `null` means "no crop". An `undefined`
  `croppingParams` makes JavaScript throw a TypeError when it reads the crop's width. The
  model has no `undefined` crop and does not model that throw.
- WebGL errors raised by the driver (for example a negative viewport size) are not modelled.
  Every WebGL call is taken to succeed. The case that matters most is the upload:
  `UNPACK_ALIGNMENT` is never set, so it keeps its default of 4. WebGL then rejects the
  tightly packed LUMINANCE upload with INVALID_OPERATION when a plane's row width is not a
  multiple of 4. That happens when the source width is not a multiple of 4 for Y, or not a
  multiple of 8 for Cb and Cr (854, for example). `Rendering.FrameEffect` states that the
  textures hold the planes; in WebGL that holds only for such widths.
- `xStart` and `yStart` are public fields in JavaScript, so a caller could reassign them.
  The model sets them only at construction.
- Decoding frames and scheduling the render loop belong to external callers.
