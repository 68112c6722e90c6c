# CppAndroidEngine core, modelled in Dafny

This project models the engine layer of CppAndroidEngine, a small C++ engine for Android on OpenGL ES 2. It covers the following parts:

- **The vector and matrix types** (`Engine/vector.h`, `Engine/matrix.h`).
  - `Vec2` and `Vec3` are value datatypes. Their in-place members (`Set`, `operator=`, the compound assignments) are classes `Vec2Var` and `Vec3Var`.
  - `Matrix` is a class over a 4x4 `array2<real>`. Its `operator*` overwrites and returns the left operand. The model computes all sixteen products from the old entries before they are written, so `a * a` is the true square.
- **The structured helpers of `Engine/gfx_math.h`**: the identity, translation, scale and transpose builders, and the in-place clamps.
- **The GL wrappers of `Engine/vertex_buffer.cpp` and `Engine/index_buffer.cpp`.**
  - Every GL call is an event appended to the trace of a `Device`.
  - The buffer bound to each target is read back from that trace.
  - The `uint16_t` attribute offset of `DefineVertexAttribPointer` is kept modulo 2^16. The `uint32_t` byte count of `CreateIndexBuffer` is kept modulo 2^32.
- **The sprite of `Engine/sprite.cpp`.** It is a class with a 4-vertex staging array and a dirty flag.
  - The setters change a field only when the new value differs, and then mark the sprite dirty.
  - `SpriteDraw` rebuilds and uploads the staging array only when the sprite is dirty.
  - The sprite's fields are also given as one value, `SpriteFields`. Each setter's effect is a function on that value, and the lemmas are stated about those functions.
- **The global state of `engine.h`**: the shader-binding rule, the primitive type, the matrix setters (which store transposes), the MVP flush, and `hasTouchEvent`.
  - The flush multiplies `g_projection * g_view * g_world` with the in-place `operator*`. So it also leaves the product in `g_projection`, and a second flush without resetting the projection compounds.

All `float` arithmetic is over `real`, without rounding. The two structs `VertexBuffer` and `IndexBuffer` are values: `CreateVertexBuffer` and `CreateIndexBuffer` return the descriptor with its new GL name.

## Model

| member | source | states |
|---|---|---|
| Vectors.Vec2.Add | app/src/main/cpp/Engine/vector.h:64-67 | subtracting rhe from the sum gives the left operand back |
| Vectors.Vec2.Sub | app/src/main/cpp/Engine/vector.h:83-86 | the difference plus rhe is the left operand, in each component |
| Vectors.Vec2.Mul | app/src/main/cpp/Engine/vector.h:102-105 | dividing the componentwise product by an rhe with no zero component gives the left operand back |
| Vectors.Vec2.MulScalar | app/src/main/cpp/Engine/vector.h:121-124 | the scalar product is the componentwise product with the scalar in both components |
| Vectors.Vec2.Div | app/src/main/cpp/Engine/vector.h:140-143 | the quotient times rhe is the left operand, in each component (rhe without zero components) |
| Vectors.Vec2.DivScalar | app/src/main/cpp/Engine/vector.h:159-162 | the quotient multiplied back by a non-zero scalar is the left operand |
| Vectors.Vec2.Equal | app/src/main/cpp/Engine/vector.h:178-181 | `==` holds exactly when the two values are equal |
| Vectors.Vec2.NotEqual | app/src/main/cpp/Engine/vector.h:186-189 | `!=` holds exactly when the two values differ |
| Vectors.Vec3.Add | app/src/main/cpp/Engine/vector.h:255-258 | subtracting rhe from the sum gives the left operand back |
| Vectors.Vec3.Sub | app/src/main/cpp/Engine/vector.h:275-278 | the difference plus rhe is the left operand, in each component |
| Vectors.Vec3.Mul | app/src/main/cpp/Engine/vector.h:295-298 | dividing the componentwise product by an rhe with no zero component gives the left operand back |
| Vectors.Vec3.MulScalar | app/src/main/cpp/Engine/vector.h:315-318 | the scalar product is the componentwise product with the scalar in every component |
| Vectors.Vec3.Div | app/src/main/cpp/Engine/vector.h:335-338 | the quotient times rhe is the left operand, in each component (rhe without zero components) |
| Vectors.Vec3.DivScalar | app/src/main/cpp/Engine/vector.h:355-358 | the quotient multiplied back by a non-zero scalar is the left operand |
| Vectors.Vec3.Equal | app/src/main/cpp/Engine/vector.h:375-378 | `==` holds exactly when the two values are equal |
| Vectors.Vec3.NotEqual | app/src/main/cpp/Engine/vector.h:383-386 | `!=` holds exactly when the two values differ |
| Vectors.Vec2EqualityIsComponentwise | app/src/main/cpp/Engine/vector.h:178-189 | `==` holds exactly when both components are equal; `!=` is exactly its negation |
| Vectors.Vec3EqualityIsComponentwise | app/src/main/cpp/Engine/vector.h:375-386 | `==` holds exactly when all three components are equal; `!=` is exactly its negation |
| Vectors.Vec2AddSubInverse | app/src/main/cpp/Engine/vector.h:64-86 | componentwise `-` undoes `+` and vice versa; `+` commutes |
| Vectors.Vec3AddSubInverse | app/src/main/cpp/Engine/vector.h:255-278 | componentwise `-` undoes `+` and vice versa; `+` commutes |
| Vectors.Vec2MulDivInverse | app/src/main/cpp/Engine/vector.h:102-162 | `/` by a vector, or by a scalar, with no zero component undoes `*` by it, and the reverse |
| Vectors.Vec3MulDivInverse | app/src/main/cpp/Engine/vector.h:295-358 | `/` by a vector, or by a scalar, with no zero component undoes `*` by it, and the reverse |
| Vectors.ScalarFormsAgree | app/src/main/cpp/Engine/vector.h:102-124 | the scalar `*` and `/` are the vector forms applied to the scalar in every component |
| Vectors.Vec2Var.constructor | app/src/main/cpp/Engine/vector.h:14-17 | the default vector is (0, 0) |
| Vectors.Vec2Var.Copy | app/src/main/cpp/Engine/vector.h:22-25 | a copy equals the original, by `==` as well |
| Vectors.Vec2Var.Of | app/src/main/cpp/Engine/vector.h:30-33 | the set constructor holds (x, y) |
| Vectors.Vec2Var.Splat | app/src/main/cpp/Engine/vector.h:38-41 | the scalar constructor puts the scalar in both components |
| Vectors.Vec2Var.Set | app/src/main/cpp/Engine/vector.h:46-50 | both components are overwritten with the arguments |
| Vectors.Vec2Var.Assign | app/src/main/cpp/Engine/vector.h:55-59 | the variable takes the right-hand value and the call returns the variable itself |
| Vectors.Vec2Var.AddAssign | app/src/main/cpp/Engine/vector.h:72-78 | the variable becomes old value `+` rhe, as the binary operator gives it, and is returned |
| Vectors.Vec2Var.SubAssign | app/src/main/cpp/Engine/vector.h:91-97 | the variable becomes old value `-` rhe and is returned |
| Vectors.Vec2Var.MulAssign | app/src/main/cpp/Engine/vector.h:110-116 | the variable becomes old value `*` rhe and is returned |
| Vectors.Vec2Var.MulScalarAssign | app/src/main/cpp/Engine/vector.h:129-135 | the variable becomes old value `*` scalar and is returned |
| Vectors.Vec2Var.DivAssign | app/src/main/cpp/Engine/vector.h:148-154 | the variable becomes old value `/` rhe and is returned |
| Vectors.Vec2Var.DivScalarAssign | app/src/main/cpp/Engine/vector.h:167-173 | the variable becomes old value `/` scalar and is returned |
| Vectors.Vec3Var.constructor | app/src/main/cpp/Engine/vector.h:203-207 | the default vector is (0, 0, 0) |
| Vectors.Vec3Var.Copy | app/src/main/cpp/Engine/vector.h:212-215 | a copy equals the original, by `==` as well |
| Vectors.Vec3Var.Of | app/src/main/cpp/Engine/vector.h:220-223 | the set constructor holds (x, y, z) |
| Vectors.Vec3Var.Splat | app/src/main/cpp/Engine/vector.h:228-231 | the scalar constructor puts the scalar in all three components |
| Vectors.Vec3Var.Set | app/src/main/cpp/Engine/vector.h:236-241 | all components are overwritten with the arguments |
| Vectors.Vec3Var.Assign | app/src/main/cpp/Engine/vector.h:246-250 | the variable takes the right-hand value and the call returns the variable itself |
| Vectors.Vec3Var.AddAssign | app/src/main/cpp/Engine/vector.h:263-270 | the variable becomes old value `+` rhe and is returned |
| Vectors.Vec3Var.SubAssign | app/src/main/cpp/Engine/vector.h:283-290 | the variable becomes old value `-` rhe and is returned |
| Vectors.Vec3Var.MulAssign | app/src/main/cpp/Engine/vector.h:303-310 | the variable becomes old value `*` rhe and is returned |
| Vectors.Vec3Var.MulScalarAssign | app/src/main/cpp/Engine/vector.h:323-330 | the variable becomes old value `*` scalar and is returned |
| Vectors.Vec3Var.DivAssign | app/src/main/cpp/Engine/vector.h:343-350 | the variable becomes old value `/` rhe and is returned |
| Vectors.Vec3Var.DivScalarAssign | app/src/main/cpp/Engine/vector.h:363-370 | the variable becomes old value `/` scalar and is returned |
| Matrices.Flatten | app/src/main/cpp/engine.h:239 | the 16 floats handed to GL are the entries row by row: element 4i + j is entry (i, j) |
| Matrices.ProductAssociative | app/src/main/cpp/Engine/matrix.h:33-56 | the row-by-column product is associative, so a chain `p * v * w` may be read either way |
| Matrices.Matrix.constructor | app/src/main/cpp/Engine/matrix.h:9 | a default matrix of static storage (the engine's globals) is all zero |
| Matrices.Matrix.Of | app/src/main/cpp/Engine/matrix.h:11-20 | the 16-argument constructor holds its arguments in row order |
| Matrices.Matrix.Set | app/src/main/cpp/Engine/matrix.h:22-31 | argument m_ij is stored at entry (i, j) for all sixteen entries |
| Matrices.Matrix.Assign | app/src/main/cpp/engine.h:218 | copy assignment of a matrix value overwrites all sixteen entries |
| Matrices.Matrix.MulAssign | app/src/main/cpp/Engine/matrix.h:33-56 | the left operand becomes the row-by-column product of the OLD entries of both operands, even when they alias; a distinct right operand is unchanged; the left operand is returned |
| Matrices.Matrix.MulScalarAssign | app/src/main/cpp/Engine/matrix.h:58-66 | every entry is multiplied by the scalar in place, and the matrix is returned |
| GfxMath.Identity | app/src/main/cpp/Engine/gfx_math.h:88-94 | the identity: 1 on the diagonal, 0 elsewhere |
| GfxMath.Translate | app/src/main/cpp/Engine/gfx_math.h:146-152 | the identity except row 3, whose first three entries hold the offset |
| GfxMath.Scale | app/src/main/cpp/Engine/gfx_math.h:154-160 | diagonal with the three factors and 1; zero off the diagonal |
| GfxMath.Transpose | app/src/main/cpp/Engine/gfx_math.h:186-192 | entry (i, j) of the result is entry (j, i) of the argument |
| GfxMath.TransposeInvolutive | app/src/main/cpp/Engine/gfx_math.h:186-192 | transposing twice gives back the original |
| GfxMath.DiagonalBuildersAreSymmetric | app/src/main/cpp/Engine/gfx_math.h:154-160 | mtxIdentity and every mtxScale equal their own transposes |
| GfxMath.TranslateTranspose | app/src/main/cpp/Engine/gfx_math.h:146-152 | a translation equals its transpose exactly when the offset is zero; transposing moves the offset to column 3 |
| GfxMath.ProductIdentity | app/src/main/cpp/Engine/matrix.h:33-56 | multiplying by the identity on either side leaves a matrix unchanged |
| GfxMath.TransposeOfProduct | app/src/main/cpp/Engine/gfx_math.h:186-192 | the transpose of a product is the product of the transposes in reverse order |
| GfxMath.ClampMin | app/src/main/cpp/Engine/gfx_math.h:195-200 | the result is at least min, is the value itself when that already was, and is max(value, min) |
| GfxMath.ClampMax | app/src/main/cpp/Engine/gfx_math.h:203-208 | the result is at most max, is the value itself when that already was, and is min(value, max) |
| GfxMath.Clamp | app/src/main/cpp/Engine/gfx_math.h:211-215 | with min <= max the result lies in [min, max] and an in-range value is unchanged; with min > max the result is always max |
| GfxMath.ClampedIdempotent | app/src/main/cpp/Engine/gfx_math.h:211-215 | clamping twice gives what clamping once gives, for any bounds |
| GfxMath.ClampedIsMinOfMax | app/src/main/cpp/Engine/gfx_math.h:211-215 | Clamp is ClampMin followed by ClampMax for every pair of bounds |
| GlDevice.Device.GenBuffer | app/src/main/cpp/Engine/vertex_buffer.cpp:57 | glGenBuffers gives a non-zero name that was never handed out before |
| GlDevice.BindingAfterBind | app/src/main/cpp/Engine/vertex_buffer.cpp:79 | after glBindBuffer the target's binding is the given buffer |
| GlDevice.BindingOtherTarget | app/src/main/cpp/Engine/sprite.cpp:145-146 | binding one target leaves the other target's binding alone |
| GlDevice.BindingUnaffected | app/src/main/cpp/Engine/vertex_buffer.cpp:82-86 | calls that neither bind nor delete a buffer leave every binding as it was |
| VertexBuffers.AttributeName | app/src/main/cpp/Engine/vertex_buffer.cpp:9-25 | each element is looked up by a non-empty attribute name |
| VertexBuffers.AttributeNamesDistinct | app/src/main/cpp/Engine/vertex_buffer.cpp:9-25 | two elements share an attribute name exactly when they are the same element, so each is looked up under its own |
| VertexBuffers.ComponentCount | app/src/main/cpp/Engine/vertex_buffer.cpp:30-46 | Position 3, Color 4, TexCoord 2, Normal 3: 4 exactly for Color, 2 exactly for TexCoord |
| VertexBuffers.UsageFor | app/src/main/cpp/Engine/vertex_buffer.cpp:55 | the usage is GL_DYNAMIC_DRAW iff `dynamic`, else GL_STATIC_DRAW |
| VertexBuffers.OffsetIsPrefixSum | app/src/main/cpp/Engine/vertex_buffer.cpp:62-67 | the offset used for element i is 4 times the component counts of elements 0..i-1, modulo 2^16 |
| VertexBuffers.OffsetWithoutWrap | app/src/main/cpp/Engine/vertex_buffer.cpp:62-67 | while the layout spans fewer than 2^16 bytes the offsets are the exact prefix sums |
| VertexBuffers.AttribCallsLength | app/src/main/cpp/Engine/vertex_buffer.cpp:64-67 | each loop iteration makes exactly two calls |
| VertexBuffers.AttribCallAt | app/src/main/cpp/Engine/vertex_buffer.cpp:64-67 | iteration i enables attribute array i and then describes element i, with its count, at its offset, read before it is advanced |
| VertexBuffers.AttribCallsKeepBinding | app/src/main/cpp/Engine/vertex_buffer.cpp:64-69 | the loop neither binds nor deletes a buffer |
| VertexBuffers.DefineVertexAttribPointer | app/src/main/cpp/Engine/vertex_buffer.cpp:5-50 | one glVertexAttribPointer for the element at the current offset; the offset advances by 4 times the element's component count, modulo 2^16 |
| VertexBuffers.CreateVertexBuffer | app/src/main/cpp/Engine/vertex_buffer.cpp:52-70 | a fresh name is bound and filled with the descriptor's data and usage; arrays 0..count-1 are enabled and described in order; the array-buffer binding ends at 0 |
| VertexBuffers.DestroyVertexBuffer | app/src/main/cpp/Engine/vertex_buffer.cpp:72-75 | the buffer's name is deleted |
| VertexBuffers.BindVertexBuffer | app/src/main/cpp/Engine/vertex_buffer.cpp:77-80 | the buffer becomes the array buffer |
| VertexBuffers.UpdateVertexBuffer | app/src/main/cpp/Engine/vertex_buffer.cpp:82-86 | `size` bytes are written at offset 0 and the buffer stays bound |
| IndexBuffers.UploadBytes | app/src/main/cpp/Engine/index_buffer.cpp:8 | the byte count is the `uint32_t` product of count and stride, exact while it does not wrap |
| IndexBuffers.CreateIndexBuffer | app/src/main/cpp/Engine/index_buffer.cpp:3-11 | a fresh name is bound as element array buffer and filled statically; the binding ends at 0 |
| IndexBuffers.DestroyIndexBuffer | app/src/main/cpp/Engine/index_buffer.cpp:13-16 | the buffer's name is deleted |
| IndexBuffers.BindIndexBuffer | app/src/main/cpp/Engine/index_buffer.cpp:18-21 | the buffer becomes the element array buffer |
| Sprites.VertexFloats | app/src/main/cpp/Engine/sprite.h:10-14 | a SpriteVertex is nine floats |
| Sprites.BufferFloats | app/src/main/cpp/Engine/sprite.cpp:55 | the staging array uploaded is nine floats per vertex, and float 9i + j is float j of vertex i |
| Sprites.SpriteLayoutMatchesVertex | app/src/main/cpp/Engine/sprite.cpp:32-38 | the layout {Position, Color, TexCoord} gets offsets 0, 12, 28, which land on the colour and texture-coordinate floats, and spans 36 bytes, the stride |
| Sprites.StagingArrayFillsBuffer | app/src/main/cpp/Engine/sprite.cpp:38-39 | four vertices are exactly the 144 bytes given as the buffer size |
| Sprites.QuadIndexPattern | app/src/main/cpp/Engine/sprite.cpp:44-48 | six indices, each below 4, every vertex used; the triangles share the diagonal 0-1 and their third vertices are the two other corners; 12 bytes are uploaded |
| Sprites.Quad | app/src/main/cpp/Engine/sprite.cpp:8-25 | the four vertices are the corners chosen by HighX/HighY for k = 0..3 |
| Sprites.QuadCoversRectangle | app/src/main/cpp/Engine/sprite.cpp:22-25 | the positions are exactly the four corners (x0,y0), (x1,y1), (x0,y1), (x1,y0); both triangles have the same winding and half the area |
| Sprites.QuadTexCoordsFollowCorners | app/src/main/cpp/Engine/sprite.cpp:13-25 | each vertex takes its texture coordinate from the same corner as its position, has z = 0, and all share one normalised colour |
| Sprites.ZeroScaleCollapsesQuad | app/src/main/cpp/Engine/sprite.cpp:10-11 | at scale (0, 0) all four corners coincide |
| Sprites.QuadDependsOnPlacement | app/src/main/cpp/Engine/sprite.cpp:3-26 | the quad depends only on position, size, scale, texture rectangle, texture and colour |
| Sprites.WithPosition | app/src/main/cpp/Engine/sprite.cpp:86-93 | Position becomes the argument; the sprite is marked dirty iff it differed; nothing else changes |
| Sprites.WithSize | app/src/main/cpp/Engine/sprite.cpp:95-102 | Size becomes the argument; the sprite is marked dirty iff it differed; nothing else changes |
| Sprites.WithScale | app/src/main/cpp/Engine/sprite.cpp:104-111 | a request of (1, 1) leaves the sprite unchanged; any other is stored and marks the sprite dirty; nothing else changes |
| Sprites.WithScaleIntended | app/src/main/cpp/Engine/sprite.cpp:104-111 | Scale becomes the argument; dirty iff it differed from the current scale |
| Sprites.WithColor | app/src/main/cpp/Engine/sprite.cpp:113-120 | Color becomes the argument; the sprite is marked dirty iff it differed; nothing else changes |
| Sprites.WithTexRect | app/src/main/cpp/Engine/sprite.cpp:122-131 | a different rectangle is stored, Size becomes its (Width, Height), the sprite is dirty; an equal one changes nothing |
| Sprites.SettersChangeIffDifferent | app/src/main/cpp/Engine/sprite.cpp:86-131 | each comparing setter leaves the sprite unchanged exactly when the value is already there, and twice is the same as once |
| Sprites.ScaleSetterUnchangedIff | app/src/main/cpp/Engine/sprite.cpp:104-111 | SpriteSetScale changes nothing exactly when the request is (1, 1), or repeats the scale of a sprite already dirty |
| Sprites.UnitScaleUnreachable | app/src/main/cpp/Engine/sprite.cpp:104-111 | a sprite whose scale is not (1, 1) never gets scale (1, 1) |
| Sprites.ResetToUnitScaleIgnored | app/src/main/cpp/Engine/sprite.cpp:104-111 | a sprite at (2, 2) that asks for (1, 1) stays at (2, 2) |
| Sprites.IntendedScaleReachesUnit | app/src/main/cpp/Engine/sprite.cpp:104-111 | with the intended comparison, (1, 1) is reached from any scale and dirties a sprite it changes |
| Sprites.Created | app/src/main/cpp/Engine/sprite.cpp:60-66 | a created sprite points at the texture, sits at the position, has the texture's size and full rectangle and colour 0xFFFFFFFF; scale and flag are kept |
| Sprites.Initialized | app/src/main/cpp/Engine/sprite.cpp:38-50 | the vertex descriptor gets stride 36, size 144 and the staging floats; the index descriptor gets 6 indices of 2 bytes |
| Sprites.Destroyed | app/src/main/cpp/Engine/sprite.cpp:79-83 | no texture, zero rectangle, position, size and colour; scale, flag and descriptors are kept |
| Sprites.DestroyUndoesCreate | app/src/main/cpp/Engine/sprite.cpp:58-84 | destroying a created sprite gives what destroying the original gives; destroying twice is destroying once |
| Sprites.DrawBindsSpriteBuffers | app/src/main/cpp/Engine/sprite.cpp:143-153 | at glDrawElements the sprite's own buffers are bound; afterwards both bindings are 0 |
| Sprites.Sprite.constructor | app/src/main/cpp/Engine/sprite.h:16-26 | a zero-initialised sprite: zero vectors, no texture, empty descriptors, clean |
| Sprites.SetupVertexData | app/src/main/cpp/Engine/sprite.cpp:3-26 | the four staging vertices become the quad of the sprite's current fields; only the staging array is written |
| Sprites.InitializeSprite | app/src/main/cpp/Engine/sprite.cpp:28-51 | staging array filled; a dynamic vertex buffer with the sprite layout and a static index buffer are created, in that order |
| Sprites.CreateSprite | app/src/main/cpp/Engine/sprite.cpp:58-72 | with no texture data nothing changes; otherwise the sprite is created and initialised |
| Sprites.DestroySprite | app/src/main/cpp/Engine/sprite.cpp:74-84 | the index then the vertex buffer are deleted and the sprite's fields reset |
| Sprites.SpriteSetPosition | app/src/main/cpp/Engine/sprite.cpp:86-93 | the sprite's new fields are WithPosition of the old |
| Sprites.SpriteSetSize | app/src/main/cpp/Engine/sprite.cpp:95-102 | the sprite's new fields are WithSize of the old |
| Sprites.SpriteSetScale | app/src/main/cpp/Engine/sprite.cpp:104-111 | the sprite's new fields are WithScale of the old (the code as written) |
| Sprites.SpriteSetColor | app/src/main/cpp/Engine/sprite.cpp:113-120 | the sprite's new fields are WithColor of the old |
| Sprites.SpriteSetTexRect | app/src/main/cpp/Engine/sprite.cpp:122-131 | the sprite's new fields are WithTexRect of the old |
| Sprites.SpriteDraw | app/src/main/cpp/Engine/sprite.cpp:133-154 | afterwards the sprite is clean; a dirty sprite's staging array is rebuilt and all 144 bytes uploaded, a clean one's is untouched; then one indexed draw of 6 and both bindings back at 0 |
| Engine.BindCalls | app/src/main/cpp/engine.h:154-184 | the program is linked and used exactly when a pixel shader is bound with a non-zero vertex-shader id recorded; a pixel shader otherwise makes no call |
| Engine.ColumnMajor | app/src/main/cpp/engine.h:239 | with `transpose` false GL reads the 16 floats column by column |
| Engine.ColumnMajorOfFlatten | app/src/main/cpp/engine.h:239 | GL's view of a matrix's row-major entries is its transpose |
| Engine.FlushedMvpIsWorldViewProjection | app/src/main/cpp/engine.h:216-240 | the stored transposes multiplied in flush order are the transpose of world·view·projection, so GL receives world·view·projection |
| Engine.NormalizedTouch | app/src/main/cpp/Engine/touchscreen.cpp:40 | a touch coordinate is the raw value divided by the display extent |
| Engine.NormalizationInjective | app/src/main/cpp/Engine/touchscreen.cpp:61 | dividing by one positive extent keeps different coordinates different |
| Engine.HasTouchEvent | app/src/main/cpp/engine.h:100-104 | as written, the test on the normalised coordinates holds exactly when neither raw coordinate equals minus its display extent |
| Engine.NormalizedIsMinusOne | app/src/main/cpp/engine.h:103 | a normalised coordinate equals -1 exactly when the raw one is minus the extent |
| Engine.HasTouchEventIntended | app/src/main/cpp/engine.h:100-104 | corrected: the sentinel is normalised the same way, so the test holds exactly when neither raw coordinate is -1 |
| Engine.TouchSentinelReadAsTouch | app/src/main/cpp/engine.h:100-104 | as written, the -1 "no touch" sentinel in both raw coordinates reads as a touch on any display more than one pixel wide and tall; the corrected test sees no touch |
| Engine.TouchSentinelOn1080By1920 | app/src/main/cpp/engine.h:100-104 | the concrete 1080 x 1920 case of the above |
| Engine.IntendedTouchTestDetectsSentinel | app/src/main/cpp/engine.h:100-104 | the corrected test sees no touch when either raw coordinate is the sentinel, and agrees with the code as written on every input on a one-pixel display |
| Engine.EngineState.constructor | app/src/main/cpp/engine.h:35-43 | start-up globals: ids 0, triangle lists, zero matrices |
| Engine.EngineState.BindShader | app/src/main/cpp/engine.h:154-184 | a vertex shader is attached and its id recorded even when 0; a pixel shader is attached, linked and used, with its id recorded, only when the vertex-shader id is non-zero, else nothing changes |
| Engine.EngineState.SetPrimitiveType | app/src/main/cpp/engine.h:201-204 | the primitive type becomes the argument and nothing else changes |
| Engine.EngineState.Draw | app/src/main/cpp/engine.h:206-209 | draws with the current primitive type |
| Engine.EngineState.DrawIndexed | app/src/main/cpp/engine.h:211-214 | draws indexed with the current primitive type |
| Engine.EngineState.SetWorldMatrix | app/src/main/cpp/engine.h:216-219 | the world global holds the transpose of the argument; view and projection are unchanged |
| Engine.EngineState.SetViewMatrix | app/src/main/cpp/engine.h:221-224 | the view global holds the transpose of the argument; world and projection are unchanged |
| Engine.EngineState.SetProjectionMatrix | app/src/main/cpp/engine.h:226-229 | the projection global holds the transpose of the argument; world and view are unchanged |
| Engine.EngineState.SetMatricesAndFlush | app/src/main/cpp/main.cpp:140-144 | setting world, view and projection and flushing uploads world·view·projection as GL reads it, and leaves its transpose in the projection global; at location -1 nothing is uploaded |
| Engine.EngineState.FlushMvpMatrix | app/src/main/cpp/engine.h:231-241 | at location -1 nothing changes; otherwise projection·view·world is uploaded and also left in the projection global |

## Left out

- The JNI entry points, the Java activity and renderer, and the JNI field reads in `touchscreen.cpp` are platform glue. Only the division of a raw coordinate by the display extent is modelled.
- Asset reading, texture decoding, shader compilation, the clock, logging and `graphics_context.cpp` are foreign calls or I/O. `GraphicsContext::Draw` and `DrawIndexed` are events, because their definitions are not part of this model.
- The numeric helpers of `gfx_math.h` have no structural contract. These are Magnitude, Normalize, Cross, Dot, Abs, the trigonometric helpers, mtxLookAt, the orthographic and perspective builders, and the rotations.
- `math.h` and `math.cpp` are a stale duplicate of the math header.
- `main.cpp` is a demo of the engine, not part of it. Only its frame set-up, the three matrix setters followed by a flush, is modelled, as `SetMatricesAndFlush`, with the demo's matrices as parameters.
- The one-line `gfx*Buffer` forwards are not modelled separately. `gfxCreateVertexBuffer` passes four arguments to the five-parameter `CreateVertexBuffer`.
- `float` rounding, infinities, NaN and signed zero are not modelled. In particular `==` on vectors is equality of reals, so a NaN component compares equal to itself here.
- Vectors.Vec2.Div: a zero divisor component is excluded, because real division by zero is undefined. The `float` source gives an infinity or NaN there. The same holds for Vec2.DivScalar, Vec3.Div, Vec3.DivScalar and the four `/=` members.
- Sprites.SetupVertexData: requires a texture with a positive width and height, because the source divides by them. The same holds for InitializeSprite, CreateSprite and a dirty SpriteDraw. A zero-sized texture would give infinities in the source.
- Engine.NormalizedTouch: requires a positive extent. A default-constructed `TouchScreen` has width and height 0 (touchscreen.cpp:5-6), and the `float` division at touchscreen.cpp:40 and :61 then gives an infinity or NaN, which real division does not model. The same holds for Engine.HasTouchEvent, Engine.HasTouchEventIntended and the lemmas about them.
- Sprites.SpriteDraw: requires a texture, because the source dereferences the texture pointer unconditionally.
- Sprites.Sprite: the texture is held as a copied `Texture2D` value, not as a pointer. Later changes to the texture object are not seen by the sprite.
- Sprites.InitializeSprite: the descriptors' `Data` pointers are snapshots of the data. The index buffer's pointer, which refers to a local array that dies when InitializeSprite returns, is not modelled.
- VertexBuffers.CreateVertexBuffer: requires `count` to be at most the layout length, since more would read past the array. It also requires `count` below 2^16. The loop index is `uint16_t`, so a larger count never ends the loop.
- VertexBuffers.DefineVertexAttribPointer: the attribute location is recorded by name. A name missing from the program gives the location -1 cast to `uint32_t`, and that case is not modelled.
- Engine.EngineState.FlushMvpMatrix: the uniform location is a parameter, because glGetUniformLocation is a GL query.
- Sprites.SetupVertexData: the normalising of the colour, `DwordToColorNormalized`, is the parameter `decode`. Its definition is not part of this model.
- VertexBuffers.CreateVertexBuffer: enables attribute array `index` (vertex_buffer.cpp:65) but points the data at the location `glGetAttribLocation` reports for the attribute's name (vertex_buffer.cpp:13-22). Nothing calls `glBindAttribLocation`, so the enabled arrays are the described ones only if the linker numbers the attributes 0..count-1 in layout order. The model records both calls as written and does not model the linker's numbering.
- GL errors are left out. Buffer names are a counter, so glGenBuffers never fails.
- Sprites.Sprite.constructor: zero-initialises every member, as for a static or value-initialised `Sprite`. The plain-data members of an uninitialised local sprite would be indeterminate.
- `sprite.h` declares setters that take a work-resolution scale, and a `SpriteDraw` over a `const Sprite&`. Its struct also lacks `NeedBufferUpdate`. The model follows the definitions in `sprite.cpp`.
- The MultiTouch slot and `getTouchScreenXY` are left out. They are JNI reads of the same kind.
- `ShaderProgram` is never set in the model, because `glCreateProgram` is called from the JNI create entry point.

## Findings

| source | as written | input that shows it | evidently intended | confidence | as-written member | corrected member |
|---|---|---|---|---|---|---|
| app/src/main/cpp/engine.h:100-104 | `hasTouchEvent` compares each touch coordinate with -1. The coordinate has already been divided by the display width or height (touchscreen.cpp:40 and :61). | No finger down on a 1080 x 1920 display: the sentinel -1 arrives as -1/1080 and -1/1920. Neither equals -1, so a touch is reported. | Compare against the sentinel before normalising, or against -1 divided by the extent. | high; not executed | Engine.TouchSentinelOn1080By1920 | Engine.IntendedTouchTestDetectsSentinel |
| app/src/main/cpp/Engine/sprite.cpp:104-111 | `SpriteSetScale` compares the request with (1, 1) instead of with the current scale. | A sprite at scale (2, 2) asks for (1, 1) and stays at (2, 2). A sprite starts at scale (0, 0), which CreateSprite keeps, so it can never be given unit scale, and its quad has zero size. | `scale != sprite.Scale`, like the other setters. | medium; not executed | Sprites.ResetToUnitScaleIgnored | Sprites.IntendedScaleReachesUnit |

`Sprites.SpriteSetScale` models the code as written. `Sprites.WithScaleIntended` is the corrected setter. `Engine.HasTouchEvent` is the touch test as written, and `Engine.HasTouchEventIntended` the corrected one. The other statements about the code as written are `Sprites.UnitScaleUnreachable`, `Sprites.ZeroScaleCollapsesQuad` and `Engine.TouchSentinelReadAsTouch`.
