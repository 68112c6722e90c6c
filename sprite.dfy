/**
 * Engine/sprite.cpp: one textured quad. A `Sprite` keeps its placement,
 * texture rectangle and colour, a 4-vertex staging array that is uploaded
 * to its vertex buffer, and a dirty flag. The setters change a field only
 * when the new value differs and then mark the sprite dirty; SpriteDraw
 * rebuilds and uploads the staging array only when the sprite is dirty.
 *
 * The structure of the sprite follows the definitions of sprite.cpp, which
 * use a `NeedBufferUpdate` flag that the struct in sprite.h lacks.
 */
module Sprites {
  import opened Vectors
  import opened GlDevice
  import VertexBuffers
  import opened IndexBuffers

  datatype Option<T> = None | Some(value: T)

  /** A rectangle of texels: a real origin and whole-texel extents. */
  datatype Rect2D = Rect2D(X: real, Y: real, Width: nat, Height: nat)

  /** A loaded texture: GL name, size in texels, and whether pixel data was decoded. */
  datatype Texture2D = Texture2D(Id: nat, Width: nat, Height: nat, HasData: bool)

  /** A colour with each channel normalised to [0, 1]. */
  datatype Rgba = Rgba(R: real, G: real, B: real, A: real)

  /** One vertex of the quad, as the interleaved SpriteVertex record. */
  datatype SpriteVertex = SpriteVertex(Position: Vec3, Color: Rgba, TexCoord: Vec2)

  /** Everything in a sprite except its staging array. */
  datatype SpriteFields = SpriteFields(
    Position: Vec2, Size: Vec2, Scale: Vec2, TexRect: Rect2D, Color: uint32,
    Texture: Option<Texture2D>, VertexBuffer: VertexBuffers.VertexBufferDesc,
    IndexBuffer: IndexBufferDesc, NeedBufferUpdate: bool)

  /** The attribute layout of a sprite vertex. */
  const SpriteLayout: seq<VertexBuffers.VertexElement> :=
    [VertexBuffers.Position, VertexBuffers.Color, VertexBuffers.TexCoord]

  /** Floats in one SpriteVertex. */
  const VertexFloatCount: nat := 9

  /** sizeof(SpriteVertex): the vertex-buffer stride. */
  const SpriteVertexBytes: nat := VertexBuffers.FloatBytes * VertexFloatCount

  /** sizeof(BufferData): four vertices. */
  const SpriteBufferBytes: nat := 4 * SpriteVertexBytes

  /** The two triangles of the quad, as indices into the four vertices. */
  const QuadIndices: seq<nat> := [0, 1, 2, 0, 3, 1]

  /** sizeof(uint16_t): the index-buffer stride. */
  const IndexBytes: uint32 := 2

  /** The floats of one vertex in memory order: XYZ, then RGBA, then UV. */
  function VertexFloats(v: SpriteVertex): (r: seq<real>)
    ensures |r| == VertexFloatCount
  {
    [v.Position.X, v.Position.Y, v.Position.Z, v.Color.R, v.Color.G, v.Color.B, v.Color.A, v.TexCoord.X, v.TexCoord.Y]
  }

  /** The bytes of the staging array, as floats. */
  function BufferFloats(vs: seq<SpriteVertex>): (r: seq<real>)
    ensures |r| == VertexFloatCount * |vs|
    ensures forall i, j :: 0 <= i < |vs| && 0 <= j < VertexFloatCount ==> r[VertexFloatCount * i + j] == VertexFloats(vs[i])[j]
  {
    if vs == [] then [] else BufferFloats(vs[..|vs| - 1]) + VertexFloats(vs[|vs| - 1])
  }

  /**
   * The sprite layout describes exactly a SpriteVertex: colour starts after
   * the 3 position floats and the texture coordinate after 7 floats, and
   * the whole layout spans one stride.
   */
  lemma SpriteLayoutMatchesVertex(v: SpriteVertex)
    ensures VertexBuffers.OffsetAfter(SpriteLayout, 0) == 0
    ensures VertexBuffers.OffsetAfter(SpriteLayout, 1) == 12 && VertexFloats(v)[12 / 4] == v.Color.R
    ensures VertexBuffers.OffsetAfter(SpriteLayout, 2) == 28 && VertexFloats(v)[28 / 4] == v.TexCoord.X
    ensures VertexBuffers.OffsetAfter(SpriteLayout, 3) == 36 == SpriteVertexBytes
    ensures VertexBuffers.FloatBytes * |VertexFloats(v)| == SpriteVertexBytes
  {
    VertexBuffers.OffsetIsPrefixSum(SpriteLayout, 3);
    assert SpriteLayout[..3] == SpriteLayout;
    assert SpriteLayout[..2] == [VertexBuffers.Position, VertexBuffers.Color];
    assert SpriteLayout[..1] == [VertexBuffers.Position];
  }

  /** The staging array of four vertices fills the whole vertex buffer. */
  lemma StagingArrayFillsBuffer(vs: seq<SpriteVertex>)
    requires |vs| == 4
    ensures VertexBuffers.FloatBytes * |BufferFloats(vs)| == SpriteBufferBytes == 144
  {
  }

  /**
   * The index pattern: six indices below 4 that use every vertex; the two
   * triangles share the edge 0-1, which joins opposite corners, and their
   * third vertices 2 and 3 are the two remaining corners.
   */
  lemma QuadIndexPattern()
    ensures |QuadIndices| == 6
    ensures forall i :: 0 <= i < |QuadIndices| ==> QuadIndices[i] < 4
    ensures forall v: nat :: v < 4 ==> v in QuadIndices
    ensures QuadIndices[0] == QuadIndices[3] == 0 && QuadIndices[1] == QuadIndices[5] == 1
    ensures HighX(0) != HighX(1) && HighY(0) != HighY(1)
    ensures {HighX(QuadIndices[2]), HighX(QuadIndices[4])} == {true, false}
    ensures {HighY(QuadIndices[2]), HighY(QuadIndices[4])} == {true, false}
    ensures IndexBytes * |QuadIndices| == 12
  {
    assert QuadIndices[0] == 0 && QuadIndices[1] == 1 && QuadIndices[2] == 2 && QuadIndices[4] == 3;
  }

  /** Corner k of the quad lies on the far edge in X: vertices 1 and 3. */
  predicate HighX(k: int) { k == 1 || k == 3 }

  /** Corner k of the quad lies on the far edge in Y: vertices 1 and 2. */
  predicate HighY(k: int) { k == 1 || k == 2 }

  /**
   * Vertex k of the quad of `s`: its position is the near or far edge of
   * the scaled rectangle, in work-resolution units, on each axis; its
   * texture coordinate is the matching edge of the texture rectangle,
   * normalised by the texture size; all corners share `color` and z = 0.
   */
  function QuadVertex(s: SpriteFields, tex: Texture2D, color: Rgba, ws: Vec2, k: int): SpriteVertex
    requires tex.Width > 0 && tex.Height > 0
  {
    var x := if HighX(k) then (s.Position.X + s.Size.X * s.Scale.X) * ws.X else s.Position.X * ws.X;
    var y := if HighY(k) then (s.Position.Y + s.Size.Y * s.Scale.Y) * ws.Y else s.Position.Y * ws.Y;
    var u := if HighX(k) then (s.TexRect.X + s.TexRect.Width as real) / tex.Width as real else s.TexRect.X / tex.Width as real;
    var v := if HighY(k) then (s.TexRect.Y + s.TexRect.Height as real) / tex.Height as real else s.TexRect.Y / tex.Height as real;
    SpriteVertex(Vec3(x, y, 0.0), color, Vec2(u, v))
  }

  /** The four vertices of the quad of `s`. */
  function Quad(s: SpriteFields, tex: Texture2D, color: Rgba, ws: Vec2): (q: seq<SpriteVertex>)
    requires tex.Width > 0 && tex.Height > 0
    ensures |q| == 4
    ensures forall k :: 0 <= k < 4 ==> q[k] == QuadVertex(s, tex, color, ws, k)
  {
    [QuadVertex(s, tex, color, ws, 0), QuadVertex(s, tex, color, ws, 1),
     QuadVertex(s, tex, color, ws, 2), QuadVertex(s, tex, color, ws, 3)]
  }

  /** Twice the signed area of the triangle a, b, c in the XY plane. */
  function SignedArea2(a: Vec3, b: Vec3, c: Vec3): real
  {
    (b.X - a.X) * (c.Y - a.Y) - (b.Y - a.Y) * (c.X - a.X)
  }

  /**
   * The quad's four positions are the four corners of the rectangle, and
   * the two triangles of the index pattern have the same winding, each
   * with half the rectangle's area.
   */
  lemma QuadCoversRectangle(s: SpriteFields, tex: Texture2D, color: Rgba, ws: Vec2)
    requires tex.Width > 0 && tex.Height > 0
    ensures var q := Quad(s, tex, color, ws);
      var x0, x1 := s.Position.X * ws.X, (s.Position.X + s.Size.X * s.Scale.X) * ws.X;
      var y0, y1 := s.Position.Y * ws.Y, (s.Position.Y + s.Size.Y * s.Scale.Y) * ws.Y;
      (set k | 0 <= k < 4 :: q[k].Position) == {Vec3(x0, y0, 0.0), Vec3(x1, y1, 0.0), Vec3(x0, y1, 0.0), Vec3(x1, y0, 0.0)} &&
      SignedArea2(q[0].Position, q[1].Position, q[2].Position) == (x1 - x0) * (y1 - y0) &&
      SignedArea2(q[0].Position, q[3].Position, q[1].Position) == (x1 - x0) * (y1 - y0)
  {
    var q := Quad(s, tex, color, ws);
    var x0, x1 := s.Position.X * ws.X, (s.Position.X + s.Size.X * s.Scale.X) * ws.X;
    var y0, y1 := s.Position.Y * ws.Y, (s.Position.Y + s.Size.Y * s.Scale.Y) * ws.Y;
    assert q[0].Position == Vec3(x0, y0, 0.0) && q[1].Position == Vec3(x1, y1, 0.0);
    assert q[2].Position == Vec3(x0, y1, 0.0) && q[3].Position == Vec3(x1, y0, 0.0);
    var corners := set k | 0 <= k < 4 :: q[k].Position;
    assert corners == {q[0].Position, q[1].Position, q[2].Position, q[3].Position};
  }

  /**
   * Each vertex's texture coordinate is taken from the same corner of the
   * texture rectangle as its position is of the sprite rectangle, and every
   * vertex carries the one colour.
   */
  lemma QuadTexCoordsFollowCorners(s: SpriteFields, tex: Texture2D, color: Rgba, ws: Vec2, k: int)
    requires tex.Width > 0 && tex.Height > 0
    requires 0 <= k < 4
    ensures var q := Quad(s, tex, color, ws);
      q[k].Color == color && q[k].Position.Z == 0.0 &&
      (q[k].Position.X == q[1].Position.X <== HighX(k)) && (q[k].Position.X == q[0].Position.X <== !HighX(k)) &&
      (q[k].TexCoord.X == q[1].TexCoord.X <== HighX(k)) && (q[k].TexCoord.X == q[0].TexCoord.X <== !HighX(k)) &&
      (q[k].Position.Y == q[1].Position.Y <== HighY(k)) && (q[k].Position.Y == q[0].Position.Y <== !HighY(k)) &&
      (q[k].TexCoord.Y == q[1].TexCoord.Y <== HighY(k)) && (q[k].TexCoord.Y == q[0].TexCoord.Y <== !HighY(k))
  {
  }

  /** With the default scale (0, 0) every corner of the quad is the same point. */
  lemma ZeroScaleCollapsesQuad(s: SpriteFields, tex: Texture2D, color: Rgba, ws: Vec2)
    requires tex.Width > 0 && tex.Height > 0
    requires s.Scale == Vec2(0.0, 0.0)
    ensures forall k :: 0 <= k < 4 ==> Quad(s, tex, color, ws)[k].Position == Vec3(s.Position.X * ws.X, s.Position.Y * ws.Y, 0.0)
  {
    forall k | 0 <= k < 4
      ensures Quad(s, tex, color, ws)[k].Position == Vec3(s.Position.X * ws.X, s.Position.Y * ws.Y, 0.0)
    {
      assert s.Size.X * s.Scale.X == 0.0 && s.Size.Y * s.Scale.Y == 0.0;
    }
  }

  /** The quad depends only on the placement, the texture rectangle, the texture and the colour. */
  lemma QuadDependsOnPlacement(s: SpriteFields, t: SpriteFields, tex: Texture2D, color: Rgba, ws: Vec2)
    requires tex.Width > 0 && tex.Height > 0
    requires s.Position == t.Position && s.Size == t.Size && s.Scale == t.Scale && s.TexRect == t.TexRect
    ensures Quad(s, tex, color, ws) == Quad(t, tex, color, ws)
  {
    forall k | 0 <= k < 4
      ensures QuadVertex(s, tex, color, ws, k) == QuadVertex(t, tex, color, ws, k)
    {
    }
    var qs, qt := Quad(s, tex, color, ws), Quad(t, tex, color, ws);
    assert qs[0] == qt[0] && qs[1] == qt[1] && qs[2] == qt[2] && qs[3] == qt[3];
  }

  /** SpriteSetPosition on the sprite's fields. */
  function WithPosition(s: SpriteFields, position: Vec2): (r: SpriteFields)
    ensures r.Position == position
    ensures r.NeedBufferUpdate == (s.NeedBufferUpdate || position != s.Position)
    ensures r == s.(Position := position, NeedBufferUpdate := r.NeedBufferUpdate)
  {
    if position.NotEqual(s.Position) then s.(Position := position, NeedBufferUpdate := true) else s
  }

  /** SpriteSetSize on the sprite's fields. */
  function WithSize(s: SpriteFields, size: Vec2): (r: SpriteFields)
    ensures r.Size == size
    ensures r.NeedBufferUpdate == (s.NeedBufferUpdate || size != s.Size)
    ensures r == s.(Size := size, NeedBufferUpdate := r.NeedBufferUpdate)
  {
    if size.NotEqual(s.Size) then s.(Size := size, NeedBufferUpdate := true) else s
  }

  /** SpriteSetColor on the sprite's fields. */
  function WithColor(s: SpriteFields, color: uint32): (r: SpriteFields)
    ensures r.Color == color
    ensures r.NeedBufferUpdate == (s.NeedBufferUpdate || color != s.Color)
    ensures r == s.(Color := color, NeedBufferUpdate := r.NeedBufferUpdate)
  {
    if color != s.Color then s.(Color := color, NeedBufferUpdate := true) else s
  }

  /** SpriteSetTexRect on the sprite's fields: a new rectangle also resets Size to its extent. */
  function WithTexRect(s: SpriteFields, texrect: Rect2D): (r: SpriteFields)
    ensures r.TexRect == texrect
    ensures texrect != s.TexRect ==> r.Size == Vec2(texrect.Width as real, texrect.Height as real) && r.NeedBufferUpdate
    ensures texrect == s.TexRect ==> r == s
    ensures r == s.(TexRect := texrect, Size := r.Size, NeedBufferUpdate := r.NeedBufferUpdate)
  {
    if texrect != s.TexRect then
      s.(TexRect := texrect, Size := Vec2(texrect.Width as real, texrect.Height as real), NeedBufferUpdate := true)
    else s
  }

  /**
   * SpriteSetScale on the sprite's fields, as written: a request equal to
   * (1, 1) is dropped whatever the current scale, and any other request is
   * stored and marks the sprite dirty, even when it equals the current scale.
   */
  function WithScale(s: SpriteFields, scale: Vec2): (r: SpriteFields)
    ensures scale == Vec2(1.0, 1.0) ==> r == s
    ensures scale != Vec2(1.0, 1.0) ==> r.Scale == scale && r.NeedBufferUpdate
    ensures r == s.(Scale := r.Scale, NeedBufferUpdate := r.NeedBufferUpdate)
  {
    if scale.NotEqual(Vec2(1.0, 1.0)) then s.(Scale := scale, NeedBufferUpdate := true) else s
  }

  /** SpriteSetScale as the other setters suggest it was meant: compared with the current scale. */
  function WithScaleIntended(s: SpriteFields, scale: Vec2): (r: SpriteFields)
    ensures r.Scale == scale
    ensures r.NeedBufferUpdate == (s.NeedBufferUpdate || scale != s.Scale)
    ensures r == s.(Scale := scale, NeedBufferUpdate := r.NeedBufferUpdate)
  {
    if scale.NotEqual(s.Scale) then s.(Scale := scale, NeedBufferUpdate := true) else s
  }

  /**
   * Setting a field to the value it already holds changes nothing, and a
   * setter changes the sprite exactly when its argument differs; calling a
   * setter twice is the same as calling it once.
   */
  lemma SettersChangeIffDifferent(s: SpriteFields, v: Vec2, c: uint32, t: Rect2D)
    ensures WithPosition(s, v) == s <==> v == s.Position
    ensures WithSize(s, v) == s <==> v == s.Size
    ensures WithColor(s, c) == s <==> c == s.Color
    ensures WithTexRect(s, t) == s <==> t == s.TexRect
    ensures WithScaleIntended(s, v) == s <==> v == s.Scale
    ensures WithPosition(WithPosition(s, v), v) == WithPosition(s, v)
    ensures WithSize(WithSize(s, v), v) == WithSize(s, v)
    ensures WithColor(WithColor(s, c), c) == WithColor(s, c)
    ensures WithTexRect(WithTexRect(s, t), t) == WithTexRect(s, t)
  {
  }

  /**
   * SpriteSetScale as written leaves the sprite unchanged exactly when the
   * request is (1, 1), or it repeats the current scale of a sprite already
   * dirty.
   */
  lemma ScaleSetterUnchangedIff(s: SpriteFields, scale: Vec2)
    ensures WithScale(s, scale) == s <==> scale == Vec2(1.0, 1.0) || (scale == s.Scale && s.NeedBufferUpdate)
  {
  }

  /** As written, a sprite whose scale is not (1, 1) can never be given scale (1, 1). */
  lemma UnitScaleUnreachable(s: SpriteFields, scale: Vec2)
    requires s.Scale != Vec2(1.0, 1.0)
    ensures WithScale(s, scale).Scale != Vec2(1.0, 1.0)
  {
  }

  /** A concrete case: a sprite scaled to (2, 2) asks for (1, 1) and stays at (2, 2). */
  lemma ResetToUnitScaleIgnored(s: SpriteFields)
    requires s.Scale == Vec2(2.0, 2.0)
    ensures WithScale(s, Vec2(1.0, 1.0)).Scale == Vec2(2.0, 2.0)
  {
  }

  /** With the intended comparison, (1, 1) is reachable from any scale and marks the sprite dirty when it is new. */
  lemma IntendedScaleReachesUnit(s: SpriteFields)
    ensures WithScaleIntended(s, Vec2(1.0, 1.0)).Scale == Vec2(1.0, 1.0)
    ensures s.Scale != Vec2(1.0, 1.0) ==> WithScaleIntended(s, Vec2(1.0, 1.0)).NeedBufferUpdate
    ensures WithScaleIntended(WithScaleIntended(s, Vec2(1.0, 1.0)), Vec2(1.0, 1.0)) == WithScaleIntended(s, Vec2(1.0, 1.0))
  {
  }

  /** The fields CreateSprite sets from a loaded texture before initialising the buffers. */
  function Created(s: SpriteFields, texture: Texture2D, position: Vec2): (r: SpriteFields)
    ensures r.Texture == Some(texture) && r.Position == position
    ensures r.Size == Vec2(texture.Width as real, texture.Height as real)
    ensures r.TexRect == Rect2D(0.0, 0.0, texture.Width, texture.Height) && r.Color == 0xFFFF_FFFF
    ensures r.Scale == s.Scale && r.NeedBufferUpdate == s.NeedBufferUpdate
    ensures r.VertexBuffer == s.VertexBuffer && r.IndexBuffer == s.IndexBuffer
  {
    s.(Texture := Some(texture), Position := position,
       Size := Vec2(texture.Width as real, texture.Height as real),
       TexRect := Rect2D(0.0, 0.0, texture.Width, texture.Height), Color := 0xFFFF_FFFF)
  }

  /** The buffer descriptors InitializeSprite leaves, given the two generated names. */
  function Initialized(s: SpriteFields, vertexName: nat, indexName: nat, floats: seq<real>): (r: SpriteFields)
    ensures r.VertexBuffer.Id == vertexName && r.VertexBuffer.Stride == SpriteVertexBytes
    ensures r.VertexBuffer.Size == SpriteBufferBytes && r.VertexBuffer.Data == Floats(floats)
    ensures r.IndexBuffer.Id == indexName && r.IndexBuffer.Size == |QuadIndices|
    ensures r.IndexBuffer.Stride == IndexBytes && r.IndexBuffer.Data == Shorts(QuadIndices)
    ensures r == s.(VertexBuffer := r.VertexBuffer, IndexBuffer := r.IndexBuffer)
  {
    s.(VertexBuffer := VertexBuffers.VertexBufferDesc(vertexName, SpriteVertexBytes, SpriteBufferBytes, Floats(floats)),
       IndexBuffer := IndexBufferDesc(indexName, |QuadIndices|, IndexBytes, Shorts(QuadIndices)))
  }

  /** The fields DestroySprite leaves: no texture, zero rectangle, position, size and colour. */
  function Destroyed(s: SpriteFields): (r: SpriteFields)
    ensures r.Texture == None && r.TexRect == Rect2D(0.0, 0.0, 0, 0)
    ensures r.Position == Vec2(0.0, 0.0) && r.Size == Vec2(0.0, 0.0) && r.Color == 0
    ensures r.Scale == s.Scale && r.NeedBufferUpdate == s.NeedBufferUpdate
    ensures r.VertexBuffer == s.VertexBuffer && r.IndexBuffer == s.IndexBuffer
  {
    s.(Texture := None, TexRect := Rect2D(0.0, 0.0, 0, 0), Position := Vec2(0.0, 0.0),
       Size := Vec2(0.0, 0.0), Color := 0)
  }

  /**
   * Destroying forgets everything creation set: a created-then-destroyed
   * sprite has the fields of the destroyed original, and destroying twice
   * is destroying once. Scale, the dirty flag and the (now deleted) buffer
   * names survive both.
   */
  lemma DestroyUndoesCreate(s: SpriteFields, texture: Texture2D, position: Vec2)
    ensures Destroyed(Created(s, texture, position)) == Destroyed(s)
    ensures Destroyed(Destroyed(s)) == Destroyed(s)
  {
  }

  /** The calls of SpriteDraw after the optional upload: bind, draw six indices, unbind. */
  function DrawCalls(s: SpriteFields): seq<GlCall>
    requires s.Texture.Some?
  {
    [BindTexture(s.Texture.value.Id),
     BindBuffer(ArrayBuffer, s.VertexBuffer.Id),
     BindBuffer(ElementArrayBuffer, s.IndexBuffer.Id),
     DrawElements(TriangleList, |QuadIndices|),
     BindBuffer(ArrayBuffer, 0),
     BindBuffer(ElementArrayBuffer, 0),
     BindTexture(0)]
  }

  /**
   * When glDrawElements runs, the sprite's own two buffers are the ones
   * bound; when SpriteDraw is done, both bindings are back at 0.
   */
  lemma DrawBindsSpriteBuffers(trace: seq<GlCall>, s: SpriteFields)
    requires s.Texture.Some?
    ensures var calls := trace + DrawCalls(s);
      calls[|trace| + 3] == DrawElements(TriangleList, 6) &&
      Binding(calls[..|trace| + 3], ArrayBuffer) == s.VertexBuffer.Id &&
      Binding(calls[..|trace| + 3], ElementArrayBuffer) == s.IndexBuffer.Id &&
      Binding(calls, ArrayBuffer) == 0 && Binding(calls, ElementArrayBuffer) == 0
  {
    var d := DrawCalls(s);
    var t1 := trace + [d[0]];
    BindingUnaffected(trace, [d[0]], ArrayBuffer);
    BindingUnaffected(trace, [d[0]], ElementArrayBuffer);
    var t2 := t1 + [d[1]];
    BindingAfterBind(t1, ArrayBuffer, s.VertexBuffer.Id);
    BindingOtherTarget(t1, ElementArrayBuffer, ArrayBuffer, s.VertexBuffer.Id);
    var t3 := t2 + [d[2]];
    BindingAfterBind(t2, ElementArrayBuffer, s.IndexBuffer.Id);
    BindingOtherTarget(t2, ArrayBuffer, ElementArrayBuffer, s.IndexBuffer.Id);
    assert (trace + d)[..|trace| + 3] == t3;
    var t4 := t3 + [d[3]];
    var t5 := t4 + [d[4]];
    BindingAfterBind(t4, ArrayBuffer, 0);
    var t6 := t5 + [d[5]];
    BindingAfterBind(t5, ElementArrayBuffer, 0);
    BindingOtherTarget(t5, ArrayBuffer, ElementArrayBuffer, 0);
    BindingUnaffected(t6, [d[6]], ArrayBuffer);
    BindingUnaffected(t6, [d[6]], ElementArrayBuffer);
    assert trace + d == t6 + [d[6]];
  }

  /** A sprite: its fields, its 4-vertex staging array and its dirty flag. */
  class Sprite {
    var Position: Vec2
    var Size: Vec2
    var Scale: Vec2
    var TexRect: Rect2D
    var Color: uint32
    var Texture: Option<Texture2D>
    var VertexBuffer: VertexBuffers.VertexBufferDesc
    var IndexBuffer: IndexBufferDesc
    var NeedBufferUpdate: bool
    const BufferData: array<SpriteVertex>

    /** The staging array holds the four corners. */
    ghost predicate Valid()
      reads this
    {
      BufferData.Length == 4
    }

    /** The sprite's fields as one value. */
    function State(): SpriteFields
      reads this
    {
      SpriteFields(Position, Size, Scale, TexRect, Color, Texture, VertexBuffer, IndexBuffer, NeedBufferUpdate)
    }

    /** A zero-initialised sprite: zero vectors (the Vec2 default), no texture, no buffers, clean. */
    constructor ()
      ensures Valid() && fresh(BufferData)
      ensures State() == SpriteFields(Vec2(0.0, 0.0), Vec2(0.0, 0.0), Vec2(0.0, 0.0), Rect2D(0.0, 0.0, 0, 0), 0, None,
                                      VertexBuffers.VertexBufferDesc(0, 0, 0, NoData), IndexBufferDesc(0, 0, 0, NoData), false)
    {
      Position, Size, Scale := Vec2(0.0, 0.0), Vec2(0.0, 0.0), Vec2(0.0, 0.0);
      TexRect := Rect2D(0.0, 0.0, 0, 0);
      Color := 0;
      Texture := None;
      VertexBuffer := VertexBuffers.VertexBufferDesc(0, 0, 0, NoData);
      IndexBuffer := IndexBufferDesc(0, 0, 0, NoData);
      NeedBufferUpdate := false;
      BufferData := new SpriteVertex[4](_ => SpriteVertex(Vec3(0.0, 0.0, 0.0), Rgba(0.0, 0.0, 0.0, 0.0), Vec2(0.0, 0.0)));
    }
  }

  /**
   * SetupVertexData: overwrites the four staging vertices with the quad of
   * the sprite's current fields. `decode` is DwordToColorNormalized, whose
   * definition is not part of this model.
   */
  method SetupVertexData(sprite: Sprite, workResScale: Vec2, decode: uint32 -> Rgba)
    requires sprite.Valid() && sprite.Texture.Some?
    requires sprite.Texture.value.Width > 0 && sprite.Texture.value.Height > 0
    modifies sprite.BufferData
    ensures sprite.BufferData[..] == Quad(sprite.State(), sprite.Texture.value, decode(sprite.Color), workResScale)
  {
    var texWidth := sprite.Texture.value.Width as real;
    var texHeight := sprite.Texture.value.Height as real;

    var posX := sprite.Position.X * workResScale.X;
    var posY := sprite.Position.Y * workResScale.Y;
    var posSizeX := (sprite.Position.X + sprite.Size.X * sprite.Scale.X) * workResScale.X;
    var posSizeY := (sprite.Position.Y + sprite.Size.Y * sprite.Scale.Y) * workResScale.Y;

    var texWidthX := sprite.TexRect.X / texWidth;
    var texHeightY := sprite.TexRect.Y / texHeight;
    var texWidthOffsetX := (sprite.TexRect.X + sprite.TexRect.Width as real) / texWidth;
    var texHeightOffsetY := (sprite.TexRect.Y + sprite.TexRect.Height as real) / texHeight;

    var c := decode(sprite.Color);

    sprite.BufferData[0] := SpriteVertex(Vec3(posX, posY, 0.0), c, Vec2(texWidthX, texHeightY));
    sprite.BufferData[1] := SpriteVertex(Vec3(posSizeX, posSizeY, 0.0), c, Vec2(texWidthOffsetX, texHeightOffsetY));
    sprite.BufferData[2] := SpriteVertex(Vec3(posX, posSizeY, 0.0), c, Vec2(texWidthX, texHeightOffsetY));
    sprite.BufferData[3] := SpriteVertex(Vec3(posSizeX, posY, 0.0), c, Vec2(texWidthOffsetX, texHeightY));

    ghost var q := Quad(sprite.State(), sprite.Texture.value, c, workResScale);
    assert sprite.BufferData[0] == q[0] && sprite.BufferData[1] == q[1];
    assert sprite.BufferData[2] == q[2] && sprite.BufferData[3] == q[3];
    assert sprite.BufferData[..] == q;
  }

  /**
   * InitializeSprite: fills the staging array, creates a dynamic vertex
   * buffer over it with the sprite layout, and a static index buffer
   * holding the quad's six indices.
   */
  method InitializeSprite(sprite: Sprite, device: Device, program: nat, workResScale: Vec2, decode: uint32 -> Rgba)
    requires sprite.Valid() && device.Valid() && sprite.Texture.Some?
    requires sprite.Texture.value.Width > 0 && sprite.Texture.value.Height > 0
    modifies sprite, sprite.BufferData, device
    ensures sprite.Valid() && device.Valid()
    ensures device.nextName == old(device.nextName) + 2
    ensures sprite.State() == Initialized(old(sprite.State()), old(device.nextName) + 1, old(device.nextName) + 2, BufferFloats(sprite.BufferData[..]))
    ensures sprite.BufferData[..] == Quad(old(sprite.State()), sprite.Texture.value, decode(sprite.Color), workResScale)
    ensures device.trace == old(device.trace)
      + VertexBuffers.CreationCalls(program, SpriteLayout, |SpriteLayout|, sprite.VertexBuffer, true, sprite.VertexBuffer.Id)
      + IndexCreationCalls(sprite.IndexBuffer, sprite.IndexBuffer.Id)
  {
    SetupVertexData(sprite, workResScale, decode);

    var layout := SpriteLayout;
    var nLayout := |layout|;

    sprite.VertexBuffer := sprite.VertexBuffer.(Stride := SpriteVertexBytes, Size := SpriteBufferBytes,
                                                Data := Floats(BufferFloats(sprite.BufferData[..])));
    sprite.VertexBuffer := VertexBuffers.CreateVertexBuffer(device, program, layout, nLayout, sprite.VertexBuffer, true);

    var indices := QuadIndices;
    sprite.IndexBuffer := sprite.IndexBuffer.(Stride := IndexBytes, Size := |indices|, Data := Shorts(indices));
    sprite.IndexBuffer := CreateIndexBuffer(device, sprite.IndexBuffer);
  }

  /**
   * CreateSprite: with a texture whose pixels were loaded, points the
   * sprite at it, places it at `position` with the texture's full size,
   * rectangle and an opaque white colour, and initialises it; with an
   * unloaded texture it changes nothing.
   */
  method CreateSprite(sprite: Sprite, device: Device, program: nat, workResScale: Vec2, texture: Texture2D, position: Vec2, decode: uint32 -> Rgba)
    requires sprite.Valid() && device.Valid()
    requires texture.HasData ==> texture.Width > 0 && texture.Height > 0
    modifies sprite, sprite.BufferData, device
    ensures sprite.Valid() && device.Valid()
    ensures !texture.HasData ==>
      sprite.State() == old(sprite.State()) && sprite.BufferData[..] == old(sprite.BufferData[..]) &&
      device.trace == old(device.trace) && device.nextName == old(device.nextName)
    ensures texture.HasData ==>
      sprite.State() == Initialized(Created(old(sprite.State()), texture, position), old(device.nextName) + 1, old(device.nextName) + 2, BufferFloats(sprite.BufferData[..])) &&
      sprite.BufferData[..] == Quad(Created(old(sprite.State()), texture, position), texture, decode(0xFFFF_FFFF), workResScale) &&
      device.trace == old(device.trace)
        + VertexBuffers.CreationCalls(program, SpriteLayout, |SpriteLayout|, sprite.VertexBuffer, true, sprite.VertexBuffer.Id)
        + IndexCreationCalls(sprite.IndexBuffer, sprite.IndexBuffer.Id)
  {
    if texture.HasData {
      sprite.Texture := Some(texture);
      sprite.Position := position;
      sprite.Size := Vec2(texture.Width as real, texture.Height as real);
      sprite.TexRect := Rect2D(0.0, 0.0, texture.Width, texture.Height);
      sprite.Color := 0xFFFF_FFFF;
      InitializeSprite(sprite, device, program, workResScale, decode);
    }
  }

  /** DestroySprite: deletes the index and vertex buffers and clears the sprite's placement. */
  method DestroySprite(sprite: Sprite, device: Device)
    requires device.Valid()
    modifies sprite, device
    ensures device.Valid() && device.nextName == old(device.nextName)
    ensures sprite.State() == Destroyed(old(sprite.State()))
    ensures device.trace == old(device.trace) + [DeleteBuffers(sprite.IndexBuffer.Id), DeleteBuffers(sprite.VertexBuffer.Id)]
  {
    DestroyIndexBuffer(device, sprite.IndexBuffer);
    VertexBuffers.DestroyVertexBuffer(device, sprite.VertexBuffer);
    sprite.Texture := None;
    sprite.TexRect := Rect2D(0.0, 0.0, 0, 0);
    sprite.Position := Vec2(0.0, 0.0);
    sprite.Size := Vec2(0.0, 0.0);
    sprite.Color := 0;
  }

  /** SpriteSetPosition. */
  method SpriteSetPosition(sprite: Sprite, position: Vec2)
    modifies sprite
    ensures sprite.State() == WithPosition(old(sprite.State()), position)
  {
    if position.NotEqual(sprite.Position) {
      sprite.Position := position;
      sprite.NeedBufferUpdate := true;
    }
  }

  /** SpriteSetSize. */
  method SpriteSetSize(sprite: Sprite, size: Vec2)
    modifies sprite
    ensures sprite.State() == WithSize(old(sprite.State()), size)
  {
    if size.NotEqual(sprite.Size) {
      sprite.Size := size;
      sprite.NeedBufferUpdate := true;
    }
  }

  /** SpriteSetScale, as written. */
  method SpriteSetScale(sprite: Sprite, scale: Vec2)
    modifies sprite
    ensures sprite.State() == WithScale(old(sprite.State()), scale)
  {
    if scale.NotEqual(Vec2(1.0, 1.0)) {
      sprite.Scale := scale;
      sprite.NeedBufferUpdate := true;
    }
  }

  /** SpriteSetColor. */
  method SpriteSetColor(sprite: Sprite, color: uint32)
    modifies sprite
    ensures sprite.State() == WithColor(old(sprite.State()), color)
  {
    if color != sprite.Color {
      sprite.Color := color;
      sprite.NeedBufferUpdate := true;
    }
  }

  /** SpriteSetTexRect. */
  method SpriteSetTexRect(sprite: Sprite, texrect: Rect2D)
    modifies sprite
    ensures sprite.State() == WithTexRect(old(sprite.State()), texrect)
  {
    if texrect != sprite.TexRect {
      sprite.TexRect := texrect;
      sprite.Size := Vec2(texrect.Width as real, texrect.Height as real);
      sprite.NeedBufferUpdate := true;
    }
  }

  /**
   * SpriteDraw: a dirty sprite has its staging array rebuilt and uploaded
   * (all 144 bytes at offset 0) and is then clean; a clean sprite keeps
   * its array. Either way the quad is drawn once with the sprite's
   * texture and buffers, which are unbound afterwards.
   */
  method SpriteDraw(sprite: Sprite, device: Device, workResScale: Vec2, decode: uint32 -> Rgba)
    requires sprite.Valid() && device.Valid() && sprite.Texture.Some?
    requires sprite.NeedBufferUpdate ==> sprite.Texture.value.Width > 0 && sprite.Texture.value.Height > 0
    modifies sprite, sprite.BufferData, device
    ensures device.Valid() && device.nextName == old(device.nextName)
    ensures sprite.State() == old(sprite.State()).(NeedBufferUpdate := false)
    ensures old(sprite.NeedBufferUpdate) ==>
      sprite.BufferData[..] == Quad(sprite.State(), sprite.Texture.value, decode(sprite.Color), workResScale)
    ensures !old(sprite.NeedBufferUpdate) ==> sprite.BufferData[..] == old(sprite.BufferData[..])
    ensures device.trace == old(device.trace)
      + (if old(sprite.NeedBufferUpdate)
         then [BindBuffer(ArrayBuffer, sprite.VertexBuffer.Id),
               BufferSubData(ArrayBuffer, 0, SpriteBufferBytes, Floats(BufferFloats(sprite.BufferData[..])))]
         else [])
      + DrawCalls(sprite.State())
    ensures Binding(device.trace, ArrayBuffer) == 0 && Binding(device.trace, ElementArrayBuffer) == 0
  {
    if sprite.NeedBufferUpdate {
      SetupVertexData(sprite, workResScale, decode);
      VertexBuffers.UpdateVertexBuffer(device, Floats(BufferFloats(sprite.BufferData[..])), SpriteBufferBytes, sprite.VertexBuffer);
      ghost var dirty := sprite.State();
      sprite.NeedBufferUpdate := false;
      QuadDependsOnPlacement(dirty, sprite.State(), sprite.Texture.value, decode(sprite.Color), workResScale);
    }
    ghost var before := device.trace;

    device.Emit(BindTexture(sprite.Texture.value.Id));
    VertexBuffers.BindVertexBuffer(device, sprite.VertexBuffer);
    BindIndexBuffer(device, sprite.IndexBuffer);
    device.Emit(DrawElements(TriangleList, 6));
    device.Emit(BindBuffer(ArrayBuffer, 0));
    device.Emit(BindBuffer(ElementArrayBuffer, 0));
    device.Emit(BindTexture(0));

    assert device.trace == before + DrawCalls(sprite.State());
    DrawBindsSpriteBuffers(before, sprite.State());
  }
}
