/**
 * engine.h: the engine's global state (the shader program and the ids of
 * the shaders bound to it, the primitive type, and the world, view and
 * projection matrices) and the inline functions that change it, plus the
 * touch test. The globals are the fields of one `EngineState`.
 */
module Engine {
  import opened GlDevice
  import opened Matrices
  import opened GfxMath

  /** shader_compiler.h: the two shader stages. */
  datatype ShaderType = VertexShader | PixelShader

  /** A compiled shader object. */
  datatype Shader = Shader(Id: uint32, Type: ShaderType)

  /** The calls gfxBindShader makes, given the program and the vertex-shader id recorded so far. */
  function BindCalls(program: uint32, vertexShaderId: uint32, shader: Shader): (calls: seq<GlCall>)
    ensures shader.Type == VertexShader ==> calls == [AttachShader(program, shader.Id)]
    ensures LinkProgram(program) in calls <==> shader.Type == PixelShader && vertexShaderId > 0
    ensures UseProgram(program) in calls <==> shader.Type == PixelShader && vertexShaderId > 0
    ensures calls == [] <==> shader.Type == PixelShader && vertexShaderId == 0
    ensures calls != [] ==> calls[0] == AttachShader(program, shader.Id)
  {
    match shader.Type
    case VertexShader => [AttachShader(program, shader.Id)]
    case PixelShader =>
      if vertexShaderId > 0 then [AttachShader(program, shader.Id), LinkProgram(program), UseProgram(program)]
      else []
  }

  /**
   * glUniformMatrix4fv with `transpose` false reads 16 floats column by
   * column: entry (row r, column c) is element 4c + r.
   */
  function ColumnMajor(data: seq<real>): (m: Mat4)
    requires |data| == 16
    ensures forall r, c :: 0 <= r < 4 && 0 <= c < 4 ==> m[r][c] == data[4 * c + r]
  {
    Rows(data[0], data[4], data[8], data[12],
         data[1], data[5], data[9], data[13],
         data[2], data[6], data[10], data[14],
         data[3], data[7], data[11], data[15])
  }

  /** Handing the row-major entries of a matrix to GL as column-major data transposes it. */
  lemma ColumnMajorOfFlatten(m: Mat4)
    ensures ColumnMajor(Flatten(m)) == Transpose(m)
  {
    EqualByEntries(ColumnMajor(Flatten(m)), Transpose(m));
  }

  /**
   * After gfxSetWorldMatrix(w), gfxSetViewMatrix(v) and
   * gfxSetProjectionMatrix(p) the globals hold the transposes, and their
   * product in flush order is the transpose of w·v·p; so the matrix GL
   * receives is w·v·p itself.
   */
  lemma FlushedMvpIsWorldViewProjection(w: Mat4, v: Mat4, p: Mat4)
    ensures Product(Product(Transpose(p), Transpose(v)), Transpose(w)) == Transpose(Product(Product(w, v), p))
    ensures ColumnMajor(Flatten(Product(Product(Transpose(p), Transpose(v)), Transpose(w)))) == Product(Product(w, v), p)
  {
    TransposeOfProduct(Product(w, v), p);
    TransposeOfProduct(w, v);
    ProductAssociative(Transpose(p), Transpose(v), Transpose(w));
    ColumnMajorOfFlatten(Transpose(Product(Product(w, v), p)));
    TransposeInvolutive(Product(Product(w, v), p));
  }

  /** touchscreen.cpp: a raw touch coordinate divided by the display extent. */
  function NormalizedTouch(raw: real, extent: nat): (r: real)
    requires extent > 0
    ensures r * extent as real == raw
  {
    raw / extent as real
  }

  /**
   * hasTouchEvent, as written, on the raw coordinates of the Touch slot:
   * each is normalised by its display extent and then compared with -1.
   * So what it really tests is that neither raw coordinate equals minus
   * the extent.
   */
  predicate HasTouchEvent(rawX: real, rawY: real, width: nat, height: nat)
    requires width > 0 && height > 0
    ensures HasTouchEvent(rawX, rawY, width, height) <==> rawX != -(width as real) && rawY != -(height as real)
  {
    NormalizedIsMinusOne(rawX, width);
    NormalizedIsMinusOne(rawY, height);
    NormalizedTouch(rawX, width) != -1.0 && NormalizedTouch(rawY, height) != -1.0
  }

  /** A normalised coordinate is -1 exactly when the raw one is minus the extent. */
  lemma NormalizedIsMinusOne(raw: real, extent: nat)
    requires extent > 0
    ensures NormalizedTouch(raw, extent) == -1.0 <==> raw == -(extent as real)
  {
    var e, r := extent as real, NormalizedTouch(raw, extent);
    assert (r + 1.0) * e == raw + e;
    assert (r + 1.0) * e == 0.0 <==> r + 1.0 == 0.0;
  }

  /**
   * As written, the "no touch" sentinel -1 in both raw coordinates reads as
   * a touch on any display wider and taller than one pixel, while the
   * intended test sees no touch.
   */
  lemma TouchSentinelReadAsTouch(width: nat, height: nat)
    requires width > 1 && height > 1
    ensures HasTouchEvent(-1.0, -1.0, width, height)
    ensures !HasTouchEventIntended(-1.0, -1.0, width, height)
  {
  }

  /** The concrete case of a 1080 x 1920 display with no finger down. */
  lemma TouchSentinelOn1080By1920()
    ensures NormalizedTouch(-1.0, 1080) == -1.0 / 1080.0
    ensures HasTouchEvent(-1.0, -1.0, 1080, 1920)
  {
    TouchSentinelReadAsTouch(1080, 1920);
  }

  /** hasTouchEvent as intended: the sentinel is compared after the same normalisation. */
  predicate HasTouchEventIntended(rawX: real, rawY: real, width: nat, height: nat)
    requires width > 0 && height > 0
    ensures HasTouchEventIntended(rawX, rawY, width, height) <==> rawX != -1.0 && rawY != -1.0
  {
    NormalizationInjective(rawX, -1.0, width);
    NormalizationInjective(rawY, -1.0, height);
    NormalizedTouch(rawX, width) != NormalizedTouch(-1.0, width) &&
    NormalizedTouch(rawY, height) != NormalizedTouch(-1.0, height)
  }

  /**
   * The corrected test sees no touch whenever either raw coordinate is the
   * sentinel, and it agrees with the code as written on every input only
   * on a one-pixel display.
   */
  lemma IntendedTouchTestDetectsSentinel(rawX: real, rawY: real, width: nat, height: nat)
    requires width > 0 && height > 0
    ensures !HasTouchEventIntended(-1.0, rawY, width, height) && !HasTouchEventIntended(rawX, -1.0, width, height)
    ensures width == 1 && height == 1 ==>
      (HasTouchEvent(rawX, rawY, width, height) <==> HasTouchEventIntended(rawX, rawY, width, height))
  {
  }

  /** Dividing by the same positive extent keeps different coordinates different. */
  lemma NormalizationInjective(a: real, b: real, extent: nat)
    requires extent > 0
    ensures NormalizedTouch(a, extent) == NormalizedTouch(b, extent) <==> a == b
  {
    var e := extent as real;
    assert NormalizedTouch(a, extent) * e == a;
    assert NormalizedTouch(b, extent) * e == b;
  }

  /** The globals of engine.h. */
  class EngineState {
    var ShaderProgram: uint32
    var VertexShaderId: uint32
    var PixelShaderId: uint32
    var PrimitiveType: PrimitiveType
    const World: Matrix
    const View: Matrix
    const Projection: Matrix

    /** The three matrices are 4x4 and are three separate objects. */
    ghost predicate Valid()
      reads this, World, View, Projection
    {
      World.Valid() && View.Valid() && Projection.Valid() &&
      World.M != View.M && World.M != Projection.M && View.M != Projection.M
    }

    /** The globals at start-up: no program or shaders, triangle lists, zero matrices. */
    constructor ()
      ensures Valid() && fresh(World.M) && fresh(View.M) && fresh(Projection.M)
      ensures ShaderProgram == 0 && VertexShaderId == 0 && PixelShaderId == 0 && PrimitiveType == TriangleList
      ensures World.Value() == Zero && View.Value() == Zero && Projection.Value() == Zero
    {
      ShaderProgram, VertexShaderId, PixelShaderId := 0, 0, 0;
      PrimitiveType := TriangleList;
      World := new Matrix();
      View := new Matrix();
      Projection := new Matrix();
    }

    /**
     * gfxBindShader: a vertex shader is attached and its id recorded, even
     * when it is 0; a pixel shader is attached, the program linked and put
     * in use, and its id recorded, only once a non-zero vertex-shader id has
     * been recorded; otherwise nothing happens.
     */
    method BindShader(shader: Shader, device: Device)
      requires device.Valid()
      modifies this, device
      ensures device.Valid() && device.nextName == old(device.nextName)
      ensures device.trace == old(device.trace) + BindCalls(ShaderProgram, old(VertexShaderId), shader)
      ensures VertexShaderId == if shader.Type == VertexShader then shader.Id else old(VertexShaderId)
      ensures PixelShaderId == if shader.Type == PixelShader && old(VertexShaderId) > 0 then shader.Id else old(PixelShaderId)
      ensures ShaderProgram == old(ShaderProgram) && PrimitiveType == old(PrimitiveType)
    {
      match shader.Type
      case VertexShader =>
        device.Emit(AttachShader(ShaderProgram, shader.Id));
        VertexShaderId := shader.Id;
      case PixelShader =>
        if VertexShaderId > 0 {
          device.Emit(AttachShader(ShaderProgram, shader.Id));
          device.Emit(LinkProgram(ShaderProgram));
          device.Emit(UseProgram(ShaderProgram));
          PixelShaderId := shader.Id;
        }
    }

    /** gfxSetPrimitiveType. */
    method SetPrimitiveType(t: PrimitiveType)
      modifies this
      ensures PrimitiveType == t
      ensures ShaderProgram == old(ShaderProgram) && VertexShaderId == old(VertexShaderId) && PixelShaderId == old(PixelShaderId)
    {
      PrimitiveType := t;
    }

    /** gfxDraw: draws `count` vertices from `first` with the current primitive type. */
    method Draw(first: uint32, count: uint32, device: Device)
      requires device.Valid()
      modifies device
      ensures device.Valid() && device.nextName == old(device.nextName)
      ensures device.trace == old(device.trace) + [ContextDraw(PrimitiveType, first, count)]
    {
      device.Emit(ContextDraw(PrimitiveType, first, count));
    }

    /** gfxDrawIndexed: draws `count` indices with the current primitive type. */
    method DrawIndexed(count: uint32, device: Device)
      requires device.Valid()
      modifies device
      ensures device.Valid() && device.nextName == old(device.nextName)
      ensures device.trace == old(device.trace) + [ContextDrawIndexed(PrimitiveType, count)]
    {
      device.Emit(ContextDrawIndexed(PrimitiveType, count));
    }

    /** gfxSetWorldMatrix: stores the transpose; the other matrices are untouched. */
    method SetWorldMatrix(mtx: Mat4)
      requires Valid()
      modifies World.M
      ensures Valid()
      ensures World.Value() == Transpose(mtx)
      ensures View.Value() == old(View.Value()) && Projection.Value() == old(Projection.Value())
    {
      World.Assign(Transpose(mtx));
    }

    /** gfxSetViewMatrix: stores the transpose; the other matrices are untouched. */
    method SetViewMatrix(mtx: Mat4)
      requires Valid()
      modifies View.M
      ensures Valid()
      ensures View.Value() == Transpose(mtx)
      ensures World.Value() == old(World.Value()) && Projection.Value() == old(Projection.Value())
    {
      View.Assign(Transpose(mtx));
    }

    /** gfxSetProjectionMatrix: stores the transpose; the other matrices are untouched. */
    method SetProjectionMatrix(mtx: Mat4)
      requires Valid()
      modifies Projection.M
      ensures Valid()
      ensures Projection.Value() == Transpose(mtx)
      ensures World.Value() == old(World.Value()) && View.Value() == old(View.Value())
    {
      Projection.Assign(Transpose(mtx));
    }

    /**
     * gfxFlushMVPMatrix, given the uniform location GL reports for
     * "ModelViewProj". At -1 nothing happens. Otherwise the product
     * projection * view * world is uploaded, and, since operator* works in
     * place on its left operand, the projection global now holds it.
     */
    method FlushMvpMatrix(location: int, device: Device)
      requires Valid() && device.Valid()
      modifies Projection.M, device
      ensures Valid() && device.Valid() && device.nextName == old(device.nextName)
      ensures World.Value() == old(World.Value()) && View.Value() == old(View.Value())
      ensures location == -1 ==> Projection.Value() == old(Projection.Value()) && device.trace == old(device.trace)
      ensures location != -1 ==>
        Projection.Value() == Product(Product(old(Projection.Value()), old(View.Value())), old(World.Value())) &&
        device.trace == old(device.trace) + [UniformMatrix4(location, Flatten(Projection.Value()))]
    {
      if location == -1 {
      } else {
        var pv := Projection.MulAssign(View);
        var pvw := pv.MulAssign(World);
        var mvp := pvw.Value();
        device.Emit(UniformMatrix4(location, Flatten(mvp)));
      }
    }

    /**
     * The frame set-up of main.cpp: the world, view and projection matrices
     * are set in turn and then flushed. Unless the uniform is missing, GL
     * receives world·view·projection, and the projection global is left
     * holding its transpose.
     */
    method SetMatricesAndFlush(w: Mat4, v: Mat4, p: Mat4, location: int, device: Device)
      requires Valid() && device.Valid()
      modifies World.M, View.M, Projection.M, device
      ensures Valid() && device.Valid() && device.nextName == old(device.nextName)
      ensures World.Value() == Transpose(w) && View.Value() == Transpose(v)
      ensures location == -1 ==> Projection.Value() == Transpose(p) && device.trace == old(device.trace)
      ensures location != -1 ==>
        Projection.Value() == Transpose(Product(Product(w, v), p)) &&
        device.trace == old(device.trace) + [UniformMatrix4(location, Flatten(Projection.Value()))] &&
        ColumnMajor(Flatten(Projection.Value())) == Product(Product(w, v), p)
    {
      SetWorldMatrix(w);
      SetViewMatrix(v);
      SetProjectionMatrix(p);
      FlushMvpMatrix(location, device);
      FlushedMvpIsWorldViewProjection(w, v, p);
    }
  }
}
