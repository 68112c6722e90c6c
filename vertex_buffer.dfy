/**
 * Engine/vertex_buffer.cpp: creating a GL vertex buffer, describing its
 * interleaved layout to GL attribute by attribute, updating it and
 * deleting it. The byte offset of each attribute is a `uint16_t` that
 * DefineVertexAttribPointer advances by reference, so it is kept modulo
 * 2^16 here.
 */
module VertexBuffers {
  import opened GlDevice

  /** vertex_layout.h: the kinds of per-vertex data. */
  datatype VertexElement = Position | Color | TexCoord | Normal

  /** The vertex-buffer descriptor: GL name, bytes per vertex, total bytes, client data. */
  datatype VertexBufferDesc = VertexBufferDesc(Id: nat, Stride: nat, Size: nat, Data: Payload)

  /** The 2^16 modulus of `uint16_t` arithmetic. */
  const Uint16Modulus: nat := 0x1_0000

  /** Bytes in one `float`. */
  const FloatBytes: nat := 4

  /** The shader attribute each element is looked up by. */
  function AttributeName(element: VertexElement): (name: string)
    ensures |name| > 0
  {
    match element
    case Position => "Position"
    case Color => "Color"
    case TexCoord => "TexCoord"
    case Normal => "Normal"
  }

  /** No two elements share an attribute name, so each is looked up under its own. */
  lemma AttributeNamesDistinct(e1: VertexElement, e2: VertexElement)
    ensures AttributeName(e1) == AttributeName(e2) <==> e1 == e2
  {
    if e1 != e2 {
      var n1, n2 := AttributeName(e1), AttributeName(e2);
      assert |n1| != |n2| || n1[0] != n2[0];
    }
  }

  /** The number of floats each element carries: XYZ, RGBA, UV, and a normal's XYZ. */
  function ComponentCount(element: VertexElement): (n: nat)
    ensures 2 <= n <= 4
    ensures n == 4 <==> element == Color
    ensures n == 2 <==> element == TexCoord
  {
    match element
    case Position => 3
    case Color => 4
    case TexCoord => 2
    case Normal => 3
  }

  /** The total float count of a layout (the reference, without wrap-around). */
  function ComponentSum(layout: seq<VertexElement>): nat
  {
    if layout == [] then 0 else ComponentSum(layout[..|layout| - 1]) + ComponentCount(layout[|layout| - 1])
  }

  /** The `uint16_t` offset once the first `n` elements of `layout` have been described. */
  function OffsetAfter(layout: seq<VertexElement>, n: nat): nat
    requires n <= |layout|
  {
    if n == 0 then 0 else (OffsetAfter(layout, n - 1) + FloatBytes * ComponentCount(layout[n - 1])) % Uint16Modulus
  }

  /** The usage CreateVertexBuffer asks for. */
  function UsageFor(dynamic: bool): (u: Usage)
    ensures u == DynamicDraw <==> dynamic
    ensures u == StaticDraw <==> !dynamic
  {
    if dynamic then DynamicDraw else StaticDraw
  }

  /** The call DefineVertexAttribPointer makes for `element` at byte `offset`. */
  function PointerCall(program: nat, element: VertexElement, stride: nat, offset: nat): GlCall
  {
    VertexAttribPointer(program, AttributeName(element), ComponentCount(element), stride, offset)
  }

  /** The calls of the first `n` iterations of CreateVertexBuffer's loop. */
  function AttribCalls(program: nat, layout: seq<VertexElement>, stride: nat, n: nat): seq<GlCall>
    requires n <= |layout|
  {
    if n == 0 then []
    else AttribCalls(program, layout, stride, n - 1)
         + [EnableVertexAttribArray(n - 1), PointerCall(program, layout[n - 1], stride, OffsetAfter(layout, n - 1))]
  }

  /** The offset of element i is four times the floats before it, modulo 2^16. */
  lemma {:induction false} OffsetIsPrefixSum(layout: seq<VertexElement>, n: nat)
    requires n <= |layout|
    ensures OffsetAfter(layout, n) == (FloatBytes * ComponentSum(layout[..n])) % Uint16Modulus
  {
    if n > 0 {
      OffsetIsPrefixSum(layout, n - 1);
      assert layout[..n][..n - 1] == layout[..n - 1];
      var before := FloatBytes * ComponentSum(layout[..n - 1]);
      var step := FloatBytes * ComponentCount(layout[n - 1]);
      assert FloatBytes * ComponentSum(layout[..n]) == before + step;
      ModAddLeft(before, step);
    }
  }

  /** ((a mod 2^16) + b) mod 2^16 is (a + b) mod 2^16. */
  lemma ModAddLeft(a: nat, b: nat)
    ensures (a % Uint16Modulus + b) % Uint16Modulus == (a + b) % Uint16Modulus
  {
    var q := a / Uint16Modulus;
    assert a == q * Uint16Modulus + a % Uint16Modulus;
  }

  /** While the layout is under 2^16 bytes, the offsets are the exact prefix sums. */
  lemma OffsetWithoutWrap(layout: seq<VertexElement>, n: nat)
    requires n <= |layout|
    requires FloatBytes * ComponentSum(layout[..n]) < Uint16Modulus
    ensures OffsetAfter(layout, n) == FloatBytes * ComponentSum(layout[..n])
  {
    OffsetIsPrefixSum(layout, n);
    ModSmall(FloatBytes * ComponentSum(layout[..n]));
  }

  /** A value below 2^16 is its own remainder. */
  lemma ModSmall(x: nat)
    requires x < Uint16Modulus
    ensures x % Uint16Modulus == x
  {
  }

  /** Each iteration of the loop adds two calls. */
  lemma {:induction false} AttribCallsLength(program: nat, layout: seq<VertexElement>, stride: nat, n: nat)
    requires n <= |layout|
    ensures |AttribCalls(program, layout, stride, n)| == 2 * n
  {
    if n > 0 {
      AttribCallsLength(program, layout, stride, n - 1);
    }
  }

  /** Loop iteration i enables attribute array i and then describes element i at its offset. */
  lemma {:induction false} AttribCallAt(program: nat, layout: seq<VertexElement>, stride: nat, n: nat, i: nat)
    requires i < n <= |layout|
    ensures |AttribCalls(program, layout, stride, n)| == 2 * n
    ensures AttribCalls(program, layout, stride, n)[2 * i] == EnableVertexAttribArray(i)
    ensures AttribCalls(program, layout, stride, n)[2 * i + 1] == PointerCall(program, layout[i], stride, OffsetAfter(layout, i))
  {
    AttribCallsLength(program, layout, stride, n);
    AttribCallsLength(program, layout, stride, n - 1);
    if i < n - 1 {
      AttribCallAt(program, layout, stride, n - 1, i);
    }
  }

  /** The loop neither binds nor deletes a buffer. */
  lemma {:induction false} AttribCallsKeepBinding(program: nat, layout: seq<VertexElement>, stride: nat, n: nat)
    requires n <= |layout|
    ensures forall i :: 0 <= i < |AttribCalls(program, layout, stride, n)| ==> !ChangesBinding(AttribCalls(program, layout, stride, n)[i])
  {
    if n > 0 {
      AttribCallsKeepBinding(program, layout, stride, n - 1);
    }
  }

  /** The calls of CreateVertexBuffer, once glGenBuffers has given `name`. */
  function CreationCalls(program: nat, layout: seq<VertexElement>, count: nat, buffer: VertexBufferDesc, dynamic: bool, name: nat): seq<GlCall>
    requires count <= |layout|
  {
    [GenBuffers(name), BindBuffer(ArrayBuffer, name), BufferData(ArrayBuffer, buffer.Size, buffer.Data, UsageFor(dynamic))]
    + AttribCalls(program, layout, buffer.Stride, count)
    + [BindBuffer(ArrayBuffer, 0)]
  }

  /**
   * DefineVertexAttribPointer: describes `element` at byte `offset` with
   * the element's float count, and returns the offset advanced past it.
   */
  method DefineVertexAttribPointer(device: Device, program: nat, element: VertexElement, stride: nat, offset: nat)
    returns (next: nat)
    requires device.Valid()
    modifies device
    ensures device.Valid() && device.nextName == old(device.nextName)
    ensures device.trace == old(device.trace) + [PointerCall(program, element, stride, offset)]
    ensures next == (offset + FloatBytes * ComponentCount(element)) % Uint16Modulus
  {
    var location := AttributeName(element);
    var elementSize := ComponentCount(element);
    device.Emit(VertexAttribPointer(program, location, elementSize, stride, offset));
    next := (offset + elementSize * FloatBytes) % Uint16Modulus;
  }

  /**
   * CreateVertexBuffer: a fresh buffer name is generated, bound and filled
   * with the descriptor's data; attribute arrays 0..count-1 are enabled
   * and described in layout order; the array-buffer binding is reset to 0.
   */
  method CreateVertexBuffer(device: Device, program: nat, layout: seq<VertexElement>, count: nat, buffer: VertexBufferDesc, dynamic: bool)
    returns (created: VertexBufferDesc)
    requires device.Valid()
    requires count <= |layout| && count < Uint16Modulus
    modifies device
    ensures device.Valid()
    ensures created == buffer.(Id := device.nextName) && created.Id == old(device.nextName) + 1
    ensures device.trace == old(device.trace) + CreationCalls(program, layout, count, buffer, dynamic, created.Id)
    ensures Binding(device.trace, ArrayBuffer) == 0
  {
    var usage := UsageFor(dynamic);
    var name := device.GenBuffer();
    created := buffer.(Id := name);
    device.Emit(BindBuffer(ArrayBuffer, name));
    device.Emit(BufferData(ArrayBuffer, buffer.Size, buffer.Data, usage));
    ghost var prefix := device.trace;
    var offset := 0;
    for index := 0 to count
      invariant device.Valid() && device.nextName == name
      invariant offset == OffsetAfter(layout, index)
      invariant device.trace == prefix + AttribCalls(program, layout, buffer.Stride, index)
    {
      device.Emit(EnableVertexAttribArray(index));
      offset := DefineVertexAttribPointer(device, program, layout[index], buffer.Stride, offset);
    }
    device.Emit(BindBuffer(ArrayBuffer, 0));
    BindingAfterBind(device.trace[..|device.trace| - 1], ArrayBuffer, 0);
    assert device.trace[..|device.trace| - 1] + [BindBuffer(ArrayBuffer, 0)] == device.trace;
  }

  /** DestroyVertexBuffer: deletes the buffer's name. */
  method DestroyVertexBuffer(device: Device, buffer: VertexBufferDesc)
    requires device.Valid()
    modifies device
    ensures device.Valid() && device.nextName == old(device.nextName)
    ensures device.trace == old(device.trace) + [DeleteBuffers(buffer.Id)]
  {
    device.Emit(DeleteBuffers(buffer.Id));
  }

  /** BindVertexBuffer: binds the buffer as the array buffer. */
  method BindVertexBuffer(device: Device, buffer: VertexBufferDesc)
    requires device.Valid()
    modifies device
    ensures device.Valid() && device.nextName == old(device.nextName)
    ensures device.trace == old(device.trace) + [BindBuffer(ArrayBuffer, buffer.Id)]
    ensures Binding(device.trace, ArrayBuffer) == buffer.Id
  {
    device.Emit(BindBuffer(ArrayBuffer, buffer.Id));
    BindingAfterBind(old(device.trace), ArrayBuffer, buffer.Id);
  }

  /** UpdateVertexBuffer: rewrites `size` bytes from offset 0 and leaves the buffer bound. */
  method UpdateVertexBuffer(device: Device, data: Payload, size: nat, buffer: VertexBufferDesc)
    requires device.Valid()
    modifies device
    ensures device.Valid() && device.nextName == old(device.nextName)
    ensures device.trace == old(device.trace) + [BindBuffer(ArrayBuffer, buffer.Id), BufferSubData(ArrayBuffer, 0, size, data)]
    ensures Binding(device.trace, ArrayBuffer) == buffer.Id
  {
    device.Emit(BindBuffer(ArrayBuffer, buffer.Id));
    ghost var bound := device.trace;
    device.Emit(BufferSubData(ArrayBuffer, 0, size, data));
    BindingAfterBind(old(device.trace), ArrayBuffer, buffer.Id);
    BindingUnaffected(bound, [BufferSubData(ArrayBuffer, 0, size, data)], ArrayBuffer);
  }
}
