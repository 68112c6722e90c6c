/**
 * Engine/index_buffer.cpp: the GL element-array buffer a sprite draws its
 * two triangles from. The byte count uploaded is `Size * Stride` computed
 * in `uint32_t`, so it is taken modulo 2^32.
 */
module IndexBuffers {
  import opened GlDevice

  /** The index-buffer descriptor: GL name, index count, bytes per index, client data. */
  datatype IndexBufferDesc = IndexBufferDesc(Id: nat, Size: uint32, Stride: uint32, Data: Payload)

  /** The byte count CreateIndexBuffer uploads: the `uint32_t` product of count and stride. */
  function UploadBytes(buffer: IndexBufferDesc): (bytes: uint32)
    ensures buffer.Size * buffer.Stride < Uint32Modulus ==> bytes == buffer.Size * buffer.Stride
  {
    (buffer.Size * buffer.Stride) % Uint32Modulus
  }

  /** The calls of CreateIndexBuffer, once glGenBuffers has given `name`. */
  function IndexCreationCalls(buffer: IndexBufferDesc, name: nat): seq<GlCall>
  {
    [GenBuffers(name),
     BindBuffer(ElementArrayBuffer, name),
     BufferData(ElementArrayBuffer, UploadBytes(buffer), buffer.Data, StaticDraw),
     BindBuffer(ElementArrayBuffer, 0)]
  }

  /**
   * CreateIndexBuffer: a fresh name is generated, bound as the element
   * array buffer and filled once (static usage); the binding is reset to 0.
   */
  method CreateIndexBuffer(device: Device, buffer: IndexBufferDesc) returns (created: IndexBufferDesc)
    requires device.Valid()
    modifies device
    ensures device.Valid()
    ensures created == buffer.(Id := device.nextName) && created.Id == old(device.nextName) + 1
    ensures device.trace == old(device.trace) + IndexCreationCalls(buffer, created.Id)
    ensures Binding(device.trace, ElementArrayBuffer) == 0
  {
    var name := device.GenBuffer();
    created := buffer.(Id := name);
    device.Emit(BindBuffer(ElementArrayBuffer, name));
    device.Emit(BufferData(ElementArrayBuffer, UploadBytes(buffer), buffer.Data, StaticDraw));
    ghost var filled := device.trace;
    device.Emit(BindBuffer(ElementArrayBuffer, 0));
    BindingAfterBind(filled, ElementArrayBuffer, 0);
  }

  /** DestroyIndexBuffer: deletes the buffer's name. */
  method DestroyIndexBuffer(device: Device, buffer: IndexBufferDesc)
    requires device.Valid()
    modifies device
    ensures device.Valid() && device.nextName == old(device.nextName)
    ensures device.trace == old(device.trace) + [DeleteBuffers(buffer.Id)]
  {
    device.Emit(DeleteBuffers(buffer.Id));
  }

  /** BindIndexBuffer: binds the buffer as the element array buffer. */
  method BindIndexBuffer(device: Device, buffer: IndexBufferDesc)
    requires device.Valid()
    modifies device
    ensures device.Valid() && device.nextName == old(device.nextName)
    ensures device.trace == old(device.trace) + [BindBuffer(ElementArrayBuffer, buffer.Id)]
    ensures Binding(device.trace, ElementArrayBuffer) == buffer.Id
  {
    device.Emit(BindBuffer(ElementArrayBuffer, buffer.Id));
    BindingAfterBind(old(device.trace), ElementArrayBuffer, buffer.Id);
  }
}
