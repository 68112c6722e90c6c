/**
 * The OpenGL ES 2 calls the engine makes, seen as events. A `Device` is the
 * GL context: it records every call in order in `trace`, and hands out
 * buffer names for glGenBuffers from a counter, so that a name is never
 * handed out twice. The buffer currently bound to a target is not stored:
 * it is read back from the trace by `Binding`, with the rules of
 * glBindBuffer and glDeleteBuffers.
 */
module GlDevice {
  /** An unsigned 32-bit value, as `uint32_t`. */
  type uint32 = x: int | 0 <= x < 0x1_0000_0000

  /** The 2^32 modulus of `uint32_t` arithmetic. */
  const Uint32Modulus: int := 0x1_0000_0000

  /** The two buffer targets the engine binds. */
  datatype BufferTarget = ArrayBuffer | ElementArrayBuffer

  /** The usage hint given to glBufferData. */
  datatype Usage = StaticDraw | DynamicDraw

  /** Primitive types, primitive_type.h: each names one GL drawing mode. */
  datatype PrimitiveType = PointList | LineList | LineStrip | TriangleList | TriangleStrip

  /**
   * The contents of client memory handed to a buffer upload: vertex floats,
   * 16-bit indices, or a buffer descriptor whose data pointer was never set.
   */
  datatype Payload = Floats(floats: seq<real>) | Shorts(shorts: seq<nat>) | NoData

  /** One GL call, with the arguments that matter to the engine. */
  datatype GlCall =
    | GenBuffers(name: nat)
    | BindBuffer(target: BufferTarget, buffer: nat)
    | BufferData(target: BufferTarget, size: nat, data: Payload, usage: Usage)
    | BufferSubData(target: BufferTarget, offset: nat, size: nat, data: Payload)
    | DeleteBuffers(buffer: nat)
    | EnableVertexAttribArray(index: nat)
      /** The attribute is named: its location is looked up in `program` by that name. */
    | VertexAttribPointer(program: nat, attribute: string, components: nat, stride: nat, offset: nat)
    | BindTexture(texture: nat)
    | DrawElements(mode: PrimitiveType, count: nat)
      /** GraphicsContext::Draw and DrawIndexed, which are declared but not defined in the files modelled. */
    | ContextDraw(mode: PrimitiveType, first: nat, count: nat)
    | ContextDrawIndexed(mode: PrimitiveType, count: nat)
    | AttachShader(program: nat, shader: nat)
    | LinkProgram(program: nat)
    | UseProgram(program: nat)
    | UniformMatrix4(location: int, values: seq<real>)

  /**
   * The buffer bound to `target` after `trace`: the last glBindBuffer to
   * that target, 0 before any; deleting the bound buffer unbinds it.
   */
  function Binding(trace: seq<GlCall>, target: BufferTarget): nat
    decreases |trace|
  {
    if trace == [] then 0
    else
      var before := Binding(trace[..|trace| - 1], target);
      match trace[|trace| - 1]
      case BindBuffer(t, b) => if t == target then b else before
      case DeleteBuffers(b) => if b == before then 0 else before
      case _ => before
  }

  /** Whether a call can change a buffer binding. */
  predicate ChangesBinding(c: GlCall)
  {
    c.BindBuffer? || c.DeleteBuffers?
  }

  /** A bind takes effect on its own target at once. */
  lemma BindingAfterBind(trace: seq<GlCall>, target: BufferTarget, b: nat)
    ensures Binding(trace + [BindBuffer(target, b)], target) == b
  {
    assert (trace + [BindBuffer(target, b)])[..|trace|] == trace;
  }

  /** A bind to one target leaves the other target's binding alone. */
  lemma BindingOtherTarget(trace: seq<GlCall>, target: BufferTarget, other: BufferTarget, b: nat)
    requires other != target
    ensures Binding(trace + [BindBuffer(other, b)], target) == Binding(trace, target)
  {
    assert (trace + [BindBuffer(other, b)])[..|trace|] == trace;
  }

  /** Calls that neither bind nor delete a buffer leave every binding as it was. */
  lemma {:induction false} BindingUnaffected(trace: seq<GlCall>, more: seq<GlCall>, target: BufferTarget)
    requires forall i :: 0 <= i < |more| ==> !ChangesBinding(more[i])
    ensures Binding(trace + more, target) == Binding(trace, target)
    decreases |more|
  {
    if more == [] {
      assert trace + more == trace;
    } else {
      var front := more[..|more| - 1];
      assert (trace + more)[..|trace + more| - 1] == trace + front;
      var last := more[|more| - 1];
      assert (trace + more)[|trace + more| - 1] == last;
      assert !ChangesBinding(last);
      assert forall i :: 0 <= i < |front| ==> front[i] == more[i];
      BindingUnaffected(trace, front, target);
      assert Binding(trace + more, target) == Binding(trace + front, target) by {
        match last
        case BindBuffer(_, _) =>
        case DeleteBuffers(_) =>
        case _ =>
      }
    }
  }

  /** No buffer name in `trace` handed out by glGenBuffers exceeds `bound`. */
  ghost predicate NamesBelow(trace: seq<GlCall>, bound: nat)
  {
    forall i :: 0 <= i < |trace| && trace[i].GenBuffers? ==> trace[i].name <= bound
  }

  /** The GL context: the calls made on it so far and the next free buffer name. */
  class Device {
    var trace: seq<GlCall>
    var nextName: nat

    /** Every name handed out so far is at most `nextName`. */
    ghost predicate Valid()
      reads this
    {
      NamesBelow(trace, nextName)
    }

    /** A fresh context: nothing called yet, no name handed out. */
    constructor ()
      ensures Valid() && trace == [] && nextName == 0
    {
      trace := [];
      nextName := 0;
    }

    /** Makes one GL call other than glGenBuffers. */
    method Emit(c: GlCall)
      requires Valid() && !c.GenBuffers?
      modifies this
      ensures Valid()
      ensures trace == old(trace) + [c] && nextName == old(nextName)
    {
      trace := trace + [c];
    }

    /** glGenBuffers(1, &name): a non-zero name never handed out before. */
    method GenBuffer() returns (name: nat)
      requires Valid()
      modifies this
      ensures Valid()
      ensures name > 0 && name == old(nextName) + 1 && nextName == name
      ensures forall i :: 0 <= i < |old(trace)| && old(trace)[i].GenBuffers? ==> old(trace)[i].name != name
      ensures trace == old(trace) + [GenBuffers(name)]
    {
      name := nextName + 1;
      nextName := name;
      trace := trace + [GenBuffers(name)];
    }
  }
}
