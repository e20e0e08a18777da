/** The GPU side of a mesh: a `Mesh` owns a vertex array object and one or two buffer
    objects of an OpenGL context, remembers how many indices or points it uploaded and
    whether it draws triangles or a line strip. The context is modelled by `Context`:
    the names it has handed out, the names still alive, and what each live buffer holds.
    Drawing is modelled by the draw call a mesh would submit. */
module GLMesh {
  import opened Geometry

  /** `unsigned int` holds sizes modulo 2^32. */
  const UINT_RANGE: nat := 0x1_0000_0000

  /** What `glBufferData` placed in a buffer object. */
  datatype BufferContents =
    | VertexData(vertices: seq<Vertex>)
    | IndexData(indices: seq<nat>)
    | PointData(points: seq<Vec3>)

  /** The draw call a mesh submits: `glDrawElements(GL_TRIANGLES, count, ...)` or
      `glDrawArrays(GL_LINE_STRIP, 0, count)`, both with `vao` bound. */
  datatype DrawCall = Triangles(vao: nat, count: nat) | LineStrip(vao: nat, count: nat)

  /** The object names of an OpenGL context. Name 0 is never handed out. */
  class Context {
    var next: nat
    var live: set<nat>
    var store: map<nat, BufferContents>

    predicate Valid()
      reads this
    {
      && 0 < next
      && (forall n :: n in live ==> 0 < n < next)
      && store.Keys <= live
    }

    constructor ()
      ensures Valid() && live == {} && store == map[]
    {
      next := 1;
      live := {};
      store := map[];
    }

    /** `glGenVertexArrays(1, ...)` / `glGenBuffers(1, ...)`: a fresh non-zero name. */
    method Gen() returns (name: nat)
      requires Valid()
      modifies this
      ensures Valid()
      ensures 0 < name && name !in old(live)
      ensures name == old(next) && next == old(next) + 1
      ensures live == old(live) + {name} && store == old(store)
    {
      name := next;
      next := next + 1;
      live := live + {name};
    }

    /** `glDeleteVertexArrays(1, ...)` / `glDeleteBuffers(1, ...)`. */
    method Delete(name: nat)
      requires Valid()
      modifies this
      ensures Valid()
      ensures live == old(live) - {name} && store == old(store) - {name} && next == old(next)
    {
      live := live - {name};
      store := store - {name};
    }

    /** `glBufferData` on the buffer bound to `name`. */
    method BufferData(name: nat, data: BufferContents)
      requires Valid() && name in live
      modifies this
      ensures Valid()
      ensures live == old(live) && store == old(store)[name := data] && next == old(next)
    {
      store := store[name := data];
    }
  }

  class Mesh {
    var vao: nat
    var vbo: nat
    var ebo: nat
    var indexCount: nat
    var vertexCount: nat
    var isLineMode: bool

    /** A mesh holds no objects, a triangle mesh (array, vertex buffer, element buffer),
        or a line strip (array and point buffer, no element buffer). The names differ
        from one another only because one `Context` hands out both array and buffer
        names; OpenGL keeps separate name spaces and may give an array and a buffer the
        same number. */
    predicate Valid()
      reads this
    {
      || (vao == 0 && vbo == 0 && ebo == 0)
      || (vao != 0 && vbo != 0 && ebo != 0 && !isLineMode && vao != vbo && vao != ebo && vbo != ebo)
      || (vao != 0 && vbo != 0 && ebo == 0 && isLineMode && vao != vbo)
    }

    /** The non-zero names the mesh holds. */
    function Handles(): (h: set<nat>)
      reads this
      ensures 0 !in h
      ensures vao != 0 ==> vao in h
      ensures vbo != 0 ==> vbo in h
      ensures ebo != 0 ==> ebo in h
      ensures forall n :: n in h ==> n == vao || n == vbo || n == ebo
    {
      (if vao != 0 then {vao} else {}) + (if vbo != 0 then {vbo} else {}) + (if ebo != 0 then {ebo} else {})
    }

    /** Every name the mesh holds is alive in `ctx`. */
    predicate Owns(ctx: Context)
      reads this, ctx
    {
      Handles() <= ctx.live
    }

    function IsUploaded(): (b: bool)
      reads this
      ensures Valid() ==> (b <==> Handles() != {})
      ensures Valid() ==> (b <==> vao != 0 && vbo != 0)
    {
      vao != 0
    }

    /** `draw`: nothing unless an array exists and the mesh is in triangle mode. */
    function Draw(): (call: Option<DrawCall>)
      reads this
      ensures call.Some? <==> IsUploaded() && !isLineMode
      ensures call.Some? ==> call.value.Triangles? && call.value.vao == vao && call.value.count == indexCount
    {
      if vao == 0 || isLineMode then None else Some(Triangles(vao, indexCount))
    }

    /** `drawLines`: nothing unless an array exists, the mesh is in line mode and it
        holds at least two points. */
    function DrawLines(): (call: Option<DrawCall>)
      reads this
      ensures call.Some? <==> IsUploaded() && isLineMode && vertexCount >= 2
      ensures call.Some? ==> call.value.LineStrip? && call.value.vao == vao && call.value.count == vertexCount
    {
      if vao == 0 || !isLineMode || vertexCount < 2 then None else Some(LineStrip(vao, vertexCount))
    }

    /** `Mesh()`: no objects, no counts, triangle mode. */
    constructor ()
      ensures Valid() && Handles() == {} && !IsUploaded()
      ensures indexCount == 0 && vertexCount == 0 && !isLineMode
    {
      vao, vbo, ebo := 0, 0, 0;
      indexCount, vertexCount := 0, 0;
      isLineMode := false;
    }

    /** The move constructor: takes over every handle and count of `other`, which is left
        with no objects and zero counts (its mode flag is not reset). */
    constructor MoveFrom(other: Mesh)
      modifies other
      ensures vao == old(other.vao) && vbo == old(other.vbo) && ebo == old(other.ebo)
      ensures indexCount == old(other.indexCount) && vertexCount == old(other.vertexCount)
      ensures isLineMode == old(other.isLineMode)
      ensures other.vao == 0 && other.vbo == 0 && other.ebo == 0
      ensures other.indexCount == 0 && other.vertexCount == 0 && other.isLineMode == old(other.isLineMode)
      ensures old(other.Valid()) ==> Valid() && other.Valid()
    {
      vao, vbo, ebo := other.vao, other.vbo, other.ebo;
      indexCount, vertexCount := other.indexCount, other.vertexCount;
      isLineMode := other.isLineMode;
      other.vao, other.vbo, other.ebo := 0, 0, 0;
      other.indexCount, other.vertexCount := 0, 0;
    }

    /** Move assignment: a self-move changes nothing; otherwise the mesh releases its own
        objects and then takes over those of `other`, as the move constructor does. */
    method MoveAssign(other: Mesh, ctx: Context)
      requires ctx.Valid()
      modifies this, other, ctx
      ensures ctx.Valid()
      ensures other == this ==> unchanged(this) && unchanged(ctx)
      ensures other != this ==>
        && vao == old(other.vao) && vbo == old(other.vbo) && ebo == old(other.ebo)
        && indexCount == old(other.indexCount) && vertexCount == old(other.vertexCount)
        && isLineMode == old(other.isLineMode)
        && other.vao == 0 && other.vbo == 0 && other.ebo == 0
        && other.indexCount == 0 && other.vertexCount == 0 && other.isLineMode == old(other.isLineMode)
        && ctx.live == old(ctx.live) - old(Handles())
        && ctx.store == old(ctx.store) - old(Handles())
        && ctx.next == old(ctx.next)
      ensures other != this && old(other.Valid()) ==> Valid() && other.Valid()
      ensures other != this && old(other.Owns(ctx)) && old(Handles()) !! old(other.Handles()) ==> Owns(ctx)
    {
      if other != this {
        Cleanup(ctx);
        vao, vbo, ebo := other.vao, other.vbo, other.ebo;
        indexCount, vertexCount := other.indexCount, other.vertexCount;
        isLineMode := other.isLineMode;
        other.vao, other.vbo, other.ebo := 0, 0, 0;
        other.indexCount, other.vertexCount := 0, 0;
      }
    }

    /** `cleanup` (also what the destructor does): deletes every non-zero name and zeroes
        the handles; the counts and the mode flag are kept. */
    method Cleanup(ctx: Context)
      requires ctx.Valid()
      modifies this, ctx
      ensures ctx.Valid() && Valid() && Handles() == {}
      ensures vao == 0 && vbo == 0 && ebo == 0
      ensures indexCount == old(indexCount) && vertexCount == old(vertexCount) && isLineMode == old(isLineMode)
      ensures ctx.live == old(ctx.live) - old(Handles())
      ensures ctx.store == old(ctx.store) - old(Handles()) && ctx.next == old(ctx.next)
    {
      ghost var h := Handles();
      if vao != 0 { ctx.Delete(vao); }
      if vbo != 0 { ctx.Delete(vbo); }
      if ebo != 0 { ctx.Delete(ebo); }
      vao, vbo, ebo := 0, 0, 0;
      assert old(ctx.live) - h == old(ctx.live) - (if old(vao) != 0 then {old(vao)} else {})
        - (if old(vbo) != 0 then {old(vbo)} else {}) - (if old(ebo) != 0 then {old(ebo)} else {});
    }

    /** `upload`: releases the previous objects, then creates an array, a vertex buffer
        holding `vertices` and an element buffer holding `indices`, and enters triangle
        mode with `indexCount` the number of indices (as an `unsigned int`). The point
        count of an earlier line upload is kept. */
    method Upload(ctx: Context, vertices: seq<Vertex>, indices: seq<nat>)
      requires ctx.Valid()
      modifies this, ctx
      ensures ctx.Valid() && Valid() && Owns(ctx) && IsUploaded()
      ensures !isLineMode && indexCount == |indices| % UINT_RANGE && vertexCount == old(vertexCount)
      ensures Handles() == {vao, vbo, ebo} && Handles() !! old(ctx.live)
      ensures ctx.live == old(ctx.live) - old(Handles()) + Handles()
      ensures ctx.store == (old(ctx.store) - old(Handles()))[vbo := VertexData(vertices)][ebo := IndexData(indices)]
      ensures Draw() == Some(Triangles(vao, indexCount)) && DrawLines() == None
    {
      Cleanup(ctx);
      isLineMode := false;
      indexCount := |indices| % UINT_RANGE;
      ghost var live0 := ctx.live;
      vao := ctx.Gen();
      vbo := ctx.Gen();
      ebo := ctx.Gen();
      ctx.BufferData(vbo, VertexData(vertices));
      ctx.BufferData(ebo, IndexData(indices));
      assert ctx.live == live0 + {vao, vbo, ebo};
      assert forall n :: n in old(ctx.live) ==> n < vao < vbo < ebo;
    }

    /** `uploadLines`: releases the previous objects, then creates an array and a buffer
        holding `points`, and enters line mode with `vertexCount` the number of points (as
        an `unsigned int`). The index count of an earlier triangle upload is kept. */
    method UploadLines(ctx: Context, points: seq<Vec3>)
      requires ctx.Valid()
      modifies this, ctx
      ensures ctx.Valid() && Valid() && Owns(ctx) && IsUploaded()
      ensures isLineMode && vertexCount == |points| % UINT_RANGE && indexCount == old(indexCount)
      ensures ebo == 0 && Handles() == {vao, vbo} && Handles() !! old(ctx.live)
      ensures ctx.live == old(ctx.live) - old(Handles()) + Handles()
      ensures ctx.store == (old(ctx.store) - old(Handles()))[vbo := PointData(points)]
      ensures Draw() == None
      ensures DrawLines() == if vertexCount >= 2 then Some(LineStrip(vao, vertexCount)) else None
    {
      Cleanup(ctx);
      isLineMode := true;
      vertexCount := |points| % UINT_RANGE;
      ghost var live0 := ctx.live;
      vao := ctx.Gen();
      vbo := ctx.Gen();
      ctx.BufferData(vbo, PointData(points));
      assert ctx.live == live0 + {vao, vbo};
      assert forall n :: n in old(ctx.live) ==> n < vao < vbo;
    }
  }
}
