/** The `OBJMesh` importer object: `load` reads an OBJ file line by line (pulling in MTL
    files named by `mtllib`), then `buildMeshes` turns the material groups into sub-meshes.
    Each method is proved to leave the state the functions of `ObjModel` describe. */
module ObjImport {
  import opened Geometry
  import opened ObjText
  import opened ObjModel

  /** `Assemble` of a prefix of the groups, one group further. */
  lemma AssembleStep(groups: seq<Group>, k: nat, ls: Lists, materials: map<string, Material>)
    requires k < |groups|
    ensures Assemble(groups[..k + 1], ls, materials) ==
      var pre := Assemble(groups[..k], ls, materials);
      var g := groups[k];
      if pre.None? then None
      else if g.faces == [] then pre
      else
        var m := GroupMesh(g, ls, materials);
        if m.None? then None else Some(pre.value + [m.value])
  {
    assert groups[..k + 1][..k] == groups[..k];
  }

  /** Once a prefix of the groups fails to assemble, so do the groups. */
  lemma {:induction false} AssembleFailStays(groups: seq<Group>, k: nat, ls: Lists, materials: map<string, Material>)
    requires k <= |groups| && Assemble(groups[..k], ls, materials).None?
    ensures Assemble(groups, ls, materials).None?
    decreases |groups| - k
  {
    if k == |groups| {
      assert groups[..k] == groups;
    } else {
      AssembleStep(groups, k, ls, materials);
      AssembleFailStays(groups, k + 1, ls, materials);
    }
  }

  lemma FacesVerticesStep(faces: seq<Triangle>, k: nat, ls: Lists)
    requires k < |faces|
    ensures FacesVertices(faces[..k + 1], ls) ==
      var pre := FacesVertices(faces[..k], ls);
      var last := TriangleVertices(faces[k], ls);
      if pre.Some? && last.Some? then Some(pre.value + last.value) else None
  {
    assert faces[..k + 1][..k] == faces[..k];
  }

  lemma {:induction false} FacesFailStays(faces: seq<Triangle>, k: nat, ls: Lists)
    requires k <= |faces| && FacesVertices(faces[..k], ls).None?
    ensures FacesVertices(faces, ls).None?
    decreases |faces| - k
  {
    if k == |faces| {
      assert faces[..k] == faces;
    } else {
      FacesVerticesStep(faces, k, ls);
      FacesFailStays(faces, k + 1, ls);
    }
  }

  lemma MtlLinesStep(st: MtlState, lines: seq<string>, i: nat, num: Numbers)
    requires MtlValid(st) && i < |lines|
    ensures MtlLines(st, lines[..i + 1], num) == MtlLine(MtlLines(st, lines[..i], num), lines[i], num)
  {
    assert lines[..i + 1][..i] == lines[..i];
  }

  lemma ObjLinesStep(p: Parse, lines: seq<string>, i: nat, dir: string, fs: Files, num: Numbers)
    requires i < |lines|
    ensures ObjLines(p, lines[..i + 1], dir, fs, num) == ObjLine(ObjLines(p, lines[..i], dir, fs, num), lines[i], dir, fs, num)
  {
    assert lines[..i + 1][..i] == lines[..i];
  }

  lemma IotaSnoc(n: nat)
    ensures Iota(n) + [n] == Iota(n + 1)
  {
  }

  /** `split(vertStr, '/')` and the three `std::stoi` calls of one corner word: a missing
      or empty piece leaves its index 0. */
  method ParseCorner(word: string, num: Numbers) returns (c: Corner)
    ensures c == CornerOf(word, num)
  {
    var parts := Split(word, '/');
    var pos, uv, normal := 0, 0, 0;
    if |parts| >= 1 && parts[0] != [] {
      pos := num.integer(parts[0]);
    }
    if |parts| >= 2 && parts[1] != [] {
      uv := num.integer(parts[1]);
    }
    if |parts| >= 3 && parts[2] != [] {
      normal := num.integer(parts[2]);
    }
    PiecesShape(word, '/');
    c := Corner(pos, uv, normal);
  }

  /** The corner loop of an `f` line: one corner per operand word. */
  method ParseCorners(ops: seq<string>, num: Numbers) returns (corners: seq<Corner>)
    ensures corners == Corners(ops, num)
  {
    corners := [];
    var i := 0;
    while i < |ops|
      invariant 0 <= i <= |ops|
      invariant corners == Corners(ops[..i], num)
    {
      var c := ParseCorner(ops[i], num);
      assert ops[..i + 1][..i] == ops[..i];
      corners := corners + [c];
      i := i + 1;
    }
    assert ops[..i] == ops;
  }

  /** The triangulation loop: appends the fan of the face's corners to a group's faces. */
  method AppendFan(acc: seq<Triangle>, corners: seq<Corner>) returns (faces: seq<Triangle>)
    ensures faces == acc + Fan(corners)
  {
    faces := acc;
    var i := 1;
    while i + 1 < |corners|
      invariant 1 <= i && (|corners| >= 2 ==> i <= |corners| - 1)
      invariant faces == acc + (if |corners| >= 3 then Fan(corners)[..i - 1] else [])
    {
      assert Fan(corners)[..i] == Fan(corners)[..i - 1] + [Triangle(corners[0], corners[i], corners[i + 1])];
      faces := faces + [Triangle(corners[0], corners[i], corners[i + 1])];
      i := i + 1;
    }
    if |corners| >= 3 {
      assert Fan(corners)[..i - 1] == Fan(corners);
    }
  }

  /** One corner of `buildMeshes`: a positive index counts from 1, a negative one from the
      end; a texture or normal index of 0 or past the end takes the default. `ok` is false
      when an index has no element (a position index of 0, any index before the start, a
      position index past the end). */
  method ResolveCorner(c: Corner, ls: Lists) returns (vert: Vertex, ok: bool)
    ensures ok == CornerVertex(c, ls).Some?
    ensures ok ==> vert == CornerVertex(c, ls).value
  {
    var position := Vec3(0.0, 0.0, 0.0);
    var uv: Vec2;
    var normal: Vec3;
    ok := true;
    if c.pos > 0 && c.pos <= |ls.positions| {
      position := ls.positions[c.pos - 1];
    } else if c.pos < 0 && |ls.positions| + c.pos >= 0 {
      position := ls.positions[|ls.positions| + c.pos];
    } else {
      ok := false;
    }
    if c.uv > 0 && c.uv <= |ls.texCoords| {
      uv := ls.texCoords[c.uv - 1];
    } else if c.uv < 0 {
      if |ls.texCoords| + c.uv >= 0 {
        uv := ls.texCoords[|ls.texCoords| + c.uv];
      } else {
        uv := DEFAULT_UV;
        ok := false;
      }
    } else {
      uv := DEFAULT_UV;
    }
    if c.normal > 0 && c.normal <= |ls.normals| {
      normal := ls.normals[c.normal - 1];
    } else if c.normal < 0 {
      if |ls.normals| + c.normal >= 0 {
        normal := ls.normals[|ls.normals| + c.normal];
      } else {
        normal := DEFAULT_NORMAL;
        ok := false;
      }
    } else {
      normal := DEFAULT_NORMAL;
    }
    vert := Vertex(position, normal, uv);
  }

  /** The `for (int v = 0; v < 3; ++v)` loop: pushes the index of each new vertex, then
      the vertex. */
  method AppendTriangle(vertices: seq<Vertex>, indices: seq<nat>, tri: Triangle, ls: Lists)
    returns (vs: seq<Vertex>, ixs: seq<nat>, ok: bool)
    requires indices == Iota(|vertices|)
    ensures ok == TriangleVertices(tri, ls).Some?
    ensures ok ==> vs == vertices + TriangleVertices(tri, ls).value && ixs == Iota(|vs|)
  {
    vs, ixs := vertices, indices;
    var v := 0;
    while v < 3
      invariant 0 <= v <= 3
      invariant |vs| == |vertices| + v && ixs == Iota(|vs|) && vs[..|vertices|] == vertices
      invariant forall j :: 0 <= j < v ==> CornerVertex(CornerAt(tri, j), ls) == Some(vs[|vertices| + j])
    {
      var vert, found := ResolveCorner(CornerAt(tri, v), ls);
      if !found {
        assert CornerVertex(CornerAt(tri, v), ls).None?;
        assert CornerAt(tri, 0) == tri.a && CornerAt(tri, 1) == tri.b && CornerAt(tri, 2) == tri.c;
        return vs, ixs, false;
      }
      IotaSnoc(|vs|);
      ixs := ixs + [|vs|];
      vs := vs + [vert];
      v := v + 1;
    }
    assert CornerAt(tri, 0) == tri.a && CornerAt(tri, 1) == tri.b && CornerAt(tri, 2) == tri.c;
    assert vs == vertices + [vs[|vertices|], vs[|vertices| + 1], vs[|vertices| + 2]];
    ok := true;
  }

  /** The vertices and indices of one group with triangles: three fresh vertices per
      triangle, indexed 0, 1, 2, ... in order. */
  method BuildGroup(faces: seq<Triangle>, ls: Lists) returns (vertices: seq<Vertex>, indices: seq<nat>, ok: bool)
    ensures ok == FacesVertices(faces, ls).Some?
    ensures ok ==> vertices == FacesVertices(faces, ls).value && indices == Iota(|vertices|)
  {
    vertices, indices := [], [];
    var t := 0;
    while t < |faces|
      invariant 0 <= t <= |faces|
      invariant FacesVertices(faces[..t], ls) == Some(vertices) && indices == Iota(|vertices|)
    {
      FacesVerticesStep(faces, t, ls);
      var found;
      vertices, indices, found := AppendTriangle(vertices, indices, faces[t], ls);
      if !found {
        FacesFailStays(faces, t + 1, ls);
        return vertices, indices, false;
      }
      t := t + 1;
    }
    assert faces[..t] == faces;
    ok := true;
  }

  /** The body of an `f` line: parses the corners, makes sure a group exists and appends
      the fan of the corners to the last group. */
  method ReadFace(groups0: seq<Group>, ops: seq<string>, num: Numbers) returns (groups: seq<Group>)
    ensures groups == AddFaces(groups0, Fan(Corners(ops, num)))
  {
    var corners := ParseCorners(ops, num);
    groups := groups0;
    if groups == [] {
      groups := [Group("", [])];
    }
    var last := groups[|groups| - 1];
    var faces := AppendFan(last.faces, corners);
    groups := groups[..|groups| - 1] + [last.(faces := faces)];
  }

  class OBJMesh {
    var subMeshes: seq<SubMesh>
    var materials: map<string, Material>
    var error: string

    /** `OBJMesh()`: no sub-meshes, no materials, no error. */
    constructor ()
      ensures subMeshes == [] && materials == map[] && error == ""
      ensures !IsLoaded()
    {
      subMeshes, materials, error := [], map[], "";
    }

    /** The importer's state as a value. */
    function State(): Importer
      reads this
    {
      Importer(subMeshes, materials, error)
    }

    /** `isLoaded`: some sub-mesh was built; after a successful load, exactly when some
        group of the file received a triangle. */
    function IsLoaded(): (r: bool)
      reads this
      ensures forall st, fs, path, num :: LoadResult(st, fs, path, num) == (State(), true) ==>
        path in fs && (r <==> exists g :: g in Parsed(st, fs, path, num).groups && g.faces != [])
    {
      LoadedReport(State());
      subMeshes != []
    }

    /** `getSubMeshes`: after a successful load the assembled groups of the file, after a
        failed one the sub-meshes from before. */
    function GetSubMeshes(): (r: seq<SubMesh>)
      reads this
      ensures forall st, fs, path, num :: LoadResult(st, fs, path, num) == (State(), true) ==>
        path in fs && Assemble(Parsed(st, fs, path, num).groups, Parsed(st, fs, path, num).lists, Parsed(st, fs, path, num).materials) == Some(r)
      ensures forall st, fs, path, num :: LoadResult(st, fs, path, num) == (State(), false) ==> r == st.subMeshes
    {
      SubMeshesReport(State());
      subMeshes
    }

    /** `getError`: after a failed load the message naming its cause, after a successful
        one the text from before. */
    function GetError(): (r: string)
      reads this
      ensures forall st, fs, path, num :: LoadResult(st, fs, path, num) == (State(), false) ==> r == LoadError(st, fs, path, num)
      ensures forall st, fs, path, num :: LoadResult(st, fs, path, num) == (State(), true) ==> r == st.error
    {
      ErrorReport(State());
      error
    }

    /** `loadMTL`: false when the file cannot be opened; otherwise reads it into the
      material table, line by line. */
    method LoadMtl(fs: Files, path: string, num: Numbers) returns (ok: bool)
      modifies this
      ensures ok == (path in fs)
      ensures materials == if ok then MtlTable(old(materials), fs[path], num) else old(materials)
      ensures subMeshes == old(subMeshes) && error == old(error)
    {
      if path !in fs {
        return false;
      }
      var lines := fs[path];
      var current: Option<string> := None;
      var i := 0;
      while i < |lines|
        invariant 0 <= i <= |lines|
        invariant MtlValid(MtlState(materials, current))
        invariant MtlLines(MtlState(old(materials), None), lines[..i], num) == MtlState(materials, current)
        invariant subMeshes == old(subMeshes) && error == old(error)
      {
        current := ReadMtlLine(lines[i], current, num);
        MtlLinesStep(MtlState(old(materials), None), lines, i, num);
        i := i + 1;
      }
      assert lines[..i] == lines;
      return true;
    }

    /** One iteration of the `loadMTL` line loop: `current` is the name `currentMat`
      points at. */
    method ReadMtlLine(line0: string, current0: Option<string>, num: Numbers) returns (current: Option<string>)
      requires MtlValid(MtlState(materials, current0))
      modifies this
      ensures MtlLine(MtlState(old(materials), current0), line0, num) == MtlState(materials, current)
      ensures subMeshes == old(subMeshes) && error == old(error)
    {
      current := current0;
      var line := line0;
      if line != [] && line[|line| - 1] == '\r' {
        line := line[..|line| - 1];
      }
      assert line == StripCR(line0);
      var token := Token(line);
      var ops := Operands(line);
      if token == "newmtl" {
        var name := if ops == [] then "" else ops[0];
        materials := materials[name := DefaultMaterial(name)];
        current := Some(name);
      } else if current.Some? {
        var name := current.value;
        var m := materials[name];
        if token == "Kd" {
          materials := materials[name := m.(diffuse := num.color(m.diffuse, ops))];
        } else if token == "Ka" {
          materials := materials[name := m.(ambient := num.color(m.ambient, ops))];
        } else if token == "Ks" {
          materials := materials[name := m.(specular := num.color(m.specular, ops))];
        } else if token == "Ns" {
          materials := materials[name := m.(shininess := num.scalar(m.shininess, ops))];
        }
      }
    }

    /** `buildMeshes`: one sub-mesh per group with triangles, in order. When every corner
      resolves the sub-meshes are replaced by the new ones; otherwise nothing changes and
      `ok` is false. */
    method BuildMeshes(ls: Lists, groups: seq<Group>) returns (ok: bool)
      modifies this
      ensures ok == Assemble(groups, ls, materials).Some?
      ensures subMeshes == if ok then Assemble(groups, ls, materials).value else old(subMeshes)
      ensures materials == old(materials) && error == old(error)
    {
      var result: seq<SubMesh> := [];
      var k := 0;
      while k < |groups|
        invariant 0 <= k <= |groups|
        invariant Assemble(groups[..k], ls, materials) == Some(result)
        invariant materials == old(materials) && subMeshes == old(subMeshes) && error == old(error)
      {
        AssembleStep(groups, k, ls, materials);
        var g := groups[k];
        if g.faces != [] {
          var vertices, indices, built := BuildGroup(g.faces, ls);
          if !built {
            AssembleFailStays(groups, k + 1, ls, materials);
            return false;
          }
          var material := if g.material in materials then materials[g.material] else DefaultMaterial(g.material);
          result := result + [SubMesh(vertices, indices, material)];
        }
        k := k + 1;
      }
      assert groups[..k] == groups;
      subMeshes := result;
      ok := true;
    }

    /** One line of `load`: strips a trailing '\r', reads the first word and acts on it. */
    method ReadObjLine(line: string, directory: string, fs: Files, num: Numbers,
                       positions0: seq<Vec3>, normals0: seq<Vec3>, texCoords0: seq<Vec2>,
                       groups0: seq<Group>, current0: string)
      returns (positions: seq<Vec3>, normals: seq<Vec3>, texCoords: seq<Vec2>, groups: seq<Group>, currentMaterial: string)
      modifies this
      ensures ObjLine(Parse(Lists(positions0, normals0, texCoords0), groups0, current0, old(materials)), line, directory, fs, num)
        == Parse(Lists(positions, normals, texCoords), groups, currentMaterial, materials)
      ensures subMeshes == old(subMeshes) && error == old(error)
    {
      positions, normals, texCoords, groups, currentMaterial := positions0, normals0, texCoords0, groups0, current0;
      ghost var p := Parse(Lists(positions0, normals0, texCoords0), groups0, current0, materials);
      var text := line;
      if text != [] && text[|text| - 1] == '\r' {
        text := text[..|text| - 1];
      }
      assert text == StripCR(line);
      var token := Token(text);
      var ops := Operands(text);
      if token == "mtllib" {
        var mtlFile := if ops == [] then "" else ops[0];
        var found := LoadMtl(fs, directory + mtlFile, num);
        assert ObjLine(p, line, directory, fs, num) == p.(materials := materials);
      } else if token == "usemtl" {
        if ops != [] {
          currentMaterial := ops[0];
        }
        groups := groups + [Group(currentMaterial, [])];
      } else if token == "v" {
        positions := positions + [num.vec3(ops)];
      } else if token == "vn" {
        normals := normals + [num.vec3(ops)];
      } else if token == "vt" {
        texCoords := texCoords + [num.vec2(ops)];
      } else if token == "f" {
        groups := ReadFace(groups, ops, num);
        assert ObjLine(p, line, directory, fs, num) == p.(groups := groups);
      }
    }

    /** The line loop of `load`, from empty lists, no groups and the material name "". */
    method ReadObjLines(lines: seq<string>, directory: string, fs: Files, num: Numbers)
      returns (positions: seq<Vec3>, normals: seq<Vec3>, texCoords: seq<Vec2>, groups: seq<Group>, currentMaterial: string)
      modifies this
      ensures ObjLines(Parse(Lists([], [], []), [], "", old(materials)), lines, directory, fs, num)
        == Parse(Lists(positions, normals, texCoords), groups, currentMaterial, materials)
      ensures subMeshes == old(subMeshes) && error == old(error)
    {
      positions, normals, texCoords, groups, currentMaterial := [], [], [], [], "";
      ghost var start := Parse(Lists([], [], []), [], "", materials);
      var i := 0;
      while i < |lines|
        invariant 0 <= i <= |lines|
        invariant ObjLines(start, lines[..i], directory, fs, num) ==
          Parse(Lists(positions, normals, texCoords), groups, currentMaterial, materials)
        invariant subMeshes == old(subMeshes) && error == old(error)
      {
        ObjLinesStep(start, lines, i, directory, fs, num);
        positions, normals, texCoords, groups, currentMaterial :=
          ReadObjLine(lines[i], directory, fs, num, positions, normals, texCoords, groups, currentMaterial);
        i := i + 1;
      }
      assert lines[..i] == lines;
    }

    /** `load`: the outcome and the new state are those `LoadResult` describes. */
    method Load(fs: Files, path: string, num: Numbers) returns (ok: bool)
      modifies this
      ensures (State(), ok) == LoadResult(old(State()), fs, path, num)
    {
      if path !in fs {
        error := "Failed to open file: " + path;
        return false;
      }
      var directory := GetDirectory(path);
      var positions, normals, texCoords, groups, currentMaterial := ReadObjLines(fs[path], directory, fs, num);
      if positions == [] {
        error := "No vertices found in file";
        return false;
      }
      var built := BuildMeshes(Lists(positions, normals, texCoords), groups);
      if !built {
        error := INVALID_INDEX;
        return false;
      }
      return true;
    }
  }
}
