/** What the Wavefront OBJ/MTL importer computes, as functions of the file lines: the
    material table built from an MTL file, the lists and material groups built from an
    OBJ file, fan triangulation of faces, index resolution, and the sub-meshes assembled
    from the groups. The `OBJMesh` methods are proved against these functions. */
module ObjModel {
  import opened Geometry
  import opened ObjText

  datatype Material = Material(name: string, diffuse: Vec3, ambient: Vec3, specular: Vec3, shininess: real)

  /** `Material{name}`: the named material with the default colours and shininess. */
  function DefaultMaterial(name: string): Material {
    Material(name, Vec3(0.8, 0.8, 0.8), Vec3(0.2, 0.2, 0.2), Vec3(1.0, 1.0, 1.0), 32.0)
  }

  /** The indices of one face corner as parsed: position, texture coordinate, normal;
      0 where the corner gives none. */
  datatype Corner = Corner(pos: int, uv: int, normal: int)

  /** One triangle of a group: three corners (the `std::array<int, 9>` of the source). */
  datatype Triangle = Triangle(a: Corner, b: Corner, c: Corner)

  /** A material group: the name given by `usemtl` and the triangles that follow it. */
  datatype Group = Group(material: string, faces: seq<Triangle>)

  /** A sub-mesh: the vertex and index data uploaded to its GPU mesh, and its material. */
  datatype SubMesh = SubMesh(vertices: seq<Vertex>, indices: seq<nat>, material: Material)

  /** The vertex attribute lists of a file. */
  datatype Lists = Lists(positions: seq<Vec3>, normals: seq<Vec3>, texCoords: seq<Vec2>)

  /** Number parsing that is not modelled: what `iss >> x >> y >> z` leaves in a fresh
      `glm::vec3` (`vec3`) or `glm::vec2` (`vec2`) given the operand words, what it leaves
      in an existing colour or shininess (a failed extraction keeps earlier fields), and
      `std::stoi` of a corner piece. */
  datatype Numbers = Numbers(
    vec3: seq<string> -> Vec3,
    vec2: seq<string> -> Vec2,
    color: (Vec3, seq<string>) -> Vec3,
    scalar: (real, seq<string>) -> real,
    integer: string -> int)

  /** A file system: the lines of every file that can be opened. */
  type Files = map<string, seq<string>>

  /** The error `load` reports for a face corner whose position index is 0 or outside the
      position list, or whose negative texture or normal index reaches before the start. */
  const INVALID_INDEX: string := "Invalid index in face"

  /** The first operand of a line, or `dflt` when the line has none (`iss >> s` leaves a
      string unchanged when there is nothing left to read). */
  function FirstOperand(line: string, dflt: string): string {
    var ops := Operands(line);
    if ops == [] then dflt else ops[0]
  }

  // ---------------------------------------------------------------------------------
  // loadMTL

  /** The table and the name of the entry `currentMat` points at. */
  datatype MtlState = MtlState(materials: map<string, Material>, current: Option<string>)

  /** The current entry, when there is one, is in the table. */
  predicate MtlValid(st: MtlState) {
    st.current.Some? ==> st.current.value in st.materials
  }

  /** One line of an MTL file. */
  function MtlLine(st: MtlState, line: string, num: Numbers): (r: MtlState)
    requires MtlValid(st)
    ensures MtlValid(r)
  {
    var l := StripCR(line);
    var token := Token(l);
    if token == "newmtl" then
      var name := FirstOperand(l, "");
      MtlState(st.materials[name := DefaultMaterial(name)], Some(name))
    else if st.current.None? then st
    else
      var name := st.current.value;
      var m := st.materials[name];
      var ops := Operands(l);
      if token == "Kd" then st.(materials := st.materials[name := m.(diffuse := num.color(m.diffuse, ops))])
      else if token == "Ka" then st.(materials := st.materials[name := m.(ambient := num.color(m.ambient, ops))])
      else if token == "Ks" then st.(materials := st.materials[name := m.(specular := num.color(m.specular, ops))])
      else if token == "Ns" then st.(materials := st.materials[name := m.(shininess := num.scalar(m.shininess, ops))])
      else st
  }

  /** The lines of an MTL file, in order. */
  function MtlLines(st: MtlState, lines: seq<string>, num: Numbers): (r: MtlState)
    requires MtlValid(st)
    ensures MtlValid(r)
  {
    if lines == [] then st else MtlLine(MtlLines(st, lines[..|lines| - 1], num), lines[|lines| - 1], num)
  }

  /** The table after `loadMTL` has read `lines` into `materials`. */
  function MtlTable(materials: map<string, Material>, lines: seq<string>, num: Numbers): map<string, Material> {
    MtlLines(MtlState(materials, None), lines, num).materials
  }

  /** The names `newmtl` lines among `lines` declare. */
  function Declared(lines: seq<string>): set<string> {
    if lines == [] then {}
    else
      var l := StripCR(lines[|lines| - 1]);
      Declared(lines[..|lines| - 1]) + (if Token(l) == "newmtl" then {FirstOperand(l, "")} else {})
  }

  /** A `newmtl` line resets its entry to the default material and makes it current. */
  lemma NewmtlResets(st: MtlState, line: string, num: Numbers)
    requires MtlValid(st) && Token(StripCR(line)) == "newmtl"
    ensures var name := FirstOperand(StripCR(line), "");
      && MtlLine(st, line, num).materials == st.materials[name := DefaultMaterial(name)]
      && MtlLine(st, line, num).current == Some(name)
  {
  }

  /** Any other line changes at most the current entry, and never which entry is current;
      before the first `newmtl` (no current entry) it changes nothing, and so does a
      directive other than `Kd`, `Ka`, `Ks` and `Ns`. Each of those four sets one field of
      the current entry from its operands. */
  lemma MtlLineLocal(st: MtlState, line: string, num: Numbers)
    requires MtlValid(st) && Token(StripCR(line)) != "newmtl"
    ensures MtlLine(st, line, num).current == st.current
    ensures MtlLine(st, line, num).materials.Keys == st.materials.Keys
    ensures forall n :: n in st.materials && Some(n) != st.current ==> MtlLine(st, line, num).materials[n] == st.materials[n]
    ensures st.current.None? ==> MtlLine(st, line, num) == st
    ensures st.current.Some? ==> MtlLine(st, line, num).materials[st.current.value].name == st.materials[st.current.value].name
    ensures Token(StripCR(line)) !in {"Kd", "Ka", "Ks", "Ns"} ==> MtlLine(st, line, num) == st
    ensures st.current.Some? ==>
      var c, m, ops := st.current.value, st.materials[st.current.value], Operands(StripCR(line));
      var r := MtlLine(st, line, num);
      && (Token(StripCR(line)) == "Kd" ==> r.materials[c] == m.(diffuse := num.color(m.diffuse, ops)))
      && (Token(StripCR(line)) == "Ka" ==> r.materials[c] == m.(ambient := num.color(m.ambient, ops)))
      && (Token(StripCR(line)) == "Ks" ==> r.materials[c] == m.(specular := num.color(m.specular, ops)))
      && (Token(StripCR(line)) == "Ns" ==> r.materials[c] == m.(shininess := num.scalar(m.shininess, ops)))
  {
  }

  /** Reading an MTL file adds exactly the declared names to the table, and the entries
      it does not declare keep their values. */
  lemma {:induction false} MtlLinesFrame(st: MtlState, lines: seq<string>, num: Numbers)
    requires MtlValid(st)
    requires st.current == None
    ensures MtlLines(st, lines, num).materials.Keys == st.materials.Keys + Declared(lines)
    ensures forall n :: n in st.materials && n !in Declared(lines) ==> MtlLines(st, lines, num).materials[n] == st.materials[n]
    ensures var r := MtlLines(st, lines, num); r.current.Some? ==> r.current.value in Declared(lines)
  {
    if lines != [] {
      var pre := lines[..|lines| - 1];
      var line := lines[|lines| - 1];
      MtlLinesFrame(st, pre, num);
      var s := MtlLines(st, pre, num);
      if Token(StripCR(line)) == "newmtl" {
        NewmtlResets(s, line, num);
      } else {
        MtlLineLocal(s, line, num);
      }
    }
  }

  /** `loadMTL` only adds entries: the names declared in the file, each of them keeping
      the name it was declared with; entries it does not declare are left as they were. */
  lemma MtlTableFrame(materials: map<string, Material>, lines: seq<string>, num: Numbers)
    ensures MtlTable(materials, lines, num).Keys == materials.Keys + Declared(lines)
    ensures forall n :: n in materials && n !in Declared(lines) ==> MtlTable(materials, lines, num)[n] == materials[n]
  {
    MtlLinesFrame(MtlState(materials, None), lines, num);
  }

  /** Every entry an MTL file declares carries its own name. */
  lemma {:induction false} MtlNames(st: MtlState, lines: seq<string>, num: Numbers)
    requires MtlValid(st)
    requires forall n :: n in st.materials ==> st.materials[n].name == n
    ensures forall n :: n in MtlLines(st, lines, num).materials ==> MtlLines(st, lines, num).materials[n].name == n
  {
    if lines != [] {
      var pre := lines[..|lines| - 1];
      var line := lines[|lines| - 1];
      MtlNames(st, pre, num);
      var s := MtlLines(st, pre, num);
      if Token(StripCR(line)) == "newmtl" {
        NewmtlResets(s, line, num);
      } else {
        MtlLineLocal(s, line, num);
      }
    }
  }

  // ---------------------------------------------------------------------------------
  // load: faces

  /** One corner word: its '/'-separated pieces, empty pieces dropped, give the position,
      texture and normal indices in that order. */
  function CornerOf(word: string, num: Numbers): Corner {
    var parts := Pieces(word, '/');
    Corner(
      if |parts| >= 1 then num.integer(parts[0]) else 0,
      if |parts| >= 2 then num.integer(parts[1]) else 0,
      if |parts| >= 3 then num.integer(parts[2]) else 0)
  }

  /** The corners of a face line, one per operand word. */
  function Corners(ops: seq<string>, num: Numbers): (cs: seq<Corner>)
    ensures |cs| == |ops|
    ensures forall i :: 0 <= i < |ops| ==> cs[i] == CornerOf(ops[i], num)
  {
    if ops == [] then [] else Corners(ops[..|ops| - 1], num) + [CornerOf(ops[|ops| - 1], num)]
  }

  /** Fan triangulation: triangle `i` joins the first corner with corners `i + 1` and `i + 2`. */
  function Fan(cs: seq<Corner>): seq<Triangle> {
    if |cs| < 3 then [] else seq(|cs| - 2, (i: nat) requires i < |cs| - 2 => Triangle(cs[0], cs[i + 1], cs[i + 2]))
  }

  /** A face with `k` corners gives `max(k - 2, 0)` triangles. Each of them has the first
      corner at its apex, consecutive triangles share an edge, and every corner of the face
      lies on one of them, in order. */
  lemma FanShape(cs: seq<Corner>)
    ensures |Fan(cs)| == if |cs| >= 2 then |cs| - 2 else 0
    ensures forall i :: 0 <= i < |Fan(cs)| ==> Fan(cs)[i].a == cs[0]
    ensures forall i :: 0 <= i && i + 1 < |Fan(cs)| ==> Fan(cs)[i].c == Fan(cs)[i + 1].b
    ensures |cs| >= 3 ==> Fan(cs)[0].b == cs[1] && forall j :: 2 <= j < |cs| ==> Fan(cs)[j - 2].c == cs[j]
  {
  }

  /** A triangle face is kept as it is; a quad becomes (0, 1, 2) and (0, 2, 3). */
  lemma FanSmall(cs: seq<Corner>)
    ensures |cs| == 3 ==> Fan(cs) == [Triangle(cs[0], cs[1], cs[2])]
    ensures |cs| == 4 ==> Fan(cs) == [Triangle(cs[0], cs[1], cs[2]), Triangle(cs[0], cs[2], cs[3])]
  {
  }

  /** `split` drops empty pieces, so in a corner written `p//n` the normal index lands in
      the texture-coordinate slot and the normal slot stays 0. */
  lemma SlashSlashCorner(num: Numbers)
    ensures CornerOf("1//3", num) == Corner(num.integer("1"), num.integer("3"), 0)
  {
    FieldsOfSlashSlash();
    assert NonEmpty(["1", "", "3"]) == ["1", "3"] by {
      assert ["1", "", "3"][..2] == ["1", ""];
      assert ["1", ""][..1] == ["1"];
      assert ["1"][..0] == [];
    }
  }

  lemma FieldsOfOneSlashSlash()
    ensures Fields("1//", '/') == ["1", "", ""]
  {
    FieldsSnoc("", '1', '/');
    assert "" + ['1'] == "1" && [""][..0] + ["" + ['1']] == ["1"];
    assert Fields("1", '/') == ["1"];
    FieldsSnoc("1", '/', '/');
    assert "1" + ['/'] == "1/";
    assert Fields("1/", '/') == ["1", ""];
    FieldsSnoc("1/", '/', '/');
    assert "1/" + ['/'] == "1//";
  }

  lemma FieldsOfSlashSlash()
    ensures Fields("1//3", '/') == ["1", "", "3"]
  {
    FieldsOfOneSlashSlash();
    FieldsSnoc("1//", '3', '/');
    assert "1//" + ['3'] == "1//3";
    assert ["1", "", ""][..2] == ["1", ""];
    assert "" + ['3'] == "3";
    assert ["1", ""] + ["3"] == ["1", "", "3"];
  }

  // ---------------------------------------------------------------------------------
  // load: lines

  /** What `load` has built so far: the attribute lists, the groups, the name of the
      current material, and the material table (which `mtllib` lines extend). */
  datatype Parse = Parse(lists: Lists, groups: seq<Group>, current: string, materials: map<string, Material>)

  /** `faces` appended to the last group, after creating the group "" when there is none. */
  function AddFaces(groups: seq<Group>, faces: seq<Triangle>): (r: seq<Group>)
    ensures |r| >= 1
  {
    var gs := if groups == [] then [Group("", [])] else groups;
    var last := gs[|gs| - 1];
    gs[..|gs| - 1] + [last.(faces := last.faces + faces)]
  }

  /** One line of an OBJ file whose directory is `dir`. */
  function ObjLine(p: Parse, line: string, dir: string, fs: Files, num: Numbers): Parse {
    var l := StripCR(line);
    var token := Token(l);
    var ops := Operands(l);
    if token == "mtllib" then
      var path := dir + FirstOperand(l, "");
      if path in fs then p.(materials := MtlTable(p.materials, fs[path], num)) else p
    else if token == "usemtl" then
      var name := FirstOperand(l, p.current);
      p.(current := name, groups := p.groups + [Group(name, [])])
    else if token == "v" then p.(lists := p.lists.(positions := p.lists.positions + [num.vec3(ops)]))
    else if token == "vn" then p.(lists := p.lists.(normals := p.lists.normals + [num.vec3(ops)]))
    else if token == "vt" then p.(lists := p.lists.(texCoords := p.lists.texCoords + [num.vec2(ops)]))
    else if token == "f" then p.(groups := AddFaces(p.groups, Fan(Corners(ops, num))))
    else p
  }

  /** The lines of an OBJ file, in order. */
  function ObjLines(p: Parse, lines: seq<string>, dir: string, fs: Files, num: Numbers): Parse {
    if lines == [] then p else ObjLine(ObjLines(p, lines[..|lines| - 1], dir, fs, num), lines[|lines| - 1], dir, fs, num)
  }

  /** Every `usemtl` line opens a new group, even for a name seen before; without an
      operand it keeps the previous name. */
  lemma UsemtlOpensGroup(p: Parse, line: string, dir: string, fs: Files, num: Numbers)
    requires Token(StripCR(line)) == "usemtl"
    ensures var r := ObjLine(p, line, dir, fs, num);
      && r.groups == p.groups + [Group(r.current, [])]
      && r.current == FirstOperand(StripCR(line), p.current)
      && r.lists == p.lists && r.materials == p.materials
  {
  }

  /** An `f` line adds the fan of its corners to the last group; with no group yet it
      first creates the single group named "". Nothing else changes. */
  lemma FaceLine(p: Parse, line: string, dir: string, fs: Files, num: Numbers)
    requires Token(StripCR(line)) == "f"
    ensures var r := ObjLine(p, line, dir, fs, num);
      var tris := Fan(Corners(Operands(StripCR(line)), num));
      && r.lists == p.lists && r.materials == p.materials && r.current == p.current
      && (p.groups == [] ==> r.groups == [Group("", tris)])
      && (p.groups != [] ==>
            && |r.groups| == |p.groups| && r.groups[..|p.groups| - 1] == p.groups[..|p.groups| - 1]
            && r.groups[|p.groups| - 1] == Group(p.groups[|p.groups| - 1].material, p.groups[|p.groups| - 1].faces + tris))
  {
    var tris := Fan(Corners(Operands(StripCR(line)), num));
    assert [] + tris == tris;
  }

  /** Reading an OBJ file never removes a material: `m_materials` is only ever extended. */
  lemma {:induction false} ObjLinesKeepMaterials(p: Parse, lines: seq<string>, dir: string, fs: Files, num: Numbers)
    ensures p.materials.Keys <= ObjLines(p, lines, dir, fs, num).materials.Keys
  {
    if lines != [] {
      ObjLinesKeepMaterials(p, lines[..|lines| - 1], dir, fs, num);
      var q := ObjLines(p, lines[..|lines| - 1], dir, fs, num);
      var l := StripCR(lines[|lines| - 1]);
      if Token(l) == "mtllib" && dir + FirstOperand(l, "") in fs {
        MtlTableFrame(q.materials, fs[dir + FirstOperand(l, "")], num);
      }
    }
  }

  // ---------------------------------------------------------------------------------
  // buildMeshes

  /** Position `i`: 1-based from the front when positive, from the back when negative.
      Index 0 and indices outside the list have no position. */
  function ResolvePosition(i: int, positions: seq<Vec3>): Option<Vec3> {
    if 0 < i <= |positions| then Some(positions[i - 1])
    else if i < 0 && |positions| + i >= 0 then Some(positions[|positions| + i])
    else None
  }

  /** A texture coordinate or normal: as a position, except that 0 and positive indices
      past the end give the default value; a negative index before the start has none. */
  function ResolveAttr<T>(i: int, list: seq<T>, dflt: T): Option<T> {
    if 0 < i <= |list| then Some(list[i - 1])
    else if i < 0 then (if |list| + i >= 0 then Some(list[|list| + i]) else None)
    else Some(dflt)
  }

  /** Negative indices count from the end: `-k` names the same element as `|list| - k + 1`. */
  lemma NegativeIndexFromEnd<T>(k: int, list: seq<T>, dflt: T, positions: seq<Vec3>)
    ensures 1 <= k <= |list| ==> ResolveAttr(-k, list, dflt) == ResolveAttr(|list| - k + 1, list, dflt)
    ensures 1 <= k <= |positions| ==> ResolvePosition(-k, positions) == ResolvePosition(|positions| - k + 1, positions)
  {
  }

  /** Which indices resolve: a position exactly when it is within ±size and not 0; a
      texture coordinate or normal whenever it is not a negative index past the start,
      taking the default unless it is within ±size and not 0. */
  lemma ResolveCases<T>(i: int, list: seq<T>, dflt: T, positions: seq<Vec3>)
    ensures ResolvePosition(i, positions).Some? <==> i != 0 && -|positions| <= i <= |positions|
    ensures ResolveAttr(i, list, dflt).Some? <==> i >= -|list|
    ensures (i == 0 || i > |list|) ==> ResolveAttr(i, list, dflt) == Some(dflt)
    ensures i != 0 && -|list| <= i <= |list| ==> ResolveAttr(i, list, dflt).Some? && ResolveAttr(i, list, dflt).value in list
  {
  }

  const DEFAULT_UV: Vec2 := Vec2(0.0, 0.0)
  const DEFAULT_NORMAL: Vec3 := Vec3(0.0, 1.0, 0.0)

  /** The fresh vertex a corner becomes, if all three of its indices resolve. */
  function CornerVertex(c: Corner, ls: Lists): Option<Vertex> {
    var p := ResolvePosition(c.pos, ls.positions);
    var t := ResolveAttr(c.uv, ls.texCoords, DEFAULT_UV);
    var n := ResolveAttr(c.normal, ls.normals, DEFAULT_NORMAL);
    if p.Some? && t.Some? && n.Some? then Some(Vertex(p.value, n.value, t.value)) else None
  }

  /** Corner `j` (0, 1 or 2) of a triangle. */
  function CornerAt(t: Triangle, j: nat): Corner
    requires j < 3
  {
    if j == 0 then t.a else if j == 1 then t.b else t.c
  }

  /** The three vertices of a triangle, if every corner resolves. */
  function TriangleVertices(t: Triangle, ls: Lists): Option<seq<Vertex>> {
    var a, b, c := CornerVertex(t.a, ls), CornerVertex(t.b, ls), CornerVertex(t.c, ls);
    if a.Some? && b.Some? && c.Some? then Some([a.value, b.value, c.value]) else None
  }

  /** The vertices of a group's triangles, three per triangle in order, if every corner resolves. */
  function FacesVertices(faces: seq<Triangle>, ls: Lists): (r: Option<seq<Vertex>>)
    ensures r.Some? ==> |r.value| == 3 * |faces|
  {
    if faces == [] then Some([])
    else
      var pre := FacesVertices(faces[..|faces| - 1], ls);
      var last := TriangleVertices(faces[|faces| - 1], ls);
      if pre.Some? && last.Some? then Some(pre.value + last.value) else None
  }

  /** `0, 1, ..., n - 1`. */
  function Iota(n: nat): (r: seq<nat>)
    ensures |r| == n && forall k :: 0 <= k < n ==> r[k] == k
  {
    seq(n, (k: nat) => k)
  }

  /** The table entry for a group's material name, or the default material of that name. */
  function MaterialFor(name: string, materials: map<string, Material>): Material {
    if name in materials then materials[name] else DefaultMaterial(name)
  }

  /** The groups that have triangles, in order. */
  function Kept(groups: seq<Group>): seq<Group> {
    if groups == [] then []
    else Kept(groups[..|groups| - 1]) + (if groups[|groups| - 1].faces == [] then [] else [groups[|groups| - 1]])
  }

  /** The sub-mesh of one group, if all its corners resolve. */
  function GroupMesh(g: Group, ls: Lists, materials: map<string, Material>): Option<SubMesh> {
    var vs := FacesVertices(g.faces, ls);
    if vs.None? then None else Some(SubMesh(vs.value, Iota(|vs.value|), MaterialFor(g.material, materials)))
  }

  /** The sub-meshes `buildMeshes` produces: one per group with triangles, in order; None
      when some corner has an index that does not resolve. */
  function Assemble(groups: seq<Group>, ls: Lists, materials: map<string, Material>): Option<seq<SubMesh>> {
    if groups == [] then Some([])
    else
      var pre := Assemble(groups[..|groups| - 1], ls, materials);
      var g := groups[|groups| - 1];
      if pre.None? then None
      else if g.faces == [] then pre
      else
        var m := GroupMesh(g, ls, materials);
        if m.None? then None else Some(pre.value + [m.value])
  }

  /** A group's vertices are its corners' fresh vertices, three per triangle in order:
      vertex `3t + j` is corner `j` of triangle `t`; they exist exactly when every corner
      resolves. */
  lemma {:induction false} FacesVerticesAt(faces: seq<Triangle>, ls: Lists)
    ensures FacesVertices(faces, ls).Some? <==>
      forall t, j :: 0 <= t < |faces| && 0 <= j < 3 ==> CornerVertex(CornerAt(faces[t], j), ls).Some?
    ensures FacesVertices(faces, ls).Some? ==>
      var vs := FacesVertices(faces, ls).value;
      && |vs| == 3 * |faces|
      && forall t, j :: 0 <= t < |faces| && 0 <= j < 3 ==> CornerVertex(CornerAt(faces[t], j), ls) == Some(vs[3 * t + j])
  {
    if faces != [] {
      var n := |faces| - 1;
      var pre := faces[..n];
      FacesVerticesAt(pre, ls);
      assert forall t :: 0 <= t < n ==> pre[t] == faces[t];
      var tv := TriangleVertices(faces[n], ls);
      assert CornerAt(faces[n], 0) == faces[n].a && CornerAt(faces[n], 1) == faces[n].b && CornerAt(faces[n], 2) == faces[n].c;
      assert tv.Some? <==> forall j :: 0 <= j < 3 ==> CornerVertex(CornerAt(faces[n], j), ls).Some?;
      if FacesVertices(faces, ls).Some? {
        var vs := FacesVertices(faces, ls).value;
        var ws := FacesVertices(pre, ls).value;
        assert vs == ws + tv.value;
        forall t, j | 0 <= t < |faces| && 0 <= j < 3
          ensures CornerVertex(CornerAt(faces[t], j), ls) == Some(vs[3 * t + j])
        {
          if t < n {
            assert vs[3 * t + j] == ws[3 * t + j];
          } else {
            assert vs[3 * t + j] == tv.value[j];
          }
        }
      } else if FacesVertices(pre, ls).None? {
        var t, j :| 0 <= t < n && 0 <= j < 3 && CornerVertex(CornerAt(pre[t], j), ls).None?;
        assert CornerVertex(CornerAt(faces[t], j), ls).None?;
      } else {
        assert tv.None?;
        var j :| 0 <= j < 3 && CornerVertex(CornerAt(faces[n], j), ls).None?;
      }
    }
  }

  /** `buildMeshes`: one sub-mesh per group with triangles, in the groups' order, built from
      the group's corners with indices 0 .. 3t - 1 and the group's material (or the default
      one of that name); it fails exactly when some group with triangles fails. */
  lemma {:induction false} AssembleShape(groups: seq<Group>, ls: Lists, materials: map<string, Material>)
    ensures Assemble(groups, ls, materials).Some? <==>
      forall i :: 0 <= i < |Kept(groups)| ==> FacesVertices(Kept(groups)[i].faces, ls).Some?
    ensures Assemble(groups, ls, materials).Some? ==>
      var ms := Assemble(groups, ls, materials).value;
      && |ms| == |Kept(groups)|
      && forall i :: 0 <= i < |ms| ==>
        && Some(ms[i].vertices) == FacesVertices(Kept(groups)[i].faces, ls)
        && |ms[i].vertices| == 3 * |Kept(groups)[i].faces|
        && ms[i].indices == Iota(3 * |Kept(groups)[i].faces|)
        && ms[i].material == MaterialFor(Kept(groups)[i].material, materials)
  {
    if groups != [] {
      var pre := groups[..|groups| - 1];
      var g := groups[|groups| - 1];
      AssembleShape(pre, ls, materials);
      var k := Kept(pre);
      var a := Assemble(pre, ls, materials);
      if g.faces == [] {
        assert Kept(groups) == k;
      } else {
        assert Kept(groups) == k + [g];
        if a.None? {
          var i :| 0 <= i < |k| && FacesVertices(k[i].faces, ls).None?;
          assert Kept(groups)[i] == k[i];
        } else if FacesVertices(g.faces, ls).None? {
          assert Kept(groups)[|k|] == g;
        } else {
          var ms := Assemble(groups, ls, materials).value;
          assert ms == a.value + [GroupMesh(g, ls, materials).value];
          forall i | 0 <= i < |ms|
            ensures Some(ms[i].vertices) == FacesVertices(Kept(groups)[i].faces, ls)
            ensures ms[i].indices == Iota(3 * |Kept(groups)[i].faces|)
            ensures ms[i].material == MaterialFor(Kept(groups)[i].material, materials)
          {
            if i < |k| {
              assert ms[i] == a.value[i] && Kept(groups)[i] == k[i];
            } else {
              assert Kept(groups)[i] == g;
            }
          }
          forall i | 0 <= i < |Kept(groups)| ensures FacesVertices(Kept(groups)[i].faces, ls).Some? {
            if i < |k| {
              assert Kept(groups)[i] == k[i];
            }
          }
        }
      }
    }
  }

  /** Every index of a sub-mesh addresses one of its own vertices. */
  lemma AssembleBounds(groups: seq<Group>, ls: Lists, materials: map<string, Material>)
    requires Assemble(groups, ls, materials).Some?
    ensures forall i :: 0 <= i < |Assemble(groups, ls, materials).value| ==>
      var m := Assemble(groups, ls, materials).value[i];
      |m.indices| == |m.vertices| && AllBelow(m.indices, |m.vertices|)
  {
    AssembleShape(groups, ls, materials);
  }

  // ---------------------------------------------------------------------------------
  // load as a whole

  /** The state of an importer: its sub-meshes, its material table, its last error. */
  datatype Importer = Importer(subMeshes: seq<SubMesh>, materials: map<string, Material>, error: string)

  /** What `load(path)` returns and leaves behind. */
  function LoadResult(st: Importer, fs: Files, path: string, num: Numbers): (Importer, bool)
  {
    if path !in fs then (st.(error := "Failed to open file: " + path), false)
    else
      var p := ObjLines(Parse(Lists([], [], []), [], "", st.materials), fs[path], GetDirectory(path), fs, num);
      var st1 := st.(materials := p.materials);
      if p.lists.positions == [] then (st1.(error := "No vertices found in file"), false)
      else
        match Assemble(p.groups, p.lists, p.materials)
        case None => (st1.(error := INVALID_INDEX), false)
        case Some(ms) => (st1.(subMeshes := ms), true)
  }

  /** A failed load keeps the sub-meshes built before and reports why it failed; a
      successful one keeps the previous error text. Files that cannot be opened change
      nothing but the error, and no load removes a material. */
  lemma LoadOutcome(st: Importer, fs: Files, path: string, num: Numbers)
    ensures var (r, ok) := LoadResult(st, fs, path, num);
      && st.materials.Keys <= r.materials.Keys
      && (!ok ==> r.subMeshes == st.subMeshes)
      && (!ok ==> r.error in {"Failed to open file: " + path, "No vertices found in file", INVALID_INDEX})
      && (ok ==> r.error == st.error)
      && (path !in fs ==> !ok && r == st.(error := "Failed to open file: " + path))
    ensures path in fs ==>
      var p := ObjLines(Parse(Lists([], [], []), [], "", st.materials), fs[path], GetDirectory(path), fs, num);
      var (r, ok) := LoadResult(st, fs, path, num);
      && r.materials == p.materials
      && (ok <==> p.lists.positions != [] && Assemble(p.groups, p.lists, p.materials).Some?)
      && (p.lists.positions == [] ==> r.error == "No vertices found in file")
      && (p.lists.positions != [] && Assemble(p.groups, p.lists, p.materials).None? ==> r.error == INVALID_INDEX)
      && (ok ==> r.subMeshes == Assemble(p.groups, p.lists, p.materials).value)
  {
    if path in fs {
      ObjLinesKeepMaterials(Parse(Lists([], [], []), [], "", st.materials), fs[path], GetDirectory(path), fs, num);
    }
  }

  /** A successful load leaves one sub-mesh per group that received triangles, so the mesh
      counts as loaded exactly when some group has a triangle: a file with vertices but no
      face loads successfully and yet is not loaded. */
  lemma LoadedWhenFaces(st: Importer, fs: Files, path: string, num: Numbers)
    requires path in fs
    ensures var p := ObjLines(Parse(Lists([], [], []), [], "", st.materials), fs[path], GetDirectory(path), fs, num);
      var (r, ok) := LoadResult(st, fs, path, num);
      ok ==> (r.subMeshes != [] <==> exists g :: g in p.groups && g.faces != [])
  {
    var p := ObjLines(Parse(Lists([], [], []), [], "", st.materials), fs[path], GetDirectory(path), fs, num);
    if p.lists.positions != [] && Assemble(p.groups, p.lists, p.materials).Some? {
      AssembleShape(p.groups, p.lists, p.materials);
      KeptEmpty(p.groups);
    }
  }

  /** The parse `load` makes of a file it can open, before it builds the sub-meshes. */
  function Parsed(st: Importer, fs: Files, path: string, num: Numbers): Parse
    requires path in fs
  {
    ObjLines(Parse(Lists([], [], []), [], "", st.materials), fs[path], GetDirectory(path), fs, num)
  }

  /** Whatever successful load left `s` behind, `s` has sub-meshes exactly when some
      group of that file received a triangle. */
  lemma LoadedReport(s: Importer)
    ensures forall st, fs, path, num :: LoadResult(st, fs, path, num) == (s, true) ==>
      path in fs && (s.subMeshes != [] <==> exists g :: g in Parsed(st, fs, path, num).groups && g.faces != [])
  {
    forall st, fs, path, num | LoadResult(st, fs, path, num) == (s, true)
      ensures path in fs && (s.subMeshes != [] <==> exists g :: g in Parsed(st, fs, path, num).groups && g.faces != [])
    {
      LoadOutcome(st, fs, path, num);
      LoadedWhenFaces(st, fs, path, num);
    }
  }

  /** Whatever load left `s` behind, its sub-meshes are the assembled groups of the file
      when the load succeeded, and the ones from before when it failed. */
  lemma SubMeshesReport(s: Importer)
    ensures forall st, fs, path, num :: LoadResult(st, fs, path, num) == (s, true) ==>
      path in fs && Assemble(Parsed(st, fs, path, num).groups, Parsed(st, fs, path, num).lists, Parsed(st, fs, path, num).materials) == Some(s.subMeshes)
    ensures forall st, fs, path, num :: LoadResult(st, fs, path, num) == (s, false) ==> s.subMeshes == st.subMeshes
  {
    forall st, fs, path, num | LoadResult(st, fs, path, num).0 == s
      ensures LoadResult(st, fs, path, num).1 ==>
        path in fs && Assemble(Parsed(st, fs, path, num).groups, Parsed(st, fs, path, num).lists, Parsed(st, fs, path, num).materials) == Some(s.subMeshes)
      ensures !LoadResult(st, fs, path, num).1 ==> s.subMeshes == st.subMeshes
    {
      LoadOutcome(st, fs, path, num);
    }
  }

  /** The message of a failed load: the file could not be opened, it held no vertex, or a
      face corner did not resolve. */
  function LoadError(st: Importer, fs: Files, path: string, num: Numbers): string {
    if path !in fs then "Failed to open file: " + path
    else if Parsed(st, fs, path, num).lists.positions == [] then "No vertices found in file"
    else INVALID_INDEX
  }

  /** Whatever load left `s` behind, its error names the cause when the load failed, and
      is the text from before when it succeeded. */
  lemma ErrorReport(s: Importer)
    ensures forall st, fs, path, num :: LoadResult(st, fs, path, num) == (s, false) ==> s.error == LoadError(st, fs, path, num)
    ensures forall st, fs, path, num :: LoadResult(st, fs, path, num) == (s, true) ==> s.error == st.error
  {
    forall st, fs, path, num | LoadResult(st, fs, path, num).0 == s
      ensures !LoadResult(st, fs, path, num).1 ==> s.error == LoadError(st, fs, path, num)
      ensures LoadResult(st, fs, path, num).1 ==> s.error == st.error
    {
      LoadOutcome(st, fs, path, num);
    }
  }

  lemma {:induction false} KeptEmpty(groups: seq<Group>)
    ensures Kept(groups) == [] <==> forall g :: g in groups ==> g.faces == []
  {
    if groups != [] {
      KeptEmpty(groups[..|groups| - 1]);
      assert groups == groups[..|groups| - 1] + [groups[|groups| - 1]];
    }
  }
}
