# vaughngl core, modelled in Dafny

This project models three parts of the vaughngl rendering library and proves properties of each.

- **Mesh generation and GPU meshes.**
  - The `MeshGen` generators (`circle`, `quad`, `cube`, `sphere`, `cylinder`) fill a vertex list and an index list in loops. Each is modelled as a method with the same loops. Each method is proved equal to a specification function. Lemmas give counts, the layout of each vertex and triangle, index bounds, winding and seam duplicates.
  - `Mesh` owns a vertex array object and one or two buffer objects of an OpenGL context. It is modelled as a class over a `Context` class. The context records the names it has handed out, the names still alive and what each buffer holds. Drawing is modelled as the draw call the mesh would submit.
- **The Wavefront OBJ/MTL importer** (`OBJMesh`):
  - whitespace tokenisation, carriage-return stripping, `split` and `getDirectory`;
  - the MTL reader and the OBJ line reader;
  - fan triangulation;
  - index resolution (1-based, negative from the end, defaults for texture coordinates and normals);
  - `buildMeshes`, which builds one sub-mesh per material group that has triangles.

  The file system is a map from paths to lines. Each `OBJMesh` method is proved equal to a function (`LoadResult`, `MtlTable`, `Assemble`, `ObjLines`), and the lemmas state what those functions promise.
- **GUI input bookkeeping.**
  - `GUI` keeps held, just-pressed and just-released sets for keys and for mouse buttons, plus a scroll delta.
  - The window system's callbacks and `endFrame` are methods. Each applies one event of a value-level state machine (`Step`).
  - Lemmas describe any history of events: what is held, what was pressed or released this frame, and the scroll sum since the last frame end.

Floating point is modelled as `real`. `cos`, `sin`, `normalize` and number parsing are uninterpreted functions passed as parameters (`Numerics`, `Numbers`).

Files:
- `geometry.dfy`: vectors, vertices, winding.
- `mesh_gen.dfy`: the generators.
- `mesh.dfy`: `Context` and `Mesh`.
- `text.dfy`: the importer's string handling.
- `obj_model.dfy`: the importer as functions.
- `obj_mesh.dfy`: the `OBJMesh` class and its loops.
- `input.dfy`: the GUI input state.

### Where the code departs from the usual Wavefront OBJ reading (the model follows the code)

The usual reading of an OBJ file resolves a negative index against the lists read so far, takes `p//n` as a position and a normal, and treats a bad index as an error. The code differs from that reading, and in a few other places behaves in ways a caller might not expect, as follows.

- **Negative indices** are resolved when `buildMeshes` runs. They count from the end of the *final* attribute lists, not the lists as they stood when the face was read (`src/OBJMesh.cpp:192-212`).
- **A failed `load`** (file not found, no `v` lines) does not reset anything. Sub-meshes from an earlier successful load stay, and materials read from `mtllib` lines stay in the table (`src/OBJMesh.cpp:61-65`, `159-162`).
- **The error string** is never cleared: a successful load keeps the previous `m_error`.
- **`usemtl` without a name** keeps the current name: `iss >> currentMaterial` leaves it untouched. It still opens a new group. `newmtl` without a name declares the material `""`.
- **Empty pieces.** `split` drops empty pieces, so `p//n` gives texture index `n` and normal index 0. The normal then takes the default (0, 1, 0) (`SlashSlashCorner`).
- **Positive texture-coordinate or normal indices** beyond the list take the default values.
- **Bad position indices.** A positive position index beyond the list, or a negative one reaching before its start, reads outside the list in the code: undefined behaviour. The same holds for a negative texture-coordinate or normal index reaching before its start. A position index of 0 takes neither branch and reads nothing: the vertex keeps the position of a default-constructed `Vertex` (indeterminate), and the code's `load` still succeeds. The model makes each of these an explicit failure. `load` returns false with the error "Invalid index in face", and the earlier sub-meshes stay as they were.

## Model

| member | source | states |
|---|---|---|
| MeshGen.Circle | src/Mesh.cpp:101-120 | the output lists are exactly the circle's vertices (centre, then rim vertices 0..segments) and its fan indices |
| MeshGen.CircleShape | src/Mesh.cpp:101-120 | segments + 2 vertices and 3·segments indices; fan triangle t is (0, t+1, t+2); every index addresses a vertex; every normal is +Z |
| MeshGen.CircleSeam | src/Mesh.cpp:108-113 | when cos and sin agree at 0 and 2π, the last rim vertex duplicates the first |
| MeshGen.Quad | src/Mesh.cpp:122-134 | exactly the four listed vertices, in the listed order: corners (−0.5, −0.5), (0.5, −0.5), (0.5, 0.5), (−0.5, 0.5) at z = 0, normal +Z, uv the position shifted by 0.5; indices 0,1,2,0,2,3; positions distinct; indices in range; both triangles face +Z |
| MeshGen.QuadWinding | src/Mesh.cpp:126-133 | both quad triangles wind counter-clockwise about +Z and every index addresses a vertex |
| MeshGen.Cube | src/Mesh.cpp:136-181 | the output lists are exactly the cube's vertices and indices as built face by face |
| MeshGen.AppendCubeFace | src/Mesh.cpp:167-173 | the inner loop appends face f's four corners: its positions, its normal and the four uvs |
| MeshGen.CubeVertexAt | src/Mesh.cpp:165-172 | vertex 4f+v has corner v of face f's positions, face f's normal and uv v |
| MeshGen.CubeIndexAt | src/Mesh.cpp:173-179 | index 6f+c is entry c of face f's two triangles |
| MeshGen.CubeLayout | src/Mesh.cpp:136-181 | 24 vertices, 36 indices; face f owns vertices 4f..4f+3 and has triangles (4f, 4f+1, 4f+2) and (4f, 4f+2, 4f+3); every index < 24 |
| MeshGen.CubeFrontFaceWinds | src/Mesh.cpp:148-150 | both front triangles wind counter-clockwise about +Z and every corner lies on the +Z side |
| MeshGen.CubeBackFaceWinds | src/Mesh.cpp:151-152 | the same for the back face and −Z |
| MeshGen.CubeRightFaceWinds | src/Mesh.cpp:153-154 | the same for the right face and +X |
| MeshGen.CubeLeftFaceWinds | src/Mesh.cpp:155-156 | the same for the left face and −X |
| MeshGen.CubeTopFaceWinds | src/Mesh.cpp:157-158 | the same for the top face and +Y |
| MeshGen.CubeBottomFaceWinds | src/Mesh.cpp:159-160 | the same for the bottom face and −Y |
| MeshGen.Sphere | src/Mesh.cpp:183-220 | the output lists are exactly the sphere's ring-by-ring vertices and cell-by-cell indices |
| MeshGen.SphereRings | src/Mesh.cpp:187-204 | the vertex loop nest yields every ring's vertices, in order |
| MeshGen.SphereCells | src/Mesh.cpp:206-219 | the index loop nest yields every cell's two triangles, row by row |
| MeshGen.SphereRowCells | src/Mesh.cpp:207-218 | the inner index loop appends the cells of one row |
| MeshGen.SphereCounts | src/Mesh.cpp:183-220 | (rings+1)(sectors+1) vertices and 6·rings·sectors indices |
| MeshGen.SphereVertexAt | src/Mesh.cpp:187-204 | the vertex of ring r and sector s sits at slot r(sectors+1)+s, with uv (s/sectors, r/rings) |
| MeshGen.SphereCellAt | src/Mesh.cpp:206-219 | cell (r, s) gives triangles (cur, next, cur+1) and (cur+1, next, next+1) at triangle positions 2(r·sectors+s) and the one after |
| MeshGen.SphereCellBelow | src/Mesh.cpp:208-217 | a cell's indices address vertices of the sphere |
| MeshGen.SphereBounds | src/Mesh.cpp:183-220 | every sphere index addresses a vertex |
| MeshGen.SphereSeam | src/Mesh.cpp:192-203 | when cos and sin are 2π-periodic, the last sector of a ring repeats the first one's position and normal |
| MeshGen.SpherePole | src/Mesh.cpp:187-203 | when sin 0 = 0, every vertex of ring 0 is the pole |
| MeshGen.Cylinder | src/Mesh.cpp:222-303 | the output lists are exactly the cylinder's caps and side as built by its loops |
| MeshGen.AppendCapRing | src/Mesh.cpp:235-241 | a cap-ring loop appends the segments + 1 vertices of that ring |
| MeshGen.AppendSideRing | src/Mesh.cpp:271-286 | a side-ring loop appends the segments + 1 vertices of that ring with outward normals |
| MeshGen.AppendTopCap | src/Mesh.cpp:244-248 | the top-cap loop appends the triangles (centre, ring+i+1, ring+i) |
| MeshGen.AppendBottomCap | src/Mesh.cpp:264-268 | the bottom-cap loop appends the triangles (centre, ring+i, ring+i+1), the reverse winding |
| MeshGen.AppendSide | src/Mesh.cpp:289-302 | the side loop appends (top0, bot0, bot1) and (top0, bot1, top1) per segment |
| MeshGen.CylinderCounts | src/Mesh.cpp:222-303 | 4·segments + 6 vertices and 12·segments indices |
| MeshGen.TopCapAt | src/Mesh.cpp:244-248 | top-cap triangle t is (centre, ring+t+1, ring+t) |
| MeshGen.BottomCapAt | src/Mesh.cpp:264-268 | bottom-cap triangle t is (centre, ring+t, ring+t+1) |
| MeshGen.SideAt | src/Mesh.cpp:289-302 | side triangles 2t and 2t+1 are the two halves of column t |
| MeshGen.CylinderCaps | src/Mesh.cpp:243-268 | in the whole index list, triangle t is top-cap (0, t+2, t+1) and triangle segments+t is the matching bottom-cap triangle |
| MeshGen.CylinderSide | src/Mesh.cpp:288-302 | in the whole index list, the side triangles of column t follow both caps |
| MeshGen.CylinderBounds | src/Mesh.cpp:222-303 | every cylinder index addresses a vertex |
| MeshGen.CylinderLayout | src/Mesh.cpp:230-286 | the top cap lies at height 0.5 with normal +Y, the bottom cap at −0.5 with normal −Y, and the side rings at ±0.5 with horizontal normals |
| MeshGen.CylinderSeam | src/Mesh.cpp:235-286 | when cos and sin are 2π-periodic, the last vertex of each ring repeats the first one's position and normal; cap seam vertices are equal outright, side seam vertices differ only in u, 1 against 0 |
| MeshGen.DefaultSizes | include/vaughngl/Mesh.h:42-46 | with the default resolutions: circle 34/96, sphere 561/3072, cylinder 134/384 vertices/indices |
| GLMesh.Context.Gen | src/Mesh.cpp:54-56 | a generated name is fresh and non-zero, and it becomes live |
| GLMesh.Context.Delete | src/Mesh.cpp:34-36 | a deleted name is no longer live and its buffer contents are gone |
| GLMesh.Context.BufferData | src/Mesh.cpp:60-62 | the bound buffer now holds the given data; nothing else changes |
| GLMesh.Mesh.IsUploaded | include/vaughngl/Mesh.h:27 | for a valid mesh: uploaded iff it holds an array and a buffer, iff it holds any object |
| GLMesh.Mesh.Draw | src/Mesh.cpp:83-88 | a draw call is made iff uploaded and in triangle mode, and it draws indexCount elements of the mesh's array |
| GLMesh.Mesh.DrawLines | src/Mesh.cpp:90-95 | a line-strip call is made iff uploaded, in line mode and holding at least two points |
| GLMesh.Mesh.constructor | include/vaughngl/Mesh.h:33-38 | a new mesh holds no object, has zero counts and is in triangle mode |
| GLMesh.Mesh.MoveFrom | src/Mesh.cpp:10-16 | the new mesh takes every handle and count; the source is left empty with its mode flag kept |
| GLMesh.Mesh.MoveAssign | src/Mesh.cpp:18-31 | a self-move changes nothing; otherwise the mesh's own objects are deleted and it takes over the other's, leaving the other empty |
| GLMesh.Mesh.Cleanup | src/Mesh.cpp:33-38 | exactly the mesh's non-zero names are deleted, the handles become 0, and the counts and mode are kept |
| GLMesh.Mesh.Upload | src/Mesh.cpp:49-65 | old objects are released; three fresh names hold the vertices and indices; triangle mode; index count = size mod 2^32; the point count is kept |
| GLMesh.Mesh.UploadLines | src/Mesh.cpp:67-81 | old objects are released; two fresh names, the buffer holding the points; line mode; no element buffer; point count = size mod 2^32 |
| ObjText.WordsAreWords | src/OBJMesh.cpp:86-88 | every token extracted from a line is non-empty and free of white space |
| ObjText.WordsOfUnwords | src/OBJMesh.cpp:86-88 | tokenising words joined by spaces gives the words back |
| ObjText.StripCRKeepsWords | src/OBJMesh.cpp:81-84 | removing a trailing carriage return never changes a line's tokens |
| ObjText.JoinFields | src/OBJMesh.cpp:11-19 | the delimiter-separated fields, joined with the delimiter, give the string back |
| ObjText.FieldsFree | src/OBJMesh.cpp:15 | no field contains the delimiter |
| ObjText.PiecesShape | src/OBJMesh.cpp:15-16 | `split` never returns an empty piece nor one holding the delimiter |
| ObjText.Split | src/OBJMesh.cpp:11-19 | the loop returns exactly the non-empty fields, in order |
| ObjText.LastSeparator | src/OBJMesh.cpp:7 | the position found holds '/' or '\\' and none follows it; with none found there is no separator |
| ObjText.GetDirectory | src/OBJMesh.cpp:6-9 | the result is a prefix of the path that ends in a separator, with no separator after it, and it is empty iff the path has none |
| ObjModel.MtlLine | src/OBJMesh.cpp:36-55 | one MTL line keeps the current material pointer on an entry of the table |
| ObjModel.MtlLines | src/OBJMesh.cpp:30-56 | the same for a whole file |
| ObjModel.NewmtlResets | src/OBJMesh.cpp:40-44 | `newmtl name` sets the entry to the default material of that name and makes it current; other entries are untouched |
| ObjModel.MtlLineLocal | src/OBJMesh.cpp:45-55 | any other line changes at most the current entry's values, never its name, the keys or which entry is current; with no current entry, or a directive other than Kd, Ka, Ks, Ns, nothing changes; Kd, Ka, Ks and Ns set only the diffuse, ambient, specular and shininess field of the current entry from the operands |
| ObjModel.MtlLinesFrame | src/OBJMesh.cpp:21-59 | reading a file adds exactly the declared names, keeps the undeclared entries, and leaves current a declared name |
| ObjModel.MtlTableFrame | src/OBJMesh.cpp:21-59 | `loadMTL` only adds the declared names to the table and keeps every other entry |
| ObjModel.MtlNames | src/OBJMesh.cpp:43 | if every entry carries its own name before, every entry does after |
| ObjModel.Corners | src/OBJMesh.cpp:115-130 | one corner per operand word, in order, each parsed from its word |
| ObjModel.FanShape | src/OBJMesh.cpp:140-155 | k corners give max(k−2, 0) triangles; all share corner 0; consecutive ones share an edge; together they cover every corner |
| ObjModel.FanSmall | src/OBJMesh.cpp:140-155 | a triangle stays one triangle; a quad becomes (0,1,2) and (0,2,3) |
| ObjModel.SlashSlashCorner | src/OBJMesh.cpp:116-127 | the corner "1//3" parses to position 1, texture index 3, normal index 0 |
| ObjModel.UsemtlOpensGroup | src/OBJMesh.cpp:94-97 | every `usemtl` appends a new empty group, named by its operand or else the previous name; nothing else changes |
| ObjModel.FaceLine | src/OBJMesh.cpp:110-156 | an `f` line appends its fan to the last group, first creating group "" when there is none; nothing else changes |
| ObjModel.ObjLinesKeepMaterials | src/OBJMesh.cpp:90-93 | reading an OBJ file never removes a material |
| ObjModel.NegativeIndexFromEnd | src/OBJMesh.cpp:194-209 | index −k names the same element as |list| − k + 1 |
| ObjModel.ResolveCases | src/OBJMesh.cpp:192-212 | a position resolves iff 0 < abs(i) <= size; an attribute resolves iff i >= −size, falls back to the default for 0 and past the end, and otherwise is an element of the list |
| ObjModel.FacesVertices | src/OBJMesh.cpp:183-217 | a group with resolvable corners yields three vertices per triangle |
| ObjModel.FacesVerticesAt | src/OBJMesh.cpp:183-217 | a group's vertices exist iff every corner resolves; vertex 3t+j is corner j of triangle t |
| ObjModel.AssembleShape | src/OBJMesh.cpp:174-231 | sub-meshes exist iff every corner of every group resolves; there is one per group with triangles, in order, with that group's vertices, indices 0..3·faces−1 and its material (or the default of that name) |
| ObjModel.AssembleBounds | src/OBJMesh.cpp:214-215 | every index of a sub-mesh addresses one of its own vertices |
| ObjModel.LoadOutcome | src/OBJMesh.cpp:61-166 | materials are never lost; a failed load keeps the sub-meshes and sets one of the three errors; success keeps the error string; an unopenable file changes only the error; for an openable file, the table is the one parsing leaves, load succeeds iff some position was read and every face corner resolves, no positions gives "No vertices found in file", an unresolvable corner gives "Invalid index in face", and on success the sub-meshes are the assembled groups |
| ObjModel.LoadedWhenFaces | include/vaughngl/OBJMesh.h:34 | after a successful load, `isLoaded` holds iff some material group received a triangle |
| ObjImport.ParseCorners | src/OBJMesh.cpp:115-130 | the corner loop yields exactly one corner per face word, in order |
| ObjImport.ParseCorner | src/OBJMesh.cpp:116-127 | one corner word gives the indices of its first three non-empty '/'-pieces, 0 where a piece is missing |
| ObjImport.ReadFace | src/OBJMesh.cpp:110-156 | an `f` line's body appends the fan of its corners to the last group, creating group "" when there is none |
| ObjImport.AppendFan | src/OBJMesh.cpp:140-155 | the triangulation loop appends exactly the fan of the corners |
| ObjImport.ResolveCorner | src/OBJMesh.cpp:185-212 | a corner resolves and yields its vertex exactly as the resolution rules say |
| ObjImport.AppendTriangle | src/OBJMesh.cpp:184-216 | the vertex loop appends the triangle's three vertices and keeps index k = k |
| ObjImport.BuildGroup | src/OBJMesh.cpp:179-217 | the triangle loop yields the group's vertices and indices 0..n−1, or fails iff some corner does not resolve |
| ObjImport.OBJMesh.constructor | include/vaughngl/OBJMesh.h:48-50 | a new importer has no sub-meshes, no materials and no error, and is not loaded |
| ObjImport.OBJMesh.LoadMtl | src/OBJMesh.cpp:21-59 | returns whether the file opens, and reads it into the table when it does |
| ObjImport.OBJMesh.ReadMtlLine | src/OBJMesh.cpp:31-55 | one iteration of the MTL line loop performs one line of the MTL reader on the table and the current entry |
| ObjImport.OBJMesh.BuildMeshes | src/OBJMesh.cpp:168-232 | replaces the sub-meshes by the assembled ones, or reports failure and keeps them |
| ObjImport.OBJMesh.ReadObjLine | src/OBJMesh.cpp:80-157 | one iteration of the line loop performs one line of the OBJ reader |
| ObjImport.OBJMesh.ReadObjLines | src/OBJMesh.cpp:68-157 | the line loop, from empty lists, no groups and material "", yields what reading all lines gives |
| ObjImport.OBJMesh.IsLoaded | include/vaughngl/OBJMesh.h:34 | after any successful load, true exactly when some material group of the file received a triangle |
| ObjImport.OBJMesh.GetSubMeshes | include/vaughngl/OBJMesh.h:36 | after a successful load, the sub-meshes assembled from the file's groups; after a failed one, the sub-meshes from before |
| ObjImport.OBJMesh.GetError | include/vaughngl/OBJMesh.h:37 | after a failed load, the message for its cause (file not opened, no vertices, bad face index); after a successful one, the text from before |
| ObjImport.OBJMesh.Load | src/OBJMesh.cpp:61-166 | the new state and the result are those of the load function, whose properties are stated above |
| Input.ButtonEvent | src/GUI.cpp:433-466 | a press makes the id held and just pressed; a release makes it not held and just released; other actions change nothing; no other id, device or scroll value changes |
| Input.FrameEndClears | src/GUI.cpp:107-112 | ending a frame empties the four per-frame sets and the scroll delta and keeps the held sets |
| Input.HeldAfter | src/GUI.cpp:439-448 | after any events, an id is held iff its last press or release was a press |
| Input.JustAfter | src/GUI.cpp:433-466 | an id is just pressed (released) iff it was pressed (released) since the last frame end |
| Input.ScrollAfter | src/GUI.cpp:468-473 | the scroll delta is the sum of the offsets since the last frame end |
| Input.QueriesReport | src/GUI.cpp:477-519 | every query of a window reports its history: held = last action was a press; just pressed/released = happened since the last frame end; scroll delta = sum since then |
| Input.GUI.constructor | include/vaughngl/GUI.h:83-89 | a new window has empty sets and zero scroll |
| Input.GUI.KeyCallback | src/GUI.cpp:433-449 | the state after the callback is one keyboard step of the event machine |
| Input.GUI.MouseButtonCallback | src/GUI.cpp:451-466 | the state after the callback is one mouse step of the event machine |
| Input.GUI.ScrollCallback | src/GUI.cpp:468-473 | the offsets are added to the scroll delta |
| Input.GUI.EndFrame | src/GUI.cpp:103-113 | the per-frame sets and the scroll delta are cleared |
| Input.GUI.IsKeyPressed | src/GUI.cpp:477-480 | for any history of events since the window was created, true exactly when the key's last press or release was a press |
| Input.GUI.IsKeyJustPressed | src/GUI.cpp:482-485 | for any history, true exactly when the key was pressed since the last frame end |
| Input.GUI.IsKeyJustReleased | src/GUI.cpp:487-490 | for any history, true exactly when the key was released since the last frame end |
| Input.GUI.IsMouseButtonPressed | src/GUI.cpp:501-504 | for any history, true exactly when the button's last press or release was a press |
| Input.GUI.IsMouseButtonJustPressed | src/GUI.cpp:506-509 | for any history, true exactly when the button was pressed since the last frame end |
| Input.GUI.IsMouseButtonJustReleased | src/GUI.cpp:511-514 | for any history, true exactly when the button was released since the last frame end |
| Input.GUI.GetScrollDelta | src/GUI.cpp:516-519 | for any history, the sum of the scroll offsets since the last frame end |

## Left out

- OpenGL. Calls other than name generation, deletion and buffer data are not modelled: binding, `setupAttributes`, `glVertexAttribPointer` and the draws themselves. A draw is modelled as the call it would make. One name space covers vertex arrays and buffers, so `GLMesh.Mesh.Valid` can require an array name to differ from the buffer names; real OpenGL keeps the two apart and may return the same number for both.
- Floating point. Coordinates are `real`: `float` rounding, `float` casts and the exact value of `PI` as a `float` are not modelled. `cos`, `sin` and `normalize` are uninterpreted, so the generators' rim positions are stated in terms of them.
- MeshGen.Cube: each face's winding is stated lemma by lemma over the face tables (`CubeFrontFaceWinds` and the rest), together with `CubeLayout`. There is no single lemma stating that the whole cube faces outward.
- MeshGen generators: `unsigned int` wrap-around of indices is not modelled (it needs more than 2^32 vertices).
- Move-only types. Deleted copy constructors and copy assignments cannot be expressed. Destructors are modelled as `Cleanup`.
- OBJMesh move constructor and move assignment (defaulted) are not modelled.
- SubMesh: a sub-mesh holds the vertex and index data it would upload, not a GPU `Mesh`. Uploading is modelled by `GLMesh.Mesh.Upload`.
- File I/O. The file system is a map from paths to lines. Read errors midway through a file are not modelled.
- Number parsing. `operator>>` into floats and `std::stoi` are uninterpreted (`Numbers`). Extraction writes 0 into a field whose text is not a number, and leaves the fields after it, and those past the end of the line, untouched; the model's `Numbers.color` and `Numbers.scalar` take the old value so that either outcome can be expressed. The exceptions `stoi` throws on malformed or out-of-range text are not modelled.
- Undefined behaviour on bad face indices is replaced by the explicit failure described above.
- GUI. Window creation, rendering, camera control, the draw functions, `getMousePosition` (a direct query of the window system), `glfwSwapBuffers` and `glfwPollEvents` are not modelled. `float` accumulation of the scroll offsets is modelled as exact addition.
