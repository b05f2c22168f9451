# gltf occlusion culling, modelled in Dafny

The program loads a glTF 2.0 model and gathers its triangles. It then culls the hidden ones with an octree walk over a depth pyramid, and writes what survives as a new binary buffer plus the buffer views, accessors and meshes that describe it. This project models four parts of it.

1. **The culling renderer**, class `Zbuf` (module `Zbuffer`).
   - `_init` and the constructors; `init_cam`, `set_model_transformation`, `init_viewport`, `reset` and `set_shader` drive three flags: camera, matrices and viewport.
   - `render` stops at its first `errorm`.
   - The octree pass `_render_with_octree` marks the `deleted` flags of the global triangle list in place and writes the kept and culled index logs. It is specified by the functions of module `Traversal`; the lemmas proved there are the pass's promises.
   - The pyramid query `_draw_triangle_with_zpyramid` and the bounding-box rasteriser `_draw_triangle_with_aabb`, the latter over `array2` buffers.
2. **The triangle record** of `Triangle.hpp` (module `Triangles`): constructors, the facing direction, the back-face test, and the face lines of the index logs.
3. **The glTF loader** of `gltf.cpp` over the records of `gltf.h` (modules `GltfTypes`, `GltfLoader`, `GltfBuffers`).
   - Each `load*` function is a validator from a JSON value (module `Json`) to a `Result`. Where the source throws one of its `Misformatted` exceptions, the model fails with the same error kind and field name. The standard library's own exceptions (`std::length_error` for a negative `resize`, `std::bad_array_new_length` for a negative `new[]`) are errors of their own kinds. An unchecked subscript out of range, which has no defined behaviour in the source, ends the model with an `OutOfRange` error instead (see Left out). Each has a loop method proved equal to it.
   - `loadBufferData` concatenates index, position and normal data over byte sequences.
   - `getDirectoryName` is modelled too, and so is the call order in `load`.
4. **The output layout** of `main.cpp` (modules `PostPass`, `MeshLayout`, `Output`): the kept and culled vertex loops, the mesh-boundary index loop, the buffer views and the accessors. Also **the glTF exporter** of `export_json.h` (module `GltfExport`): a pure map from the post-cull asset to a JSON tree, with lemmas that read each field back.

Floating-point geometry is abstracted. Matrix action and products, the camera matrices, conversion to view space, point-in-triangle, barycentrics, view depth and the pyramid's verdict make up a `Geometry` value of total functions. The pyramid's verdict may depend on the finest depth level and on every triangle queried since the last `clear`. Integer widths (`uint8_t`, `uint16_t`, `uint32_t`, `int`) are modelled explicitly in module `Ints`: integer conversions wrap modulo 2^n, and nlohmann's float-to-integer `get` truncates toward zero. Where C++ leaves a conversion or an `int` product undefined, the model picks a value; Left out names each such place. The byte lengths, offsets and counts of `main.cpp`'s output layout are kept as exact integers instead of `int` and `uint32_t` values; Left out names those members too.

Where the code and its documentation disagree, the model follows the code.
- Only back-facing triangles and triangles hidden in a *visited* node are marked deleted.
- A front-facing triangle with no vertex in the canonical volume is neither marked nor logged.
- Every triangle of a pruned subtree is left untouched, whether or not it is back-facing.

## Model

| member | source | states |
|---|---|---|
| Ints.ToU8 | src/gltfLoader/gltf.cpp:167 | the `uint8_t` conversion of the mode lies in [0, 256) and is congruent to its input modulo 2^8 |
| Ints.ToU16 | src/gltfLoader/gltf.cpp:828 | the `uint16_t` conversion lies in [0, 2^16) and is congruent to its input |
| Ints.ToU32 | src/gltfLoader/gltf.cpp:97 | the `uint32_t` conversion lies in [0, 2^32) and is congruent to its input |
| Ints.ToI32 | src/gltfLoader/gltf.cpp:61 | storing into an `int` gives a value in [-2^31, 2^31) congruent to its input |
| Ints.ToU32OfToI32 | src/gltfLoader/gltf.cpp:610-612 | going through `int` and back to `uint32_t` is the same as converting directly |
| Ints.Trunc | src/gltfLoader/gltf.cpp:61 | the integer read from a JSON number is the real truncated toward zero (at most one unit away, same sign) |
| Json.Find | src/gltfLoader/gltf.cpp:23 | `find(key)` is found exactly when the value is an object holding the key, and then yields that member |
| Json.ToInteger | src/gltfLoader/gltf.cpp:97 | an integer `get` succeeds exactly on numbers and booleans; every other type is a type error |
| GltfTypes.ModeCodeRoundTrip | src/gltfLoader/gltf.h:40-48 | decoding the code of any mode gives the mode back |
| GltfTypes.ModeOfRoundTrip | src/gltfLoader/gltf.h:40-48 | every code 0..6 decodes to the mode with that code |
| Triangles.MakeTriangle | src/include/Triangle.hpp:31-39 | the three-position triangle keeps a, b, c in order and carries indices 0, 1, 2; its facing is the edge cross product; it is not deleted and has no mesh name and no material |
| Triangles.MakeIndexedTriangle | src/include/Triangle.hpp:41-49 | the indexed triangle carries i1, i2, i3 as its indices, with the same vertex, facing and flag rules |
| Triangles.SetMaterial | src/include/Triangle.hpp:70-71 | setting a material marks the triangle as having that material id and changes nothing else |
| Triangles.FacingRotationInvariant | src/include/Triangle.hpp:12-15 | rotating the vertex order (a, b, c) to (b, c, a) keeps the facing direction |
| Triangles.FacingSwapNegates | src/include/Triangle.hpp:12-15 | swapping two vertices reverses the facing direction |
| Triangles.FacingZIsDoubleSignedArea | src/include/Triangle.hpp:105-110 | the facing's z component is twice the signed area of the xOy projection |
| Triangles.SwappedFrontFaceIsBackFace | src/include/Zbuf.cpp:317 | a triangle that faces the camera becomes back-facing once two vertices are swapped |
| Triangles.LineOf | src/include/Zbuf.cpp:320 | a log line is `f` followed by the three indices plus one |
| Triangles.LinesOf | src/include/Zbuf.cpp:320-339 | a log holds one such line per logged triangle, in order |
| Traversal.Mark | src/include/Zbuf.cpp:318-319 | marking sets the flag of the triangle at `indexOfTriangles` (when in range) and keeps every other entry |
| Traversal.MarkAll | src/include/Zbuf.cpp:314-345 | marking a sequence of triangles keeps the length, sets exactly the flags named by their indices and never clears a flag |
| Traversal.MarkAllTwice | src/include/Zbuf.cpp:314-345 | marking one batch and then another equals marking them together |
| Traversal.MarkAllIdempotent | src/include/Zbuf.cpp:318-319 | marking the same triangles again changes nothing |
| Traversal.VisitPrim | src/include/Zbuf.cpp:314-345 | one owned triangle only appends to the kept, culled and query logs, and the new flags are the old ones marked at the newly culled triangles |
| Traversal.VisitPrims | src/include/Zbuf.cpp:314-345 | the loop over a node's triangles only appends to the logs, and the new flags are the old ones marked at the newly culled triangles |
| Traversal.VisitNode | src/include/Zbuf.cpp:282-353 | a node pass, with its subtree, only appends to the logs, and the new flags are the old ones marked at the newly culled triangles |
| Traversal.VisitChildren | src/include/Zbuf.cpp:347-352 | the child loop only appends to the logs, and the new flags are the old ones marked at the newly culled triangles |
| Traversal.PrimsIndependent | src/include/Zbuf.cpp:314-345 | what a node's triangle loop logs does not depend on the current deleted flags |
| Traversal.NodeIndependent | src/include/Zbuf.cpp:282-353 | what the pass logs does not depend on the deleted flags it starts from |
| Traversal.ChildrenIndependent | src/include/Zbuf.cpp:347-352 | the same, for the loop over the children |
| Traversal.CullIdempotent | src/include/Zbuf.cpp:282-353 | running the pass again from its own result leaves the flags as they were and logs the same lines |
| Traversal.PrimAccounts | src/include/Zbuf.cpp:314-345 | for one triangle: the triangles newly logged were visited; the kept ones face the camera and are in view, the culled ones are back-facing or in view; every visited back-facing or in-view triangle is logged, the back-facing ones as culled; and the flags are the old ones marked at the newly culled triangles |
| Traversal.PrimsAccount | src/include/Zbuf.cpp:314-345 | the same for a node's triangle loop, over its owned triangles |
| Traversal.NodeAccounts | src/include/Zbuf.cpp:282-353 | for a node pass, over the owned triangles of the visited nodes of its subtree: the triangles newly logged were visited; the kept ones face the camera and are in view, the culled ones are back-facing or in view; every visited back-facing or in-view triangle is logged, the back-facing ones as culled; and the flags are the old ones marked at the newly culled triangles |
| Traversal.ChildrenAccount | src/include/Zbuf.cpp:347-352 | the same for the loop over the children |
| Traversal.CullEffect | src/include/Zbuf.cpp:282-353 | from empty logs: the length is kept and no flag is cleared. A flag changes only at a visited culled triangle. Every visited back-facing triangle is culled and marked. Every kept triangle was visited, front-facing and in the view volume |
| Traversal.ViewFacetsVisible | src/include/Zbuf.cpp:285-310 | a node is visited exactly when some front-facing shell facet has a vertex in the canonical volume |
| Zbuffer.ViewportScale | src/include/Zbuf.cpp:114-119 | the scale matrix has w/2 and h/2 on its diagonal |
| Zbuffer.BoxInsideScreen | src/include/Zbuf.cpp:200-227 | every pixel the rasteriser scans lies in [0, w-1) x [0, h-1) |
| Zbuffer.LastColumnAndRowNeverDrawn | src/include/Zbuf.cpp:204-207 | a pixel in the last column or the last row is never scanned, whatever the triangle |
| Zbuffer.PixelAfter | src/include/Zbuf.cpp:209-227 | a pixel outside the box is untouched, its depth is only replaced by a strictly nearer one, and its colour changes only with its depth |
| Zbuffer.Zbuf.DepthGrid | src/include/Zbuf.cpp:188-194 | `z(x, y)` reads the depth buffer entry at (x, y) |
| Zbuffer.Zbuf.constructor | src/include/Zbuf.cpp:4-5 | a new renderer holds the scene, has all three flags cleared, no shader and empty logs |
| Zbuffer.Zbuf.WithViewport | src/include/Zbuf.cpp:6-10 | the sized constructor also sets the viewport, blanks the image and clears the depths |
| Zbuffer.Zbuf.InitViewport | src/include/Zbuf.cpp:102-130 | stores w and h, sets the viewport matrix to translation times scale, blanks the image, clears every depth to far and the pyramid's history, sets the viewport flag and keeps the camera and matrix state |
| Zbuffer.Zbuf.Reset | src/include/Zbuf.cpp:14-17 | blanks the image, clears the depths and the pyramid's history, and keeps everything else |
| Zbuffer.Zbuf.SetShader | src/include/Zbuf.cpp:19-24 | stores the fragment shader and nothing else |
| Zbuffer.Zbuf.InitCamWith | src/include/Zbuf.cpp:26-31 | stores a camera built from the parameters and sets the camera flag |
| Zbuffer.Zbuf.InitCam | src/include/Zbuf.cpp:32-35 | stores the given camera and sets the camera flag |
| Zbuffer.Zbuf.SetModelTransformation | src/include/Zbuf.cpp:37-100 | with no camera it stops with the camera error and changes nothing; otherwise it stores the model, view and projection matrices, sets mvp to their product and sets the matrices flag |
| Zbuffer.Zbuf.DrawTriangleWithZpyramid | src/include/Zbuf.cpp:234-239 | returns exactly the pyramid's verdict on the screen-space triangle, which joins the query history |
| Zbuffer.Zbuf.DrawTriangleWithAabb | src/include/Zbuf.cpp:196-231 | every pixel's depth and colour afterwards are `PixelAfter` of their old values |
| Zbuffer.Zbuf.FacetsInViewSpace | src/include/Zbuf.cpp:283-291 | the loop builds exactly the `ViewFacets` of the node |
| Zbuffer.Zbuf.AnyInCanonical | src/include/Zbuf.cpp:296-304 | the loop finds a facet with a vertex in the canonical volume exactly when one exists |
| Zbuffer.Zbuf.RenderPrim | src/include/Zbuf.cpp:314-345 | one owned triangle changes the flags, logs and history exactly as `VisitPrim` says |
| Zbuffer.Zbuf.RenderPrims | src/include/Zbuf.cpp:314-345 | a node's triangle loop does exactly what `VisitPrims` says |
| Zbuffer.Zbuf.RenderWithOctree | src/include/Zbuf.cpp:282-353 | the recursive pass does exactly what `VisitNode` says |
| Zbuffer.Zbuf.RenderChildren | src/include/Zbuf.cpp:347-352 | the child loop does exactly what `VisitChildren` says |
| Zbuffer.Zbuf.CullFromRoot | src/include/Zbuf.cpp:142-157 | both logs are truncated and the pass runs from the root |
| Zbuffer.Zbuf.Render | src/include/Zbuf.cpp:132-170 | stops with the camera, matrices or viewport error exactly when that flag is the first one missing, changing nothing. The octree method runs the pass from the root. The others convert the scene to view space; the pyramid method queries every primitive in order, and an unknown method stops at its first primitive |
| Zbuffer.Zbuf.RenderReady | src/include/Zbuf.cpp:142-169 | the same, once the three flags are set |
| Zbuffer.Zbuf.DrawPrimitives | src/include/Zbuf.cpp:158-168 | the per-primitive loop queries every primitive in order under the pyramid method, and stops with the unhandled-method error at the first primitive otherwise |
| GltfLoader.OptString | src/gltfLoader/gltf.cpp:79-86 | an optional string field fails exactly when it is present and not a string; otherwise it yields its value or the default |
| GltfLoader.OptNumber | src/gltfLoader/gltf.cpp:144-151 | an optional number field fails exactly when it is present and not a number; otherwise it yields the converted, truncated value or the default |
| GltfLoader.ReqNumber | src/gltfLoader/gltf.cpp:512-518 | a required number fails as "is required" when absent and as a non-number when mistyped; otherwise it yields the converted value |
| GltfLoader.Integers | src/gltfLoader/gltf.cpp:89-98 | an integer array converts element by element, and fails exactly when some element does not convert |
| GltfLoader.FixedNumbers | src/gltfLoader/gltf.cpp:411-427 | a fixed-size number array is absent, or present as an array of exactly that size whose elements are all numbers; otherwise it fails as not an array, of the wrong size, or with a non-number element |
| GltfLoader.MapResult | src/gltfLoader/gltf.cpp:76-100 | the loop over an array succeeds exactly when every element parses, yielding each element's parse in order; otherwise it fails with the error of the first bad element |
| GltfLoader.FillEach | src/gltfLoader/gltf.cpp:76-100 | resizing and filling index by index computes `MapResult` |
| GltfLoader.LoadAsset | src/gltfLoader/gltf.cpp:22-52 | fails unless `asset` and a string `asset.version` are present and `copyright` and `generator` are strings when present; records version, copyright and generator, defaulting to empty |
| GltfLoader.ParseScene | src/gltfLoader/gltf.cpp:78-99 | a scene needs a string name when named and integer node entries when `nodes` is present; its node list is the converted entries |
| GltfLoader.ParseScenes | src/gltfLoader/gltf.cpp:55-101 | a present `scene` must be a number. Without `scenes` only `scene` is recorded; otherwise every scene is parsed and a `scene` still -1 becomes 0. Nothing else in the asset changes |
| GltfLoader.LoadScenes | src/gltfLoader/gltf.cpp:55-101 | the loop computes `ParseScenes` |
| GltfLoader.ParseAttributes | src/gltfLoader/gltf.cpp:174-181 | attributes are copied key by key as `uint32_t`, and fail exactly when some value is not an integer |
| GltfLoader.ParsePrimitive | src/gltfLoader/gltf.cpp:142-182 | indices, material and mode must be numbers when present, and an object `attributes` is required. Defaults are -1, -1 and Triangles |
| GltfLoader.ParseMesh | src/gltfLoader/gltf.cpp:118-183 | a mesh needs a string name when named and an array of valid primitives; it keeps them in order |
| GltfLoader.ParseMeshes | src/gltfLoader/gltf.cpp:105-186 | no `meshes` leaves the asset as it is; a non-array fails; otherwise every mesh is parsed and nothing else changes |
| GltfLoader.LoadMesh | src/gltfLoader/gltf.cpp:118-183 | the primitive loop computes `ParseMesh` |
| GltfLoader.LoadMeshes | src/gltfLoader/gltf.cpp:105-186 | the mesh loop computes `ParseMeshes` |
| GltfLoader.ParseNodeHead | src/gltfLoader/gltf.cpp:312-401 | name, children, skin and matrix are checked as the source checks them; absent ones keep the node's current value |
| GltfLoader.ParseNodeTail | src/gltfLoader/gltf.cpp:403-464 | mesh must be a number, and translation, rotation and scale arrays must hold 3, 4 and 3 numbers; absent ones keep the current value |
| GltfLoader.ParseNode | src/gltfLoader/gltf.cpp:312-467 | a node succeeds exactly when both halves do. A given matrix is composed on the inherited one; otherwise the TRS composition is applied |
| GltfLoader.NodeDefaultsTrs | src/gltfLoader/gltf.cpp:466-467 | a node without a matrix, translation, rotation or scale composes the identity with TRS (0,0,0), (0,0,0,1), (1,1,1) |
| GltfLoader.NodeStep | src/gltfLoader/gltf.cpp:312-476 | one node step succeeds exactly when the node parses and its children are in range; it stores the node and hands its matrix down |
| GltfLoader.ParseNodes | src/gltfLoader/gltf.cpp:301-487 | no `nodes` leaves the asset as it is; a non-array fails; otherwise only the node list changes |
| GltfLoader.LoadNodes | src/gltfLoader/gltf.cpp:301-487 | the loop computes `ParseNodes` |
| GltfLoader.LoadNodeArray | src/gltfLoader/gltf.cpp:311-485 | the node loop computes the node list |
| GltfLoader.HandDown | src/gltfLoader/gltf.cpp:471-476 | the child loop writes the parent's matrix into each listed child |
| GltfLoader.LoadNode | src/gltfLoader/gltf.cpp:312-476 | one iteration computes `NodeStep` |
| GltfLoader.NodesErrorStays | src/gltfLoader/gltf.cpp:311-485 | once a node fails, the whole load fails with that error |
| GltfLoader.StepKeeps | src/gltfLoader/gltf.cpp:471-476 | a node step leaves every node other than the current one and its children unchanged |
| GltfLoader.StepHandsDown | src/gltfLoader/gltf.cpp:471-476 | after a step, every listed child carries the node's matrix |
| GltfLoader.InheritedMatrix | src/gltfLoader/gltf.cpp:470-476 | a later child of an earlier parent still holds the parent's matrix when its own turn comes, unless a node in between overwrote it |
| GltfLoader.ChildComposesOnParent | src/gltfLoader/gltf.cpp:358-476 | a child listed by an earlier node ends with its own matrix composed on that parent's final matrix |
| GltfLoader.ParseBufferView | src/gltfLoader/gltf.cpp:720-777 | `buffer` and `byteLength` are required numbers; `byteOffset`, `byteStride` and `target` must be numbers when present and default to 0 |
| GltfLoader.ParseBufferViews | src/gltfLoader/gltf.cpp:708-778 | no `bufferViews` leaves the asset as it is; a non-array fails; otherwise only the views change |
| GltfLoader.LoadBufferViews | src/gltfLoader/gltf.cpp:708-778 | the loop computes `ParseBufferViews` |
| GltfLoader.ParseAccessorType | src/gltfLoader/gltf.cpp:856-873 | exactly the seven names SCALAR, VEC2, VEC3, VEC4, MAT2, MAT3 and MAT4 are accepted |
| GltfLoader.AccessorTypeRoundTrip | src/gltfLoader/gltf.cpp:856-873 | parsing the name of any type gives that type back |
| GltfLoader.AccessorTypeNameRoundTrip | src/gltfLoader/gltf.cpp:856-873 | every accepted name is the name of the type it parses to |
| GltfLoader.ParseAccessor | src/gltfLoader/gltf.cpp:794-880 | `componentType`, `count` and `type` are required. `bufferView`, `byteOffset` and `normalized` are optional, defaulting to -1, 0 and false. An unknown type name fails |
| GltfLoader.ParseAccessors | src/gltfLoader/gltf.cpp:782-881 | no `accessors` leaves the asset as it is; a non-array fails; otherwise only the accessors change |
| GltfLoader.LoadAccessors | src/gltfLoader/gltf.cpp:782-881 | the loop computes `ParseAccessors` |
| GltfLoader.ParseBuffer | src/gltfLoader/gltf.cpp:500-526 | `byteLength` is a required number, and name and uri are strings when present |
| GltfLoader.BuffersFrom | src/gltfLoader/gltf.cpp:499-529 | the buffer loop changes only the buffers and the data that `loadBufferData` gathers |
| GltfLoader.ParseBuffers | src/gltfLoader/gltf.cpp:489-530 | no `buffers` leaves the asset as it is; a non-array fails; otherwise every buffer is parsed and its data loaded, and nothing else changes |
| GltfLoader.BuffersRecorded | src/gltfLoader/gltf.cpp:499-529 | after the loop, every buffer entry is the parse of its JSON element |
| GltfLoader.OneBufferNames | src/gltfLoader/gltf.cpp:489-530 | with one buffer, the load appends one mesh name per mesh node, and that buffer does not have an empty uri with a positive length |
| GltfLoader.LoadBuffers | src/gltfLoader/gltf.cpp:489-530 | the loop computes `ParseBuffers` |
| GltfLoader.LastSlash | src/gltfLoader/gltf.cpp:888 | finds the position of the last `/`, and none when there is no `/` |
| GltfLoader.DirectoryName | src/gltfLoader/gltf.cpp:885-894 | the path before its last `/`, or empty when it has none |
| GltfLoader.Load | src/gltfLoader/gltf.cpp:898-927 | a missing file cannot be opened, and an asset error is passed on. A loaded asset records the metadata and the directory name, and starts with empty output fields |
| GltfLoader.LoadOneBuffer | src/gltfLoader/gltf.cpp:898-927 | a successful load of a single-buffer model holds one buffer and one mesh name per mesh node |
| GltfLoader.LoadFile | src/gltfLoader/gltf.cpp:898-927 | the loader's statements compute `Load` |
| GltfBuffers.OpenStream | src/gltfLoader/gltf.cpp:570 | a stream opens on the bytes of the file, or fails when the file is absent |
| GltfBuffers.Read | src/gltfLoader/gltf.cpp:604-606 | a seek and read yields the bytes available at the offset, up to the length asked for, and leaves the data as it is. A seek before the start, a negative length or a short read fails the stream; a zero-length read keeps it good; a failed stream reads nothing |
| GltfBuffers.LittleEndian | src/gltfLoader/gltf.cpp:619-621 | an element read from n bytes lies in [0, 256^n) |
| GltfBuffers.IndexWidth | src/gltfLoader/gltf.cpp:600-645 | component types 5121, 5123 and 5125 have index widths 1, 2 and 4; every other type reads no indices |
| GltfBuffers.IndexRun | src/gltfLoader/gltf.cpp:608-614 | the indices pushed are three per started triple of the elements read |
| GltfBuffers.IndexRunShifted | src/gltfLoader/gltf.cpp:610-612 | for widths 1 and 2 each index is the element value plus the offset |
| GltfBuffers.IndexRunShiftedWide | src/gltfLoader/gltf.cpp:638-643 | for width 4 each index is the `uint32_t` element stored into an `int`, plus the offset |
| GltfBuffers.TriangleCountMatchesRun | src/gltfLoader/gltf.cpp:608-644 | three times the recorded triangle count is the number of indices pushed, less at most one partial triple, with equality exactly when the elements read are a multiple of three |
| GltfBuffers.CoverVsVertices | src/gltfLoader/gltf.cpp:660-662 | the position floats pushed are three per counted vertex plus at most one partial vertex |
| GltfBuffers.PositionRun | src/gltfLoader/gltf.cpp:662-674 | the position floats pushed are three per started triple of the floats read |
| GltfBuffers.NormalRun | src/gltfLoader/gltf.cpp:678-691 | the normal floats pushed are three per started triple of the floats read |
| GltfBuffers.PushIndices | src/gltfLoader/gltf.cpp:608-644 | the push loop appends exactly `IndexRun` |
| GltfBuffers.PushPositions | src/gltfLoader/gltf.cpp:662-674 | the push loop appends exactly `PositionRun` |
| GltfBuffers.PushNormals | src/gltfLoader/gltf.cpp:686-691 | the push loop appends exactly `NormalRun` |
| GltfBuffers.SourceOf | src/gltfLoader/gltf.cpp:591-593 | finds the accessor and its view when both indices are in range; the file offset adds their two `uint32_t` offsets and stores the sum into an `int` |
| GltfBuffers.Attribute | src/gltfLoader/gltf.cpp:586-587 | looking up an attribute inserts it with value 0 when absent, and yields the value stored into an `int` |
| GltfBuffers.RefsOf | src/gltfLoader/gltf.cpp:584-602 | a mesh node needs an in-range mesh with a primitive and an in-range index accessor and view; it keeps the mesh count and leaves the POSITION and NORMAL lookups for later |
| GltfBuffers.NodeData | src/gltfLoader/gltf.cpp:584-693 | a node without a mesh changes nothing. A mesh node fails at the first of these, in the source's order: the mesh, primitive or index accessor lookup; a negative index array length; the POSITION lookup; a negative position array length; the NORMAL lookup; a negative normal array length. Each lookup fails with its own error, each negative length with `std::bad_array_new_length`, and a node past all six succeeds |
| GltfBuffers.IndexData | src/gltfLoader/gltf.cpp:599-645 | for a known component type, a negative `int` count makes the index array's `new[]` throw; an unknown type reads and records nothing |
| GltfBuffers.NodeDataAppends | src/gltfLoader/gltf.cpp:584-693 | a node step reads the same file, keeps the mesh count and records a mesh node's name. It only appends to the index, vertex and normal lists, records at most one triangle count, and advances the vertex count by the whole vertices pushed |
| GltfBuffers.LoadNodeData | src/gltfLoader/gltf.cpp:584-693 | one node's statements, in the source's order of lookups and allocations, compute `NodeData` |
| GltfBuffers.IndexAllocationBeforePositionLookup | src/gltfLoader/gltf.cpp:599-653 | for an 8-bit index accessor of count 2^31 and a POSITION index past the accessor list, the node fails with `std::bad_array_new_length` for the indices: the index array is allocated before POSITION is looked up |
| GltfBuffers.LoadIndices | src/gltfLoader/gltf.cpp:599-645 | the index branch's statements compute `IndexData`: a negative count throws, otherwise the indices of a known component type are read, shifted, pushed and counted |
| GltfBuffers.GatherErrorStays | src/gltfLoader/gltf.cpp:581-696 | once a node fails, the whole pass fails with that error |
| GltfBuffers.GatherNames | src/gltfLoader/gltf.cpp:581-696 | the pass keeps the mesh count and appends the mesh nodes' names, and at most one triangle count per mesh node |
| GltfBuffers.GatherVertices | src/gltfLoader/gltf.cpp:581-696 | the vertex count grows by the whole vertices pushed, up to one partial vertex per mesh node |
| GltfBuffers.GatherIndices | src/gltfLoader/gltf.cpp:581-696 | the indices pushed are three per counted triangle, up to one partial triple per count |
| GltfBuffers.GatherPrefixes | src/gltfLoader/gltf.cpp:581-696 | the pass only appends to the index, vertex and normal lists |
| GltfBuffers.LoadNodesData | src/gltfLoader/gltf.cpp:581-696 | the node loop computes the pass |
| GltfBuffers.StartOf | src/gltfLoader/gltf.cpp:567-570 | the pass over the nodes starts with vertex count 0 |
| GltfBuffers.BufferData | src/gltfLoader/gltf.cpp:557-702 | a buffer with a positive length and an empty uri is rejected; otherwise only the meshes and the gathered lists change |
| GltfBuffers.BufferDataRefusesNegativeCount | src/gltfLoader/gltf.cpp:581-693 | once the pass reaches a mesh node with an array of negative length, the whole buffer fails with `std::bad_array_new_length` |
| GltfBuffers.BufferDataAppends | src/gltfLoader/gltf.cpp:557-702 | loading one buffer keeps the mesh count and appends the mesh nodes' names. It only appends to the index, vertex and normal lists and triangle counts, and pushes at least three indices per triangle counted |
| GltfBuffers.LoadBufferData | src/gltfLoader/gltf.cpp:557-702 | the statements compute `BufferData` |
| PostPass.CountsPartition | src/main.cpp:25-26 | the kept and the culled triangles together are all of them |
| PostPass.VertexWords | src/main.cpp:181-203 | nine floats are written per selected triangle |
| PostPass.VertexWordsAt | src/main.cpp:184-201 | the selected triangle at position i occupies the nine words after those of the selected triangles before it, in the order a, b, c and x, y, z |
| PostPass.WriteTriangle | src/main.cpp:184-201 | one triangle's writes append its nine coordinates |
| PostPass.WriteVertices | src/main.cpp:181-203 | the loop writes exactly `VertexWords`, and the byte length is 36 times the selected count |
| MeshLayout.Ascending | src/main.cpp:249-261 | the indices written are k, k+1, ... from 0 |
| MeshLayout.RunsLength | src/main.cpp:249-261 | the concatenated runs hold three words per counted triangle |
| MeshLayout.StartLayout | src/main.cpp:212-214 | `newMeshes` is resized to one default entry per mesh |
| MeshLayout.Emitted | src/main.cpp:222-225 | an emitted mesh takes the name, one primitive whose indices are the attribute index, and POSITION one more |
| MeshLayout.EmitMesh | src/main.cpp:222-225 | fails when the name or the mesh slot is out of range; otherwise fills the slot and advances the attribute index by 2 |
| MeshLayout.SelectedMeshes | src/main.cpp:218-263 | when every mesh has at least one triangle: at most one run per mesh, each naming a mesh before j and counting at least one selected triangle |
| MeshLayout.LayoutMeshes | src/main.cpp:218-263 | the loop as written computes `Meshes` |
| MeshLayout.LayoutMeshesIntended | src/main.cpp:218-263 | the corrected loop computes `IntendedMeshes` |
| MeshLayout.LayoutErrorStays | src/main.cpp:218-263 | once an iteration fails, the loop fails with that error |
| MeshLayout.IntendedMeshesCorrect | src/main.cpp:218-263 | when every mesh has at least one triangle, the mesh lengths cover the triangles and every mesh has a name, the corrected loop succeeds. The counts are those of the non-empty selected meshes (none for the culled pass) and the indices restart from 0 per mesh. The byte length is 12 per selected triangle, the attribute index 2 per emitted mesh, and mesh m is named after its own mesh |
| MeshLayout.MeshesAsWritten | src/main.cpp:218-263 | under the same three premises, the loop as written succeeds with the right byte length and word count, but its last count leaves out the last triangle. The culled pass writes ascending runs of at least one triangle each, restarting at 0, whose last run covers every remaining culled triangle |
| MeshLayout.LastTriangleUncounted | src/main.cpp:218-263 | one mesh with one kept triangle: as written, three indices are written and counted in the byte length, but the mesh count is 0 and no mesh is emitted |
| MeshLayout.LastTriangleCounted | src/main.cpp:218-263 | the corrected loop counts that triangle and emits the mesh under its name |
| MeshLayout.NamesShiftAsWritten | src/main.cpp:222 | with three one-triangle meshes a, b, c and the first culled, the first emitted mesh is named "a" |
| MeshLayout.NamesFollowMeshes | src/main.cpp:222 | the corrected loop names the emitted meshes "b" and "c" |
| Output.BufferViews | src/main.cpp:266-279 | two views on buffer 0 with targets 34962 and 34963 and stride 12; the index view starts where the vertex view ends |
| Output.LayoutBufferViews | src/main.cpp:266-279 | the statements build `BufferViews`, and the buffer length is the end of the index view |
| Output.Accessors | src/main.cpp:282-300 | succeeds exactly when the size is even, not negative and at most two per mesh count, and then yields that many accessors |
| Output.LayoutAccessors | src/main.cpp:282-300 | the loop computes `Accessors` |
| Output.PairAt | src/main.cpp:284-300 | pair j is an index accessor (view 1, type 5125) and a vertex accessor (view 0, type 5126), both counting 3 per triangle, at offsets 12 and 36 times the triangles before mesh j |
| Output.AccessorsKinds | src/main.cpp:284-300 | even accessors use view 1 and 5125, odd ones view 0 and 5126, each counting three per triangle of its mesh |
| Output.AccessorsTile | src/main.cpp:284-300 | offsets start at 0, each accessor starts where the previous one of its kind ends, and the last pair ends at 12 and 36 bytes per triangle |
| Output.OutputCulledModel | src/main.cpp:19-102 | the culled pass's statements compute `CulledFile` |
| Output.OcclusionCulling | src/main.cpp:104-313 | the kept pass's statements followed by the culled pass compute `Culling` |
| Output.CullingValue | src/main.cpp:104-313 | when every mesh has at least one triangle, the mesh lengths cover the triangles and every mesh has a name, both passes succeed and give the layout described by the next four rows |
| Output.AllPairsOk | src/main.cpp:282-300 | one accessor pair per mesh count never fails |
| Output.CullingFiles | src/main.cpp:181-279 | under the same premises, the kept and culled files hold 12 words per triangle between them; the buffer length is four bytes per kept word; the views tile the kept file |
| Output.CullingMeshes | src/main.cpp:218-300 | under the same premises, one count and one accessor pair per non-empty kept mesh, named after that mesh. The last pair ends at the ends of the two views |
| Output.CullingIndices | src/main.cpp:218-300 | under the same premises, the index accessor of mesh m, read through view 1, covers exactly the ascending run 0, 1, 2, ... of that mesh in the kept file |
| Output.KeptLayout | src/main.cpp:181-279 | under the same premises, the kept file is the vertex words followed by the index runs, and the index view starts after the vertex words |
| GltfExport.ExportViews | src/export_json.h:29-40 | the loop builds one view object per new buffer view |
| GltfExport.ExportAccessors | src/export_json.h:43-56 | the loop builds one accessor object per new accessor |
| GltfExport.ExportNodes | src/export_json.h:70-83 | the node loop fails exactly when a mesh name is missing, and otherwise builds the root and one node per mesh |
| GltfExport.ExportMeshes | src/export_json.h:86-103 | given a name for every counted mesh, the mesh loop fails exactly when there are fewer new meshes than counts or a counted new mesh has no primitive, and otherwise builds one mesh object per mesh |
| GltfExport.ExportGltf | src/export_json.h:11-120 | the exporter's statements compute `Exported` |
| GltfExport.IntReadsBack | src/export_json.h:21-26 | an integer written to the tree reads back as itself |
| GltfExport.ExportedBuffer | src/export_json.h:21-26 | one buffer with the new buffer length and uri `sceneTest.bin` |
| GltfExport.ExportedView | src/export_json.h:29-40 | view i has buffer 0 and the copied offset, length and target; only view 0 has a stride, the copied one |
| GltfExport.ExportedAccessor | src/export_json.h:43-56 | accessor i has the copied view, offset, component type and count, and type SCALAR when i is even and VEC3 when odd |
| GltfExport.ExportedScene | src/export_json.h:60-67 | scene 0, and a single scene whose only node is 0 |
| GltfExport.ExportedNodes | src/export_json.h:70-83 | the root's children are 1..n; node i+1 has mesh i and the name of position i |
| GltfExport.ExportedMesh | src/export_json.h:86-103 | mesh i has one primitive with the copied indices and POSITION, and the name of position i |
| GltfExport.ExportedOk | src/export_json.h:70-103 | the export succeeds exactly when every mesh has a name and a primitive; otherwise it is an out-of-range error |
| GltfExport.ExportNamesByPosition | src/export_json.h:79-97 | names by position: meshesName a, b with new mesh 0 named b exports mesh 0 as "a" |
| GltfExport.ExportNamesByMesh | src/export_json.h:79-97 | naming by the new mesh's own name exports mesh i and node i+1 under the emitted mesh's name |

## Left out

- Floating-point geometry. The view, projection and viewport products, the camera set-up, perspective-correct depth, barycentrics, point-in-triangle and the pyramid are abstract functions of a `Geometry` value. The loader's node matrices are symbolic terms (`Given`, `Compose`, `ComposeTrs`), not the quaternion and TRS arithmetic of `localTransform`; vertex placement is a function passed in.
- The `Pyramid` class is not part of this model. Its verdict is a function of the finest depth level and of the triangles queried since the last `clear`. `reset` clears that history, so any deterministic internal state is covered.
- `Scene` and `Node8` construction, `Scene::to_viewspace`, `Image`, the OBJ loader, the shaders and `Triangle.cpp` are not part of this model. `Triangle.cpp`'s constructors are modelled as `Triangle.hpp` declares them: the facing is the cross product and `deleted` starts false.
- All I/O is modelled as values:
  - files read are byte maps; file writes are appended word sequences; log lines are appended triangles (`LinesOf` gives their text);
  - a failed `fopen` of the logs, `system("PAUSE")` and `exit(0)` are left out;
  - an `errorm` call is a `Fatal` status that stops the operation;
  - console output (`printf`, `cout`, `msg`) is left out, as is the debug print of the first five triangles (main.cpp:302-307);
  - `testPVData` is left out.
- nlohmann's parser and jsoncpp's styled writer are replaced by the `Json` datatype. The exporter yields the tree; the file write is left out. `exportGLTF` is commented out in `main`, so `Culling` does not call it.
- `main`'s argument handling and the camera placement in `occlusionCulling` are left out. The renderer's camera, matrices and viewport are inputs.
- Traversal.Mark: an `indexOfTriangles` out of range is an unchecked write in the source; the model leaves the list unchanged in that case.
- PostPass.WriteVertices: requires every triangle's indices to lie within the vertex list. The source indexes `Vertices` unchecked, so an out-of-range index has no defined result to model.
- Zbuffer.Zbuf.Render: for the naive method it states the view-space conversion and the pyramid history, but not the final image. Each single draw's pixel effect is stated by `DrawTriangleWithAabb`. When all three flags are set and the converted scene has a primitive, the naive method requires a shader; the source would call the empty `std::function` only at a pixel that passes the depth test. `RenderReady` and `DrawPrimitives` require the same.
- Zbuffer.Zbuf.DrawTriangleWithAabb: requires a shader. Calling an empty `std::function` throws in the source, and that exception is not modelled.
- Output.Culling: both passes use the corrected mesh loop described under Findings. The as-written loop is modelled and proved separately in `MeshLayout`.
- Output.OutputCulledModel: uses the same corrected mesh loop as `Output.Culling`.
- Output.OcclusionCulling: uses the same corrected mesh loop as `Output.Culling`.
- MeshLayout.IntendedMeshesCorrect: proved only when every mesh has at least one triangle. The loader records `c/3` triangles per mesh (gltf.cpp:615, 630, 644), which is 0 for a primitive with fewer than three indices. An empty first mesh is closed at the first triangle, since the triangle counter starts at 0 (main.cpp:213, 220). After a close, though, the counter is reset to 0 and incremented before it is compared again (main.cpp:227-240). So an empty mesh after the first is never closed, and the corrected loop files the triangles of the meshes after it under its name. The model promises nothing when a mesh is empty.
- MeshLayout.MeshesAsWritten: proved under the same premise. As written, an empty mesh after the first is likewise never closed (main.cpp:219-240). The culled pass's runs are stated only up to their counts: when the last mesh holds a single triangle, that triangle's indices continue the previous mesh's run, because the last iteration never advances to the next mesh.
- MeshLayout.SelectedMeshes: defined only when every mesh has at least one triangle, because an empty mesh after the first is never closed.
- Output.CullingValue: proved only when every mesh has at least one triangle, like `MeshLayout.IntendedMeshesCorrect`; `Output.CullingFiles`, `Output.CullingIndices` and `Output.KeptLayout` share the premise.
- Output.CullingMeshes: proved only when every mesh has at least one triangle, like `Output.CullingValue`.
- PostPass.WriteVertices: the byte lengths `byteLengthVertex` and `byteLengthVertexCulled` are `int`s in the source (main.cpp:24, 179) to which `size_t` products are added; the model keeps the exact sum, which differs only past 2^31 bytes. `MeshLayout`'s `byteLengthIndex` is kept exact the same way.
- Output.BufferViews: the view lengths are stored into `uint32_t` fields and `newBufferLength` is an `int` holding their sum (main.cpp:272-279); the model keeps the exact values, which differ only past 2^31 bytes.
- Output.Accessors: each `count` is the `int` product `newmeshesLength[j] * 3` stored into a `uint32_t` field, and the offsets are `int` sums of `count * 4` and `count * 12` (main.cpp:283-299); the model keeps the exact values, which differ only past 2^31 bytes.
- `_draw_triangle_with_aabb` never draws the last pixel column or row, because it clamps to w-1 and h-1 and then scans with exclusive bounds. This is stated by `LastColumnAndRowNeverDrawn` only; no corrected rasteriser is modelled.
- GltfLoader.NodeStep: a child index out of range (gltf.cpp:469-474) is an unchecked subscript in the source, with undefined behaviour; the model stops with `OutOfRange`, which the source never raises.
- GltfBuffers.SourceOf: an accessor or buffer view index out of range (gltf.cpp:591-593, 651-653, 678-680) is an unchecked subscript; the model stops with `OutOfRange`.
- GltfBuffers.RefsOf: a mesh index out of range or a mesh with no primitive (gltf.cpp:586-588) is an unchecked subscript; the model stops with `OutOfRange`.
- GltfBuffers.Element: a cell of the new array that the read did not fill holds an indeterminate value in the source, and `indices[j+1]`, `indices[j+2]` can lie past the array's end when the elements read are not a multiple of three. Both are undefined; the model reads 0.
- GltfBuffers.NodeData: `positionsCount*3*4` and `normalCount*3*4` are `int` products whose overflow is undefined; the model uses the exact product, both for the array length and for the byte length read. The index byte length is a `uint32_t` product, and the model wraps it as C++ does.
- MeshLayout.Step: `meshesLength[j]` out of range (main.cpp:220) is an unchecked subscript; the model stops with `OutOfRange`.
- MeshLayout.EmitMesh: `meshesName[meshesIndex]` or `newMeshes[meshesIndex]` out of range (main.cpp:222-225) is an unchecked subscript; the model stops with `OutOfRange`.
- Output.Accessors: `newmeshesLength[j]` or `newAccessors[i + 1]` out of range (main.cpp:284-300) is an unchecked subscript; the model stops with `OutOfRange`. A negative size is the `std::length_error` of `resize`.
- GltfExport.Exported: `meshesName[i]` or `newMeshes[i].primitives[0]` out of range (export_json.h:79-90) is an unchecked subscript; the model stops with `OutOfRange`.
- Json.ToInteger: a floating-point number outside the target type's range has no defined conversion in C++; the model truncates it toward zero and then wraps it like an integer.
- Triangles.InCanonical: `vert_in_canonical` is only declared in Triangle.hpp:113, and its body in `Triangle.cpp` is not part of this model. The model takes the canonical volume to be the closed box [-1, 1]^3.
- Leaked `new[]` buffers and the commented-out rasterisation block of `_draw_triangle_with_zpyramid` are left out.

## Findings

| source | as written | input that shows it | evidently intended | confidence | as-written member | corrected member |
|---|---|---|---|---|---|---|
| src/main.cpp:218-263 | the last triangle is handled after the final mesh count is pushed, so its indices are written and counted in the byte length but not in `newmeshesLength` | one mesh of one kept triangle: `newmeshesLength` is [0], no mesh is emitted, `byteLengthIndex` is 12 | the last triangle is counted in its mesh, which is then emitted | not executed | MeshLayout.LastTriangleUncounted | MeshLayout.LastTriangleCounted |
| src/main.cpp:222 | an emitted mesh is named `meshesName[meshesIndex]`, the number of meshes emitted so far, not the mesh the triangles belong to | three one-triangle meshes a, b, c with the first culled: the first emitted mesh is named "a" | each emitted mesh carries its own mesh's name ("b", then "c") | not executed | MeshLayout.NamesShiftAsWritten | MeshLayout.NamesFollowMeshes |
| src/export_json.h:79-97 | nodes and meshes are named `meshesName[i]` by position, not after the emitted mesh `newMeshes[i]`. With main.cpp:222 as written the two agree, since slot i is named `meshesName[i]` there; the defect is latent and shows once that line is corrected | meshesName a, b with a culled, so the corrected mesh loop names new mesh 0 "b": mesh 0 is exported as "a" | mesh i and node i+1 take `newMeshes[i].name` | not executed; latent under main.cpp as written | GltfExport.ExportNamesByPosition | GltfExport.ExportNamesByMesh |
