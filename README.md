# shape_game in Dafny

shape_game is a children's shape-matching game: a round shows five shapes spinning in a source row and five
outlines in a destination row, and the player drags each shape onto its outline. This project models the parts
of the program that compute something, and proves what they promise:

- the polygon tessellator of `src/geometry.cpp`: `make_polygon` places vertices on a circle, cycling through a
  radius list; `make_fill` fans triangles around an appended centre; `make_line` builds a mitred outline ribbon
  from one quad per edge and two miter quads per corner. It also covers the shape builders `make_shape`,
  `make_shape_polygon`, `make_oval` and `make_shape_set`, and the conversion between normalised and screen
  positions;
- from `src/gl_helper.cpp`: the float counts and `index_count` bookkeeping of the vertex buffers, and `bbox`;
- from `src/font.cpp`: the text part of `FontAtlas::load`, `get_char_uv`, `make_letter`, `make_text_vertex`
  and `make_text`;
- the atlas-text writer `scripts/font_json_to_txt.py`, together with a round trip: the text it writes parses
  back, under the model of `FontAtlas::load`, to the header and glyphs it was given;
- the game state of `src/main.cpp`: `init_game`, `find_selected_shape`, the mouse handlers,
  the win check with its wrapping score, and the animation step of `SDL_AppIterate`;
- the older game in the root `main.cpp`: polygons with a starting angle, `create_shape`,
  `create_shape_set`, `init_game`, `find_selected_shape`, the done count, `recalc_drawing_area` and the
  first-frame set-up of `SDL_AppIterate`.

Files and modules:

| file | module | what it holds |
|---|---|---|
| wrappers.dfy | Wrappers | `Option` and `Result` |
| vectors.dfy | Vectors | `glm::vec2`/`vec4` over the reals; `RealMath` passes `cos`, `sin` and `sqrt` as values, and `Lawful` says what is assumed of them |
| meshes.dfy | Meshes | vertex/index pairs, the quad index patterns, the predicate `Triangles` (an index list that makes whole triangles, every index inside the vertex list) |
| geometry.dfy | Geometry | `make_polygon`, `make_fill`, `make_line`, screen positions |
| gl_helper.dfy | GlHelper | the `VertexBuffer` class, `make_vertex_buffer`, `update_vertex`, `bbox` |
| shapes.dfy | ShapeBuilder | `make_shape`, `make_shape_polygon`, `make_oval`, `make_shape_set` |
| permutations.dfy | Permutations | permutations of index ranges; reordering a sequence by one; `std::shuffle`'s result is such a reordering |
| atlas_text.dfy | AtlasText | the tokens, numbers, header and glyph records of the atlas text, as `FontAtlas::load` reads them |
| font.dfy | Font | the `FontAtlas` class |
| atlas_writer.dfy | AtlasWriter | `font_json_to_txt.py`, and the round trip through `AtlasText` |
| game.dfy | Game | the `AppState` class of `src/main.cpp` and its event handlers |
| legacy.dfy | Legacy | the older `AppState` and shape set of the root `main.cpp` |

The code is imperative where the source is: loops that grow vectors become methods with loops. Each such
method is specified by a recursive function on its inputs, and the properties are proved about that function.
The two `AppState` structs and `FontAtlas` become classes whose methods change their fields, with `modifies`
clauses. Fixed-size `std::array`s become arrays.

Two edge cases are modelled as the code handles them:

- `make_polygon` has no check on its arguments: it returns no vertices for `sides <= 0`, and it divides by
  the radius count. So `Geometry.MakePolygon` accepts any `sides` and needs a non-empty radius list only
  when `sides > 0`.
- `bbox` reads `vertex[0]` without a check and returns no error, so
  `GlHelper.BoundingBox` requires a non-empty input instead of returning an error.

A property of the code as written, proved as `Legacy.LetterBoxInside`: `recalc_drawing_area` (main.cpp:445-455)
picks the layout by `win_w > win_h`, not by the 4:3 aspect ratio. A window wider than high but narrower than
4:3, such as 1000 by 900, gets a drawing area wider than the window, with a negative x offset. `resize_event`
(src/main.cpp:129-139) makes the same choice.

## Model

| member | source | states |
|---|---|---|
| Geometry.MakePolygon | src/geometry.cpp:46-59 | returns `sides` vertices (none when `sides <= 0`); vertex i is at angle 2πi/sides, on the radius radius[i mod \|radius\|] |
| Geometry.PolygonVertexOnCircle | src/geometry.cpp:50-53 | vertex i lies at distance radius[i mod \|radius\|] from the origin |
| ShapeBuilder.TwoRadiusVertex | src/geometry.cpp:251 | with the radius list `[outer, inner]`, even vertices lie on the outer circle and odd vertices on the inner one, which makes a star |
| Geometry.MakeFill | src/geometry.cpp:61-77 | the vertices are the outline in order, then the centre (N + 1 in all); triangle i is (i, (i+1) mod N, N) over 3N indices, every index inside the vertex list; the older copy at main.cpp:179-194 computes the same |
| Geometry.FillIndicesLength | src/geometry.cpp:68-74 | the fan has 3 indices per outline vertex |
| Geometry.FillTriangleAt | src/geometry.cpp:69-73 | triangle i of the fan is (i, (i+1) mod N, N) |
| Geometry.FillIndicesBound | src/geometry.cpp:65-74 | the fan's indices make whole triangles, each index below N + 1 |
| Geometry.NextIsModulus | src/geometry.cpp:86 | the next corner `(i + 1) mod N` stays inside the outline |
| Geometry.CornerFacts | src/geometry.cpp:88-89 | under the non-degeneracy hypothesis every edge has non-zero length, so the division by its length is defined |
| Geometry.DirectionIsUnit | src/geometry.cpp:88-92 | the edge direction has unit length and is parallel to the edge; the normal (−d.y, d.x) is a unit vector perpendicular to it |
| Geometry.HalfWidthGeometry | src/geometry.cpp:92-106 | the offset n·t·0.5 is perpendicular to edge i and has length t/2 |
| Geometry.EdgeQuads | src/geometry.cpp:85-112 | the first loop emits, for edge i, the points vert[i]+h, vert[j]+h, vert[j]−h, vert[i]−h (h the half-width offset), the indices 4i+{0,1,2,0,2,3}, and the outer and inner offset segments |
| Geometry.EdgePointsLength | src/geometry.cpp:103-106 | the edge quads contribute 4 points per edge |
| Geometry.EdgePointsAt | src/geometry.cpp:103-106 | point 4i+c is corner c of the quad of edge i |
| Geometry.SideListAt | src/geometry.cpp:108-111 | entries 2i and 2i+1 of the outer/inner list are the two ends of edge i offset to that side |
| Geometry.SideSegment | src/geometry.cpp:108-111 | each offset segment runs along its edge: outer forward, inner backward |
| Geometry.MiterPointOnBothLines | src/geometry.cpp:124-139 | when det ≠ 0, the Cramer's-rule point p0 + t0·(p1−p0) lies on line p0p1 and on line p2p3 |
| Geometry.CornerDeterminant | src/geometry.cpp:124-135 | the determinant of two consecutive offset segments is minus the cross product of the two edges, so it is non-zero at every corner that turns |
| Geometry.SideListsAtCorner | src/geometry.cpp:118-122 | at corner i, p0..p3 of each side list are the offset ends of edges i and i+1 |
| Geometry.MiterQuads | src/geometry.cpp:115-155 | the second loop appends, per corner and per side (inner, then outer), the miter quad (vert[j], pp, p1, p2) with the indices base+{0,1,2,0,1,3} |
| Geometry.AppendMiterQuad | src/geometry.cpp:119-153 | the body of the inner loop appends one miter quad and its six indices, offset by the current point count |
| Geometry.MiterPointsLength | src/geometry.cpp:115-155 | the miter phase adds 8 points per corner |
| Geometry.MiterPointsAt | src/geometry.cpp:150-153 | point 8i+4s+c of the miter phase is corner c of side s's quad at corner i |
| Geometry.MiterQuadOnLines | src/geometry.cpp:133-153 | the second point of each miter quad lies on both offset lines of its corner |
| Geometry.MakeLine | src/geometry.cpp:79-158 | N outline vertices give 12N points and 18N indices that make whole triangles inside the point list; points and indices are exactly the edge quads followed by the miter quads; the older copy at main.cpp:197-273 computes the same |
| Geometry.LinePointsLength | src/geometry.cpp:79-158 | the ribbon has 12 points per outline vertex |
| Geometry.LineIndexBound | src/geometry.cpp:94-148 | every one of the 18N indices is below 12N |
| Geometry.LineIndicesBound | src/geometry.cpp:79-158 | the index count is a multiple of 3 and every index is inside the point list |
| Geometry.LineMeshShape | src/geometry.cpp:79-158 | 12N points, 18N indices, whole triangles in range |
| Geometry.LineEdgeQuad | src/geometry.cpp:94-106 | points 4i..4i+3 of the ribbon are vert[i]+h, vert[j]+h, vert[j]−h, vert[i]−h, and indices 6i..6i+5 are 4i+{0,1,2,0,2,3} |
| Geometry.LineMiterPointAt | src/geometry.cpp:150-153 | ribbon point 4N+8i+4s+c is corner c of the miter quad of side s at corner i |
| Geometry.LineMiterIndexAt | src/geometry.cpp:141-148 | ribbon index 6N+12i+6s+c is the miter pattern {0,1,2,0,1,3} offset by that quad's first point |
| Geometry.LineMiterQuad | src/geometry.cpp:115-155 | each miter quad of the ribbon is (vert[j], pp, p1, p2), with pp on both offset lines, and its indices follow the miter pattern |
| Geometry.ScreenPosRoundTrip | src/geometry.cpp:289-295 | with a non-zero screen scale, screen→normalised undoes normalised→screen, and the other way round |
| Meshes.ShiftAt | src/font.cpp:205-208 | the shifted pattern is the pattern plus the vertex count, entry by entry |
| Meshes.QuadIndicesLength | src/geometry.cpp:94-101 | k quads have 6k indices |
| Meshes.QuadIndicesAt | src/geometry.cpp:94-101 | index 6r+c of k quads from `first` is first + 4r + pattern[c] |
| Meshes.QuadIndicesRange | src/font.cpp:204-211 | every index of k quads from `first` lies in [first, first + 4k) |
| Meshes.QuadIndicesBound | src/font.cpp:204-211 | the quad indices make whole triangles inside the first + 4k vertices |
| GlHelper.Flatten2At | src/gl_helper.cpp:136-137 | a vec2 array is 2 floats per vertex, x then y |
| GlHelper.Flatten2Length | src/gl_helper.cpp:137 | a vec2 array is 2·n floats |
| GlHelper.Flatten4At | src/gl_helper.cpp:140-141 | a vec4 array is 4 floats per vertex, x, y, z, w |
| GlHelper.Flatten4Length | src/gl_helper.cpp:141 | a vec4 array is 4·n floats |
| GlHelper.VertexBuffer.constructor | src/gl_helper.cpp:151-161 | a buffer holds the uploaded floats and indices, and its `index_count` is the number of indices |
| GlHelper.MakeVertexBuffer | src/gl_helper.cpp:144-164 | uploads the first `vertex_count` floats and all indices; `index_count` = \|index\| |
| GlHelper.MakeVertexBuffer2 | src/gl_helper.cpp:136-138 | a vec2 list uploads 2·\|vertex\| floats, exactly its coordinates in order |
| GlHelper.MakeVertexBuffer4 | src/gl_helper.cpp:140-142 | a vec4 list uploads 4·\|vertex\| floats, exactly its components in order |
| GlHelper.Overwrite | src/gl_helper.cpp:178 | a sub-data upload at offset 0 replaces the front of the buffer, keeps the rest and keeps the size; data longer than the buffer is refused |
| GlHelper.VertexBuffer.UpdateVertex | src/gl_helper.cpp:176-185 | the vertex floats are overwritten from the front; the indices and `index_count` change only for a non-empty `optional_idx`, and then the count becomes its length |
| GlHelper.BoundingBox | src/gl_helper.cpp:204-219 | every vertex lies inside the box; each of the four bounds is the matching coordinate of some vertex; one vertex gives start = end = that vertex's (x, y) |
| ShapeBuilder.MakeShape | src/geometry.cpp:160-187 | fill from `make_fill`, line from `make_line` at the given thickness, highlight at twice the thickness, the given colours, the box (−1,−1)..(1,1), and a shape at rest: no rotation, direction +1, scale 1 |
| ShapeBuilder.ShapeSizes | src/geometry.cpp:160-187 | a shape built from an n-gon draws 3n fill indices over n + 1 vertices (2n + 2 floats) and 18n line indices over 12n vertices (24n floats), every index in range |
| ShapeBuilder.MakeShapePolygon | src/geometry.cpp:189-199 | the shape of `make_polygon(sides, radius)` |
| ShapeBuilder.OvalPrefixAt | src/geometry.cpp:207-213 | vertex i of the oval is (r·cos θi, r·sin θi·0.5), in order |
| ShapeBuilder.OvalOnEllipse | src/geometry.cpp:206-213 | the oval has 36 vertices, each on the ellipse x² + 4y² = r² |
| ShapeBuilder.MakeOval | src/geometry.cpp:201-216 | the shape of the 36-vertex oval |
| ShapeBuilder.ColorCounter | src/geometry.cpp:233-237 | the counter of `next_color` stays inside the palette |
| ShapeBuilder.ColorCounterIsModulus | src/geometry.cpp:233-237 | after k calls, the counter is k mod \|palette\| |
| ShapeBuilder.NextColor | src/geometry.cpp:234-237 | `next_color` steps the counter first, then reads that colour |
| ShapeBuilder.ColorStep | src/geometry.cpp:234-237 | shape k is filled with colour (k + 1) mod \|palette\| of the shuffled palette |
| ShapeBuilder.ShuffledPalette | src/geometry.cpp:225-229 | the shuffled palette is the palette reordered by a permutation: same length, same colours |
| ShapeBuilder.ShuffledColors | src/geometry.cpp:225-229 | every colour of the shuffled palette is a palette colour, each as often as before |
| ShapeBuilder.SetOutlines | src/geometry.cpp:239-256 | the set has 14 outlines |
| ShapeBuilder.SetFills | src/geometry.cpp:233-256 | the set has 14 fill colours |
| ShapeBuilder.RegularOutline | src/geometry.cpp:239-242 | shapes 0..6 are the regular 3- to 9-gons of radius 1 |
| ShapeBuilder.CircleOutline | src/geometry.cpp:244-245 | shape 7 is the 36-gon |
| ShapeBuilder.OvalOutline | src/geometry.cpp:247-248 | shape 8 is the oval of radius 1 |
| ShapeBuilder.StarOutline | src/geometry.cpp:250-253 | shapes 9..12 are the 8-, 10-, 12- and 14-point stars with radii 1 and 0.5 |
| ShapeBuilder.RhombusOutline | src/geometry.cpp:255-256 | shape 13 is the 4-gon with radii 1 and 0.8 |
| ShapeBuilder.PushPolygon | src/geometry.cpp:240-241 | one polygon step: build the shape in the next colour and append it |
| ShapeBuilder.PushOval | src/geometry.cpp:247-248 | the oval step: build it in the next colour and append it |
| ShapeBuilder.BuiltAtRest | src/geometry.hpp:21-29 | every shape of the set starts unrotated, turning in direction +1 |
| ShapeBuilder.MakeShapeSet | src/geometry.cpp:218-259 | 14 shapes in the fixed order, shape k built from outline k at thickness 0.1 in colour (k + 1) mod \|palette\| of the shuffled palette |
| Permutations.PermuteMultiset | src/main.cpp:165 | reordering by a permutation keeps the length and every element with its multiplicity |
| Permutations.ShuffledRange | src/main.cpp:170-182 | shuffling the identity 0..n−1 by a permutation gives that permutation |
| Permutations.PermuteAppend | src/main.cpp:165 | reordering by a concatenation of index lists concatenates the two reorderings |
| Game.Rotation | src/main.cpp:172-176 | the direction is +1 or −1, and +1 exactly when the dice exceeds 0.5 |
| Game.NextScore | src/main.cpp:436-440 | below 100 the score goes up by one; at 100 or above it wraps to 1; a score in [0, 100] goes to one in [1, 100] |
| Game.WrapTheta | src/main.cpp:534-538 | an angle below 0 becomes 2π, one above 2π becomes 0, anything else is kept; the result is in [0, 2π] |
| Game.Dealt | src/main.cpp:167-179 | the first five shapes get the rotation direction of their dice roll; nothing else in the shape set changes; spinning shapes stay spinning |
| Game.PermuteSpinning | src/main.cpp:165 | shuffling the shape set keeps every shape's angle in [0, 2π] and its direction ±1 |
| Game.Animate | src/main.cpp:519-549 | after a frame the shape sits at its destination centre; a done shape keeps its angle, any other turns by the rotation speed and wraps; nothing else changes |
| Game.Released | src/main.cpp:419-430 | a done shape stays done; the only flag that can change is the selected shape's, and it becomes true exactly when the slot hit is that shape's destination |
| Game.DoneCount | main.cpp:548-553 | the count is at most the number of shapes |
| Game.DoneCountAll | main.cpp:548-557 | the count equals the number of shapes exactly when every shape is done (the `all_of` test of src/main.cpp:433-434) |
| Game.DoneCountSet | src/main.cpp:424-425 | marking a shape that was not done raises the count by one |
| Game.ReleaseProgress | src/main.cpp:419-430 | a release raises the done count by one on a match and leaves it alone otherwise |
| Game.BoxesDisjoint | src/main.cpp:256-276 | two different slots of one row have disjoint hit boxes |
| Game.RowsDisjoint | src/main.cpp:370-378 | a source box and a destination box never overlap |
| Game.AppState.constructor | src/main.cpp:364-378 | the shape set scaled to SHAPE_RADIUS, the slot centres (2i+1)/10 along the quarter lines, score 0, nothing selected |
| Game.AppState.PickFrom | src/main.cpp:258-277 | the first slot from i on that is eligible (any destination slot, or a source shape not yet done) and whose box strictly holds the pointer; none exactly when there is no such slot |
| Game.AppState.PickUnique | src/main.cpp:258-279 | with a positive screen scale, any eligible slot under the pointer is the one picked |
| Game.AppState.FindSelectedShape | src/main.cpp:250-280 | the loop with its early `break` returns the first eligible slot under the pointer, or none |
| Game.AppState.DealShapes | src/main.cpp:167-179 | shape i points at set entry i, the destination map is the identity, and the dice set the rotation directions |
| Game.AppState.ShuffleDestinations | src/main.cpp:181-182 | the destination map becomes the given permutation |
| Game.AppState.InitGame | src/main.cpp:159-192 | the set is a reordering of the old set with the new directions; the destinations are a permutation of 0..4; no shape is done; no selection and no highlight |
| Game.AppState.ButtonDown | src/main.cpp:406-408 | the selection becomes the source slot under the pointer |
| Game.AppState.Motion | src/main.cpp:410-416 | the highlight is cleared, and set to the destination under the pointer only while a shape is selected |
| Game.AppState.Release | src/main.cpp:419-430 | the selected shape becomes done exactly when it is dropped on its destination; selection and highlight are cleared |
| Game.AppState.ButtonUp | src/main.cpp:418-446 | the release, then on a win the score steps with wrap-around and a new round is dealt; without a win score, set and destinations stay as they were |
| Game.AppState.Iterate | src/main.cpp:518-550 | every shape in play is animated towards its destination; the rest of the set is untouched; each shape is drawn at its destination if done, under the pointer if selected, at its source slot otherwise |
| Game.AppState.DraggedUnderPointer | src/main.cpp:526-528 | the selected shape is drawn exactly under the pointer, in screen coordinates |
| Game.AppInit | src/main.cpp:364-380 | the first round: the set `make_shape_set` built (its ghost result `shapes`), scaled to SHAPE_RADIUS, shuffled and dealt; slot centres placed at (2i+1)/10 on the quarter lines (src/main.cpp:370-378) and the shader placement kept, so `Iterate` and `PickUnique` can be called on the result; score 0, destinations the given permutation, nothing done or selected |
| Legacy.MakePolygon | main.cpp:163-177 | `sides` vertices at angle 2πi/sides + theta_offset, on radius radius[i mod \|radius\|]; with no offset, `make_polygon` of src/geometry.cpp |
| Legacy.OffsetVertexOnCircle | main.cpp:166-171 | every vertex lies on its radius whatever the starting angle |
| Legacy.MakeGLPrimitive | main.cpp:122-137 | `make_gl_primitive`: `index_count` is the number of indices, so whole triangles for a triangle mesh; the given colour, at the origin and scale 1 |
| Legacy.MaxElement | main.cpp:279 | the result is at least every radius and is one of them |
| Legacy.CreateShape | main.cpp:276-287 | radius is the largest of the list; the outline draws 18 indices per vertex and the fill 3, so six times as many |
| Legacy.ShapeSet | main.cpp:289-311 | seven shapes, at least NUM_SHAPES, all of radius 1, with sides 3, 4, 5, 6, 36, 10 and 4 and index counts following them |
| Legacy.CreateShapeSet | main.cpp:289-311 | builds that set in that order, whatever the random starting angles |
| Legacy.Scaled | main.cpp:313-320 | outline and fill get the new scale, nothing else changes |
| Legacy.AsOption | main.cpp:491 | −1 means no shape; a non-negative value names that shape |
| Legacy.AppState.constructor | main.cpp:66-79 | `new AppState()` at main.cpp:361 zero-initialises it: the drawing area is all zero, every primitive's colour is zero, the first frame has not run, no shape is selected (−1) and no set has been made yet |
| Legacy.LetterBox | main.cpp:445-455 | the drawing area is 4:3 and centred in the window, as high as the window when it is wider than high and as wide as the window otherwise |
| Legacy.LetterBoxInside | main.cpp:445-455 | the area lies inside the window exactly when the window is at most as wide as high or at least 4:3 |
| Legacy.AppState.RecalcDrawingArea | main.cpp:433-465 | with a window size, the area is the LetterBox, with six columns of width xdiv and four rows of height ydiv; when the size query fails nothing changes and the result is false |
| Legacy.AppState.FirstFrame | main.cpp:582-587 | on the first frame only: the area is recalculated (LetterBox, with xdiv·6 = w and ydiv·4 = h) and the shapes in play are redrawn at xdiv·0.4; on later frames the area and the shapes are unchanged, and a failed size query keeps the area |
| Legacy.AppState.Resized | main.cpp:527-531 | the area is recalculated (LetterBox, with xdiv·6 = w and ydiv·4 = h), or kept when the size query fails, and the shapes in play are redrawn at xdiv·0.4 |
| Legacy.AppState.SlotInArea | main.cpp:479-485 | `shape_index_to_src_pos` and `shape_index_to_dst_pos` (`SlotPos`): with positive spacing every slot centre lies between the first and the fifth column of the drawing area, sources in its upper half and destinations in its lower |
| Legacy.AppState.PickFrom | main.cpp:493-510 | the first slot from i on, skipping done source shapes, whose centre is nearer the pointer than radius·scale; −1 exactly when there is none |
| Legacy.AppState.FindSelectedShape | main.cpp:487-513 | the loop returns that first hit, or −1 |
| Legacy.AppState.UpdateGlPrimitives | main.cpp:313-320 | every shape in play is drawn at scale xdiv·0.4 |
| Legacy.AppState.InitGame | main.cpp:322-346 | the set is a reordering of the seven shapes; the five in play are its first five, scaled; the destinations are the given permutation; nothing is done |
| Legacy.AppState.ShuffleDestinations | main.cpp:339 | the identity destination map becomes the permutation |
| Legacy.AppState.ButtonDown | main.cpp:533-535 | the selection becomes the source slot hit, or −1 |
| Legacy.AppState.Drop | main.cpp:538-546 | the selected shape becomes done exactly when dropped on its destination; the selection is cleared |
| Legacy.AppState.CountDone | main.cpp:548-553 | the loop counts the done shapes |
| Legacy.AppState.ButtonUp | main.cpp:537-559 | the drop, then a new round when all five are done; otherwise everything else stays |
| Legacy.AppInit | main.cpp:361-428 | a fresh state with a first round dealt: the set is a reordering of the seven shapes and the destinations are the given permutation. The drawing area (offsets, size and spacing) is still all zero, so the shapes in play are at scale 0 until FirstFrame rescales them |
| AtlasText.WordLength | src/font.cpp:104-107 | a token is the longest run of non-space characters; it ends at a space or at the end |
| AtlasText.TokensAreWords | src/font.cpp:104-107 | every token `operator>>` reads is non-empty and free of whitespace |
| AtlasText.TokensConcat | src/font.cpp:104 | a text that ends in whitespace tokenises separately from what follows it |
| AtlasText.UpToNul | src/font.cpp:103 | the string is the buffer up to its first NUL, and holds no NUL |
| AtlasText.ParseHeader | src/font.cpp:106-120 | a header is the labels distance_range, em_size, grid_width, grid_height and unicode in order, each numeric label followed by its value (integers, except the real em_size) |
| AtlasText.ParseReals | src/font.cpp:131-139 | nine numbers in order, or the first token that is not a number |
| AtlasText.RecordsStep | src/font.cpp:122-142 | one turn of the record loop: a code then nine numbers make a record before the rest; a code at the end of the stream stops the loop; anything else is an error |
| AtlasText.InsertSnoc | src/font.cpp:141 | each record stores its glyph under its code |
| AtlasText.InsertAbsent | src/font.cpp:141 | codes that no record names keep what the map held |
| AtlasText.InsertLast | src/font.cpp:122-142 | a later record for the same code overwrites an earlier one: the map holds each code's last record |
| Font.Abs | src/font.cpp:166 | `std::abs`: non-negative, and x or −x |
| Font.Normalized | src/font.cpp:192-197 | normalising divides x and y by the grid width and keeps the texture coordinates |
| Font.FontAtlas.constructor | src/font.hpp:26-33 | a new atlas has no texture and no glyphs |
| Font.FontAtlas.Load | src/font.cpp:84-145 | it fails without reading when the texture or the file is missing; otherwise it succeeds exactly when the text parses; on success the header fields are the parsed header and every record is stored over the old map |
| Font.FontAtlas.ReadHeader | src/font.cpp:106-120 | the label-and-value reads of the header, in file order |
| Font.FontAtlas.ReadRecords | src/font.cpp:122-142 | the record loop succeeds exactly when the records parse, and then has stored every parsed record in order |
| Font.FontAtlas.GlyphOf | src/font.cpp:148 | the stored glyph of a code, or the zero glyph for a code never loaded |
| Font.CharOfByte | src/font.cpp:189 | a byte of the string reads as the signed char equal to it modulo 256, negative exactly for bytes 128 and above |
| Font.FontAtlas.GetCharUv | src/font.cpp:147-156 | start = (atlas_left/W, 1 − atlas_bottom/H) and end = (atlas_right/W, 1 − atlas_top/H) |
| Font.FontAtlas.UvInUnitSquare | src/font.cpp:150-155 | a glyph box inside the texture has texture coordinates in the unit square, with end to the right of start and above it |
| Font.FontAtlas.MakeLetter | src/font.cpp:158-178 | four corners (x,y), (x+w,y), (x+w,y−h), (x,y−h), after moving the pen by plane_left·em_size and \|plane_bottom\|·em_size, with w and h the atlas box's size and the matching texture coordinates |
| Font.FontAtlas.PenStep | src/font.cpp:201-202 | the pen moves by the character's advance times em_size |
| Font.FontAtlas.PenIsScaledAdvance | src/font.cpp:182-202 | the pen before character k is em_size times the sum of the advances before it |
| Font.FontAtlas.TextVerticesLength | src/font.cpp:189-199 | four vertices per character |
| Font.FontAtlas.TextVertexAt | src/font.cpp:190-199 | vertex 4k+c is corner c of character k's quad |
| Font.FontAtlas.NormalizeKeepsUv | src/font.cpp:192-197 | with `normalize`, only x and y are divided by the grid width; the texture coordinates are the unnormalised quad's |
| Font.FontAtlas.EmitLetter | src/font.cpp:190-197 | the quad of character k at the current pen, normalised on request |
| Font.FontAtlas.EmitCharacter | src/font.cpp:189-212 | one turn of the character loop: the quad appended, the pen advanced, six indices offset by the vertex count appended |
| Font.FontAtlas.MakeTextVertex | src/font.cpp:180-215 | the string is its bytes (one quad per byte, so a non-ASCII character written as several UTF-8 bytes gets several quads): 4·\|str\| vertices, quad by quad, and 6·\|str\| indices 4k+{0,1,2,0,2,3} that make whole triangles inside them; an empty string gives two empty lists |
| Font.FontAtlas.MakeText | src/font.cpp:217-220 | the buffer holds the flattened quads and their indices; `index_count` is 6·\|str\| |
| Font.ShiftQuad | src/font.cpp:205-208 | the quad pattern offset by the vertex count |
| AtlasWriter.Convert | scripts/font_json_to_txt.py:17-46 | without an argument it prints nothing and exits with "missing json"; otherwise it prints the whole text when every glyph with plane bounds has atlas bounds; else it stops at the first that lacks them, with what was printed before |
| AtlasWriter.WriteGlyph | scripts/font_json_to_txt.py:31-46 | one glyph's line: code, advance, then eight zeros when there are no plane bounds, or the plane then atlas bounds; missing atlas bounds stop it after the plane bounds |
| AtlasWriter.AtlasTextOfSnoc | scripts/font_json_to_txt.py:30-46 | the output grows by one glyph line per turn, in input order |
| AtlasWriter.FirstIncomplete | scripts/font_json_to_txt.py:30-42 | the first glyph with plane bounds but no atlas bounds |
| AtlasWriter.NatTextValue | scripts/font_json_to_txt.py:31 | a printed natural number is a non-empty run of digits with that value |
| AtlasWriter.FractionTextValue | scripts/font_json_to_txt.py:32 | the digits printed after the decimal point read back as the fraction |
| AtlasWriter.ParseRealOfNum | src/font.cpp:131-139 | a printed decimal number reads back as a float with the same value |
| AtlasWriter.ParseIntOfNum | src/font.cpp:109 | a printed whole number reads back as an int, and one printed with a fraction is rejected |
| AtlasWriter.ParseIntOfInt | src/font.cpp:124 | a printed code reads back as that code |
| AtlasWriter.NumTextWord | scripts/font_json_to_txt.py:32 | a printed number is one token without NUL |
| AtlasWriter.HeaderTokens | scripts/font_json_to_txt.py:24-28 | the header text is the tokens distance_range v, em_size v, grid_width v, grid_height v, unicode |
| AtlasWriter.TokensOfBounds | scripts/font_json_to_txt.py:38-41 | four bounds printed with spaces are those four tokens |
| AtlasWriter.TokensOfZeros | scripts/font_json_to_txt.py:35 | the zero line adds eight "0" tokens |
| AtlasWriter.TokensOfGlyph | scripts/font_json_to_txt.py:31-46 | a glyph line is 10 tokens: the code, the advance and eight bounds |
| AtlasWriter.TokensOfText | scripts/font_json_to_txt.py:24-46 | the whole text is the header tokens, then each glyph's 10 tokens in input order; it ends in whitespace and holds no NUL |
| AtlasWriter.RecordOfLine | src/font.cpp:122-142 | a glyph's line reads back as one record with that glyph, before the records of the rest |
| AtlasWriter.RecordsOfLines | src/font.cpp:122-142 | the glyph lines read back as their records, in order |
| AtlasWriter.UpToNulKeeps | src/font.cpp:103 | a text without NUL is kept whole by `std::string(data)`, with or without a terminating NUL |
| AtlasWriter.HeaderOfWords | src/font.cpp:106-120 | the printed header reads back as its values when the three integer fields are whole numbers, and fails otherwise |
| AtlasWriter.RoundTrip | scripts/font_json_to_txt.py:24-46 | writing an atlas and then loading the text, with or without a terminating NUL, gives back its header and every glyph in order (zeros for one without plane bounds); a fractional integer field fails the header |

## Left out

- Floating point: every float is a real, so rounding and the float→double cast of the determinant are not
  modelled. `cos`, `sin` and the square root are parameters; only cos² + sin² = 1 and a non-negative square root
  are assumed.
- Randomness: `std::random_device`, `mt19937`, `std::shuffle` and the uniform dice become parameters, a
  permutation for each shuffle and a value for each roll.
- OpenGL, SDL and audio: buffer and texture handles, uniforms, drawing, shaders, windows, resizing, the clock
  and sound are not modelled. A vertex buffer is the data it holds and its `index_count`. A texture is its size.
  Reading files is a parameter: the texture or file contents, or none when loading failed.
- Geometry.MakeLine: requires that no edge has zero length and that every corner turns (`LineReady`), so that
  the division by the length and the Cramer's-rule determinant are defined. For the shapes of the set this is
  a hypothesis about `cos`/`sin` (`SetReady`), because they are abstract.
- GL byte sizes: the model holds the floats and indices that are meant to be uploaded. The byte sizes of the
  older `make_gl_primitive` (main.cpp:131, `sizeof(glm::vec2)` per index) are not modelled, and neither are
  those of `update_vertex` (src/gl_helper.cpp:182, one byte per index).
- GlHelper.VertexBuffer.UpdateVertex: the vec2 overload (src/gl_helper.cpp:171-174) overwrites floats the
  same way and is not modelled separately.
- Integer widths: indices and counts are unbounded naturals. The `uint32_t` vertex count and the `int`
  casts never wrap for the sizes these meshes have, and are not modelled.
- Font.FontAtlas.GlyphOf: `glyph[code]` of `std::map` inserts a zero glyph for a missing code; the model
  returns the zero glyph without inserting it.
- Signedness of `char`: it is taken as signed, as on x86 (`Font.SignedChar`). Where `char` is unsigned the
  bytes 128 and above would look up codes 128–255 instead of negative ones.
- AtlasText.ParseReal: a token is read as a number only as a whole. Exponents, and a number that is only a
  prefix of its token (as in `12x`), are not modelled; the writer never prints either.
- Font.FontAtlas.Load: failure is an error value. In the source a wrong label trips an `assert`; a
  non-numeric token makes the record loop run forever, because the end of the stream is never reached; a
  record cut short stores fields that were never read. The header fields read before an error are not stated.
- AtlasWriter.Convert: the JSON file is not read or decoded; the atlas and glyphs arrive as values. A number
  is a sign, a whole part and decimal digits. Python's exponent notation (`1e-05`) and key errors other than
  a missing `atlasBounds` are not modelled. An exit is a message, and the output printed before it is kept.
- The declarations in geometry.hpp:55 and font.hpp:36 do not match their definitions at geometry.cpp:218 and
  font.cpp:217 (a third mismatch, of the shader's fields, is described below). The model follows the definitions, and the colour palette is a plain sequence.
- Game.AppState.Iterate: requires a non-zero screen scale. Nothing in src/main.cpp sets one (see the next
  line), so the requirement is a hypothesis about the shader's placement. The score text, its bounding box and
  the drawing of the background are not modelled.
- Screen placement: `resize_event` (src/main.cpp:150-151) assigns `draw_area_offset` and `draw_area_size` of
  the shape shader, but `ShapeShader` (src/geometry.hpp:34-35) declares `screen_scale` and
  `drawing_area_offset` instead, and nothing in src/main.cpp calls `set_screen_scale` or
  `set_drawing_area_offset`. The state's `shader` is a parameter that stands for what those setters would
  hold, presumably `draw_area_size.x` and `draw_area_offset`. Hit tests, dragging and drawing all depend on
  it through that parameter.
- The older `SDL_AppIterate`: only its first-frame set-up (`Legacy.AppState.FirstFrame`) is modelled. The
  drawing, `update_background` and the viewport and projection set by `recalc_drawing_area` are not modelled.
- Empty vertex lists: `make_vertex_buffer` of a vec2 or vec4 list (src/gl_helper.cpp:137, 141) takes
  `&vertex[0].x`, which is undefined for an empty list, as from `make_text("")`. GlHelper.MakeVertexBuffer2 and
  GlHelper.MakeVertexBuffer4 accept an empty list and upload no floats.
- Legacy.CreateShape: the `sides`, `center` and `line_thickness` fields of the older `Shape` are never set and
  never read, so they are not modelled. Its `make_fill` and `make_line` only differ from those of
  src/geometry.cpp in the type of the loop counter, and the model uses `Geometry.MakeFill` and
  `Geometry.MakeLine` for both.
