# Cooling stand mesh kit and lens cover, in Dafny

This project models two small CAD generators.

The cooling-stand generators `gen_stl.py` and `gen_stl_v2.py` build STL triangle meshes for a network-switch cooling stand. They use three mesh primitives:
- `make_box`, which realises a fixed 12-triangle face table over the 8 corners.
- `make_cylinder`, which gives 4 triangles per angular segment.
- `make_ring`, which gives 8 triangles per segment.

The scripts place these primitives from a table of dimensions. They concatenate them with `combine`, split the stand at `SPLIT_Z` into a lower part A and an upper part B, and re-express part B with the split plane at z = 0. The second script also flips part B upside down for printing with `flip_z`.

The lens-cover generator `create_lens.py` derives a flange box and an insert box from a light-slot size, fuses them, and writes a STEP file. The fuse and the write can each fail.

Modules:
- `MeshKit` (meshkit.dfy): points, triangles, the numpy-stl `vectors` buffer as an `array2<Point>`, and `combine`. It also has translation along z, height bounds, and faces over vertex labels with their directed edges, which are used to state that a mesh is closed and consistently wound.
- `Primitives` (primitives.dfy): the three builders. Each is a method that fills a fresh buffer, proved equal to a specification mesh. That mesh is a face list over vertex labels realised by a placement. The proofs cover counts, z-levels, side planes, translation, and closure on the labels.
- `MeshFlip` (flip.dfy): `flip_z` as a method over a copied buffer, with its functional specification, its involution, and the normal it produces.
- `Layout` (layout.dfy): a part is the list of `make_*` calls in the order the script appends them (`Prim`). `Model` is `combine` of the rendered list, and `Assemble` is the script's append loop followed by `combine`.
- `Stand` (stand.dfy): the dimension table shared by both scripts and the groups of primitives both scripts place the same way.
- `StandV1` (stand_v1.dfy): the first script's full model, part A and part B.
- `StandV2` (stand_v2.dfy): the second script's part A and part B, with part B's print flip.
- `LensCover` (lens.dfy): the lens-cover dimensions and its failure paths: a box the builder rejects, a failed fuse, a failed write.

Coordinates are exact reals. The rim offsets `(r cos a_i, r sin a_i)` of cylinders and rings are an abstract function `rim(r, n, i)`. Every result holds for every such function.

The source disagrees with itself in two places, and in both the model follows the code:
- In gen_stl.py the comment on `LEG_X` (line 78) says 109.2, but the expression evaluates to 226.4/2 − 15 − 4 = 94.2, as `Stand.DerivedDimensions` states.
- In gen_stl_v2.py the comment at lines 155-156 says the fan rings and screw bosses sit on the shelf, but lines 159 and 163-166 place them at `shelf_z`, the shelf's bottom (line 150), with the shelf's thickness. They occupy the shelf's own slab, as `StandV2.FanMountInShelfSlab` states.

## Model

| member | source | states |
|---|---|---|
| MeshKit.Triangles | usw-cooling-stand/scad/gen_stl.py:26-29 | a `vectors` buffer of shape (count, 3) holds `count` triangles, vertex j of triangle i being `vectors[i][j]` |
| MeshKit.ToBuffer | usw-cooling-stand/scad/gen_stl.py:52-55 | filling a fresh `np.zeros` buffer row by row yields exactly the triangle list, in order |
| MeshKit.Combine | usw-cooling-stand/scad/gen_stl.py:58-59 | the combined mesh has as many triangles as the inputs together |
| MeshKit.TotalCountAppend | usw-cooling-stand/scad/gen_stl.py:58-59 | the total triangle count of two lists of meshes is the sum of their totals |
| MeshKit.CombineAppend | usw-cooling-stand/scad/gen_stl_v2.py:69-70 | combining a + b is combining a, then b, concatenated |
| MeshKit.CombineAt | usw-cooling-stand/scad/gen_stl_v2.py:69-70 | triangle k of input i lands at position (count of inputs before i) + k: each input's triangles are kept in order and inputs in list order |
| MeshKit.CombineMember | usw-cooling-stand/scad/gen_stl.py:58-59 | a triangle is in the result exactly when it is in one of the inputs |
| MeshKit.Translate | usw-cooling-stand/scad/gen_stl.py:177-193 | moving a mesh by dz keeps its count and every vertex's x and y, and adds dz to every z |
| MeshKit.TranslateCombine | usw-cooling-stand/scad/gen_stl.py:177-193 | translating a combined mesh equals combining the translated inputs |
| MeshKit.CombineWithin | usw-cooling-stand/scad/gen_stl.py:58-59 | if every input lies within heights [lo, hi], so does the combination |
| MeshKit.RealizeWithin | usw-cooling-stand/scad/gen_stl.py:11-29 | a mesh built from a face table over vertices that all lie within [lo, hi] lies within [lo, hi] |
| MeshKit.RealizeLift | usw-cooling-stand/scad/gen_stl.py:11-29 | raising every vertex by dz raises the built mesh by dz |
| MeshKit.EdgesExactlyOnce | usw-cooling-stand/scad/gen_stl_v2.py:13-17 | in a closed, consistently wound face table (proper triangles, distinct directed edges, every reverse present) each occurring directed edge, and its reverse, occurs exactly once |
| Primitives.BoxFaces | usw-cooling-stand/scad/gen_stl_v2.py:13-17 | the 12-entry face table of make_box, over corner labels 0-7, in the source's order |
| Primitives.BoxCorners | usw-cooling-stand/scad/gen_stl_v2.py:6-12 | the eight `verts` in the source's order, each a corner of [cx±w/2]×[cy±d/2]×[cz, cz+h]; corners 0-3 lie at z = cz and 4-7 at z = cz+h |
| Primitives.BoxMesh | usw-cooling-stand/scad/gen_stl_v2.py:5-22 | the box mesh is the face table realised over the corners [cx±w/2]×[cy±d/2]×{cz, cz+h}, 12 triangles |
| Primitives.BoxFacesProper | usw-cooling-stand/scad/gen_stl_v2.py:13-17 | no face of the box table repeats a corner |
| Primitives.MakeBox | usw-cooling-stand/scad/gen_stl_v2.py:5-22 | `make_box` fills a fresh 12-row buffer with the box mesh: row i holds the corners named by face i of the table |
| Primitives.BoxShape | usw-cooling-stand/scad/gen_stl_v2.py:5-22 | the box mesh has exactly 12 triangles and every vertex is one of the 8 corners of [cx±w/2]×[cy±d/2]×[cz, cz+h] |
| Primitives.BoxSides | usw-cooling-stand/scad/gen_stl.py:17-24 | triangles 0-1 lie on z = cz ("bottom"), 2-3 on z = cz+h ("top"), 4-5 on y = cy−d/2 ("front"), 6-7 on y = cy+d/2 ("back"), 8-9 on x = cx−w/2 ("left"), 10-11 on x = cx+w/2 ("right") |
| Primitives.BoxLift | usw-cooling-stand/scad/gen_stl.py:7-9 | a box built dz higher is the same box translated by dz |
| Primitives.BoxTableClosed | usw-cooling-stand/scad/gen_stl_v2.py:13-17 | in the box face table no face repeats a corner, no directed edge occurs twice and the reverse of every directed edge occurs: the box is closed and consistently wound |
| Primitives.NextIsMod | usw-cooling-stand/scad/gen_stl_v2.py:28 | the next rim index is `(i+1) % n`, so segment n−1 wraps to rim point 0 |
| Primitives.CylinderFaces | usw-cooling-stand/scad/gen_stl.py:37-50 | the cylinder's faces in emission order, four per segment (bottom cap, top cap, two side triangles), 4n in all |
| Primitives.CylinderPlace | usw-cooling-stand/scad/gen_stl.py:38-43 | where each vertex label lands: the centres on the axis (cx, cy), rim point i at offset rim(r, n, i) from it; bottom labels at z = cz, top labels at z = cz+h |
| Primitives.CylinderMesh | usw-cooling-stand/scad/gen_stl.py:32-50 | the cylinder mesh: the face list realised with centres at (cx, cy) and rim points at offset rim(r, n, i) on z = cz and z = cz+h, 4n triangles |
| Primitives.MakeCylinder | usw-cooling-stand/scad/gen_stl.py:32-56 | `make_cylinder` appends four triangles per segment and fills a fresh buffer with exactly the cylinder mesh |
| Primitives.CylinderSegment | usw-cooling-stand/scad/gen_stl.py:44-50 | the four triangles one loop pass appends: a bottom cap at z = cz, a top cap that is the bottom cap lifted by h with the opposite winding, and a side quad from z = cz to cz+h split along the diagonal both side triangles share |
| Primitives.CylinderMeshAt | usw-cooling-stand/scad/gen_stl_v2.py:27-34 | triangles 4i .. 4i+3 of the cylinder are segment i's bottom cap, top cap and two side triangles, built from rim points i and (i+1) % n |
| Primitives.CylinderCapsAt | usw-cooling-stand/scad/gen_stl.py:44-47 | segment i's bottom-cap triangle lies at z = cz, and its top-cap triangle is the bottom one lifted by h with the opposite winding |
| Primitives.CylinderShape | usw-cooling-stand/scad/gen_stl.py:32-56 | the cylinder has exactly 4n triangles; bottom caps lie at z = cz and top caps at z = cz+h, with top rim points equal to the bottom ones lifted by h; the last segment closes on rim point 0 |
| Primitives.CylinderLift | usw-cooling-stand/scad/gen_stl.py:32-50 | a cylinder built dz higher is the same cylinder translated by dz |
| Primitives.CylinderClosed | usw-cooling-stand/scad/gen_stl.py:37-50 | for n ≥ 3 no face repeats a vertex, every directed edge of the cylinder occurs once and its reverse occurs: the mesh is closed and consistently wound |
| Primitives.RingFaces | usw-cooling-stand/scad/gen_stl_v2.py:45-62 | the ring's faces in emission order, eight per segment (top pair, bottom pair, outer wall, inner wall), 8n in all |
| Primitives.RingPlace | usw-cooling-stand/scad/gen_stl_v2.py:46-50 | where each vertex label lands: outer rim point i at offset rim(r_outer, n, i) from (cx, cy), inner at rim(r_inner, n, i); bottom labels at z = cz, top labels at z = cz+h |
| Primitives.RingMesh | usw-cooling-stand/scad/gen_stl_v2.py:41-62 | the ring mesh: the face list realised with outer and inner rim points at offsets rim(r_outer, n, i) and rim(r_inner, n, i) from (cx, cy), 8n triangles |
| Primitives.MakeRing | usw-cooling-stand/scad/gen_stl_v2.py:41-67 | `make_ring` appends eight triangles per segment and fills a fresh buffer with exactly the ring mesh |
| Primitives.RingSegment | usw-cooling-stand/scad/gen_stl_v2.py:51-62 | the eight triangles one loop pass appends: the top pair at z = cz+h, the bottom pair at z = cz, each pair split along a shared diagonal, the outer wall on the outer rim points only and the inner wall on the inner ones only |
| Primitives.RingMeshAt | usw-cooling-stand/scad/gen_stl_v2.py:45-62 | triangles 8i .. 8i+7 are segment i's top pair, bottom pair, outer wall and inner wall, built from outer and inner rim points i and (i+1) % n |
| Primitives.RingShape | usw-cooling-stand/scad/gen_stl_v2.py:41-66 | the ring has exactly 8n triangles, for every n; in every segment the first two triangles (top annulus) lie at z = cz+h and the next two (bottom annulus) at z = cz |
| Primitives.RingLift | usw-cooling-stand/scad/gen_stl_v2.py:41-62 | a ring built dz higher is the same ring translated by dz |
| Primitives.RingClosed | usw-cooling-stand/scad/gen_stl_v2.py:45-62 | for n ≥ 3 no face repeats a vertex, every directed edge of the ring occurs once and its reverse occurs: the annulus is closed and consistently wound |
| MeshFlip.FlipZ | usw-cooling-stand/scad/gen_stl_v2.py:72-79 | `flip_z` returns a fresh buffer holding every triangle mirrored to z ↦ max_z − z with its vertex order reversed, and leaves its input unchanged |
| MeshFlip.FlipMesh | usw-cooling-stand/scad/gen_stl_v2.py:72-79 | the value flip_z computes: every triangle (a, b, c) becomes (c′, b′, a′) with z ↦ max_z − z, the count kept |
| MeshFlip.FlipShape | usw-cooling-stand/scad/gen_stl_v2.py:74-78 | flipping keeps the count; vertex j of a flipped triangle has the x and y of vertex 2−j of the original and height max_z minus its height |
| MeshFlip.FlipTwice | usw-cooling-stand/scad/gen_stl_v2.py:72-79 | flipping twice about the same max_z gives back the original mesh |
| MeshFlip.FlipNormal | usw-cooling-stand/scad/gen_stl_v2.py:76-78 | the normal (b−a)×(c−a) of a flipped triangle is the original normal with its z component negated: outward normals stay outward |
| MeshFlip.FlipWithin | usw-cooling-stand/scad/gen_stl_v2.py:197-199 | a mesh within heights [0, max_z] stays within [0, max_z] when flipped about max_z |
| Layout.RenderCount | usw-cooling-stand/scad/gen_stl_v2.py:5-67 | a `make_*` call yields 12 triangles for a box, 4n for a cylinder, 8n for a ring |
| Layout.Render | usw-cooling-stand/scad/gen_stl_v2.py:5-67 | the mesh a make_box, make_cylinder or make_ring call returns, for its arguments |
| Layout.Shift | usw-cooling-stand/scad/gen_stl.py:187-222 | the same call with its base height moved by dz: bottom and top move by dz and the triangle count is kept |
| Layout.Model | usw-cooling-stand/scad/gen_stl.py:147 | a part's mesh: combine of its calls' meshes in list order |
| Layout.RenderShift | usw-cooling-stand/scad/gen_stl_v2.py:5-67 | raising a call's base height by dz translates its mesh by dz |
| Layout.RenderWithin | usw-cooling-stand/scad/gen_stl_v2.py:5-67 | a call of non-negative height yields a mesh between its bottom cz and its top cz+h |
| Layout.ModelCount | usw-cooling-stand/scad/gen_stl.py:147-149 | a part's mesh has as many triangles as its calls' counts add up to |
| Layout.ModelAppend | usw-cooling-stand/scad/gen_stl.py:94-147 | the mesh of two call lists appended is their two meshes concatenated |
| Layout.ModelWithin | usw-cooling-stand/scad/gen_stl.py:94-147 | a part whose calls all lie within [lo, hi] has its whole mesh within [lo, hi] |
| Layout.ModelShift | usw-cooling-stand/scad/gen_stl.py:187-222 | a part made of calls shifted by dz is the unshifted part's mesh translated by dz |
| Layout.MakePrim | usw-cooling-stand/scad/gen_stl_v2.py:5-67 | each `make_*` call fills a fresh buffer with that call's mesh |
| Layout.Assemble | usw-cooling-stand/scad/gen_stl.py:94-147 | appending the calls' meshes in list order and combining them yields the part's model |
| Stand.DerivedDimensions | usw-cooling-stand/scad/gen_stl.py:64-89 | PLAT_W = 226.4, PLAT_D = 100, SLOT_W = 46.7, LEG_X = 94.2, CRADLE_Z = 220, F1X = −45, F2X = 45, TENON_W = 24, TENON_D = 6 |
| Stand.Rails | usw-cooling-stand/scad/gen_stl.py:97-98 | the two floor rails, boxes PLAT_W × RAIL_DEPTH × 4 at y = ∓RAIL_OFFSET |
| Stand.Leg | usw-cooling-stand/scad/gen_stl.py:101-103 | a leg box LEG_W × RAIL_DEPTH × h at (lx, s·RAIL_OFFSET), from cz |
| Stand.Legs | usw-cooling-stand/scad/gen_stl.py:101-103 | the four legs in the order of the `lx`, `s` loops |
| Stand.Tenon | usw-cooling-stand/scad/gen_stl.py:166-171 | a tenon box TENON_W × TENON_D × TENON_H at the leg's (lx, s·RAIL_OFFSET), from SPLIT_Z |
| Stand.Tenons | usw-cooling-stand/scad/gen_stl.py:169-171 | the four tenons in the order of the legs |
| Stand.Braces | usw-cooling-stand/scad/gen_stl.py:107-108 | the two braces, boxes 4 × 2·RAIL_OFFSET × 10 at x = ∓LEG_X, from height z |
| Stand.Shelf | usw-cooling-stand/scad/gen_stl.py:111 | the fan shelf, a box PLAT_W × PLAT_D × SHELF_T centred on the axis, from height z |
| Stand.Post | usw-cooling-stand/scad/gen_stl.py:122-125 | a corner post POST × POST × CABLE_GAP at (dx·SW_W/2, dy·(SLOT_W/2 + WALL/2)), from height z |
| Stand.Posts | usw-cooling-stand/scad/gen_stl.py:122-125 | the four posts in the order of the `dx`, `dy` loops |
| Stand.Cradle | usw-cooling-stand/scad/gen_stl.py:127-142 | the six cradle boxes in source order: front and back wall, front and back lip, two end stops, all from height z |
| Stand.GroupsShift | usw-cooling-stand/scad/gen_stl.py:187-222 | moving the brace, shelf, post and cradle groups' base height by dz moves each of their calls by dz |
| Stand.TenonOnLeg | usw-cooling-stand/scad/gen_stl.py:164-171 | a tenon starts on top of the lower leg at the same (lx, s), with its footprint strictly inside the leg's (3 mm in at the sides, 1 mm at the faces), and ends at SPLIT_Z + TENON_H |
| Stand.CountsOfGroups | usw-cooling-stand/scad/gen_stl.py:96-142 | rails 24, legs 48, tenons 48, braces 24, posts 48 and cradle 72 triangles |
| Stand.GroupsSpan | usw-cooling-stand/scad/gen_stl.py:96-142 | the height range of each group: rails [0, 4], legs [cz, cz+h], braces [z, z+10], shelf [z, z+SHELF_T], posts [z, z+CABLE_GAP], cradle [z, z+WALL_H] with the walls reaching the top |
| StandV1.BossesShift | usw-cooling-stand/scad/gen_stl.py:196-200 | the screw bosses of part B are those of the full model at local_shelf_z instead of SHELF_Z − SHELF_T |
| StandV1.Boss | usw-cooling-stand/scad/gen_stl.py:119 | one screw boss: a 16-segment cylinder of radius 5 spanning [z, z + SHELF_T], centred dx·71.5/2 from the fan centre in x and dy·71.5/2 in y |
| StandV1.Bosses | usw-cooling-stand/scad/gen_stl.py:115-119 | the eight bosses in loop order (fx outer, dx, dy inner): fan 1's four then fan 2's, each at (fan x ∓ 35.75, ∓35.75), all radius 5, 16 segments, spanning [z, z + SHELF_T] |
| StandV1.FullModel | usw-cooling-stand/scad/gen_stl.py:94-142 | the full model's 27 calls in append order; exactly calls 9-16 (the screw bosses) are cylinders and none is a ring |
| StandV1.PartA | usw-cooling-stand/scad/gen_stl.py:157-171 | part A's 10 calls: rails, legs cut at SPLIT_Z, tenons, all boxes |
| StandV1.PartB | usw-cooling-stand/scad/gen_stl.py:177-222 | part B's 25 calls in append order, heights less SPLIT_Z; exactly calls 7-14 (the bosses) are cylinders |
| StandV1.FullGroups | usw-cooling-stand/scad/gen_stl.py:100-142 | the full model's calls 2-5 are the legs, 6-7 the braces, 8 the shelf, 17-20 the posts, 21-26 the cradle |
| StandV1.BossesFacts | usw-cooling-stand/scad/gen_stl.py:115-119 | the eight 16-segment bosses have 512 triangles and span [z, z + SHELF_T]; placed at SHELF_Z − SHELF_T they occupy the shelf's own slab |
| StandV1.UpperShift | usw-cooling-stand/scad/gen_stl.py:187-222 | part B's brace, shelf, bosses, posts and cradle are the full model's moved down by SPLIT_Z |
| StandV1.PartBIsFullShifted | usw-cooling-stand/scad/gen_stl.py:106-142 | calls 4.. of part B are calls 6.. of the full model shifted down by SPLIT_Z |
| StandV1.PartBMeshIsFullShifted | usw-cooling-stand/scad/gen_stl.py:179-222 | from triangle 48 on, part B's mesh is the full model's mesh from triangle 72 on, translated down by SPLIT_Z |
| StandV1.LegsSplitAtSplitZ | usw-cooling-stand/scad/gen_stl.py:162-185 | each full leg is cut at SPLIT_Z: part A keeps [0, SPLIT_Z] and part B's upper leg, put back at SPLIT_Z, spans [SPLIT_Z, FLOOR_CLEAR] |
| StandV1.TenonsSeated | usw-cooling-stand/scad/gen_stl.py:164-175 | every tenon of part A starts at SPLIT_Z on top of its lower leg, strictly inside the leg's footprint, and part A lies within [0, SPLIT_Z + TENON_H] with the tenons reaching that top |
| StandV1.Counts | usw-cooling-stand/scad/gen_stl.py:147-226 | part A has 120 triangles, the full model 740 and part B 716 |
| StandV1.PartBGroupsSpan | usw-cooling-stand/scad/gen_stl.py:179-222 | in part B the upper legs span [0, 80], brace to posts span [82.5, 140] and the cradle spans [145, 215] |
| StandV1.PartBHeightIsTop | usw-cooling-stand/scad/gen_stl.py:209-226 | the reported part B height CRADLE_Z − SPLIT_Z + WALL_H = 215 bounds every call and the mesh, and the cradle walls reach it |
| StandV1.FullHeight | usw-cooling-stand/scad/gen_stl.py:227-228 | the reported assembled height CRADLE_Z + WALL_H = 290 bounds every call of the full model and its mesh, and the cradle walls reach it |
| StandV1.UpperLegsDetached | usw-cooling-stand/scad/gen_stl.py:179-194 | as written, part B's upper legs end at 80 while everything else in the part starts at 82.5 or higher; the full model has the same gap (legs end at 155, brace at 157.5, shelf at 160) |
| StandV1.CradleDetached | usw-cooling-stand/scad/gen_stl.py:203-212 | as written, nothing below the cradle in part B rises above 140, while the cradle starts at 145; the full model has the same gap (posts end at 215, cradle at 220) |
| StandV2.PrintPartB | usw-cooling-stand/scad/gen_stl_v2.py:190-199 | part B is assembled from its call list, then flipped about total_b_h for printing |
| StandV2.PartA | usw-cooling-stand/scad/gen_stl_v2.py:119-125 | part A's 10 calls: rails, then each lower leg followed by its tenon, all boxes |
| StandV2.FanMount | usw-cooling-stand/scad/gen_stl_v2.py:157-166 | one fan's calls: a 48-segment ring around the hole, then four 16-segment screw bosses |
| StandV2.Boss | usw-cooling-stand/scad/gen_stl_v2.py:161-166 | one screw boss: a 16-segment cylinder of radius FAN_SCREW_R + 3 spanning [z, z + SHELF_T], centred dx·FAN_SCREW_SPACING/2 from the fan centre in x and dy·FAN_SCREW_SPACING/2 in y |
| StandV2.PartB | usw-cooling-stand/scad/gen_stl_v2.py:135-188 | part B's 27 calls in append order; calls 7 and 12 are the rings, 8-11 and 13-16 the boss cylinders, the rest boxes |
| StandV2.Heights | usw-cooling-stand/scad/gen_stl_v2.py:138-194 | upper_leg_h = shelf_z = 85, brace_z = 42.5, shelf_top = 90, cz = 140 and total_b_h = 210 |
| StandV2.PartAReordersV1 | usw-cooling-stand/scad/gen_stl_v2.py:119-125 | part A has the same ten boxes as the first script's, with each tenon moved directly after its leg |
| StandV2.TenonsSeated | usw-cooling-stand/scad/gen_stl_v2.py:122-125 | each tenon starts at SPLIT_Z on top of the leg appended just before it, strictly inside its footprint |
| StandV2.FanMountFacts | usw-cooling-stand/scad/gen_stl_v2.py:157-166 | one fan's 48-segment ring and four 16-segment bosses have 640 triangles and span [z, z + SHELF_T]; placed at shelf_z they occupy the shelf's own slab, not its top face |
| StandV2.FanMountInShelfSlab | usw-cooling-stand/scad/gen_stl_v2.py:150-166 | every ring and boss of a fan is placed at shelf_z, the shelf's bottom: it starts where the shelf starts, below the shelf top, and ends at the shelf top, so it lies inside the shelf's slab rather than on it |
| StandV2.PartBGroups | usw-cooling-stand/scad/gen_stl_v2.py:135-188 | part B's calls are, in order: 4 upper legs, 2 braces, the shelf, 10 fan-mount calls, 4 posts and 6 cradle boxes |
| StandV2.UpperLegsMeetShelf | usw-cooling-stand/scad/gen_stl_v2.py:137-153 | the upper legs run from the split plane exactly to the bottom of the shelf |
| StandV2.PostsCarryCradle | usw-cooling-stand/scad/gen_stl_v2.py:168-188 | the corner posts stand on the shelf top and reach exactly the bottom of the cradle |
| StandV2.PartBWithin | usw-cooling-stand/scad/gen_stl_v2.py:190-199 | every part B call and the assembled mesh lie within [0, total_b_h]; the cradle walls reach total_b_h; the printed mesh also lies within [0, total_b_h]; flipping it back gives the assembled mesh |
| StandV2.Counts | usw-cooling-stand/scad/gen_stl_v2.py:119-191 | part A has 120 triangles and part B 1484 |
| LensCover.CreateLensCover | tools/create_lens.py:41-81 | the cover is the flange and insert blocks exactly when both pass the box builder's tolerance and the fuse is done; otherwise the first failure in source order: the rejected flange, the rejected insert, or the fuse error |
| LensCover.BoxesAccepted | tools/create_lens.py:52-73 | both boxes pass the builder's tolerance exactly when slot ± 2·clearance, slot + 2·lip, FLANGE_THICKNESS and INSERT_DEPTH all exceed it |
| LensCover.Flange | tools/create_lens.py:56-65 | the flange block: corner (−flange_w/2, −flange_h/2, 0), extents flange_w × flange_h × FLANGE_THICKNESS |
| LensCover.Insert | tools/create_lens.py:51-73 | the insert block: corner (−insert_w/2, −insert_h/2, FLANGE_THICKNESS), extents insert_w × insert_h × INSERT_DEPTH |
| LensCover.Run | tools/create_lens.py:122-126 | `main`: create the cover, then save it; the first failure ends the run |
| LensCover.SaveStep | tools/create_lens.py:95-102 | saving succeeds exactly when the writer returns status 1, and otherwise reports the path and the status |
| LensCover.RunOutcome | tools/create_lens.py:105-127 | a run saves the file exactly when both boxes are built, the fuse is done and the writer returns 1; a rejected box or failed fuse is reported before any write |
| LensCover.Footprints | tools/create_lens.py:51-73 | the insert leaves `clearance` to each side of the centred slot, and the flange overhangs it by `lip` on each side |
| LensCover.Stacking | tools/create_lens.py:59-73 | the flange spans z ∈ [0, FLANGE_THICKNESS]; the insert starts on top of it and ends at FLANGE_THICKNESS + INSERT_DEPTH |
| LensCover.InsertInsideFlange | tools/create_lens.py:51-73 | the insert footprint is strictly inside the flange's exactly when CLEARANCE + FLANGE_LIP > 0 |
| LensCover.DefaultCover | tools/create_lens.py:24-38 | with the configured values the insert is 39.8 × 9.8, the flange 42 × 12, the total depth 2.8, the insert strictly inside the flange, both boxes accepted by the builder, and the slot 40 × 10 as the case modifier cuts it |

## Left out

- Floating point: numpy-stl stores coordinates as float32. The model uses exact reals, so the flip involution and every height equality are claimed only over reals.
- `np.cos`, `np.sin` and `np.linspace`: rim offsets are an abstract function of (radius, segment count, index). Nothing is claimed about rim points lying on a circle.
- Segment counts are `nat`: `np.linspace` raises on a negative count, and the model takes n ≥ 0 as given. Every call in the scripts passes 16 or 48.
- The `normals` field of mesh records: the scripts leave it to the mesh library, which recomputes normals itself, and it is not modelled. `MeshFlip.FlipNormal` states the normal the winding defines instead.
- `make_ring` does not check that the inner radius is below the outer one, and the model adds no such check.
- `mesh.save`, the output paths and every `print`: file and console I/O. The triangle counts the scripts print, part A's height (`StandV1.TenonsSeated`), part B's height (`StandV1.PartBHeightIsTop`, `StandV2.PartBWithin`) and the first script's assembled height (`StandV1.FullHeight`) are stated as lemmas.
- The full reference model at the end of gen_stl_v2.py (lines 204-244): it is an export of the same stand for viewing, outside the part A / part B layout that is modelled.
- The OCP calls in create_lens.py: the two boxes are modelled as their corner and extents, with the box builder's rejection of an extent whose magnitude is not above its tolerance (Precision::Confusion, 1e-7, a constant of the modelling kernel rather than of this repository), modelled conservatively as extent > Confusion: a negative extent, which the kernel would flip, is treated as rejected. Every configuration the script ships has positive extents, so its outcomes are the same. Whether the fuse is done and the writer's status are parameters. `print_dimensions` (a bounding-box printout) is left out.
- cooling_stand_viewer.jsx (the 3D viewer) and modify_step.py (STEP boolean cuts through OCP) are not part of this model. Only the slot size the case modifier cuts is used, in `LensCover.DefaultCover`.
- LensCover.CreateLensCover: a box with a negative extent is reported as `BoxRejected`, where the kernel would flip it and build the box; only non-positive configurations are affected, and the shipped one is not.
- MeshKit.Combine: concatenation is modelled on triangles. The extra per-record fields of `m.data` (normals, attributes) are not carried.
- MeshKit.Combine: `np.concatenate` raises ValueError on an empty list, while the model returns the empty mesh. Every `combine` call in both scripts gets a literal, non-empty list of calls (10 to 27), so no modelled part reaches that path.

## Findings

The two rows below are gaps in the first script's part B. The split did not introduce them. The same 5 mm gaps are in that script's full model. The 3D viewer the script says it matches uses the same formulas, and so does the second script's full reference model. The "evidently intended" column is the part B redesign of gen_stl_v2.py, which closes both gaps. It is not a correction that the first script's comments ask for.

| source | as written | input that shows it | evidently intended | confidence | as-written member | corrected member |
|---|---|---|---|---|---|---|
| usw-cooling-stand/scad/gen_stl.py:179-185 | part B's upper legs are `FLOOR_CLEAR − SPLIT_Z` = 80 tall, so they end at local z = 80, as the full model's legs end at 155 (line 103) | the script's own constants: the brace starts at 82.5 and the shelf at 85 in part B (157.5 and 160 assembled), so neither touches the legs | in the second script's part B redesign, the legs reach the shelf bottom, `SHELF_Z − SHELF_T − SPLIT_Z` = 85 (gen_stl_v2.py:138) | medium, not executed | StandV1.UpperLegsDetached | StandV2.UpperLegsMeetShelf |
| usw-cooling-stand/scad/gen_stl.py:82 | `CRADLE_Z = SHELF_Z + SHELF_T + CABLE_GAP` adds the shelf thickness on top of SHELF_Z, which is already the shelf top where the posts start (lines 124-125) | the script's own constants: the posts end at 140 in part B (215 assembled) and the cradle starts at 145 (220) | in the second script's part B redesign, the cradle rests on the posts at shelf top + CABLE_GAP (gen_stl_v2.py:169-176) | medium, not executed | StandV1.CradleDetached | StandV2.PostsCarryCradle |
