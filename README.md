# VMF reader/writer — a verified model

This project models the Valve Hammer map format (VMF) provider of the Sledge
editor, `Sledge.Providers/Map/VmfProvider.cs`. The provider turns a parsed
block tree into the editor's object tree and writes it back. Each block in
the tree is a `GenericStructure`: a name, ordered key/value properties and
ordered child blocks. The object tree holds solids with faces and
displacements, entities, groups, the world, and visgroups.

The modules follow the provider's structure:

- `Wrappers`: `Option` and `Result`, and `AllOf`. `AllOf` models a writer
  loop that stops at the first exception.
- `Text`: integers as decimal text.
- `Structure`: the block tree as the datatype `Node`, with the indexer
  `node[key]`, `AddProperty`, `GetChildren` and `PropertyInteger`.
- `Geometry`: coordinates, planes, colours and textures. It also holds the
  `Env` record of collaborator functions whose code is not part of this
  model.
- `MapObjects`: faces, solids, entities, groups, the world, visgroups and
  the map.
- `Ids`: the `IDGenerator` as a class with two counters, and `GetObjectID`.
- `Records`: entity data, the `editor` block, and visgroups.
- `Displacement`: `ReadDisplacement`.
- `Faces`: `ReadFace` and `WriteFace`, `ReadSolid` and `WriteSolid`.
- `Entities`: `ReadEntity` and `WriteEntity`, `ReadGroup` and `WriteGroup`.
- `GroupLinks`: the group-tree loop of `ReadWorld`.
- `Scene`: the rest of `ReadWorld`, and the assembly step of
  `GetFromStream`.
- `Save`: `FlattenTree`, `WriteWorld`, and the block list of `SaveToStream`.
- `Reindex`: `Reindex`.
- `Clipboard`: `CreateCopyStream` and `ExtractCopyStream`.

Code that changes state step by step is modelled as methods:

- reading with an ID generator;
- the nested loops that fill the displacement grid;
- the face-matching loop of `ReadSolid`;
- the group-linking `while` loop;
- `Reindex`;
- `FlattenTree`.

Each such method is proved equal to a pure function that threads the
generator's counters. The properties are proved about that function.
Writers are functions returning `Result<Node, WriteError>`.
`WriteDisplacement` throws `NotImplementedException`, so writing a
displacement face is the failure `DisplacementUnsupported`. A face with
fewer than three vertices makes `WriteFace` index past the end of its
vertex list; that is the failure `TooFewVertices`.

Objects are values, and an object's `Parent` is recorded as the ID of the
object it refers to (`ParentLink`). `ReadWorld` adds top-level groups to the
world without setting their `Parent`, and only nested groups and solids get
one. The model keeps that quirk: a top-level group has `NoParent`.

Some of the provider's behaviour is easy to miss, and the model follows it:

- `ReadWorld` stops linking groups when no remaining group's owner has been
  placed. The groups left over are dropped, with no error
  (VmfProvider.cs:331-344).
- `ReadSolid` returns null when a rebuilt face matches no side. The only
  other effect is a `Debug.WriteLine` (VmfProvider.cs:199-205).
- When a solid has a displacement face, every other face of it gets
  `IsHidden` (VmfProvider.cs:222-225).
- `ReadSolid` and `ExtractCopyStream` create a new `IDGenerator`, whose
  counters start at 0 (VmfProvider.cs:190, 447).
- `WriteDisplacement` throws `NotImplementedException`
  (VmfProvider.cs:129-132).

The string properties `id`, `groupid`, `spawnflags`, `power` and
`visgroupid` are read as follows. A missing key gives the default (0, or 3
for `power`). Text that is not an optional `-` followed by decimal digits
also gives the default. `PropertyColour` reads three space-separated bytes,
and anything else gives the default. The indexer `node[key] = v` replaces
the first property with that key, or appends one when there is none.
`AddProperty` always appends.

## Model

| member | source | states |
|---|---|---|
| Ids.DrawObjectId | Sledge.Providers/Map/VmfProvider.cs:20-25 | a non-zero stored ID is kept and the counters are untouched exactly then; a stored 0 yields the next object ID, and only the object counter advances |
| Ids.GetObjectId | Sledge.Providers/Map/VmfProvider.cs:20-25 | the ID returned and the generator's new state are those `DrawObjectId` gives for the stored `id` and the old state |
| Ids.DrawFaceId | Sledge.Providers/Map/VmfProvider.cs:136-137 | the same rule for face IDs, drawing from the face counter and leaving the object counter alone |
| Ids.IdGenerator.NextObjectId | Sledge.Providers/Map/VmfProvider.cs:23 | returns one more than the last object ID and records it; the face counter is unchanged |
| Ids.IdGenerator.NextFaceId | Sledge.Providers/Map/VmfProvider.cs:137 | returns one more than the last face ID and records it; the object counter is unchanged |
| Ids.IdGenerator.constructor | Sledge.Providers/Map/VmfProvider.cs:190 | a fresh generator has handed out nothing, so its first IDs are 1 |
| Text.IntRoundTrip | Sledge.Providers/Map/VmfProvider.cs:158 | an ID written with `ToString` reads back as the same integer |
| Text.NumberedKeysDiffer | Sledge.Providers/Map/VmfProvider.cs:171-174 | the keys `vertex0`, `vertex1`, … are pairwise different, so no vertex overwrites another |
| Structure.Assign | Sledge.Providers/Map/VmfProvider.cs:72 | after `node[key] = v` the key reads `v` and every other key reads as before; an absent key is appended, and a present one is replaced in place |
| Structure.Lookup | Sledge.Providers/Map/VmfProvider.cs:62 | a key has a value exactly when some property carries it |
| Structure.Keys | Sledge.Providers/Map/VmfProvider.cs:60 | the property keys are distinct, and are exactly the keys that have a value |
| Structure.FirstChild | Sledge.Providers/Map/VmfProvider.cs:104-108 | `GetChildren(name).FirstOrDefault()` is present exactly when some child has that name, and is then such a child |
| Structure.Named | Sledge.Providers/Map/VmfProvider.cs:138 | `GetChildren(name)` keeps exactly the children with that name |
| Structure.PropertyInteger | Sledge.Providers/Map/VmfProvider.cs:64 | a missing key gives the default, and a well-formed integer gives its value |
| Structure.SetIntegerReadsBack | Sledge.Providers/Map/VmfProvider.cs:74 | an integer assigned with the indexer reads back with `PropertyInteger` |
| Structure.EditorOf | Sledge.Providers/Map/VmfProvider.cs:187 | the editor block used is an `editor` block, the first one or a blank one |
| Wrappers.AllOf | Sledge.Providers/Map/VmfProvider.cs:237-240 | a writer loop succeeds exactly when every step does, and then yields every step's block in order |
| Wrappers.AllOfFirstFailure | Sledge.Providers/Map/VmfProvider.cs:237-240 | when a writer loop fails, it fails with the error of the first step that throws, and all earlier steps succeeded |
| Wrappers.Filter | Sledge.Providers/Map/VmfProvider.cs:437-439 | `Where` and `OfType` keep exactly the elements that pass, each as often as it occurs in the input, and drop every other |
| Wrappers.FilterAppend | Sledge.Providers/Map/VmfProvider.cs:437-439 | filtering keeps the input's order: filtering a concatenation gives the filtered parts one after the other |
| Wrappers.FilterSingle | Sledge.Providers/Map/VmfProvider.cs:437-439 | a single element is kept exactly when it passes |
| Geometry.ColourRoundTrip | Sledge.Providers/Map/VmfProvider.cs:52-55 | a colour written by `FormatColor` reads back with `PropertyColour` as the same colour, whatever the default |
| Geometry.PropertyColour | Sledge.Providers/Map/VmfProvider.cs:193 | a missing `color` gives the default colour |
| Records.ReadEntityData | Sledge.Providers/Map/VmfProvider.cs:57-66 | one key/value per distinct property key, in the order the keys first appear, each with the key's value; the flags are `spawnflags` |
| Records.KeyValues | Sledge.Providers/Map/VmfProvider.cs:60-63 | the pairs of the given keys with their values, one per key and in order |
| Records.WriteEntityDataGet | Sledge.Providers/Map/VmfProvider.cs:68-75 | after writing, `spawnflags` reads the flags, a key among the key/values reads its last value, and any other key reads as before |
| Records.EntityDataRoundTrip | Sledge.Providers/Map/VmfProvider.cs:57-75 | entity data read from a block and written into a fresh block gives every key other than `spawnflags` its original value |
| Records.EditorProps | Sledge.Providers/Map/VmfProvider.cs:77-92 | the editor block's properties are `color`, one `visgroupid` per visgroup in order, `visgroupshown` and `visgroupautoshown` set to 1, then `groupid` exactly when the parent is a group |
| Records.EditorColourRoundTrip | Sledge.Providers/Map/VmfProvider.cs:80 | the object's colour reads back from its editor block |
| Records.EditorVisgroupsRoundTrip | Sledge.Providers/Map/VmfProvider.cs:81-84 | the visgroup IDs read back from the editor block in order, duplicates included |
| Records.EditorGroupRoundTrip | Sledge.Providers/Map/VmfProvider.cs:87-90 | `groupid` reads back as the parent group's ID, and as 0 when the parent is not a group |
| Records.EditorGroupLookup | Sledge.Providers/Map/VmfProvider.cs:87-90 | the `groupid` key is present exactly when the parent is a group |
| Records.AddVisgroupIds | Sledge.Providers/Map/VmfProvider.cs:81-84 | appends one `visgroupid` property per visgroup, keeping the name, the earlier properties and the children |
| Records.ParseAll | Sledge.Providers/Map/VmfProvider.cs:194 | one integer per string, in order, each the string's value when it is well formed |
| Records.VisgroupRoundTrip | Sledge.Providers/Map/VmfProvider.cs:412-431 | a visgroup written and read back has the same name, ID and colour, and is visible |
| Displacement.GridSize | Sledge.Providers/Map/VmfProvider.cs:103 | the grid has `Resolution + 1` points a side, at least one |
| Displacement.CoordRow | Sledge.Providers/Map/VmfProvider.cs:114 | a coordinate channel row has `size` entries whether or not the channel block is present |
| Displacement.DecimalRow | Sledge.Providers/Map/VmfProvider.cs:115 | a decimal channel row has `size` entries whether or not the channel block is present |
| Displacement.Points | Sledge.Providers/Map/VmfProvider.cs:119-124 | cell `j` of a row pairs column `j` of the normal and distance channels, column `j` of the offset channels, and alpha `j` |
| Displacement.Grid | Sledge.Providers/Map/VmfProvider.cs:111-125 | the grid has one row per index, row `i` built from row key `row<i>` of every channel |
| Displacement.FillGrid | Sledge.Providers/Map/VmfProvider.cs:111-125 | every cell (i, j) of a fresh size × size array holds the point built from row `i`, column `j` |
| Displacement.FillRow | Sledge.Providers/Map/VmfProvider.cs:119-124 | row `i` of the array receives the row's cells and every other row is unchanged |
| Displacement.ReadDisplacement | Sledge.Providers/Map/VmfProvider.cs:94-127 | the face returned is the displacement face of the given ID with the header and grid decoded from `dispinfo` |
| Displacement.CellsMakeGrid | Sledge.Providers/Map/VmfProvider.cs:111-125 | a size × size table whose every cell is the decoded point is the decoded grid |
| Displacement.DisplacementFaceShape | Sledge.Providers/Map/VmfProvider.cs:94-127 | the displacement face is a new face of that ID, with power (default 3), start position, elevation and `subdiv > 0` from the block, and a size × size grid of the decoded points |
| Displacement.AbsentChannelsReadZero | Sledge.Providers/Map/VmfProvider.cs:104-118 | when a channel block is missing, its part of every cell is zero (for example alpha 0), not a failure |
| Faces.DecodeFace | Sledge.Providers/Map/VmfProvider.cs:134-153 | a face is a displacement exactly when the side has a `dispinfo` block; its ID follows the face-ID rule; its material is the side's; it has no vertices, no parent and is shown |
| Faces.ReadFace | Sledge.Providers/Map/VmfProvider.cs:134-153 | the face and the generator's new state are those `DecodeFace` gives |
| Faces.VertexLoopProps | Sledge.Providers/Map/VmfProvider.cs:170-174 | the vertex loop from index `i` completes the `vertex<k>` properties, each vertex formatted, in order |
| Faces.VertexBlockProps | Sledge.Providers/Map/VmfProvider.cs:170-174 | the `vertex` block holds `vertex0` … `vertexN-1`, one per vertex in order |
| Faces.SideHeaderLookups | Sledge.Providers/Map/VmfProvider.cs:157-166 | the side block's `id` is the face ID as text and its `material` the texture name |
| Faces.SideBlockFields | Sledge.Providers/Map/VmfProvider.cs:155-183 | a written side reads back with the face's ID and material, and has no `dispinfo` block |
| Faces.SideBlockHasNoDisplacement | Sledge.Providers/Map/VmfProvider.cs:170-180 | a side written from a plain face has no `dispinfo` child |
| Faces.FaceRoundTrip | Sledge.Providers/Map/VmfProvider.cs:134-183 | a writable face (at least three vertices, not a displacement) written and read back keeps its ID when it was non-zero, drawing no new ID; it keeps its material and is not a displacement |
| Faces.PlanesOf | Sledge.Providers/Map/VmfProvider.cs:191 | the planes handed to the builder are the source faces' planes, in order |
| Faces.BuiltFaces | Sledge.Providers/Map/VmfProvider.cs:191 | one rebuilt face per polygon, with its plane and vertices |
| Faces.FirstMatch | Sledge.Providers/Map/VmfProvider.cs:199 | the first source face whose normal is equivalent, or none exactly when no source face's normal is |
| Faces.RebuiltFields | Sledge.Providers/Map/VmfProvider.cs:206-218 | a rebuilt face has the rebuilt plane and vertices, the solid as parent and the solid's colour; a displacement source keeps its ID, displacement and visibility and has its texture aligned to the new plane; a plain source lends only its texture |
| Faces.MatchOne | Sledge.Providers/Map/VmfProvider.cs:198-205 | one pass of the loop fails exactly when no source face in the list, as it stands, has an equivalent normal |
| Faces.MatchPrefix | Sledge.Providers/Map/VmfProvider.cs:196-220 | when the loop gets through, there is one face per rebuilt face and the source list keeps its length |
| Faces.MatchAll | Sledge.Providers/Map/VmfProvider.cs:196-220 | a completed match has one face per rebuilt face |
| Faces.RebuildFace | Sledge.Providers/Map/VmfProvider.cs:206-218 | the body of the matching loop for one face computes the rebuilt face |
| Faces.MatchFaces | Sledge.Providers/Map/VmfProvider.cs:196-220 | the loop that replaces faces in place, and through `disp.Plane = face.Plane` changes the displacement objects the source list holds, computes `MatchAll` |
| Faces.SourcesKept | Sledge.Providers/Map/VmfProvider.cs:196-220 | the loop changes only displacement sources, and each keeps its ID and displacement data |
| Faces.SourcesUnchanged | Sledge.Providers/Map/VmfProvider.cs:196-220 | with no displacement source, the source list is left as it was |
| Faces.MatchedFrom | Sledge.Providers/Map/VmfProvider.cs:196-220 | face k of a completed match is rebuilt from the first source whose normal is equivalent, in the list as the loop had left it on reaching k |
| Faces.RematchSeesNewPlane | Sledge.Providers/Map/VmfProvider.cs:199-209 | a displacement side takes the plane of the first rebuilt face it matches, so a later rebuilt face whose normal is not equivalent to that plane no longer finds it, and with no other side the solid is rejected |
| Faces.PlainSourcesMatchAsRead | Sledge.Providers/Map/VmfProvider.cs:196-220 | with no displacement source, the loop succeeds exactly when every rebuilt face has a source among the faces as read, and each face is rebuilt from its first such source |
| Faces.HideFlat | Sledge.Providers/Map/VmfProvider.cs:224 | every face is hidden exactly when it is not a displacement |
| Faces.HideFaces | Sledge.Providers/Map/VmfProvider.cs:222-225 | the hiding step computes its specification |
| Faces.HidesFlatFaces | Sledge.Providers/Map/VmfProvider.cs:222-225 | with a displacement present exactly the displacements are shown; otherwise the faces are left as they were |
| Faces.ReadFaces | Sledge.Providers/Map/VmfProvider.cs:188 | reads the sides in order, drawing face IDs as it goes |
| Faces.DecodeSolid | Sledge.Providers/Map/VmfProvider.cs:185-230 | an accepted solid has no parent, no children, and is neither visgroup-hidden nor code-hidden |
| Faces.ReadSolid | Sledge.Providers/Map/VmfProvider.cs:185-230 | the solid, or null, and the generator's new state are those `DecodeSolid` gives |
| Faces.MatchAllFails | Sledge.Providers/Map/VmfProvider.cs:196-205 | matching fails exactly when the loop reaches a rebuilt face for which no source face, in the list as earlier passes left it, has an equivalent normal |
| Faces.StuckFails | Sledge.Providers/Map/VmfProvider.cs:199-205 | once the loop reaches a rebuilt face that finds no source, the whole match fails |
| Faces.FailsWhereStuck | Sledge.Providers/Map/VmfProvider.cs:199-205 | a failed match has a rebuilt face at which the loop found no source, the earlier faces having matched |
| Faces.SolidRejectedIffUnmatched | Sledge.Providers/Map/VmfProvider.cs:185-205 | `ReadSolid` returns null exactly when the loop reaches a rebuilt face that finds no source |
| Faces.SolidFacesMatched | Sledge.Providers/Map/VmfProvider.cs:196-220 | each face of an accepted solid comes from its first match in the source list as the loop had left it. A displacement source replaces it, keeping its own ID and displacement, taking the rebuilt plane and vertices, and having its current texture aligned again. A plain source lends it its texture. Every face names the solid and has its colour |
| Faces.MatchedShown | Sledge.Providers/Map/VmfProvider.cs:196-220 | matching hides nothing, neither in the faces nor in the source list |
| Faces.SolidHidesFlatFaces | Sledge.Providers/Map/VmfProvider.cs:222-225 | in an accepted solid with a displacement, exactly the displacements are shown; without one, no face is hidden |
| Faces.WriteFaces | Sledge.Providers/Map/VmfProvider.cs:237-240 | writing the faces succeeds exactly when every face has at least three vertices and none is a displacement, and yields one side block per face in order |
| Faces.WriteSolidShape | Sledge.Providers/Map/VmfProvider.cs:232-253 | a solid whose faces can all be written is written. The written block is `hidden` exactly when the solid is visgroup-hidden, and wraps the `solid` block. That block holds one side per face then the editor block, and its `id` reads back as the solid's ID |
| Entities.DecodeSolids | Sledge.Providers/Map/VmfProvider.cs:266 | the solids kept are solids with no parent, at most one per block |
| Entities.DecodeSolidsAppend | Sledge.Providers/Map/VmfProvider.cs:266 | decoding two runs of blocks is decoding the first, then the second from the generator state the first leaves; the solids stay in block order |
| Entities.DecodeSolidsSnoc | Sledge.Providers/Map/VmfProvider.cs:266 | one more block at the end adds its solid after the others when it reads back and nothing otherwise, and the generator moves on either way |
| Entities.DecodeSolidsSingle | Sledge.Providers/Map/VmfProvider.cs:266 | a single block gives its solid when `ReadSolid` accepts it and nothing when it returns null, and the generator state `ReadSolid` leaves |
| Entities.DecodeSolidsStep | Sledge.Providers/Map/VmfProvider.cs:266 | the solids of the first i+1 blocks are those of the first i, then block i's solid if it reads back, read from the generator state the first i leave |
| Entities.ReadSolids | Sledge.Providers/Map/VmfProvider.cs:266 | reads the solids in order, skipping rejected ones, and computes `DecodeSolids` |
| Entities.DecodeEntity | Sledge.Providers/Map/VmfProvider.cs:255-269 | an entity with no parent, the block's `classname`, and the key/values the block carries |
| Entities.EntityChildren | Sledge.Providers/Map/VmfProvider.cs:257-266 | an entity's children are exactly its `solid` blocks decoded in order, from the generator state its own ID leaves, rejected ones skipped; the generator ends where the last block leaves it, and with no `solid` block there are no children and only the ID is drawn |
| Entities.ReadEntity | Sledge.Providers/Map/VmfProvider.cs:255-269 | the entity and the generator's new state are those `DecodeEntity` gives |
| Entities.DecodeGroup | Sledge.Providers/Map/VmfProvider.cs:290-297 | a group with no parent and no children, whose ID follows the object-ID rule |
| Entities.ReadGroup | Sledge.Providers/Map/VmfProvider.cs:290-297 | the group and the generator's new state are those `DecodeGroup` gives |
| Entities.PreorderAppend | Sledge.Providers/Map/VmfProvider.cs:282 | `SelectMany(x => x.FindAll())` over a concatenation is the pre-order of each part, one after the other |
| Entities.PreorderSingle | Sledge.Providers/Map/VmfProvider.cs:282 | `FindAll` on one object gives the object first, then everything beneath it in pre-order |
| Entities.SolidsOf | Sledge.Providers/Map/VmfProvider.cs:282 | `OfType<Solid>()` keeps exactly the solids, each as often as it occurs |
| Entities.SolidsOfAppend | Sledge.Providers/Map/VmfProvider.cs:282 | `OfType<Solid>()` keeps the order: the solids of a concatenation are those of each part, one after the other |
| Entities.WriteSolids | Sledge.Providers/Map/VmfProvider.cs:282-285 | writing the solids succeeds exactly when each one can be written, and yields one block per solid in order |
| Entities.EntityOriginWritten | Sledge.Providers/Map/VmfProvider.cs:277 | `origin` is the formatted origin exactly when the entity has no children; otherwise only what its key/values say |
| Entities.EntityIdWritten | Sledge.Providers/Map/VmfProvider.cs:274-276 | the written `id` is an `id` among the key/values when there is one, else the entity's ID |
| Entities.WriteEntityShape | Sledge.Providers/Map/VmfProvider.cs:271-288 | the entity block holds the editor block first, then one written solid per solid beneath the entity in pre-order. It fails exactly when one of those solids cannot be written |
| Entities.PointEntityRoundTrip | Sledge.Providers/Map/VmfProvider.cs:255-288 | an entity without solids is always written, and reads back with the same colour, visgroups and key/values, no children, and its own non-zero ID unless a key/value overrides it |
| Entities.GroupRoundTrip | Sledge.Providers/Map/VmfProvider.cs:290-308 | a group reads back with its colour, visgroups and non-zero ID, drawing no new ID, and its editor names its parent group |
| GroupLinks.FirstIndex | Sledge.Providers/Map/VmfProvider.cs:338 | the position of the first linked group with the ID, or none exactly when no linked group has it |
| GroupLinks.IdsOf | Sledge.Providers/Map/VmfProvider.cs:333 | the IDs of the linked groups, in link order |
| GroupLinks.Candidates | Sledge.Providers/Map/VmfProvider.cs:333 | the groups of a pass all have a linked owner |
| GroupLinks.Rest | Sledge.Providers/Map/VmfProvider.cs:342 | the groups a pass leaves all lack a linked owner |
| GroupLinks.PassSplits | Sledge.Providers/Map/VmfProvider.cs:331-344 | a pass splits the waiting groups into those it links and those it leaves, so a pass that links something shrinks the waiting list |
| GroupLinks.AssignEach | Sledge.Providers/Map/VmfProvider.cs:335-343 | a pass appends one link per group it links, in order, and keeps the earlier links |
| GroupLinks.Tops | Sledge.Providers/Map/VmfProvider.cs:329 | the groups with owner 0, every one of them, without a parent |
| GroupLinks.Linked | Sledge.Providers/Map/VmfProvider.cs:328-344 | the loop ends with well-formed links |
| GroupLinks.AssignPass | Sledge.Providers/Map/VmfProvider.cs:335-343 | the `foreach` over a pass computes `AssignEach` |
| GroupLinks.LinkGroups | Sledge.Providers/Map/VmfProvider.cs:328-344 | the `while` loop terminates and computes `Linked` |
| GroupLinks.AssignEachKeeps | Sledge.Providers/Map/VmfProvider.cs:335-343 | a pass puts each group under the first linked group whose ID is its owner |
| GroupLinks.FixKeeps | Sledge.Providers/Map/VmfProvider.cs:331-344 | the passes keep the earlier links and the parent rule, and when they stop no waiting group has a linked owner |
| GroupLinks.PassCovers | Sledge.Providers/Map/VmfProvider.cs:331-344 | after a pass every group is linked or still waiting |
| GroupLinks.LinkedProps | Sledge.Providers/Map/VmfProvider.cs:328-344 | the top-level groups come first, in read order and with no parent; every later group sits under an earlier one, the first whose ID is its owner; a group is linked exactly when it is top-level or its owner is a linked ID, so dangling and cyclic groups are dropped |
| Scene.DecodeSlots | Sledge.Providers/Map/VmfProvider.cs:319-326 | one group per `group` block, in order |
| Scene.ReadSlots | Sledge.Providers/Map/VmfProvider.cs:319-326 | the group-reading loop computes `DecodeSlots` |
| Scene.Placement | Sledge.Providers/Map/VmfProvider.cs:353-354 | a solid goes under a group exactly when its `groupid` is above 0 and the ID of a linked group, and then under the first such group |
| Scene.PlaceOne | Sledge.Providers/Map/VmfProvider.cs:355-356 | a placed solid is visgroup-hidden exactly when read from a `hidden` block |
| Scene.DecodePlaced | Sledge.Providers/Map/VmfProvider.cs:347-358 | at most one placed solid per block, each in range |
| Scene.PlaceSolids | Sledge.Providers/Map/VmfProvider.cs:347-358 | the loop over visible solids computes `DecodePlaced` |
| Scene.DecodeHidden | Sledge.Providers/Map/VmfProvider.cs:361-377 | every solid read from a `hidden` block is visgroup-hidden |
| Scene.PlaceHidden | Sledge.Providers/Map/VmfProvider.cs:361-377 | the nested loop over hidden solids computes `DecodeHidden` |
| Scene.SolidPlacement | Sledge.Providers/Map/VmfProvider.cs:347-376 | a rejected solid is skipped. An accepted one is appended, hidden exactly when read from a `hidden` block, under the first linked group with its `groupid` when there is one |
| Scene.SolidsUnder | Sledge.Providers/Map/VmfProvider.cs:355-356 | each solid attached to a group points at that group, and each one attached to the world points at the world |
| Scene.GroupTree | Sledge.Providers/Map/VmfProvider.cs:339-340 | a group in the tree has its ID and its parent link, and every child points back at it |
| Scene.SubGroups | Sledge.Providers/Map/VmfProvider.cs:339-340 | the groups under a group point at it |
| Scene.TopTrees | Sledge.Providers/Map/VmfProvider.cs:330 | the top-level groups are left with no parent |
| Scene.WorldPartsOf | Sledge.Providers/Map/VmfProvider.cs:310-377 | the groups read and the solids placed are well formed |
| Scene.ReadWorld | Sledge.Providers/Map/VmfProvider.cs:310-382 | the world and the generator's new state are those the world decoding gives |
| Scene.WorldParents | Sledge.Providers/Map/VmfProvider.cs:328-358 | the world's children are the top-level groups, with no parent, then the solids attached to no group, which point at the world |
| Scene.ReadVisgroups | Sledge.Providers/Map/VmfProvider.cs:489-492 | one visgroup per block, in order |
| Scene.AddVisgroups | Sledge.Providers/Map/VmfProvider.cs:489-492 | the visgroups read are appended to the map's, in order |
| Scene.DecodeEntities | Sledge.Providers/Map/VmfProvider.cs:495-500 | one entity per block, each attached to the given owner |
| Scene.ReadEntities | Sledge.Providers/Map/VmfProvider.cs:495-500 | the entity loop computes `DecodeEntities` |
| Scene.ReadMap | Sledge.Providers/Map/VmfProvider.cs:482-502 | the map and the generator's new state are those the map assembly gives: visgroups, the world, then the loose entities attached to the world |
| Scene.MapShape | Sledge.Providers/Map/VmfProvider.cs:482-502 | the map keeps the blank map's version; its visgroups are the blank map's followed by one per `visgroup` block; its world is the decoded world, or the blank world when there is no `world` block, with that world's children first and then one entity per `entity` block, each attached to the world |
| Scene.EntitiesAfter | Sledge.Providers/Map/VmfProvider.cs:495-500 | entities appended after a run of objects leave the run in place and keep their kind and their owner |
| Save.FlattenSingle | Sledge.Providers/Map/VmfProvider.cs:29-44 | a solid or an entity is collected without descending into it; a group is collected, then everything beneath it |
| Save.FlattenAppend | Sledge.Providers/Map/VmfProvider.cs:29-44 | flattening a list is flattening its parts one after the other |
| Save.FlattenTyped | Sledge.Providers/Map/VmfProvider.cs:27-45 | the three lists hold only solids, only entities and only groups |
| Save.FlattenTree | Sledge.Providers/Map/VmfProvider.cs:27-45 | appends to the three lists, in encounter order, everything the flattening of the children collects |
| Save.WriteGroups | Sledge.Providers/Map/VmfProvider.cs:404-407 | one `group` block per group, in order |
| Save.WriteEntities | Sledge.Providers/Map/VmfProvider.cs:527 | succeeds exactly when every entity can be written, with one block per entity in order |
| Save.VisgroupsBlock | Sledge.Providers/Map/VmfProvider.cs:516-520 | a `visgroups` block holding one written visgroup per visgroup, in order |
| Save.WriteWorldShape | Sledge.Providers/Map/VmfProvider.cs:384-410 | the `world` block holds one block per solid then one per group, and fails exactly when a solid cannot be written |
| Save.WorldHeadProps | Sledge.Providers/Map/VmfProvider.cs:386-397 | `classname` is `worldspawn` unless the world's key/values override it, and `skyname` is the fixed sky |
| Save.SaveBlocksShape | Sledge.Providers/Map/VmfProvider.cs:506-545 | the blocks are `versioninfo`, the visgroups, `viewsettings`, the world from the flattened solids and groups, one block per flattened entity, `cameras` and `cordon`; saving fails exactly when the world or an entity fails |
| Save.FrameShape | Sledge.Providers/Map/VmfProvider.cs:537-543 | the order in which the blocks are written |
| Save.SaveMap | Sledge.Providers/Map/VmfProvider.cs:506-545 | computes the block list before anything is written |
| Reindex.RenumberFaces | Sledge.Providers/Map/VmfProvider.cs:459 | each face gets the next face ID in order and nothing else changes; the face counter advances by the number of faces |
| Reindex.NumberFaces | Sledge.Providers/Map/VmfProvider.cs:459 | the `ForEach` over the faces computes `RenumberFaces` |
| Reindex.ReindexObj | Sledge.Providers/Map/VmfProvider.cs:457-463 | an object gets the next object ID, after its faces, keeps its kind, and its parent link follows its owner's renumbering |
| Reindex.ReindexOne | Sledge.Providers/Map/VmfProvider.cs:457-463 | the loop body for one object computes `ReindexObj` |
| Reindex.ReindexAll | Sledge.Providers/Map/VmfProvider.cs:455-464 | the recursive walk computes `ReindexSeq` |
| Reindex.ReindexShape | Sledge.Providers/Map/VmfProvider.cs:455-464 | reindexing changes only IDs and the links that name them; tree shape and child order are kept |
| Reindex.ReindexObjectIds | Sledge.Providers/Map/VmfProvider.cs:455-464 | the object IDs in pre-order are the next ones the generator hands out, one per object |
| Reindex.ReindexFaceIds | Sledge.Providers/Map/VmfProvider.cs:459 | the face IDs in visit order are the next face IDs, one per face, each solid's faces before its children's |
| Reindex.ReindexDistinct | Sledge.Providers/Map/VmfProvider.cs:455-464 | the new object IDs, and the new face IDs, strictly increase in visit order and lie above everything handed out before |
| Reindex.ReindexLinked | Sledge.Providers/Map/VmfProvider.cs:455-464 | every face still names its solid, and every child its group, after renumbering |
| Clipboard.CopyStreamShape | Sledge.Providers/Map/VmfProvider.cs:433-442 | the `clipboard` block holds the solids that are neither code-hidden nor visgroup-hidden, then every group, then every entity. It fails exactly when a copied solid or entity cannot be written |
| Clipboard.ReadPasted | Sledge.Providers/Map/VmfProvider.cs:447-450 | decoding with a throw-away generator computes the pasted objects |
| Clipboard.PastedEntities | Sledge.Providers/Map/VmfProvider.cs:449-450 | the world's children come first, then one entity per `entity` block, with no parent |
| Clipboard.ExtractCopyStream | Sledge.Providers/Map/VmfProvider.cs:444-453 | the result and the caller's generator state are those the extraction gives |
| Clipboard.ExtractProps | Sledge.Providers/Map/VmfProvider.cs:444-453 | null, with no ID drawn, exactly when there is no block or it is not a `clipboard` block. Otherwise the pasted objects, unchanged but for IDs that count up from the caller's generator, so none collides with an ID it handed out before |

## Left out

- Stream I/O: `GenericStructure.Parse`, the `StreamReader`, and the
  `StreamWriter` of `SaveToStream`. The model takes the parsed block tree as
  input and yields the list of blocks to write.
- `IsValidForFileName`, a suffix check on a file name.
- Code that is not part of this model is given to every operation as a
  field of `Env`. Apart from the points listed below, nothing is assumed
  about it beyond its type:
  - the typed property readers for coordinates, decimals, planes, texture
    axes and row arrays;
  - the culture-dependent `"0.000"` and `ToString` decimal formatting;
  - `Displacement.SetPower` and `Resolution`;
  - `Solid.CreateFromIntersectingPlanes`;
  - `EquivalentTo`;
  - `AlignTextureToWorld`.
- `IDGenerator`, `GenericStructure` and `FindAll` are not part of this model.
  They are modelled from their use in the provider.
- `PropertyLong`, `PropertyInteger` and `PropertyColour` are modelled
  concretely (see the overview), because their source is not part of this
  model.
- `Colour.GetRandomBrushColour` is nondeterministic. The model uses one
  colour, `env.brushColour`, as the default for every object. The source
  draws a fresh colour on each call (VmfProvider.cs:193, 264, 294, 418), so
  two objects without a `color` key may get different colours there.
- Displacement.PowerOf: the displacement keeps the raw
  `PropertyInteger("power", 3)`. The model assumes `SetPower`, whose code is
  not part of this model, stores its argument unchanged (VmfProvider.cs:99).
- Records.StringOf: an absent `material`, `classname` or `name` key reads as
  the empty string. The source's indexer gives null there
  (VmfProvider.cs:143, 259, 416), and the model does not distinguish null
  from empty.
- Records.ReadEntityData: `EntityData.Name` is taken to start as the empty
  string, and `WriteEntity` writes it as `classname` (VmfProvider.cs:275).
  `EntityData` is not part of this model, so its initial `Name` is assumed.
- Faces.MatchAll: when two rebuilt faces match the same displacement side,
  the source puts one `Displacement` object at both positions of the solid's
  face list (VmfProvider.cs:206-214). The earlier position then also shows
  the later plane and vertices and the second texture alignment. The model
  keeps the earlier face as it was when matched. The source list itself is
  modelled as changed, so later searches see the new plane.
- `CalculatePoints` and `UpdateBoundingBox` compute derived geometry only.
  They are not modelled.
- The `Debug.WriteLine` on a rejected solid is a diagnostic with no effect
  on the result.
- The `triangle_tags` and `allowed_verts` channels are not read, and
  `lightmapscale` and `smoothing_groups` are not written. The source behaves
  the same way.
- Records.ParseAll: `int.Parse` throws on a malformed `visgroupid`. The model
  reads such a value as 0, so the load's failure on that input is not
  modelled.
- Text.IntRoundTrip: IDs are unbounded integers. Overflow of the 64-bit
  `long` IDs and the 32-bit visgroup IDs is not modelled.
- Object identity and aliasing: objects are values and `Parent` is an ID.
  - A group shared by reference with its parent's children is a copy in the
    model.
  - `Reindex` rewrites the links that name a renumbered object. The source
    gets the same effect from the shared reference.
- GroupLinks.LinkGroups: the groups waiting for an owner are a
  `Dictionary<Group, long>` in the source (VmfProvider.cs:319-344). The
  model takes them in the order their blocks appear, and so assumes the
  dictionary enumerates in insertion order. .NET does so when entries are
  only added and then removed, as here, but does not document it.
- Scene.ReadWorld: the model builds the world's tree after the loops. The
  source appends children while the loops run, so `Children` holds the same
  objects in the same order.
- Faces.FaceRoundTrip: this states the ID, the material and the absence of a
  displacement only. The plane, the texture axes and the rotation go through
  the opaque formatting and parsing functions, so they cannot be compared.
- Entities.PointEntityRoundTrip: this covers entities without solids. An
  entity with solids also needs `ReadSolid`'s plane rebuilding, which is
  opaque.
