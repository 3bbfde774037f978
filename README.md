# Dimension overlays for a three.js model viewer

This project is a Dafny model of the core of a small three.js viewer. The viewer loads a glTF model and annotates the tracked mesh with up to three linear-dimension overlays. Each overlay is two opposite arrows plus a text label. Which overlays exist depends on the box axis the camera currently faces.

The model has three parts.

- **The linear-dimension overlay** (`Dimension`, over the scene objects of `Scene`).
  - The corner computation is a case split on the sign of the extrude vector.
  - The two arrows start at the midpoint of the corners.
  - The label reading is computed from the corners.
  - The overlay's `create` / `update` / `detach` lifecycle is a class whose methods update its node, its label and the shared label container in place.
- **The application's facing-change callback and render loop** (`App`).
  - Every slot is detached.
  - The x, z or y branch then recreates overlays from the mesh's bounding box. The y branch first takes the `slice` / `indexOf` / `splice` of the facing list.
  - Each frame advances the clock, lets the detector fire, and updates the three slots in order.
- **The model loader's path rules** (`ModelManager`, over the string helpers of `JsStrings`).
  - The `.gltf` / `.glb` suffix test.
  - `loadFromUrl`.
  - `loadFromFileBlob`: the last matching dropped file wins, and its root path is its path minus the first occurrence of its name.
  - The URL modifier: normalising a URL into a file-map key, serving map hits from object URLs that are recorded, and falling back to `(path || "") + url`.

Design notes:

- JavaScript's `undefined` is modelled as `null`.
- Arrays become sequences. `indexOf`, `splice(k, 1)`, `Object3D.remove` and `removeChild` are modelled exactly in `JsArrays`, including `splice(-1, 1)` removing the last element.
- String `indexOf` and `replace` with a plain-string pattern (first occurrence only) are modelled in `JsStrings`, and so is the anchored `replace(/^(\.?\/)/, "")`.
- Vectors have real components.
- The browser and loader helpers `decodeURI`, `LoaderUtils.extractUrlBase` and `URL.createObjectURL` are function parameters.
- The facing detector's `check` becomes a parameter of `Render`: the event it fired in that frame, if any.

The x and z branches of the callback create only two overlays each (slots 0 and 2, and slots 1 and 2). The third slot keeps its detached node and has no label. The model follows the code here, and `App.LayoutSlots` states it.

## Model

| member | source | states |
|---|---|---|
| Dimension.CornersOf | js/utils/RayysLinearDimension.js:57-82 | corners exist exactly when the extrude vector is single-signed (all components >= 0 or all <= 0); a mixed-sign vector falls through both cases |
| Dimension.NonNegativeCorners | js/utils/RayysLinearDimension.js:58-69 | non-negative extrude: pmax is the componentwise max pushed out by the extrude; pmin takes the min on axes with extrude < 1e-16 and pmax elsewhere; pmin <= pmax |
| Dimension.NonPositiveCorners | js/utils/RayysLinearDimension.js:70-81 | non-positive, non-zero extrude: the mirror image with the threshold -1e-16; pmax <= pmin |
| Dimension.ZeroExtrudeCorners | js/utils/RayysLinearDimension.js:58-69 | a zero extrude takes the first case; the corners are the componentwise min and max of the endpoints |
| Dimension.CornersSpan | js/utils/RayysLinearDimension.js:57-82 | pmax - pmin is zero on every extruded axis and the signed extent of the segment on every other axis |
| Dimension.ArrowsFor | js/utils/RayysLinearDimension.js:84-119 | exactly two arrows from one origin at the corners' midpoint; the first tip is at pmax, the second at pmin; the offsets are opposite |
| Dimension.ArrowsHalfLength | js/utils/RayysLinearDimension.js:84-119 | each arrow is half as long as the corners are apart and carries the configured head length and width |
| Dimension.ReadingMatchesArrows | js/utils/RayysLinearDimension.js:141-143 | the label reads the corners' full span, four times the squared length of either arrow, in the configured units |
| Dimension.LinearDimension.constructor | js/utils/RayysLinearDimension.js:4-20 | no node and no label yet; container and camera as given; default config (0.1, 0.1, "mm") |
| Dimension.LinearDimension.Create | js/utils/RayysLinearDimension.js:22-42 | stores the segment; returns a fresh unparented node holding the two arrows; appends a fresh label showing the reading to the container; keeps the overlay invariant |
| Dimension.LinearDimension.Update | js/utils/RayysLinearDimension.js:44-145 | records the camera; without a node nothing else changes; otherwise the node's children are exactly the two arrows and a present label shows the reading; redrawing a drawn overlay changes nothing |
| Dimension.LinearDimension.Detach | js/utils/RayysLinearDimension.js:147-155 | the label leaves the container; the node leaves its parent's children; the node itself is kept; a drawn overlay stays drawn |
| Dimension.LinearDimension.Unlink | js/utils/RayysLinearDimension.js:148-150 | a parented node is removed from its parent's children; an unparented node is untouched |
| Dimension.LinearDimension.RemoveLabel | js/utils/RayysLinearDimension.js:151-154 | a present label is removed from the container and the reference is cleared; with no label nothing changes |
| Scene.Node.constructor | js/utils/RayysLinearDimension.js:27 | a new Object3D has no children and no parent |
| Scene.Mesh.Add | js/app.js:165 | an unparented node is appended to the mesh's children and gets the mesh as parent; children stay duplicate-free |
| Scene.Mesh.Remove | js/utils/RayysLinearDimension.js:149 | the first occurrence of the node leaves the children; a node that was a child loses its parent |
| Scene.DomRoot.AppendChild | js/utils/RayysLinearDimension.js:36 | a new element is appended to the container |
| Scene.DomRoot.RemoveChild | js/utils/RayysLinearDimension.js:152 | the element leaves the container, which stays duplicate-free |
| JsArrays.IndexOf | js/app.js:185 | -1 exactly when the element is absent; otherwise the index of its first occurrence |
| JsArrays.SpliceOne | js/app.js:186 | splice(k, 1) removes the element at k when 0 <= k < length, counts a negative k from the end, clamps a k before the start to 0, and leaves the list unchanged for k at or past the end |
| JsArrays.SpliceIndexOf | js/app.js:184-186 | splice at indexOf removes the first occurrence of a present element, and the last element when it is absent |
| JsArrays.RemoveFirst | js/utils/RayysLinearDimension.js:149 | removes one copy of a present element (multiset difference) and leaves other sequences unchanged |
| JsArrays.RemoveFirstIsExcept | js/utils/RayysLinearDimension.js:152 | in a duplicate-free sequence, removing the first occurrence filters the element out |
| JsArrays.Except | js/app.js:149-157 | the filtered sequence is no longer than the original and holds none of the removed elements |
| JsArrays.ExceptMember | js/app.js:149-157 | an element survives the filter exactly when it occurs and is not filtered out |
| JsArrays.ExceptThrice | js/app.js:149-157 | three successive detaches equal one filter by the union of what they remove |
| App.OtherFacing | js/app.js:184-186 | the y branch's copy of the facing list is one entry shorter (empty stays empty) and holds nothing the facing list does not |
| App.OtherFacingRemovesBest | js/app.js:184-186 | the y branch's copy of the facing list loses exactly one copy of best; when best is missing it loses the last entry |
| App.OtherFacingKeepsOrder | js/app.js:184-189 | with best listed once, the two directions taken are other facing directions, in list order |
| App.LayoutShape | js/app.js:159-203 | bottom-edge overlays run from (min.x, min.y, min.z) to (max.x, min.y, max.z); a lone bottom overlay extrudes along the facing direction, two of them along the two other facing directions; the vertical overlay exists exactly when a bottom one does and is a vertical box edge with a horizontal unit extrude |
| App.LayoutSlots | js/app.js:161-203 | facing x creates slots 0 and 2; facing z slots 1 and 2; facing y all three; slot 2 is always created |
| App.LayoutFitsBox | js/app.js:162-199 | every created overlay runs between two corners of the bounding box, from <= to on a well-formed box, with a single-signed extrude |
| App.FacingXMeasuresDepthAndHeight | js/app.js:161-171 | facing x: overlay 0 shows the box's z extent, signed like the facing direction; overlay 2 shows its height |
| App.FacingZMeasuresWidthAndHeight | js/app.js:172-182 | facing z: overlay 1 shows the box's x extent, signed like the facing direction; overlay 2 shows the height, negated |
| App.HorizontalSpan | js/app.js:191-195 | a bottom-edge overlay with a horizontal unit extrude shows the horizontal extent across that extrude |
| App.FacingYMeasures | js/app.js:183-203 | facing y: overlay 2 shows the height; overlays 0 and 1 show the horizontal extents across the two other facing directions |
| App.SlotKept | js/app.js:149-157 | a slot keeps its invariant when the container and the mesh lose only objects that are not its own |
| App.DetachOverlay | js/app.js:149-157 | one slot's label leaves the container and its node leaves the mesh; the slot stays valid with neither attached |
| App.UpdateKeeping | js/app.js:223-225 | one update draws its slot and records the camera; the other two slots stay valid and stay drawn |
| App.UpdateSlots | js/app.js:223-225 | after the three updates every slot records the camera and shows its measured segment |
| App.Sketch.constructor | js/app.js:58-90 | three empty overlays on the shared container; no mesh tracked; playing; time is 0.05 after the first frame |
| App.Sketch.AddDimension | js/app.js:143-146 | the mesh becomes the one the facing callback rebuilds overlays for |
| App.Sketch.DetachAll | js/app.js:149-157 | all labels leave the container and all overlay nodes leave the mesh; the nodes themselves are kept |
| App.Sketch.DetachSlot | js/app.js:149-157 | one slot is detached; the other slots keep their labels and their hooks to the mesh |
| App.Sketch.CreateSlot | js/app.js:194-199 | the slot gets the segment, a fresh unattached node, and a fresh label appended to the container |
| App.Sketch.Attach | js/app.js:165 | the node is appended to the mesh's children and gets the mesh as parent |
| App.Sketch.CreateAttached | js/app.js:164-165 | create, then add the returned node: fresh label appended to the container, fresh node appended to the mesh |
| App.Sketch.AttachAll | js/app.js:201-203 | the three new nodes are appended to the mesh in slot order |
| App.Sketch.FacingDirChange | js/app.js:146-205 | every old label and node is gone; the slots match the layout for the new facing direction; the new labels and nodes follow the survivors, in slot order, and are fresh |
| App.Sketch.Rebuild | js/app.js:159-203 | once cleared, the branch for the facing direction creates and attaches exactly the layout's overlays |
| App.Sketch.FaceX | js/app.js:161-171 | facing x: slots 0 and 2 are created from the layout and attached; slot 1 stays cleared |
| App.Sketch.FaceZ | js/app.js:172-182 | facing z: slots 1 and 2 are created from the layout and attached; slot 0 stays cleared |
| App.Sketch.FaceY | js/app.js:183-203 | facing y: all three slots are created from the layout and attached |
| App.Sketch.CreateY | js/app.js:191-199 | the three overlays get the bottom edge twice and the vertical edge at (max.x, min.z), with their extrudes; three fresh labels appended in order; no node added to the mesh yet |
| App.Sketch.Render | js/app.js:219-225 | a stopped sketch changes nothing (the sketch, its overlays, the container, the mesh, the nodes and the labels are untouched); otherwise time advances by 0.05, a fired change rebuilds the overlays, and then every slot records the camera and is drawn; without a rebuild the segments, nodes, labels, container and mesh are as before |
| App.Sketch.FireThenUpdate | js/app.js:222-225 | the callback rebuilds the overlays; the three updates then draw them without changing what the rebuild left |
| App.Sketch.UpdateAll | js/app.js:223-225 | every slot records the camera and is drawn; nodes, labels, segments, the container and the mesh are unchanged |
| App.Sketch.UpdateRebuilt | js/app.js:223-225 | the three updates after a rebuild keep what the rebuild left and draw every slot with the camera |
| JsStrings.Find | js/manager/modelManager.js:32 | -1 exactly when the pattern does not occur; otherwise its first occurrence |
| JsStrings.ReplaceFirst | js/manager/modelManager.js:32 | a string without the pattern is unchanged; otherwise the result keeps the text before and after the first occurrence, with the replacement at its position |
| JsStrings.ReplaceFirstSplits | js/manager/modelManager.js:32 | replace with a string pattern changes only the first occurrence and leaves a string without one unchanged |
| JsStrings.ReplacePrefix | js/manager/modelManager.js:59 | removing a pattern that starts the string leaves the rest |
| JsStrings.ReplaceFirstTrailing | js/manager/modelManager.js:32 | removing a name whose first occurrence ends the path leaves the directory part |
| JsStrings.StripDotSlash | js/manager/modelManager.js:60 | removes at most one leading "./" or else "/", and nothing from any other string |
| ModelManager.IsGltfNameShape | js/manager/modelManager.js:15 | a name passes the test exactly when it is a stem followed by ".gltf" or ".glb" |
| ModelManager.IsGltfNameExamples | js/manager/modelManager.js:15 | the test is case-sensitive, needs the dot and looks only at the end |
| ModelManager.IsGltfName | js/manager/modelManager.js:15 | a passing name is a stem followed by ".gltf" or ".glb" |
| ModelManager.LoadFromUrl | js/manager/modelManager.js:13-23 | a load happens exactly when the URL passes the test; it loads that URL, without a file map, from the URL's base |
| ModelManager.LastMatch | js/manager/modelManager.js:29-34 | the index of the last entry whose file passes the test, or -1 |
| ModelManager.LastGltf | js/manager/modelManager.js:29-34 | nothing is chosen exactly when no dropped file passes the test |
| ModelManager.LoadFromFileBlob | js/manager/modelManager.js:25-44 | the loop keeps the last passing file and its root path; with one, that file's object URL is loaded with the root path and the whole map; without one, nothing is loaded |
| ModelManager.RootPathIsDirectory | js/manager/modelManager.js:32 | a file whose path is its directory followed by its name gets the directory as root path |
| ModelManager.RootPathRemovesFirstOccurrence | js/manager/modelManager.js:32 | only the first occurrence of the name is removed, even when it is not the trailing one |
| ModelManager.NormalizeUrl | js/manager/modelManager.js:56-60 | every normalised key starts with the root path |
| ModelManager.NormalizeUnderBase | js/manager/modelManager.js:56-60 | a URL under the base resolves to the root path plus its relative part, minus one leading "./" or "/" |
| ModelManager.NormalizeOutsideBase | js/manager/modelManager.js:56-60 | a URL not containing the base keeps everything but one leading "./" or "/" |
| ModelManager.LookupFrom | js/manager/modelManager.js:62-63 | a file is found exactly when some entry has the key, and it is the file stored under that key |
| ModelManager.Lookup | js/manager/modelManager.js:62-63 | nothing is found exactly when no entry has the key; a found file is the one under the first entry with the key |
| ModelManager.UrlModifier.constructor | js/manager/modelManager.js:46-76 | the base URL is the base of the glTF file's URL; no object URL has been recorded |
| ModelManager.UrlModifier.Modify | js/manager/modelManager.js:55-70 | a key found in the file map is served from that file's object URL, which is recorded; otherwise the result is the path (or "") followed by the URL and nothing is recorded |

## Left out

- Projection of the label onto the screen and its pixel placement (RayysLinearDimension.js lines 122-139): they depend on the renderer's DOM layout and camera matrices.
- The arrow direction's normalisation, `distanceTo`, `toFixed(2)` and the units converter are floating-point formatting. An arrow is its origin and offset vector, and the label's reading holds the squared distance between the corners with the units.
- ArrowHelper, Object3D and div elements are reduced to what the core reads and writes: children, parent and text. `hidden`, `cb.onChange`, `el.id`, the class list and the styles are not modelled.
- Dimension.LinearDimension.Create: requires a single-signed extrude vector. With a mixed-sign vector the source leaves `pmax` undefined and throws at line 84. The callback only ever passes unit axis vectors.
- Scene.Mesh.Add: only unparented nodes are added. Every call in the core adds a freshly created or freshly detached node, so three.js's reparenting path is not modelled.
- Scene.DomRoot.AppendChild: only an element not yet in the container is appended. The core appends only freshly created divs, so the DOM's move-an-existing-child path is not modelled.
- Scene.DomRoot.RemoveChild: requires the element to be a child. The DOM throws otherwise, and the overlay removes only its own label.
- App.Sketch.FacingDirChange: requires that the event lets the callback finish. When the best direction is vertical, at least two other facing directions must remain. The source would read `undefined` directions and throw inside `create`.
- App.Sketch.Render: whether the overlays show their measured segment is promised after each frame, not kept as part of the sketch's invariant between frames.
- The facing detector (RayysFacingCamera) is external. Only its six unit directions, its `best` / `facing` state and the change events are modelled, and registration is a single callback for one mesh.
- Renderer, orbit controls, gizmo, Tweakpane settings, HDR loading, resize handling, `requestAnimationFrame` and `renderer.render` are rendering and UI side effects.
- `stop` and `play` are not modelled; `isPlaying` is only read.
- `time` is a real number, not a double.
- The GLTFLoader, DRACO and Meshopt decoders, the Promise, the traversal that sets shadows and bounding boxes, and `loadGltfFile`'s loader setup are I/O and foreign code. `loadGltfFile` appears only as the request it is called with and as the URL modifier it installs.
- `URL.createObjectURL` is a function of the file. A real call mints a new URL each time.
- `decodeURI` and `LoaderUtils.extractUrlBase` are parameters. The URIError that `decodeURI` can throw is not modelled.
- The `console.log` messages are not modelled.
- The dropped-file `Map` is a list of (path, file) entries in insertion order. `has` and `get` find the first entry with the key, which is the only one in a real Map.
- `js/manager/textureLoader.js` is not part of this model.
