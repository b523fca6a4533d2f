# Gift-box configurator core, in Dafny

This project models the deterministic core of `script.js`. The script is a browser 3D gift-box configurator: the user sets the box's dimensions, colours, ribbon and surface pattern, uploads images, and places them as decals on the faces of the box. Four parts are modelled.

- **Box builder** (`createGiftBox`), in module `BoxGeometry` (`geometry.dfy`). It is a pure function from the settings to the box group: body, lid, two ribbon strips and a bow, plus the two materials. Lengths are exact reals.
- **Pattern texture** (`createPatternTexture`), in module `PatternTexture` (`pattern.dfy`). The canvas drawing is modelled as a list of draw commands, not as pixels. One command stands for each shape the script draws: a dot is one `FillCircle`, where the script makes three canvas calls.
  - The loops become `while` methods: `DiagonalBands`, `VerticalBands`, `DotGrid` and `HeartGrid`.
  - Each loop method is proved equal to its piece of the motif (`Row` or `Grid` of the cell function). `CreatePatternTexture`, which calls them, is proved equal to the whole specification, `PatternOps`.
  - Lemmas about `PatternOps` give the command counts and where the dots, bands and hearts fall on the canvas.
- **Decal placement** (`updateImageTransform`, `getFaceLabel`), in module `DecalPlacement` (`decal.dfy`). It is a pure resolver from the box settings and a decal's settings to a pose: an anchor, an orientation, and the mesh's offset, scale and spin.
  - Orientations are exact Euler angles in quarter turns, applied in three.js's XYZ order. Rotations are signed permutations of coordinates, so the lemmas can state outright where each face's decal points.
- **Decal registry and page state** (`uploadedImages`, `activeImageId`, `config`, the handlers).
  - Module `DecalRegistry` (`registry.dfy`) states each operation as a function on a `Registry` value.
  - Class `Scene.Configurator` (`scene.dfy`) holds the script's globals as fields. Its methods update those fields in place, and their postconditions tie the new state to the registry functions.
  - The class invariant `Valid` says four things:
    - the box matches the settings;
    - every decal's pose matches the box;
    - ids are unique and positive;
    - no id is reused after its decal was deleted and disposed.

`options.dfy` holds the `Option` type.

The model follows the code in these places:
- `setActiveImage` records the id before it checks that a decal has it (script.js:233).
- Deleting removes only the active decal (script.js:306-317).
- The ribbon strips are centred at y = 1.5, half the lid height (script.js:109, 112). That is the middle of the body-and-lid stack, not the middle of the lid.
- `parseFloat(v) || 10` replaces only a failed parse or zero. Negative dimensions pass through (script.js:250).

## Model

| member | source | states |
|---|---|---|
| PatternTexture.ParsePattern | script.js:342-352 | The five known pattern names map to their own kinds and any other name is kept verbatim (`OtherPattern` exactly when the name is not one of the five); the kind's name gives back the string. |
| PatternTexture.NameThenParse | script.js:280 | Parsing the name of any canonical kind gives back that kind, so names and kinds are in one-to-one correspondence. |
| PatternTexture.Motif | script.js:342-359 | What each kind draws after the background: the diagonal turn and 26 bands, 13 bands, the 11×11 dot grid, or the font and the 9×8 heart grid. Its contract says that `none` and unknown kinds draw nothing. |
| PatternTexture.PatternOps | script.js:336-359 | The whole command list: background, then the motif. Its contract says every texture begins with the base colour as fill, one fill of the whole 512×512 canvas, then the pattern colour as fill. |
| PatternTexture.CommandCounts | script.js:342-359 | Shape-command counts per kind: 3 + 3 + 26 for `stripes_h`, 3 + 13 for `stripes_v`, 3 + 121 for `dots`, 3 + 1 + 72 for `hearts`, and the 3 background commands alone for any other kind. |
| PatternTexture.GridLength | script.js:349-358 | A nested loop of n outer and m inner steps issues n·m commands. |
| PatternTexture.GridAt | script.js:349-358 | Cell (a, b) of a nested loop is the command at position a·m + b, so the outer loop's variable changes slowest. |
| PatternTexture.DotsOnLattice | script.js:350 | Dot k is a radius-10 disc centred at (50·(k/11), 50·(k%11)), inside the canvas. |
| PatternTexture.DotsCoverLatticePoints | script.js:350 | Every 50-unit lattice point of the canvas is covered by some dot. |
| PatternTexture.DotsMissMidpoints | script.js:350 | No dot covers any point (50a+25, 50b+25) midway between lattice points. |
| PatternTexture.DiscsApart | script.js:350 | A point within radius 10 of one centre is outside radius 10 of any centre at least 50 away along an axis. |
| PatternTexture.DotsDisjoint | script.js:350 | No point is inside two different dots: the 121 discs never overlap. |
| PatternTexture.VerticalBandsCover | script.js:347 | A canvas column is inked by a vertical band if and only if its x mod 40 is below 20. |
| PatternTexture.HeartsOnLattice | script.js:353-358 | After the font command, heart k is the glyph at (20 + 60·((k−1)/8), 40 + 60·((k−1)%8)), inside the canvas. |
| PatternTexture.DiagonalBands | script.js:344 | The loop from −256 below 768 in steps of 40 issues 26 rects (−256 + 40k, 0, 20, 768) in order. |
| PatternTexture.VerticalBands | script.js:347 | The loop from 0 below 512 in steps of 40 issues 13 rects (40k, 0, 20, 512) in order. |
| PatternTexture.DotGrid | script.js:350 | The nested loops issue the 11×11 dots, outer x then inner y, as the grid specification says. |
| PatternTexture.HeartGrid | script.js:354-358 | The nested loops issue the 9×8 heart glyphs, outer x then inner y, as the grid specification says. |
| PatternTexture.CreatePatternTexture | script.js:331-359 | The commands issued for a kind, base colour and pattern colour are exactly `PatternOps` for them: background, then that kind's motif. |
| BoxGeometry.ComposeBox | script.js:73-117 | The box group for the settings and a painted texture (if any). Its contract: 5 parts with the ribbon on and 2 without; the box surface wears exactly the given texture and the ribbon surface none; only the bow is not a cuboid. |
| BoxGeometry.BuildBox | script.js:64-117 | `createGiftBox`'s group. Its contract: a texture is present if and only if the pattern is not `none`, and it is a 512-pixel canvas. |
| BoxGeometry.BodyAndLid | script.js:91-101 | The body is (w, h, l) at the origin. The lid is (w+0.6, 3, l+0.6) at y = h/2 + 1.5. The lid's bottom is the body's top (y = h/2), and it overhangs the body by 0.3 on every side. |
| BoxGeometry.RibbonPresence | script.js:104-117 | The two strips and the bow are present if and only if the ribbon is on; otherwise the group holds the body and lid only. Exactly the parts after the first two wear the ribbon material. |
| BoxGeometry.RibbonWrapsStack | script.js:106-115 | Strips (4, h+3.2, l+0.8) and (w+0.8, h+3.2, 4) are both centred at y = 1.5, the middle of the stack. They reach 0.1 below the body and 0.1 above the lid, and stand 0.1 proud of the lid. The bow is a (2.5, 0.7, 64, 8) torus knot at y = h/2 + 4.5, pitched a quarter turn, scaled (1, 1, 0.5). |
| BoxGeometry.MaterialSelection | script.js:73-89 | A pattern texture is painted if and only if the pattern is not `none`. It is then `PatternOps` for the box and pattern colours, and the flat colour is white; otherwise the flat colour is the box colour. The box surface is opaque and front-sided; the ribbon surface is double-sided in the ribbon colour. |
| BoxGeometry.GeometryIgnoresStyle | script.js:91-117 | Boxes with the same dimensions and ribbon switch have identical parts, whatever their colours and pattern. |
| DecalPlacement.ParseFace | script.js:193-199 | The five face names map to their faces, any other name is kept (`OtherFace` exactly when the name is not one of the five), and the face's name gives back the string. |
| DecalPlacement.NameThenParse | script.js:298 | Parsing the name of any canonical face gives back that face. |
| DecalPlacement.FaceLabel | script.js:230 | An unknown face is shown by its own name; each of the five faces has a non-empty label different from its name. |
| DecalPlacement.LabelsDistinct | script.js:230 | The five faces have five different labels. |
| DecalPlacement.FaceAnchor | script.js:193-199 | Where each face puts the group. Its contract: front, back and unknown faces lie on the z axis; left and right on the x axis; top on the y axis. |
| DecalPlacement.FaceTurns | script.js:195-198 | The group's rotation per face. Its contract: never about z; about x exactly for the top; none exactly for the front and unknown faces. |
| DecalPlacement.Resolve | script.js:184-204 | `updateImageTransform`'s pose. Its contract: the offset stays in the plane (z = 0), the scale is uniform in the plane with depth 1, the spin is −rotate, and an unknown face leaves the group at the origin, unrotated. |
| DecalPlacement.FaceTurnsAct | script.js:195-198 | What each face's orientation does to a vector: back (−x, y, −z), left (−z, y, x), right (z, y, −x), top (x, z, −y), front and unknown faces unchanged. |
| DecalPlacement.DecalFacesOutward | script.js:193-199 | On each of the five faces, the decal plane's normal becomes the face's outward normal. Its up direction stays up on the sides and points to the back on the top. |
| DecalPlacement.DecalNotMirrored | script.js:195-198 | On each face the decal's right edge is up × normal, so the image is not mirrored for a viewer in front of the face. |
| DecalPlacement.AnchorOnSurface | script.js:193-199 | Each face's anchor is the centre of the carrying surface moved out along the outward normal by 0.05. The surface is the body's face for the sides and the lid's top for `top`. |
| DecalPlacement.OffsetStaysInFacePlane | script.js:193-203 | Whatever x and y are, the decal's centre stays exactly 0.05 out from its face's plane. |
| DecalPlacement.UnknownFaceAtOrigin | script.js:190-199 | A face with no case leaves the group reset: anchor at the origin, no rotation, so the decal's centre is just (x, y, 0). No earlier pose is involved. |
| DecalPlacement.OppositeAnchors | script.js:194-197 | The back anchor is the front anchor negated; the left anchor is the right anchor negated. |
| DecalPlacement.AnchorDependsOnOneDimension | script.js:185-199 | Front and back poses depend on the length only, left and right on the width only, top on the height only. |
| DecalPlacement.LocalTransformIgnoresFaceAndBox | script.js:201-203 | The mesh's offset (x, y, 0), scale (s, s, 1) and spin −rotate degrees are the same for every face and box. |
| DecalPlacement.WideningMovesLeftAnchor | script.js:196 | Widening the box from 20 to 30 moves a left-face anchor from x = −10.05 to −15.05. |
| DecalRegistry.FindIndex | script.js:307 | If an index is returned, it holds the id and no earlier entry does; if none is returned, the id is absent. |
| DecalRegistry.ActiveDecal | script.js:243 | The result carries the active id and is the first entry of the list that does. Nothing is returned if and only if the active id is unset or absent. |
| DecalRegistry.NewDecal | script.js:149-172 | The new decal has the given id and name and the default settings. Its plane is 10 high and keeps the image's aspect ratio (width · imageHeight = 10 · imageWidth). It is placed for the box. |
| DecalRegistry.Added | script.js:148-178 | The list grows by one at the end, earlier entries are unchanged, and the new entry's id becomes the active id. |
| DecalRegistry.Selected | script.js:232-235 | The list is unchanged and the active id becomes the given one, whether or not a decal has it. |
| DecalRegistry.Edited | script.js:297 | The list length and the active id are kept; without an active decal nothing changes. |
| DecalRegistry.Deleted | script.js:305-324 | Either nothing changes, or the active id was present, one entry is removed and the active id is cleared. |
| DecalRegistry.Replaced | script.js:180-182 | Same length, every pose in step with the box, and every entry differs from the old one at most in its pose. |
| DecalRegistry.Without | script.js:317 | Reference definition of removal: no longer than the input and containing no entry with the id. |
| DecalRegistry.ApplyEdit | script.js:297 | The named setting takes the new value and every other setting keeps its value. |
| DecalRegistry.SpliceIsWithout | script.js:317 | With unique ids, splicing out position k equals filtering out that entry's id. |
| DecalRegistry.SpliceKeepsOthers | script.js:317 | Splicing out position k removes exactly that id from the id set and keeps the ids unique. |
| DecalRegistry.FindIndexByIds | script.js:243 | Where an id is found depends only on the sequence of ids. |
| DecalRegistry.FindAppended | script.js:173 | A fresh id pushed at the end is found at the end. |
| DecalRegistry.AddAppendsOne | script.js:148-178 | Adding appends exactly one decal and leaves the earlier ones unchanged. The new decal has the given id and name, the default settings (front, 0, 0, 1, 0) and a plane (10·w/h, 10). It is placed for the box, becomes the active decal, and keeps ids unique and poses in step with the box. |
| DecalRegistry.DeleteWithoutActiveDecal | script.js:305-308 | Deleting changes nothing when the active id is null, 0 or names no decal. |
| DecalRegistry.DeleteRemovesActive | script.js:305-324 | Otherwise deleting equals filtering out the active id. It keeps the others in order, removes one entry and exactly that id, keeps ids unique and clears the active id. |
| DecalRegistry.AddThenDelete | script.js:148-178 | Adding then deleting gives back the previous list with no active id; from the empty registry, the empty registry. |
| DecalRegistry.EditTouchesActiveOnly | script.js:297 | An edit keeps the list length and the active id. It is a no-op without an active decal. Otherwise only the active decal changes: its config becomes `ApplyEdit` of the old one and its pose is re-resolved; id, name and plane stay. |
| DecalRegistry.EditKeepsInvariants | script.js:297 | An edit keeps the ids unique and every pose in step with the box. |
| DecalRegistry.EditKeepsIds | script.js:297 | An edit never changes which id sits at which position. |
| DecalRegistry.FaceRoundTrip | script.js:297-298 | Moving the active decal to another face and back restores the registry exactly. |
| DecalRegistry.ReplacedKeepsSettings | script.js:180-182 | Re-placing keeps the length, order, ids, names, planes and settings of every decal, and leaves every pose in step with the box. |
| DecalRegistry.ReplacedForgetsEarlierBoxes | script.js:122-128 | Re-placing for a box the poses already match is a no-op; re-placing twice is re-placing for the last box. |
| DecalRegistry.SelectUnknownId | script.js:232-235 | Selecting an id no decal has still records it. There is then no active decal, and editing and deleting are no-ops. |
| Scene.CoerceDimension | script.js:250 | A failed parse or 0 becomes 10 and any other number, negative ones included, is kept; the result is never 0. |
| Scene.CoerceIsIdempotent | script.js:250 | Coercing a value that was already coerced changes nothing. |
| Scene.ChangeConfig | script.js:248-292 | The assignment each settings handler makes. Its contract: a non-zero dimension stays non-zero, and only the pattern handler changes the pattern. |
| Scene.ChangeTouchesOneSetting | script.js:248-292 | Each settings handler sets only its own setting: a dimension to its coerced value, the pattern to the parsed name, a colour or the ribbon switch as given. Non-zero dimensions stay non-zero. |
| Scene.Configurator.constructor | script.js:14-20 | The page starts with the initial settings, no decals, no active id and a box built for those settings. |
| Scene.Configurator.CreateGiftBox | script.js:64-131 | Sets the box to `BuildBox` of the settings, using the commands `CreatePatternTexture` issues, and re-places every decal (`Replaced`). It keeps the invariant. |
| Scene.Configurator.UpdateAllImages | script.js:180-182 | The list becomes `Replaced` of the old list: each decal re-resolved in order. |
| Scene.Configurator.AddImageToScene | script.js:148-178 | The registry becomes `Added` of the old registry, and the invariant is kept. |
| Scene.Configurator.SetActiveImage | script.js:232-235 | The registry becomes `Selected` of the old one: the id is recorded unconditionally. The invariant is kept. |
| Scene.Configurator.UpdateActive | script.js:297 | The registry becomes `Edited` of the old one, and the invariant is kept. |
| Scene.Configurator.DeleteActive | script.js:305-324 | The registry becomes `Deleted` of the old one. The invariant is kept, and exactly the removed id joins the disposed set. |
| Scene.Configurator.OnConfigInput | script.js:248-292 | The settings become `ChangeConfig` of the old settings. The box is rebuilt, every decal is re-placed, and the invariant is kept. |

## Left out

- Rendering is not modelled: the renderer, camera, lights, orbit controls, auto-rotation, the resize handler and the animation loop (script.js:23-61, 326-327, 366). They have no logic beyond library calls.
- Uploading (`handleImageUpload`) is asynchronous file and texture loading. A decoded image enters the model as its width and height, passed to `AddImageToScene`.
- Scene.Configurator.AddImageToScene: requires a positive image height. A decoded image always has one; the script would divide by zero otherwise.
- `renderImageList`, and the form-field syncing in `setActiveImage`, are DOM updates (script.js:207-228, 236-241). The labels they show are `FaceLabel`.
- PatternTexture.DotGrid: each dot's `beginPath`/`arc`/`fill` triple (script.js:350) is one `FillCircle` command. Command counts are therefore counts of shapes drawn, not of canvas calls.
- Pixels are not modelled: canvas rasterisation, fonts, the sRGB encoding and the `CanvasTexture` object. Only the draw commands are.
- Ids come from the clock plus a random number (script.js:168). Here the id is a parameter of `AddImageToScene`, required to be positive and not used before.
- Disposing geometry and materials (script.js:313-314) is a library call. It is modelled by the ghost set `released`.
- Removing the old groups from the scene and re-parenting decal groups (script.js:66-70, 123-126, 310) are object-graph operations of the rendering library. The model keeps only each decal's pose.
- `castShadow`/`receiveShadow` flags, and the exact floating-point values of `Math.PI` angles, are not modelled. Angles are quarter turns for faces and degrees for the decal spin.
- The order modal, form submission and the network request that sends the order (script.js:370 onwards) are not modelled.
- DecalRegistry.ApplyEdit: the numeric edits carry a real number, so a NaN from `parseFloat` on an emptied input field (script.js:299-302) is not represented.
- Scene.CoerceDimension: `-0` counts as zero in the script as well. Exact reals have a single zero.
- DecalPlacement.FaceLabel: face names such as `constructor`, which hit `Object.prototype` properties of the lookup table in the script, are modelled as unknown names shown verbatim.
