# Dust Racing 2D: a verified model of its game and editor logic

Dust Racing 2D is a top-down racing game with a track editor. This project
models the parts of the game engine (MiniCore), the game and the editor
whose behaviour is decided by the code itself rather than by Qt, OpenGL or
the file system:

- **OrientedBox** (`obbox.dfy`): `MCOBBox`, an oriented bounding box.
  It keeps four vertex vectors around its centre, a location, an angle and
  its half-extents. It is a class over a four-element array: `rotate`,
  `translate` and `scale` update it in place, and `vertex`, `bbox`,
  `contains` and both `intersects` are queries over pure helpers.
- **Friction** (`friction.dfy`): `MCFrictionGenerator`, which adds an
  opposing force and an opposing torque to an object's physics component.
- **Ai** (`ai.dfy`): the computer driver. It covers:
  - the heading error and its normalisation loop;
  - the clamped steering control and the dead band;
  - the accelerator and brake decision table;
  - target-node tracking in `update`.
- **TextureText** (`texturetext.dfy`): `MCTextureText`. Its text
  dimensions come from the longest line and the number of lines.
- **ObjectCatalogue** and **ObjectFactory**: the editor's catalogue of
  placeable objects, with its first-match and filter lookups, and the size
  defaulting of `createObject`.
- **CarFactory** (`carfactory.dfy`): the image table, the human and
  computer branches, and `randomFactor`.
- **EditorArgs** (`application.dfy`): the editor's command-line scan.
- **TrackSelection** (`trackselectionmenu.dfy`): the track menu's
  navigation and selection, and the lit stars of a track item.
- **EditorWindow** (`mainwindow.dfy`): the editor's main window, which
  holds no track until one is created, and its grid:
  - creating and clearing it, including Clear chosen before any track exists;
  - the console messages with their time stamps;
  - applying a toolbar tile type;
  - the zoom scale;
  - the `.trk` rule of Save As;
  - the scene rectangle of a new track.
- **ObjectData** (`objectdata.dfy`): the `MCObjectData` configuration record
  and its shape-selection rule.
- **Input** (`inputhandler.dfy`): the per-player bit set of control actions.

`Geometry` holds the shared vector, box and rotation helpers. `Wrappers`
holds `Option` and `Result`.

Floating-point values are modelled as `real`. Trigonometric tables,
`atan2`, `rand()`, the fast vector length and normalisation, the file
system and image loading are parameters of the operations that use them.

## Model

| member | source | states |
|---|---|---|
| OrientedBox.Initial | src/game/MiniCore/Core/mcobbox.hh:119-129 | a fresh box's vertex vectors are (-hx,-hy), (-hx,hy), (hx,hy), (hx,-hy), and v2, v3 mirror v0, v1 |
| OrientedBox.OBBox.constructor | src/game/MiniCore/Core/mcobbox.hh:118-129 | a new box has the given half-extents and location, angle 0 and the initial vertex vectors |
| OrientedBox.OBBox.Vertex | src/game/MiniCore/Core/mcobbox.hh:65 | vertex(index) is local vertex index & 3 placed at the location, for every index |
| OrientedBox.Placed | src/game/MiniCore/Core/mcobbox.hh:237-240 | the placed vertices are the vertex vectors plus the location, in order |
| OrientedBox.Envelope | src/game/MiniCore/Core/mcobbox.hh:235-246 | the bbox has x1 <= x2 and y1 <= y2, encloses all four placed vertices, and each bound is attained by one of them |
| OrientedBox.OBBox.BBox | src/game/MiniCore/Core/mcobbox.hh:234-246 | the box's bbox is the envelope of its placed vertices: ordered, containing vertex(k) for every k, and each of its four bounds attained by one of vertex(0..3) |
| OrientedBox.OBBox.Contains | src/game/MiniCore/Core/mcobbox.hh:132-153 | for an unrotated box with positive half-extents, contains accepts exactly the points strictly inside the rectangle around the location |
| OrientedBox.OBBox.Intersects | src/game/MiniCore/Core/mcobbox.hh:191-210 | intersects(MCOBBox) as written gives the same answer whichever of the two boxes is asked |
| OrientedBox.OBBox.IntersectsBBox | src/game/MiniCore/Core/mcobbox.hh:212-232 | intersects(MCBBox) as written agrees with the test over placed vertices when the box is at the origin |
| OrientedBox.IntersectsAsWritten | src/game/MiniCore/Core/mcobbox.hh:191-210 | the box/box test as written agrees with the placed test when both boxes are at the origin |
| OrientedBox.IntersectsBBoxAsWritten | src/game/MiniCore/Core/mcobbox.hh:212-232 | the box/bbox test as written agrees with the placed test when the box is at the origin |
| OrientedBox.OBBox.ContainsInFrame | src/game/MiniCore/Core/mcobbox.hh:132-153 | for a box whose vertex vectors agree with its angle and positive half-extents, at any angle whose table entries lie on the unit circle, contains accepts exactly the points that, taken relative to the location and turned back by the angle, lie strictly inside the rectangle |
| OrientedBox.RotatedContains | src/game/MiniCore/Core/mcobbox.hh:132-153 | the vertex vectors of a box rotated to angle a accept exactly the points whose back-rotation lies strictly inside the rectangle (table entry on the unit circle, positive half-extents) |
| OrientedBox.RotatedLocalContains | src/game/MiniCore/Core/mcobbox.hh:132-153 | rotating all four vertex vectors and the point by the same unit-circle angle does not change the edge-sign test |
| OrientedBox.AxisAlignedContains | src/game/MiniCore/Core/mcobbox.hh:132-153 | for an unrotated box with positive half-extents, contains accepts exactly the points strictly inside the rectangle |
| OrientedBox.ContainsTranslation | src/game/MiniCore/Core/mcobbox.hh:132-153 | moving the box and the point by the same vector does not change contains |
| OrientedBox.SignOfPositiveMultiple | src/game/MiniCore/Core/mcobbox.hh:144-152 | the sign test is unchanged when an edge product is scaled by a positive factor |
| OrientedBox.RotateStep | src/game/MiniCore/Core/mcobbox.hh:161-181 | rotate's vertex update rotates the current v0 and v1 and mirrors them into v3 and v2 |
| OrientedBox.RotateStepRotatesAll | src/game/MiniCore/Core/mcobbox.hh:164-181 | for mirrored vertex vectors, rotating v0 and v1 and mirroring them is rotating all four vertices |
| OrientedBox.OBBox.Rotate | src/game/MiniCore/Core/mcobbox.hh:155-183 | rotating to the current angle changes nothing; otherwise the angle becomes a, the vertices are the current ones rotated by a, and the mirror invariant holds |
| OrientedBox.RotateCompounds | src/game/MiniCore/Core/mcobbox.hh:161-181 | rotating a fresh 1 x 2 box to 90 then to 180 degrees does not give the box at 180 degrees (as written) |
| OrientedBox.Oriented | src/game/MiniCore/Core/mcobbox.hh:119-129 | the vertex vectors a box should have at angle a are mirrored |
| OrientedBox.OBBox.RotateAbsolute | src/game/MiniCore/Core/mcobbox.hh:155-183 | corrected rotate: the vertices become the initial ones rotated by a, so a box that agrees with its angle keeps agreeing |
| OrientedBox.OrientedAtZero | src/game/MiniCore/Core/mcobbox.hh:119-129 | with a table exact at 0, the oriented vertices at angle 0 are the initial ones |
| OrientedBox.OrientedScale | src/game/MiniCore/Core/mcobbox.hh:248-257 | scaling the half-extents scales the oriented vertex vectors |
| OrientedBox.OBBox.Translate | src/game/MiniCore/Core/mcobbox.hh:185-189 | translate sets the location and leaves half-extents, angle and vertex vectors unchanged |
| OrientedBox.OBBox.Scale | src/game/MiniCore/Core/mcobbox.hh:248-257 | scale multiplies hx, hy and every vertex vector by s and keeps location and angle |
| OrientedBox.NegScale | src/game/MiniCore/Core/mcobbox.hh:248-257 | scaling commutes with the mirror image, so scale keeps v2 = -v0 and v3 = -v1 |
| OrientedBox.IntersectsSymmetric | src/game/MiniCore/Core/mcobbox.hh:191-210 | box/box intersects is symmetric, both as written and over placed vertices |
| OrientedBox.NestedBoxesAwayFromOrigin | src/game/MiniCore/Core/mcobbox.hh:191-210 | two nested boxes centred at (100,100) overlap, but intersects as written reports no intersection |
| OrientedBox.PlacedFindsNested | src/game/MiniCore/Core/mcobbox.hh:191-210 | the placed test finds a vertex of the inner box inside the outer box |
| OrientedBox.MissesFarVertices | src/game/MiniCore/Core/mcobbox.hh:191-210 | the untranslated vertex vectors of small boxes never lie in a box at (100,100) |
| OrientedBox.IntersectsPlacedTranslation | src/game/MiniCore/Core/mcobbox.hh:191-210 | the corrected test is unchanged when both boxes move by the same vector |
| OrientedBox.ShiftBBox | src/game/MiniCore/Core/mcobbox.hh:212-232 | a moved bbox contains a moved point exactly when the original contains the point |
| OrientedBox.IntersectsBBoxPlacedTranslation | src/game/MiniCore/Core/mcobbox.hh:212-232 | the corrected box/bbox test is unchanged when the box and the bbox move by the same vector |
| OrientedBox.BoxInsideBBoxAwayFromOrigin | src/game/MiniCore/Core/mcobbox.hh:212-232 | a unit box at (100,100) inside the bbox (90,90)-(110,110) is reported as not intersecting it (as written); the placed test reports the overlap |
| OrientedBox.BBoxCornersMissed | src/game/MiniCore/Core/mcobbox.hh:212-232 | no corner of that bbox lies in the unit box |
| OrientedBox.MissesBBoxCorners | src/game/MiniCore/Core/mcobbox.hh:212-232 | a point with both coordinates in {90, 110} lies outside the unit box at (100,100) |
| OrientedBox.QuarterTurns | src/game/MiniCore/Core/mcobbox.hh:164-171 | a rotation table exact at the quarter turns is exact at angle 0 |
| Geometry.RotatedScale | src/game/MiniCore/Core/mcobbox.hh:164-171 | rotating a scaled vector gives the rotated vector scaled |
| Geometry.RotatedNeg | src/game/MiniCore/Core/mcobbox.hh:164-171 | rotating a negated vector gives the rotated vector negated |
| Geometry.RotatedSub | src/game/MiniCore/Core/mcobbox.hh:132-153 | rotating the difference of two vectors gives the difference of the rotated vectors, so the edge vectors of a rotated box are the rotated edges |
| Geometry.RotatedDot | src/game/MiniCore/Core/mcobbox.hh:132-153 | a rotation whose table entries lie on the unit circle keeps the product of two vectors, which the edge-sign test evaluates |
| Geometry.Unrotated | src/game/MiniCore/Core/mcobbox.hh:164-171 | turning a vector back by a unit-circle angle and rotating it again gives the vector |
| Geometry.UnrotatedRotated | src/game/MiniCore/Core/mcobbox.hh:164-171 | rotating a vector and turning it back gives the vector, so Unrotated is the inverse of the rotation from both sides |
| Friction.Abs | src/game/MiniCore/src/Physics/mcfrictiongenerator.cc:31-32 | the absolute value is non-negative and equals x or -x |
| Friction.LinearCoefficient | src/game/MiniCore/src/Physics/mcfrictiongenerator.cc:31 | the linear coefficient is non-negative and is plus or minus coeffLin times gravity |
| Friction.RotationalCoefficient | src/game/MiniCore/src/Physics/mcfrictiongenerator.cc:28-32 | the rotational coefficient is non-negative and carries the 0.01 decay |
| Friction.FrictionGenerator.constructor | src/game/MiniCore/src/Physics/mcfrictiongenerator.cc:30-33 | both stored coefficients are non-negative absolute values |
| Friction.LinearFriction | src/game/MiniCore/src/Physics/mcfrictiongenerator.cc:41-48 | the linear force is minus the direction times the speed factor: coeff x mass at speed >= 1, speed x coeff x mass below |
| Friction.ScaleAssoc | src/game/MiniCore/src/Physics/mcfrictiongenerator.cc:43-47 | scaling twice is scaling by the product |
| Friction.DeadBandIsWeaker | src/game/MiniCore/src/Physics/mcfrictiongenerator.cc:41-48 | the factor below unit speed is at most the factor at unit speed and above, and strictly less when coefficient and mass are positive |
| Friction.AtRestNoLinearForce | src/game/MiniCore/src/Physics/mcfrictiongenerator.cc:45-48 | at zero speed the force added is the zero vector |
| Friction.AngularFriction | src/game/MiniCore/src/Physics/mcfrictiongenerator.cc:51-57 | no torque without a shape or at zero angular velocity; otherwise the torque has magnitude coeff x mass and opposes the rotation |
| Friction.PhysicsComponent.AddForce | src/game/MiniCore/src/Physics/mcfrictiongenerator.cc:44 | the force accumulates and nothing else changes |
| Friction.PhysicsComponent.AddTorque | src/game/MiniCore/src/Physics/mcfrictiongenerator.cc:55 | the torque accumulates and nothing else changes |
| Friction.FrictionGenerator.UpdateForce | src/game/MiniCore/src/Physics/mcfrictiongenerator.cc:35-59 | every call adds the linear friction force and the angular friction torque, and leaves velocity, angular velocity and mass unchanged |
| Ai.CurrentAngle | src/game/ai.cpp:73 | cur is the car angle modulo 360 with C++ truncation: it lies in (-360, 360), has the angle's sign and differs from it by a multiple of 360 |
| Ai.HeadingError | src/game/ai.cpp:69-73 | the heading error is the bearing to the aimed point minus the reduced angle, which lies within one turn, has the car angle's sign and differs from the car angle by whole turns, for every angle; for an angle in [0, 360) the error is the bearing minus the angle |
| Ai.CurrentAngleWholeTurns | src/game/ai.cpp:73 | the reduced angle differs from the car angle by a whole number of turns, as a real |
| Ai.FloorShift | src/game/ai.cpp:76-93 | adding a whole number n to a real adds n to its floor |
| Ai.Wrap | src/game/ai.cpp:76-93 | the normalised difference lies in [-180, 180], differs from the input by whole turns, and equals the input when already in range |
| Ai.NormaliseDiff | src/game/ai.cpp:74-93 | the while (!ok) loop ends with diff = Wrap(diff0), in [-180, 180] |
| Ai.Control | src/game/ai.cpp:97-100 | the steering control lies in [0, 1.5] and is the raw control's magnitude unless clamped to 1.5 |
| Ai.SteerDirection | src/game/ai.cpp:102-110 | steer right iff diff < -3, left iff diff > 3, and no steering in [-3, 3] |
| Ai.SpeedDecision | src/game/ai.cpp:116-195 | accelerator and brake are never both on; braking takes precedence; crawling below 3.6 x 0.9 before the race ends always accelerates |
| Ai.Car.Steer | src/game/ai.cpp:104-109 | a steer call is recorded with its direction and control and nothing else about the car changes |
| Ai.AI.constructor | src/game/ai.cpp:28-35 | a new controller has no track, last diff 0 and last target node 0 |
| Ai.AI.SetTrack | src/game/ai.cpp:197-201 | setTrack marks the track as set and keeps the other state |
| Ai.AI.SetRandomTolerance | src/game/ai.cpp:61-64 | the tolerance becomes the random vector scaled by TILE_W / 8 |
| Ai.AI.SteerControl | src/game/ai.cpp:66-114 | m_lastDiff becomes the normalised heading error, and the car gets at most one steer call, chosen by the dead band with the clamped control |
| Ai.AI.SpeedControl | src/game/ai.cpp:116-195 | the car's accelerator and brake follow the decision table and are never both on |
| Ai.AI.Update | src/game/ai.cpp:42-59 | without a track nothing changes; otherwise the tolerance is re-drawn only when the target node changed, the last difference is the wrapped heading error to the target node, the car receives at most one steer call (direction from the dead band, clamped control), its brake and accelerator follow the decision table for the tile under it and are never both on, its angle, speed, location and target node are unchanged, and the new target node is recorded |
| TextureText.NewlineCount | src/game/MiniCore/src/Text/mctexturetext.cc:57-60 | a text has no more line breaks than characters |
| TextureText.TextWidth | src/game/MiniCore/src/Text/mctexturetext.cc:47-72 | the width is never negative, and for a non-negative glyph width it is glyph width x the longest line |
| TextureText.TextHeight | src/game/MiniCore/src/Text/mctexturetext.cc:52-60 | for a non-negative glyph height the text is at least one glyph high |
| TextureText.TrailingRun | src/game/MiniCore/src/Text/mctexturetext.cc:55-69 | the current line is no longer than the text |
| TextureText.LongestRun | src/game/MiniCore/src/Text/mctexturetext.cc:55-71 | the longest line is at least the last line and at most the text |
| TextureText.NewlineCountIsOccurrences | src/game/MiniCore/src/Text/mctexturetext.cc:57-60 | the line-break count is the number of '\n' characters |
| TextureText.TrailingRunIsLine | src/game/MiniCore/src/Text/mctexturetext.cc:55-69 | the last line contains no line break |
| TextureText.SuffixWithinTrailingRun | src/game/MiniCore/src/Text/mctexturetext.cc:55-69 | every line-break-free suffix is within the last line |
| TextureText.LongestRunBounds | src/game/MiniCore/src/Text/mctexturetext.cc:55-71 | no line-break-free segment is longer than the longest line |
| TextureText.LongestRunAttained | src/game/MiniCore/src/Text/mctexturetext.cc:55-71 | some line-break-free segment is exactly as long as the longest line |
| TextureText.SingleLine | src/game/MiniCore/src/Text/mctexturetext.cc:49-71 | a text without line breaks is glyph width x length wide and one glyph high; spaces count |
| TextureText.EmptyText | src/game/MiniCore/src/Text/mctexturetext.cc:49-71 | empty text has width 0 and height one glyph |
| TextureText.GlyphsIsProduct | src/game/MiniCore/src/Text/mctexturetext.cc:63 | adding the glyph width once per character of a line gives glyph width x line length |
| TextureText.GlyphsMonotone | src/game/MiniCore/src/Text/mctexturetext.cc:63-67 | with a non-negative glyph width a longer line is never narrower |
| TextureText.GlyphsNegative | src/game/MiniCore/src/Text/mctexturetext.cc:63-67 | with a negative glyph width no line grows past zero, so the width stays 0 |
| TextureText.ExtendLine | src/game/MiniCore/src/Text/mctexturetext.cc:62-69 | one more character lengthens the current line by one; the width becomes the wider of the old width and the grown line; the height is kept |
| TextureText.BreakLine | src/game/MiniCore/src/Text/mctexturetext.cc:57-60 | a line break starts an empty line, keeps the width and adds one glyph height |
| TextureText.Measure | src/game/MiniCore/src/Text/mctexturetext.cc:47-72 | the scan's width is the glyph widths along the longest line (0 for a negative glyph width) and its height is glyph height x (1 + line breaks) |
| TextureText.TextureText.constructor | src/game/MiniCore/src/Text/mctexturetext.cc:32-41 | 32 x 32 glyphs, white, shadow offset (2, -2), and dimensions that match the text |
| TextureText.TextureText.UpdateTextDimensions | src/game/MiniCore/src/Text/mctexturetext.cc:47-72 | the stored dimensions become those of the stored text and glyph size |
| TextureText.TextureText.SetText | src/game/MiniCore/src/Text/mctexturetext.cc:74-79 | the text is stored and the dimensions are recomputed from it |
| TextureText.TextureText.SetGlyphSize | src/game/MiniCore/src/Text/mctexturetext.cc:86-92 | the glyph size is stored and the dimensions are recomputed from it |
| TextureText.TextureText.SetColor | src/game/MiniCore/src/Text/mctexturetext.cc:104-107 | the colour is stored and the dimensions are unchanged |
| TextureText.TextureText.SetShadowOffset | src/game/MiniCore/src/Text/mctexturetext.cc:114-118 | the shadow offset is stored and the dimensions are unchanged |
| TextureText.TextureText.Width | src/game/MiniCore/src/Text/mctexturetext.cc:120-123 | width is xDensity x glyph width x longest line |
| TextureText.TextureText.Height | src/game/MiniCore/src/Text/mctexturetext.cc:125-128 | height is yDensity x glyph height x number of lines |
| ObjectCatalogue.ModelByRole | src/editor/objectmodelloader.cpp:99-108 | the model found is a stored model with the role; without one it is the default model |
| ObjectCatalogue.ByCategory | src/editor/objectmodelloader.cpp:85-97 | the selection is no longer than the catalogue and every selected model has the category |
| ObjectCatalogue.Kept | src/editor/objectmodelloader.cpp:52-78 | every kept model is the model of some element of the document |
| ObjectCatalogue.RoleIndex | src/editor/objectmodelloader.cpp:99-108 | the index found holds the role and no earlier model has it; none is found only if no model has the role |
| ObjectCatalogue.ByCategoryMembers | src/editor/objectmodelloader.cpp:85-97 | a model is selected by category iff it is stored and has that category |
| ObjectCatalogue.ByCategoryAppend | src/editor/objectmodelloader.cpp:85-97 | selection by category keeps stored order |
| ObjectCatalogue.ModelOf | src/editor/objectmodelloader.cpp:54-75 | an element gives a model iff it is an "object" tag whose image file exists, with the tag's category, role and pixmap |
| ObjectCatalogue.KeptCount | src/editor/objectmodelloader.cpp:52-78 | load keeps at most one model per element, and all or none when every element is loadable or none is |
| ObjectCatalogue.ObjectModelLoader.constructor | src/editor/objectmodelloader.cpp:24-27 | a new loader holds no models |
| ObjectCatalogue.ObjectModelLoader.Load | src/editor/objectmodelloader.cpp:29-83 | a failed open or parse keeps the list; otherwise the list is emptied and refilled with the kept models in document order |
| ObjectCatalogue.ObjectModelLoader.GetObjectModelsByCategory | src/editor/objectmodelloader.cpp:85-97 | exactly the stored models of the category, in stored order |
| ObjectCatalogue.ObjectModelLoader.GetObjectModelByRole | src/editor/objectmodelloader.cpp:99-108 | the first model with the role, or the default model when none has it |
| ObjectCatalogue.ObjectModelLoader.GetCategoryByRole | src/editor/objectmodelloader.cpp:110-119 | the first match's category, or the empty string |
| ObjectCatalogue.ObjectModelLoader.GetPixmapByRole | src/editor/objectmodelloader.cpp:126-135 | the first match's pixmap, or the null pixmap |
| ObjectFactory.Dimension | src/editor/objectfactory.cpp:33-37 | the model's dimension when positive, else the pixmap's |
| ObjectFactory.CreateObject | src/editor/objectfactory.cpp:27-46 | the object has the requested role and the first matching model's category and pixmap; each dimension is the model's own when positive and the pixmap's otherwise; without a model it is an empty object with a null pixmap |
| ObjectFactory.SizeFallsBackToPixmap | src/editor/objectfactory.cpp:33-37 | a zero model width or height is replaced by the pixmap's |
| ObjectFactory.LaterModelsIgnored | src/editor/objectfactory.cpp:29-31 | models after the first one with the role do not affect the object |
| CarFactory.CarImage | src/game/carfactory.cpp:31-53 | the last ten positions take the ten listed colours from black backwards; otherwise position 1 is grey and 0 pink; yellow exactly for the positions without an entry |
| CarFactory.ImagesWithEnoughCars | src/game/carfactory.cpp:31-53 | with 12 or more cars, positions 0 and 1 are pink and grey, the last ten have their colours, and the rest are yellow |
| CarFactory.ElevenCarsShadowGrey | src/game/carfactory.cpp:31-45 | with 11 cars the dark red entry takes key 1 first, so position 1 is dark red |
| CarFactory.RandomFactor | src/game/carfactory.cpp:80-83 | the factor is `from` when rand() % 1001 is 0 and `to` when it is 1000 |
| CarFactory.RandomFactorInRange | src/game/carfactory.cpp:80-83 | for from <= to the factor lies in [from, to] |
| CarFactory.FractionOfSpan | src/game/carfactory.cpp:82 | a fraction in [0, 1] of a non-negative span lies within the span |
| CarFactory.Build | src/game/carfactory.cpp:20-78 | index 0 and, with two humans, index 1 get a human car; other indices get a computer car iff there are computer players; the image is the table's |
| CarFactory.HumanCarIsDeterministic | src/game/carfactory.cpp:56-65 | a human car's physics does not depend on rand(), and its drag is 1.25 x 0.25 x 1.8 / 2 |
| CarFactory.ComputerFactorsInRange | src/game/carfactory.cpp:66-75 | a computer car's power, friction and drag lie between 0.8 and 1.2 times the undrawn values |
| CarFactory.DescriptionBetween | src/game/carfactory.cpp:66-75 | with each random factor in [0.8, 1.2] and non-negative multipliers, the computer car's power, friction and drag lie between 0.8 and 1.2 times the undrawn values |
| CarFactory.ScaledBetween | src/game/carfactory.cpp:70-72 | a non-negative base times a factor in [0.8, 1.2] lies between 0.8 and 1.2 times the base |
| CarFactory.ReorderedBetween | src/game/carfactory.cpp:71 | the friction product, with the random factor between the base and the multiplier as the source orders it, lies between 0.8 and 1.2 times base x multiplier |
| CarFactory.Factory.BuildCar | src/game/carfactory.cpp:20-45 | NUM_CARS is fixed on the first call and later counts are ignored |
| EditorArgs.ScanFrom | src/editor/application.cpp:60-70 | a track file the scan sets is one of the arguments it read, whether or not the scan ends at a help argument |
| EditorArgs.ScanArgs | src/editor/application.cpp:57-70 | the loop computes the recursive scan with the guard as written |
| EditorArgs.GuardInBounds | src/editor/application.cpp:64-65 | from position 1 on, i + i < argc implies the read of argv[i + 1] is in bounds |
| EditorArgs.ProgramNameIgnored | src/editor/application.cpp:60 | argv[0] is never examined |
| EditorArgs.ScanSameSuffix | src/editor/application.cpp:60-70 | the scan from i depends only on the arguments from i on |
| EditorArgs.HelpThrows | src/editor/application.cpp:60-63 | a help argument reached after any run of plain arguments ends the scan with the exception, the last plain argument staying the track file |
| EditorArgs.NoHelpNoThrow | src/editor/application.cpp:61-63 | without a help argument the scan never throws |
| EditorArgs.PlainRun | src/editor/application.cpp:66-67 | a run of plain arguments sets the track file to the last of them |
| EditorArgs.LastArgumentWins | src/editor/application.cpp:57-67 | without help or --lang the last argument is the track file and the language stays empty |
| EditorArgs.IntendedLangConsumed | src/editor/application.cpp:64-65 | with the guard i + 1 < argc, --lang and its value set the language and the value is not the track file |
| EditorArgs.AsWrittenLangDropped | src/editor/application.cpp:64-67 | with the guard as written, --lang and its value after one or more plain arguments both become track files |
| EditorArgs.TrackThenLang | src/editor/application.cpp:64-67 | `dustrac-editor track.trk --lang fi` loses the language as written and keeps it with the intended guard |
| EditorArgs.Application.ParseArgs | src/editor/application.cpp:55-72 | parseArgs returns the language or the help exception, and the track file is what the scan left |
| TrackSelection.LitCount | src/game/menu/trackselectionmenu.cpp:224-232 | at most ten stars are lit |
| TrackSelection.StarColours | src/game/menu/trackselectionmenu.cpp:214-243 | a locked track draws no stars; otherwise ten, with star i yellow iff bestPos != -1 and 10 - i >= bestPos |
| TrackSelection.LitStarsArePrefix | src/game/menu/trackselectionmenu.cpp:230 | a lit star has only lit stars before it |
| TrackSelection.YellowsOfRow | src/game/menu/trackselectionmenu.cpp:224-241 | a drawn row has max(0, 11 - bestPos), at most ten, yellow stars, and none without a best position |
| TrackSelection.TrackSelectionMenu.constructor | src/game/menu/trackselectionmenu.cpp:322-328 | the menu starts empty, with no selected track and wrap-around off |
| TrackSelection.TrackSelectionMenu.AddTrack | src/game/menu/trackselectionmenu.cpp:330-337 | the item is appended, the current index is reset to 0 and only item 0 is shown |
| TrackSelection.TrackSelectionMenu.Left | src/game/menu/trackselectionmenu.cpp:339-355 | at index 0 nothing changes; otherwise the index decreases and the previous and new items are shown |
| TrackSelection.TrackSelectionMenu.Right | src/game/menu/trackselectionmenu.cpp:357-373 | at the last index nothing changes; otherwise the index increases and the previous and new items are shown |
| TrackSelection.TrackSelectionMenu.Up | src/game/menu/trackselectionmenu.cpp:375-378 | up behaves as left |
| TrackSelection.TrackSelectionMenu.Down | src/game/menu/trackselectionmenu.cpp:380-383 | down behaves as right |
| TrackSelection.TrackSelectionMenu.SelectCurrentItem | src/game/menu/trackselectionmenu.cpp:390-400 | an unlocked track becomes the selected and active track and the menu is done; a locked one changes nothing |
| EditorWindow.NewTile | src/editor/mainwindow.cpp:364-365 | the tile placed in column i, row j is 256 x 256 and covers exactly that cell, with the initial type |
| EditorWindow.SceneRect | src/editor/mainwindow.cpp:339-340 | the scene runs from -MARGIN to the grid's far edge plus MARGIN along each axis |
| EditorWindow.TilesInsideScene | src/editor/mainwindow.cpp:339-340 | the scene rect is cols x 256 by rows x 256 at the origin and contains every new tile |
| EditorWindow.CentresDistinct | src/editor/mainwindow.cpp:358-373 | different cells get different tile centres |
| EditorWindow.SaveAsFileName | src/editor/mainwindow.cpp:306-309 | the Save As name ends in ".trk", and a name that already does is unchanged |
| EditorWindow.SaveAsFileNameIdempotent | src/editor/mainwindow.cpp:306-309 | applying the suffix rule twice is the same as once |
| EditorWindow.ToolbarTileType | src/editor/mainwindow.cpp:240-256 | "straight", "corner" and "grass" map to their grass tile types, and any other data to none |
| EditorWindow.ScaleFor | src/editor/mainwindow.cpp:145-154 | the view scale is the slider value / 100 |
| EditorWindow.ZoomRange | src/editor/mainwindow.cpp:51-53 | the slider range 0..200 gives scales 0..2, and the initial value 100 gives 1 |
| EditorWindow.Stamped | src/editor/mainwindow.cpp:389-393 | a console message is "(", then the time, then "): ", then the text, each at its place |
| EditorWindow.MainWindow.constructor | src/editor/mainwindow.cpp:57-143 | a new window has no track, no active tile, Save and Save As disabled, the initial zoom, and the stamped welcome message |
| EditorWindow.MainWindow.UpdateScale | src/editor/mainwindow.cpp:145-154 | the view scale becomes value / 100 and nothing else changes |
| EditorWindow.MainWindow.HandleToolBarActionClick | src/editor/mainwindow.cpp:238-262 | with an active tile, a known action sets that tile's type and any other action changes nothing; without one, "No tiles selected." is logged with its time stamp |
| EditorWindow.MainWindow.SaveAsTrack | src/editor/mainwindow.cpp:299-322 | offered only once there is a track; the name gets the ".trk" suffix; the stored file name changes and Save is enabled only when saving succeeds; the stamped success or failure message names the file |
| EditorWindow.MainWindow.CreateGrid | src/editor/mainwindow.cpp:358-373 | every cell of the grid holds a new tile centred at (128 + 256i, 128 + 256j), other cells are unchanged, and tile (0,0) becomes active |
| EditorWindow.MainWindow.ClearAsWritten | src/editor/mainwindow.cpp:375-387 | clear as offered by the menu dereferences the track exactly when there is none (nothing else changes then); with a track it sets every grid tile's type to clear, keeps the other tiles, the track's name and file name, and appends "Tiles cleared."; active tile, scene rect, zoom and the Save/Save As states never change |
| EditorWindow.ClearBeforeNewTrack | src/editor/mainwindow.cpp:57-61 | Edit -> Clear in a window that has just opened reaches the null track |
| EditorWindow.MainWindow.Clear | src/editor/mainwindow.cpp:375-387 | corrected clear: without a track nothing changes; with one every grid tile's type becomes none, the set of cells is unchanged, and "Tiles cleared." is appended without a time stamp |
| EditorWindow.CheckedClearBeforeNewTrack | src/editor/mainwindow.cpp:205-207 | with the check, Edit -> Clear in a fresh window leaves only the welcome message and no active tile |
| EditorWindow.MainWindow.InitializeNewTrack | src/editor/mainwindow.cpp:324-356 | an accepted dialog gives a new track with the dialog's name and size, whose tiles are exactly the grid's new tiles, with the scene rect of the grid, Save As enabled and the first tile active (if any); a rejected dialog changes nothing; Save state and zoom are kept either way, and the console is left as it was (the new-track message is not modelled) |
| ObjectData.MCObjectData.constructor | src/game/MiniCore/src/Core/mcobjectdata.hh:47-48 | the record holds its type id and the default shape |
| ObjectData.MCObjectData.SetMass | src/game/MiniCore/src/Core/mcobjectdata.hh:56-60 | the mass is stored and nothing else changes |
| ObjectData.MCObjectData.SetShapeRadius | src/game/MiniCore/src/Core/mcobjectdata.hh:62-66 | the radius is stored and the shape becomes a circle |
| ObjectData.MCObjectData.SetShapeWidth | src/game/MiniCore/src/Core/mcobjectdata.hh:68-72 | the width is stored and the shape becomes a rectangle |
| ObjectData.MCObjectData.SetShapeHeight | src/game/MiniCore/src/Core/mcobjectdata.hh:74-78 | the height is stored and the shape becomes a rectangle |
| ObjectData.MCObjectData.SetRestitution | src/game/MiniCore/src/Core/mcobjectdata.hh:83-87 | the restitution is stored and nothing else changes |
| ObjectData.MCObjectData.SetXYFriction | src/game/MiniCore/src/Core/mcobjectdata.hh:89-93 | the friction is stored and nothing else changes |
| ObjectData.MCObjectData.SetIsStationary | src/game/MiniCore/src/Core/mcobjectdata.hh:95-99 | the stationary flag is stored and nothing else changes |
| ObjectData.MCObjectData.SetInitialLocation | src/game/MiniCore/src/Core/mcobjectdata.hh:101-105 | the initial location is stored and nothing else changes |
| ObjectData.MCObjectData.SetInitialAngle | src/game/MiniCore/src/Core/mcobjectdata.hh:107-111 | the initial angle is stored and nothing else changes |
| ObjectData.LastSetterWins | src/game/MiniCore/src/Core/mcobjectdata.hh:40-45 | whichever dimension setter ran last decides the shape, and once one has run it is never the default |
| Input.Bit | src/game/inputhandler.h:28 | each of the four actions has a bit below IA_END_OF_ENUM = 4 |
| Input.Set | src/game/inputhandler.h:33-35 | setting a state gives the player an entry and adds no other player |
| Input.GetAfterSet | src/game/inputhandler.h:33-38 | reading an action back after setting it gives the state that was set |
| Input.MaskShape | src/game/inputhandler.h:42-43 | each mask is non-empty and masks of different actions are disjoint |
| Input.OtherActionsKept | src/game/inputhandler.h:42-43 | setting one action leaves the player's other actions unchanged |
| Input.OtherPlayersKept | src/game/inputhandler.h:42-43 | setting a player's action leaves every other player's actions unchanged |
| Input.UnsetPlayerIdle | src/game/inputhandler.h:37-38 | a player that was never set reads as all off |
| Input.InputHandler.SetActionState | src/game/inputhandler.h:33-35 | the table is updated by Set, and the action then reads as the state set |
| Input.InputHandler.GetActionState | src/game/inputhandler.h:37-38 | the state is the action's bit in the player's set |

## Left out

- Rendering: `MCTextureText::render`, the drawing parts of the track item and the menu's animation, and all surface and shader calls.
- Qt plumbing: the widgets, layouts, settings and toolbar population of the `MainWindow` constructor, its menus and dialogs, and `TrackIO` reading and writing. The save operation and the dialogs' answers are parameters. `openTrack` and `saveTrack` are not part of this model.
- Console messages: `MainWindow::console` stamps each message with the time of day; the time is a parameter (`Stamped`). The model logs the welcome message, "No tiles selected." and the `saveAsTrack` messages, which carry the file name, with their stamp, and "Tiles cleared.", which `clear` appends without one. The messages that carry numbers ("Scale set to N%" and the new-track message with its columns and rows) are not logged, because number formatting is not modelled. The load warning of `ObjectModelLoader::load` ("WARNING!!: " and the image path) goes to the main window's console and is not modelled: `ObjectCatalogue.ObjectModelLoader.Load` only drops the element.
- File and XML reading in `ObjectModelLoader::load`: the document is a parameter (`None` for a file that cannot be opened or parsed). The walk over the root's children is modelled as a walk over its element children only; the source's stall on a non-element child is not modelled.
- `MCTrigonom::rotatedX/rotatedY` are modelled as x cos a - y sin a and x sin a + y cos a over abstract cosine and sine tables.
- OrientedBox.OBBox.ContainsInFrame: the table entries for the box's angle are assumed to lie exactly on the unit circle (`UnitAt`); the floating-point tables only do so approximately, and the rounding is not modelled.
- `atan2` with the radian-to-degree conversion, `MCRandom`, `rand()`, `lengthFast` and `normalizedFast` are parameters.
- Floating point is modelled as `real`: rounding and the float-to-int conversions are not modelled.
- Unsigned 32-bit wrap-around of angles (`MCUint`) is not modelled: angles are `nat`.
- `MCVector2d`'s product of two vectors is taken to be the dot product, `MCMathUtil::sign` the three-valued sign, and `MCBBox::contains` inclusive of the border. Their definitions are not part of this model.
- src/game/MiniCore/src/Core/mcobjectdata.hh and src/game/inputhandler.h declare their members without bodies. The model assumes that each setter stores its value, that the dimension setters select the shape, and that a player's actions are one bit set, as their comments and field lists say. Initial values other than the type id are assumed to be zero, and the shape is assumed to be the default.
- `Menu::left`/`right` are modelled as a decrement or increment of the current index with wrap-around off. The `Menu` base class is not part of this model.
- The collision detector (src/game/MiniCore/src/Physics/mccollisiondetector.hh), src/game/bridge.hpp, src/common/trackdatabase.hpp, src/game/trackobject.h and src/game/main.cpp are not part of this model. They declare interfaces or set up the process.
- `Application::printHelp`, `initTranslations`, the `Application` constructor and `run` are left out; the help exception is a `Failure` result.
- `AI::speedControl`'s tile data (computer hint and tile type) is a parameter, and so is the route in `update`.
- EditorWindow.MainWindow.InitializeNewTrack: the console message announcing the new track with its columns and rows is not logged, because number formatting is not modelled; the contract states the console unchanged instead.
- EditorWindow.MainWindow.InitializeNewTrack: the active tile of the old track is forgotten (`None`) before the grid is created, where the source keeps a dangling pointer to a tile of the deleted track.
- TrackSelection.TrackSelectionMenu.SelectCurrentItem: requires a non-empty menu, since the source indexes the item list unchecked.
- ObjectData.MCObjectData.constructor: the default values of the record's other fields are assumptions, because the constructor's body is not part of this model.

## Findings

| source | as written | input that shows it | evidently intended | confidence | as-written member | corrected member |
|---|---|---|---|---|---|---|
| src/game/MiniCore/Core/mcobbox.hh:191-232 | both `intersects` test the other box's vertex vectors without adding its location | two nested boxes, or a unit box and a bbox, around (100, 100) | test the placed vertices, `m_v[i] + m_p` | not executed | OrientedBox.NestedBoxesAwayFromOrigin | OrientedBox.IntersectsPlacedTranslation |
| src/game/MiniCore/Core/mcobbox.hh:155-183 | `rotate` rotates the current v0 and v1 by the new absolute angle, so rotations compound | a 1 x 2 box rotated to 90 and then to 180 ends with v0 = (-2, 1) instead of (1, 2) | rotate the initial vertex vectors (-hx, -hy), (-hx, hy) by the new angle | not executed | OrientedBox.RotateCompounds | OrientedBox.OBBox.RotateAbsolute |
| src/editor/application.cpp:64 | the guard before reading the `--lang` value is `i + i < argc` | `dustrac-editor track.trk --lang fi`: the language stays empty and "fi" becomes the track file | `i + 1 < argc` | not executed | EditorArgs.AsWrittenLangDropped | EditorArgs.IntendedLangConsumed |
| src/editor/mainwindow.cpp:375-387 | the Edit menu's Clear action is never disabled (lines 205-207), yet `clear` reads `m_trackData->cols()` without a check, and `m_trackData` is NULL until File -> New or File -> Open (line 61) | choosing Edit -> Clear right after the editor opens | clear only when there is a track, doing nothing otherwise | not executed | EditorWindow.ClearBeforeNewTrack | EditorWindow.MainWindow.Clear |
