# fill_it core in Dafny

fill_it post-processes NASTRAN results for filled holes: fasteners (CBUSH
elements) that join composite or metallic plates (CQUAD4 elements). For each
requested fastener it finds the ring of plates around the hole, cuts the
ring into four sides by sorting the plate centroids along two axes, averages
each side's element forces weighted, as intended, by side length (the source
weights by an ID; see "## Findings"), and reduces them to one filled-hole record: the running loads Fxx,
Fyy, Fxy, the moments Mxx, Myy, Mxy, two bearing shears and the pull-through
load. Pairs of fasteners that share a node are written as one row of the
results table.

This project models that core, file by file, and proves what it promises:

- **Text** (`text.dfy`): trimming, fixed-width 8- and 16-column bulk-data
  fields, the NASTRAN short exponent repair (`1.5-3` becomes `1.5E-3`) and
  the real-number test.
- **Math types** (`euclidean_vector.dfy`, `coordinate.dfy`,
  `transformation.dfy`, `cauchy_stress.dfy`): 3-vectors, points updated in
  place, 3x3 transformations with their inverse, and the plane stress tensor
  with its rotation.
- **Bulk-data cards** (`coord.dfy`, `grid.dfy`, `load_case.dfy`, `mat.dfy`,
  `pbush.dfy`, `pshell.dfy`, `pcomp.dfy`, `cquad.dfy`, `cbush.dfy`,
  `rbe2.dfy`, `rbe3.dfy`): each card's fields, its defaults, the chain of
  coordinate frames up to BASIC, and the punch-file results stored per load
  case.
- **The model** (`basic_model.dfy`, `linking.dfy`): reading a bulk-data file
  and a punch file into maps keyed by ID, and linking elements to their grids,
  properties and materials.
- **Filled-hole analysis** (`ring.dfy`, `sides.dfy`, `reduction.dfy`): the
  search for the plate ring through the fastener's grid, RBE2 spiders or RBE3
  elements; the cutting of the ring into four sides by sorting the plate
  centroids along two axes; and the side averages, weighted as intended by
  side length (the source weights by an ID; see "## Findings"), reduced to
  the nine filled-hole values.
- **Driver** (`fh_model.dfy`, `fill_it.dfy`): pairing fasteners by shared
  node, the result table's rows, and the control file that names the input
  and punch files, the fastener groups with their axes, and the subcases.

The C runtime and maths library (`atol`, `atof`, `sqrt`, `acos`, `sin`, `cos`)
are abstract: a value of the datatype `Libc` carries them as functions and every
member that parses or measures takes it as a parameter. Doubles are modelled as
`real` and unsigned longs as `int`.

## Model

| member | source | states |
|---|---|---|
| Text.TrimLeft | Stress_Library/src/NASTRAN_General/CBUSH.cpp:850-854 | drops exactly the leading run of spaces: the result is a suffix of the text, what was dropped is blank, and the result is empty or starts with a non-space |
| Text.TrimRight | Stress_Library/src/NASTRAN_General/CBUSH.cpp:850-854 | drops exactly the trailing run of spaces: the result is a prefix, what was dropped is blank, and the result is empty or ends with a non-space |
| Text.Trim | Stress_Library/src/NASTRAN_General/CBUSH.cpp:848-854 | the trimmed field is empty exactly when the field is blank, and otherwise neither starts nor ends with a space |
| Text.TrimIsSlice | Stress_Library/src/NASTRAN_General/CBUSH.cpp:850-854 | trimming keeps one contiguous piece of the field, preceded by spaces only and followed by spaces only |
| Text.TrimIdempotent | Stress_Library/src/NASTRAN_General/CBUSH.cpp:850-854 | trimming an already trimmed field changes nothing |
| Text.TrimOfTrimmed | Stress_Library/src/NASTRAN_General/CBUSH.cpp:850-854 | a field with no leading or trailing space is its own trim |
| Text.RemoveSpaces | Stress_Library/src/NASTRAN_General/BASIC_MODEL.cpp:444-456 | the result holds no space and keeps every other character with its multiplicity |
| Text.RemoveSpacesAppend | Stress_Library/src/NASTRAN_General/BASIC_MODEL.cpp:451-453 | removing spaces distributes over concatenation |
| Text.RemoveSpacesIdentity | Stress_Library/src/NASTRAN_General/BASIC_MODEL.cpp:451-453 | text without spaces is left as it is |
| Text.RemoveSpacesIdempotent | Stress_Library/src/NASTRAN_General/BASIC_MODEL.cpp:451-453 | removing spaces twice is the same as once |
| Text.RemoveSpacesOfBlank | Stress_Library/src/NASTRAN_General/BASIC_MODEL.cpp:446-449 | a blank text leaves nothing |
| Text.EraseOneSpace | Stress_Library/src/NASTRAN_General/BASIC_MODEL.cpp:452 | erasing any one space does not change the spaceless text, which is the invariant of the erase loop |
| Text.EraseSpaces | Stress_Library/src/NASTRAN_General/BASIC_MODEL.cpp:447-455 | the loop that erases the first space until none is left ends with the field's spaceless text |
| Text.FindFrom | Stress_Library/src/NASTRAN_General/CBUSH.cpp:856-859 | `find_first_of(c, from)`: an index at or after `from` holding `c` with no earlier one, or -1 exactly when there is none |
| Text.FindLast | Stress_Library/src/NASTRAN_General/CBUSH.cpp:856-859 | the last index holding `c` with none after it, or -1 exactly when `c` does not occur |
| Text.BlankIffNoText | Stress_Library/src/NASTRAN_General/BASIC_MODEL.cpp:444-456 | a field is blank exactly when nothing remains once its spaces are removed, so the early `""` return agrees with the loop |
| Text.CheckExpStrippedBlank | Stress_Library/src/NASTRAN_General/MAT.cpp:172-197 | MAT's `check_exp` returns `""` exactly for a blank field |
| Text.CheckExpStrippedSpaces | Stress_Library/src/NASTRAN_General/MAT.cpp:172-197 | MAT's `check_exp` depends only on the non-space characters of the field, so spaces inside a number are ignored |
| Text.CheckExpBlank | Stress_Library/src/NASTRAN_General/CBUSH.cpp:848-869 | `check_exp` returns `""` exactly for a blank field |
| Text.CheckExpOnlyTrims | Stress_Library/src/NASTRAN_General/CBUSH.cpp:855-868 | a field that already carries an `E`/`e`, or has no sign after its first character, is returned only trimmed |
| Text.CheckExpInsertsE | Stress_Library/src/NASTRAN_General/CBUSH.cpp:855-868 | otherwise exactly one `E` is inserted, right before the first `-` after position 0 (or the first `+` when there is no such `-`), and every other character keeps its order |
| Text.ExponentSignFound | Stress_Library/src/NASTRAN_General/CBUSH.cpp:857-860 | the exponent position found is a `-`, or a `+` when no `-` follows the first character, and none of its kind comes earlier |
| Text.CheckExpExampleMantissa | Stress_Library/src/NASTRAN_General/CBUSH.cpp:848-869 | the NASTRAN short exponent `1.5-3` becomes `1.5E-3` |
| Text.CheckExpExampleLeadingSign | Stress_Library/src/NASTRAN_General/CBUSH.cpp:857 | a leading minus is not taken for an exponent: `-2.0` is unchanged |
| Text.Substr | Stress_Library/src/NASTRAN_General/PBUSH.cpp:57 | `substr(pos, n)` returns the `n` characters from `pos`, cut short at the end of the text |
| Text.PunchFieldLayout | Stress_Library/src/NASTRAN_General/CBUSH.cpp:396-400 | a punch line of at least 72 characters yields its three 18-character result fields at columns 18, 36 and 54 |
| Text.CheckFields | Stress_Library/src/NASTRAN_General/PCOMP.cpp:107-119 | applying `check_exp` to every field in order yields the checked field list |
| Text.CheckedAt | Stress_Library/src/NASTRAN_General/CBUSH.cpp:848-869 | each checked field is `check_exp` of the field in the same place |
| Text.CheckedField | Stress_Library/src/NASTRAN_General/CBUSH.cpp:848-869 | reading a checked field is `check_exp` of reading the field, also for an index past the end of the list (which reads blank) |
| Text.SmallFieldLayout | Stress_Library/src/NASTRAN_General/PBUSH.cpp:54-60 | a small-field line yields eight 8-character fields at columns 8, 16, ..., 64 |
| Text.LargeFieldLayout | Stress_Library/src/NASTRAN_General/PBUSH.cpp:61-67 | a large-field line yields four fields at columns 8, 24, 40, 56 |
| Text.CardFieldsAppend | Stress_Library/src/NASTRAN_General/PBUSH.cpp:54-67 | a card's field list is its first lines' fields followed by the remaining lines' fields |
| Text.CardFieldsLength | Stress_Library/src/NASTRAN_General/PBUSH.cpp:54-67 | every line adds the same number of fields, so a card of `n` lines has `n` times that many |
| Text.SplitFields | Stress_Library/src/NASTRAN_General/PBUSH.cpp:54-67 | the nested split loops produce the card's field list, line after line and column after column |
| Text.LineFields | Stress_Library/src/NASTRAN_General/PBUSH.cpp:56-58 | the inner split loop produces one line's fields from column 8 to 71 |
| Coordinates.IndexComponents | Stress_Library/src/Math/Coordinate.cpp:77-84 | `operator[]` returns x, y, z for 0, 1, 2 and x for any other index |
| Coordinates.AddSubInverse | Stress_Library/src/Math/Coordinate.cpp:86-98 | `operator-` undoes `operator+` and the other way round |
| Coordinates.ScaleDivideInverse | Stress_Library/src/Math/Coordinate.cpp:114-126 | dividing by a non-zero factor undoes scaling by it |
| Coordinates.ResultantPlane | Stress_Library/src/Math/Coordinate.cpp:58-70 | the resultant for axis pair 12 (or 21) ignores z, for 13 (31) ignores y and for 23 (32) ignores x |
| Coordinates.Coordinate.constructor | Stress_Library/src/Math/Coordinate.cpp:21-24 | a new coordinate holds the given components; the model starts its frame at 0, which the source leaves uninitialised |
| Coordinates.Coordinate.SetCoordinates | Stress_Library/src/Math/Coordinate.cpp:31-36 | replaces the three components |
| Coordinates.Coordinate.SetReference | Stress_Library/src/Math/Coordinate.cpp:38-41 | changes the frame ID and keeps the components |
| Coordinates.Coordinate.AddAssign | Stress_Library/src/Math/Coordinate.cpp:100-105 | `+=` adds component-wise and keeps the frame ID |
| Coordinates.Coordinate.SubAssign | Stress_Library/src/Math/Coordinate.cpp:107-112 | `-=` subtracts component-wise and keeps the frame ID |
| EuclideanVectors.MakeVector | Stress_Library/src/Math/Euclidean_Vector.cpp:50-63 | `set_vector` stores the components and marks the vector normalised exactly when its magnitude is 1.0 |
| EuclideanVectors.DotSymmetric | Stress_Library/src/Math/Euclidean_Vector.cpp:95-98 | the dot product is symmetric |
| EuclideanVectors.CrossAntiCommutative | Stress_Library/src/Math/Euclidean_Vector.cpp:140-144 | swapping the operands of the cross product negates it |
| EuclideanVectors.CrossOrthogonal | Stress_Library/src/Math/Euclidean_Vector.cpp:140-144 | the cross product is orthogonal to both operands |
| EuclideanVectors.DotScaled | Stress_Library/src/Math/Euclidean_Vector.cpp:95-98 | the dot product is linear in its first operand |
| EuclideanVectors.NormalizedScales | Stress_Library/src/Math/Euclidean_Vector.cpp:210-219 | normalising scales every component by one factor, sets the flag, leaves a normalised vector alone and gives magnitude 1.0 |
| EuclideanVectors.NormalizedZeroVector | Stress_Library/src/Math/Euclidean_Vector.cpp:210-219 | the zero vector is left zero but flagged normalised with magnitude 1.0 |
| EuclideanVectors.NormalizedIdempotent | Stress_Library/src/Math/Euclidean_Vector.cpp:210-219 | normalising twice is the same as once |
| EuclideanVectors.AngleClamped | Stress_Library/src/Math/Euclidean_Vector.cpp:110-123 | `get_angle` passes `acos` a ratio clamped to [-1, 1], and returns 0 exactly in the 0/0 case |
| EuclideanVectors.ClampedRatioInRange | Stress_Library/src/Math/Euclidean_Vector.cpp:110-123 | the clamped ratio is the quotient when it lies in [-1, 1], 1 above and -1 below, and undefined only for 0/0 |
| EuclideanVectors.IndexComponents | Stress_Library/src/Math/Euclidean_Vector.cpp:229-241 | `operator[]` returns i, j, k, magnitude for 0..3 and i for any other index |
| EuclideanVectors.PlusMinusInverse | Stress_Library/src/Math/Euclidean_Vector.cpp:280-297 | `operator-` undoes `operator+` |
| EuclideanVectors.ScaleIdentity | Stress_Library/src/Math/Euclidean_Vector.cpp:252-271 | scaling by 1 is the identity and dividing by a non-zero factor undoes scaling by it |
| EuclideanVectors.ProjectToVectorSum | Stress_Library/src/Math/Euclidean_Vector.cpp:168-177 | the parallel and perpendicular parts returned by `project_to_vector` add up to the point |
| EuclideanVectors.ProjectToVectorOrthogonal | Stress_Library/src/Math/Euclidean_Vector.cpp:168-177 | the perpendicular part is orthogonal to the unit direction |
| EuclideanVectors.ProjectToPlaneOrthogonal | Stress_Library/src/Math/Euclidean_Vector.cpp:158-166 | the projection onto the plane is orthogonal to the plane's unit normal |
| EuclideanVectors.RodriguesZeroAngle | Stress_Library/src/Math/Euclidean_Vector.cpp:193-201 | a rotation whose cosine is 1 and sine 0 leaves the vector's components unchanged |
| EuclideanVectors.EuclideanVector.constructor | Stress_Library/src/Math/Euclidean_Vector.cpp:29-32 | a new vector holds `set_vector` of the given components |
| EuclideanVectors.EuclideanVector.SetVector | Stress_Library/src/Math/Euclidean_Vector.cpp:50-63 | replaces the components and recomputes magnitude and flag |
| EuclideanVectors.EuclideanVector.Normalize | Stress_Library/src/Math/Euclidean_Vector.cpp:210-219 | the object becomes the normalised form of its old value |
| Cauchy.RotateKeepsRaw | Stress_Library/src/Stress/CAUCHY_STRESS.cpp:40-46 | rotating keeps the raw components, records the angle, and a second rotation starts again from the raw components rather than compounding |
| Cauchy.SetValuesViews | Stress_Library/src/Stress/CAUCHY_STRESS.cpp:32-55 | after `set_values` the raw and rotated slots agree, the angle is 0, and `operator[]` past the last slot reads fx |
| Cauchy.CauchyStress.constructor | Stress_Library/src/Stress/CAUCHY_STRESS.cpp:22-25 | a new tensor holds the slots `set_values` writes |
| Cauchy.CauchyStress.SetValues | Stress_Library/src/Stress/CAUCHY_STRESS.cpp:32-38 | the slots become those `set_values` writes |
| Cauchy.CauchyStress.Rotate | Stress_Library/src/Stress/CAUCHY_STRESS.cpp:40-46 | the slots become the rotation of the old slots |
| Transformations.ComponentInRange | Stress_Library/src/Math/Transformation.cpp:287-294 | `get_component` reads the addressed cell inside the 3x3 matrix and cell (0, 0) for any index outside it |
| Transformations.AxesMatrixRows | Stress_Library/src/Math/Transformation.cpp:41-51 | the three-vector build stores each normalised axis as its row, so the matrix maps the x unit vector onto the axes' first components |
| Transformations.AxisCodeRowPlacement | Stress_Library/src/Math/Transformation.cpp:67-153 | the axis-code build stores the normalised first vector in row 0 for codes 12 and 13, row 1 for 21 and 23, and row 2 for 31, 32 and every other code |
| Transformations.DotNormalized | Stress_Library/src/Math/Euclidean_Vector.cpp:210-219 | the dot product with a normalised vector is the normalising factor times the plain dot product |
| Transformations.NormalizedCrossOrthogonal | Stress_Library/src/Math/Transformation.cpp:67-153 | a normalised cross product is orthogonal to both operands, which is how the build derives its second and third axes |
| Transformations.AxisCodeOrthogonal | Stress_Library/src/Math/Transformation.cpp:67-153 | for every axis code the built rows are pairwise orthogonal |
| Transformations.ApplyProduct | Stress_Library/src/Math/Transformation.cpp:267-275 | transforming by a product of matrices is transforming by each factor in turn |
| Transformations.ApplyIdentity | Stress_Library/src/Math/Transformation.cpp:267-275 | the identity leaves every coordinate where it is |
| Transformations.CofactorRow1 | Stress_Library/src/Math/Transformation.cpp:225-230 | the first row of the cofactor matrix times the matrix is (det, 0, 0) |
| Transformations.CofactorRow2 | Stress_Library/src/Math/Transformation.cpp:225-230 | the second row gives (0, det, 0) |
| Transformations.CofactorRow3 | Stress_Library/src/Math/Transformation.cpp:225-230 | the third row gives (0, 0, det) with the cofactor C as it should read |
| Transformations.AdjugateInverts | Stress_Library/src/Math/Transformation.cpp:223-241 | with the corrected cofactor C the adjugate times the matrix is det times the identity, so dividing by the determinant inverts |
| Transformations.AdjugateAsWrittenCounterexample | Stress_Library/src/Math/Transformation.cpp:226 | for the rotation about x by the angle with cosine 0.6 the written cofactor C gives a non-zero off-diagonal entry 0.48 in adj(M)·M, so `inverse_matrix` does not invert it |
| Transformations.AdjugateAsWrittenAgrees | Stress_Library/src/Math/Transformation.cpp:226 | the written and corrected cofactors, and the determinants built from them, coincide exactly when cells (2,0) and (2,1) are equal, which is why the slip goes unnoticed for many matrices |
| Transformations.WrittenCofactorAgrees | Stress_Library/src/Math/Transformation.cpp:226 | the written cofactor d·h - e·h equals d·h - e·g when g equals h |
| Transformations.AdjugateAsWrittenIdentity | Stress_Library/src/Math/Transformation.cpp:223-241 | for the identity the written inverse still yields the identity with determinant 1 |
| Transformations.Transformation.constructor | Stress_Library/src/Math/Transformation.cpp:18-21 | a new transformation holds a 3x3 matrix of zeros |
| Transformations.Transformation.SetRow | Stress_Library/src/Math/Transformation.cpp:48-50 | one row-copy loop replaces row r with the vector's components and leaves the other rows |
| Transformations.Transformation.BuildFromAxes | Stress_Library/src/Math/Transformation.cpp:41-51 | the object holds the three-vector matrix of normalised axes |
| Transformations.Transformation.BuildFromAxisCode | Stress_Library/src/Math/Transformation.cpp:67-153 | the object holds the axis-code matrix, with each branch's row order |
| Transformations.Transformation.BuildFromPoints | Stress_Library/src/Math/Transformation.cpp:170-177 | the object holds the axis-code matrix built on p1->p2 and p1->p3 |
| Transformations.Transformation.TransformCoordinate | Stress_Library/src/Math/Transformation.cpp:267-275 | the accumulation loops return the matrix applied to the coordinate |
| Transformations.Transformation.TransformVector | Stress_Library/src/Math/Transformation.cpp:250-258 | the accumulation loops return the matrix applied to the vector, as a new vector |
| Transformations.Transformation.InverseMatrix | Stress_Library/src/Math/Transformation.cpp:223-241 | returns a fresh transformation holding the adjugate over the determinant, rebuilt through the three-vector build, with the corrected cofactor C |
| Transformations.PartialRowFull | Stress_Library/src/Math/Transformation.cpp:267-275 | the three row sums the loops accumulate are the components of the matrix applied to the point |
| Transformations.GetComponentValue | Stress_Library/src/Math/Transformation.cpp:287-294 | the object's `get_component` agrees with the component of the matrix it holds |
| Frames.ParseCoordLayout | Stress_Library/src/NASTRAN_General/COORD.cpp:57-87 | a CORD2R card gives ID and RID from fields 0-1 and the origin from fields 2-4; the forward matrix has its z row along origin->B and pairwise orthogonal rows; the stored inverse is the inverse as intended, through the corrected adjugate |
| Frames.TransformPointRoundTrip | Stress_Library/src/NASTRAN_General/COORD.cpp:166-177 | transforming into the frame and back gives the point again whenever the stored inverse is an exact inverse |
| Frames.TransformVectorNoShift | Stress_Library/src/NASTRAN_General/COORD.cpp:190-199 | a vector is rotated like a point in a frame whose origin is zero, and the frame origin plays no part |
| Frames.IndexAndAxisRow | Stress_Library/src/NASTRAN_General/COORD.cpp:105-118 | `operator[]` returns RID for 1 and the ID otherwise; `get_axis_vector` reads row 1 or 2 for those axes and row 0 for any other |
| Frames.LocalAxisRow | Stress_Library/src/NASTRAN_General/COORD.cpp:108-118 | the local axis vector is the chosen row of the forward or inverse matrix |
| Frames.UpwardAsWrittenNullAtBasic | Stress_Library/src/NASTRAN_General/GRID.cpp:100-111 | as written, the upward walk from a frame defined in BASIC moves to ID 0 and then looks up frame 0, which does not exist (a null dereference); the intended walk applies the frame's own inverse and arrives at BASIC |
| Frames.UpwardAsWrittenUsesParent | Stress_Library/src/NASTRAN_General/GRID.cpp:100-106 | as written, each upward step applies the parent's inverse instead of the frame's own |
| Frames.DownLoopAsWrittenDiverges | Stress_Library/src/NASTRAN_General/GRID.cpp:119-126 | as written, the downward loop re-reads the target's parent on every turn, so it never ends once the target's parent is a present frame other than BASIC |
| Frames.FrameListAsWrittenDiverges | Stress_Library/src/NASTRAN_General/GRID.cpp:114-127 | hence the written frame list is never produced, with any fuel, for such a target |
| Frames.FrameListAgreesAtRoot | Stress_Library/src/NASTRAN_General/GRID.cpp:114-127 | for a target defined in BASIC or in a missing frame, the written and intended lists are both just the target |
| Frames.DownLoopShape | Stress_Library/src/NASTRAN_General/CQUAD.cpp:128-140 | the intended downward loop extends its list into a chain of present frames, each the parent of the one before, ending at BASIC or a missing frame |
| Frames.FrameListShape | Stress_Library/src/NASTRAN_General/CQUAD.cpp:126-140 | the intended frame list is empty exactly for an unknown target, and otherwise starts at the target and climbs RID links to BASIC or a missing frame |
| Frames.DownLoopFuelMonotone | Stress_Library/src/NASTRAN_General/CQUAD.cpp:132-139 | once the loop has finished within some number of steps, more steps give the same list |
| Frames.AxisVectorOneLevel | Stress_Library/src/NASTRAN_General/COORD.cpp:105-153 | for a frame in BASIC both forms return the local axis; for a frame one level down the written form dereferences frame 0 (a crash) while the intended one returns the axis rotated back through the parent |
| Frames.WalkUp | Stress_Library/src/NASTRAN_General/GRID.cpp:99-111 | the intended upward `while (refCoord != 0)` loop returns the intended walk's outcome |
| Frames.CollectFrames | Stress_Library/src/NASTRAN_General/CQUAD.cpp:126-140 | the intended downward loop returns the intended frame list |
| Frames.ApplyFrames | Stress_Library/src/NASTRAN_General/GRID.cpp:129-131 | the final loop applies the listed frames from the root-most to the target |
| Grids.AppendIfAbsentProperties | Stress_Library/src/NASTRAN_General/GRID.cpp:142-206 | registering an element ID keeps the old list as a prefix, adds the ID at the end exactly when it was not listed, keeps a duplicate-free list duplicate-free, and a second registration changes nothing |
| Grids.AppendIfAbsentTwice | Stress_Library/src/NASTRAN_General/GRID.cpp:142-151 | registering the same element twice is registering it once |
| Grids.ParseGridShortColumns | Stress_Library/src/NASTRAN_General/GRID.cpp:57-83 | a small-field GRID reads the first line only: ID at columns 8-15, CP 16-23, X1-X3 at 24-47 through `check_exp`, CD 48-55; continuation lines are ignored |
| Grids.ParseGridLongColumns | Stress_Library/src/NASTRAN_General/GRID.cpp:57-83 | a large-field GRID reads ID and CP from the first line's first two 16-wide fields, X1 and X2 from the next two, X3 and CD from the continuation line |
| Grids.GridFieldsCount | Stress_Library/src/NASTRAN_General/GRID.cpp:60-73 | a small-field GRID has eight fields whatever follows its first line; a large-field GRID has four per line |
| Grids.ParseGridAsWrittenInRange | Stress_Library/src/NASTRAN_General/GRID.cpp:57-83 | the parser stays inside its field list exactly for small-field cards and large-field cards of two or more lines, and there it reads what the model reads |
| Grids.OneLineLongGridReadsPastEnd | Stress_Library/src/NASTRAN_General/GRID.cpp:67-83 | a one-line GRID* card has four fields, so the reads of X3 and CD at fields 4 and 5 run past the end; read as blank they are `atof` and `atol` of an empty field |
| Grids.LocateInFrameOnBasic | Stress_Library/src/NASTRAN_General/GRID.cpp:95-111 | a node located in a frame defined in BASIC, asked for in BASIC, crashes as written (frame 0 is looked up) and is rotated back through its own frame as intended |
| Grids.LocateInBasic | Stress_Library/src/NASTRAN_General/GRID.cpp:95-133 | a node located in BASIC and asked for in BASIC or an unknown frame is returned unchanged by both forms |
| Grids.Connect | Stress_Library/src/NASTRAN_General/RBE2.cpp:115-125 | registering element `e` with one node changes only that node's list of the given kind, by registering `e`, and leaves every node's card data alone |
| Grids.ConnectAll | Stress_Library/src/NASTRAN_General/RBE2.cpp:115-125 | a `nodeConnect` loop registers `e` in the chosen list of exactly the nodes it names that exist, and changes nothing else |
| Grids.ConnectNext | Stress_Library/src/NASTRAN_General/RBE2.cpp:118-124 | one pass of that loop extends the set of registered nodes by the next listed node |
| Grids.Grid.FromCard | Stress_Library/src/NASTRAN_General/GRID.cpp:33-35 | a GRID built from a card holds the parsed card, a field the card lacks read as blank, and empty connection lists |
| Grids.Grid.constructor | Stress_Library/src/NASTRAN_General/GRID.cpp:37-40 | a GRID built from an ID holds only that ID and empty lists; the model starts CP, CD and the point's frame at 0, which the source leaves uninitialised |
| Grids.Grid.AddCQUADConnect | Stress_Library/src/NASTRAN_General/GRID.cpp:142-151 | appends a new CQUAD ID and returns true exactly when the ID was ALREADY listed |
| Grids.Grid.AddCBUSHConnect | Stress_Library/src/NASTRAN_General/GRID.cpp:161-170 | appends a new CBUSH ID and returns true exactly when it WAS appended (the opposite convention to the CQUAD list) |
| Grids.Grid.AddRBE2Connect | Stress_Library/src/NASTRAN_General/GRID.cpp:179-188 | appends a new RBE2 ID and returns true exactly when it was appended |
| Grids.Grid.AddRBE3Connect | Stress_Library/src/NASTRAN_General/GRID.cpp:197-206 | appends a new RBE3 ID and returns true exactly when it was appended |
| Grids.Grid.Index | Stress_Library/src/NASTRAN_General/GRID.cpp:311-320 | `operator[]` returns CP for 1, CD for 2 and the grid ID for anything else |
| Grids.Grid.Component | Stress_Library/src/NASTRAN_General/GRID.cpp:334-343 | `operator()` returns the location's y for 1, z for 2 and x otherwise |
| Grids.Grid.GetCoordinate | Stress_Library/src/NASTRAN_General/GRID.cpp:95-133 | returns the node's location expressed in the target frame through the two frame walks as intended (the second and third Findings rows), not the as-written Grids.LocateAsWritten |
| LoadCases.Trimmed | Stress_Library/src/NASTRAN_General/LOAD_CASE.cpp:33-43 | each stored header text is empty exactly when the text given was blank |
| LoadCases.TrimmedIdempotent | Stress_Library/src/NASTRAN_General/LOAD_CASE.cpp:70-78 | storing an already stored header again changes nothing |
| LoadCases.LoadCase.constructor | Stress_Library/src/NASTRAN_General/LOAD_CASE.cpp:23-26 | a new load case holds the subcase ID and three empty texts |
| LoadCases.LoadCase.AddSubcaseID | Stress_Library/src/NASTRAN_General/LOAD_CASE.cpp:45-47 | sets the subcase ID |
| LoadCases.LoadCase.AddTitle | Stress_Library/src/NASTRAN_General/LOAD_CASE.cpp:33-35 | the title becomes the argument trimmed; subtitle and label are unchanged |
| LoadCases.LoadCase.AddSubtitle | Stress_Library/src/NASTRAN_General/LOAD_CASE.cpp:37-39 | the subtitle becomes the argument trimmed; the others are unchanged |
| LoadCases.LoadCase.AddLabel | Stress_Library/src/NASTRAN_General/LOAD_CASE.cpp:41-43 | the label becomes the argument trimmed; the others are unchanged |
| LoadCases.NewLoadCase | Stress_Library/src/NASTRAN_General/BASIC_MODEL.cpp:415-424 | the construct-then-set sequence `checkLoadCase` runs gives a fresh case with the subcase ID and the trimmed header |
| Rbe2.NodeIDsAppend | Stress_Library/src/NASTRAN_General/RBE2.cpp:73-82 | the dependent nodes of two runs of fields are those of the first followed by those of the second |
| Rbe2.AbsorbAllNodes | Stress_Library/src/NASTRAN_General/RBE2.cpp:73-82 | the field loop appends exactly the integer fields, in order, as dependent nodes, keeps ID, GN and CM, and leaves ALPHA alone when no field has a '.' |
| Rbe2.AbsorbAllLastReal | Stress_Library/src/NASTRAN_General/RBE2.cpp:76-77 | ALPHA ends as the value of the last field that has a '.' |
| Rbe2.ParseRbe2Layout | Stress_Library/src/NASTRAN_General/RBE2.cpp:53-83 | ID, GN and CM come from fields 0-2, the dependents are the integer fields after them, and ALPHA is the last real field or unset when there is none |
| Rbe2.ParseFields | Stress_Library/src/NASTRAN_General/RBE2.cpp:72-82 | the parse loop builds the card the field-by-field definition gives |
| Rbe2.NumDependents | Stress_Library/src/NASTRAN_General/RBE2.cpp:91-94 | the count is the number of dependent nodes |
| Rbe2.Index | Stress_Library/src/NASTRAN_General/RBE2.cpp:141-153 | `operator[]` returns ID, GN, CM for 0-2, dependent `i - 3` while there is one, and the ID past the end |
| Rbe2.NodeConnect | Stress_Library/src/NASTRAN_General/RBE2.cpp:115-125 | registers the RBE2 in the RBE2 list of exactly its independent and dependent nodes that exist, and changes nothing else |
| Rbe3.ParseFields | Stress_Library/src/NASTRAN_General/RBE3.cpp:71-130 | the parse loop with its three flags builds the card the field-by-field definition gives |
| Rbe3.StepAllBalanced | Stress_Library/src/NASTRAN_General/RBE3.cpp:78-130 | the field loop never changes the ID, REFGRID or REFC, and never gives more component codes than weights plus nodes |
| Rbe3.ParseRbe3Header | Stress_Library/src/NASTRAN_General/RBE3.cpp:71-73 | ID from field 0, REFGRID and REFC from fields 2 and 3; slot 1 is never read and stays 0 |
| Rbe3.AlphaThenValue | Stress_Library/src/NASTRAN_General/RBE3.cpp:80-90 | the field after ALPHA is the thermal coefficient whatever it says, and every flag ends cleared |
| Rbe3.BlankClears | Stress_Library/src/NASTRAN_General/RBE3.cpp:91-96 | a blank field clears the three flags and leaves the card alone |
| Rbe3.UmAlternates | Stress_Library/src/NASTRAN_General/RBE3.cpp:97-107 | inside a UM group the fields alternate node, component code, and the group stays open |
| Rbe3.WeightThenComponent | Stress_Library/src/NASTRAN_General/RBE3.cpp:116-128 | outside UM a real is a weight, the next integer its component code and the integer after that an independent node |
| Rbe3.NumIndependents | Stress_Library/src/NASTRAN_General/RBE3.cpp:139-142 | the count is the number of independent nodes |
| Rbe3.Index | Stress_Library/src/NASTRAN_General/RBE3.cpp:189-201 | `operator[]` returns slots 0-2 for 0-2, independent node `i - 3` while there is one, and the ID past the end |
| Rbe3.NodeConnect | Stress_Library/src/NASTRAN_General/RBE3.cpp:163-173 | registers the RBE3 in the RBE3 list of exactly slot 1 and its independent nodes that exist, and changes nothing else |
| Pbushes.KRow | Stress_Library/src/NASTRAN_General/PBUSH.cpp:72-77 | the six stiffnesses of a "K" field at i are `atof` of the six fields after it |
| Pbushes.CheckedK | Stress_Library/src/NASTRAN_General/PBUSH.cpp:73 | a field starts a stiffness row exactly when it reads "K" after `check_exp` |
| Pbushes.CheckedValue | Stress_Library/src/NASTRAN_General/PBUSH.cpp:74-75 | each stiffness is `atof(check_exp(..))` of its field, also past the end of the list where the field reads blank |
| Pbushes.NoKKeeps | Stress_Library/src/NASTRAN_General/PBUSH.cpp:72-78 | a card without a "K" field at the visited positions leaves the stiffnesses as they were |
| Pbushes.LastKWins | Stress_Library/src/NASTRAN_General/PBUSH.cpp:72-78 | the stiffnesses come from the last "K" field the loop visits (positions 1, 9, 17, ...) |
| Pbushes.Pbush.FromCard | Stress_Library/src/NASTRAN_General/PBUSH.cpp:31-34 | a PBUSH built from a card holds the property ID from field 0 and the stiffnesses the K loop leaves |
| Pbushes.Pbush.ParseBDFData | Stress_Library/src/NASTRAN_General/PBUSH.cpp:51-79 | the property ID is `atol` of field 0 and the stiffness array becomes what the K loop leaves of its old contents |
| Pbushes.Pbush.SetRow | Stress_Library/src/NASTRAN_General/PBUSH.cpp:74-76 | the inner loop writes K1-K6 from the six fields after the "K" field |
| Materials.MatFieldsCount | Stress_Library/src/NASTRAN_General/MAT.cpp:54-83 | the field list holds the name field, eight (small) or four (large) fields per line and two blank fields for a short card; a small card always has the 11 fields MAT8 reads, a large one exactly when it has two lines or more |
| Materials.TypeOf | Stress_Library/src/NASTRAN_General/MAT.cpp:85-103 | the type code is 1 exactly for MAT1/MAT1*, 2 exactly for MAT8/MAT8* and 0 otherwise |
| Materials.CardTypeIgnoresSpaces | Stress_Library/src/NASTRAN_General/MAT.cpp:85 | the card type depends only on the non-space characters of the name field |
| Materials.Mat1Slots | Stress_Library/src/NASTRAN_General/MAT.cpp:87-100 | MAT1 stores E in slots 0 and 1, NU (field 4) in 2, G (field 3) in 3, G again in 4 and 5 or -1 when G is blank, RHO in 6 and A in 7 and 8 |
| Materials.Mat1SlotsHalves | Stress_Library/src/NASTRAN_General/MAT.cpp:90-100 | the MAT1 slots split into the elastic half E, E, NU, G and the rest G13, G23, RHO, A, A |
| Materials.Mat8Defaults | Stress_Library/src/NASTRAN_General/MAT.cpp:104-125 | MAT8 slot i reads field i + 2; a blank E2 or NU12 gives 0.001, a blank G1Z or G2Z gives -1, and every other slot is the field's value |
| Materials.Mat1SlotAt | Stress_Library/src/NASTRAN_General/MAT.cpp:162-169 | `operator[]` past slot 8 reads E11, which for MAT1 equals E22; G13 equals G23 |
| Materials.ReadAsWrittenAgrees | Stress_Library/src/NASTRAN_General/MAT.cpp:52-128 | the reads stay inside the field list for every MAT1 card, every small card and every large card of two lines or more, and there give the slots the model stores |
| Materials.OneLineLongMat8ReadsPastEnd | Stress_Library/src/NASTRAN_General/MAT.cpp:71-83 | a large-field MAT8 card on one line has only 7 fields, so the MAT8 loop reads `LineData[7..10]` past the end; the model reads those fields as blank and stores the defaults |
| Materials.LongMat8Name | Stress_Library/src/NASTRAN_General/MAT.cpp:71 | the one-line large MAT8 card used there is recognised as MAT8* |
| Materials.CheckExpField | Stress_Library/src/NASTRAN_General/MAT.cpp:172-197 | MAT's `check_exp` loop: the erase-spaces loop, then the exponent repair |
| Materials.Mat.constructor | Stress_Library/src/NASTRAN_General/MAT.cpp:19-22 | a new MAT has no recognised card type |
| Materials.Mat.ParseBDFData | Stress_Library/src/NASTRAN_General/MAT.cpp:52-128 | the material ID is always read from field 1; a MAT1 or MAT8 card sets the type and the nine slots, and any other name leaves type and slots as they were |
| Materials.Mat.FillMat1 | Stress_Library/src/NASTRAN_General/MAT.cpp:89-100 | the MAT1 branch leaves exactly the MAT1 slots |
| Materials.Mat.SetElastic | Stress_Library/src/NASTRAN_General/MAT.cpp:90-93 | writes E, E, NU, G into slots 0-3 and leaves slots 4-8 |
| Materials.Mat.SetRest | Stress_Library/src/NASTRAN_General/MAT.cpp:94-100 | writes the shear value twice, RHO and A twice into slots 4-8 and leaves slots 0-3 |
| Materials.Mat.ShearOrDefault | Stress_Library/src/NASTRAN_General/MAT.cpp:94-98 | a blank G gives -1 for G13 and G23, otherwise `atof` of G |
| Materials.Mat.FillMat8 | Stress_Library/src/NASTRAN_General/MAT.cpp:103-125 | the MAT8 loop leaves exactly the MAT8 slots |
| Materials.Mat.ReadMat8Slot | Stress_Library/src/NASTRAN_General/MAT.cpp:105-124 | one pass of the switch reads slot i with its blank-field default |
| Materials.NewMat | Stress_Library/src/NASTRAN_General/MAT.cpp:31-35 | a MAT built from a card has the card's ID and type, and is isotropic exactly when the name is MAT1 or MAT1* |
| Pshells.PshellFieldsCount | Stress_Library/src/NASTRAN_General/PSHELL.cpp:54-67 | a small card has eight fields whatever follows its first line; a large card has four per line |
| Pshells.ShortReadsFirstLine | Stress_Library/src/NASTRAN_General/PSHELL.cpp:54-59 | a small card's continuation lines are never read |
| Pshells.MidOr | Stress_Library/src/NASTRAN_General/PSHELL.cpp:70-81 | a blank MID2 or MID3 field falls back to MID1, otherwise its value is read |
| Pshells.RatioOr | Stress_Library/src/NASTRAN_General/PSHELL.cpp:84-95 | a blank ratio field gives its default, otherwise its value |
| Pshells.PshellIds | Stress_Library/src/NASTRAN_General/PSHELL.cpp:69-81 | the IDs are PID, MID1, then MID2 and MID3 read from fields 3 and 5 with MID1 as their default |
| Pshells.PshellValues | Stress_Library/src/NASTRAN_General/PSHELL.cpp:83-95 | the values are T from field 2, the bending ratio from field 4 (default 1.0) and the shear ratio from field 6 (default 0.833333) |
| Pshells.SingleMaterial | Stress_Library/src/NASTRAN_General/PSHELL.cpp:69-81 | a PSHELL naming only MID1 uses it for all three materials, and `operator[]` past slot 3 returns the PID |
| Pshells.ValueAtDefault | Stress_Library/src/NASTRAN_General/PSHELL.cpp:132-139 | `operator()` past slot 2 returns the thickness |
| Pshells.ReadAsWrittenInRange | Stress_Library/src/NASTRAN_General/PSHELL.cpp:51-96 | the reads stay inside the field list exactly for a small card or a large card of two lines or more, and there give the modelled IDs and values |
| Pshells.OneLineLongPshellReadsPastEnd | Stress_Library/src/NASTRAN_General/PSHELL.cpp:60-95 | a large-field PSHELL on one line has 4 fields, so fields 4-6 are read past the end; the model reads them as blank and takes the defaults |
| Pshells.Pshell.ParseBDFData | Stress_Library/src/NASTRAN_General/PSHELL.cpp:51-96 | the ID slots and value slots become the card's IDs and values |
| Pshells.Pshell.FillIds | Stress_Library/src/NASTRAN_General/PSHELL.cpp:69-81 | the ID half of the parse |
| Pshells.Pshell.FillValues | Stress_Library/src/NASTRAN_General/PSHELL.cpp:83-95 | the value half of the parse |
| Pcomps.ZOff | Stress_Library/src/NASTRAN_General/PCOMP.cpp:94-99 | a blank Z0 gives -0.5, otherwise the checked field's value |
| Pcomps.Layup | Stress_Library/src/NASTRAN_General/PCOMP.cpp:100-106 | LAM "SYM" gives 1, "SMCORE" gives 2, and any other text leaves the previous code |
| Pcomps.PliesFromStep | Stress_Library/src/NASTRAN_General/PCOMP.cpp:107-120 | the ply loop records one group of eight fields per pass, the group's plies before the later groups' |
| Pcomps.SlotRecorded | Stress_Library/src/NASTRAN_General/PCOMP.cpp:108-118 | a slot records a ply exactly when its THETA field is not blank, with MID read as it stands and THETA through `check_exp` |
| Pcomps.NoThetaNoPlies | Stress_Library/src/NASTRAN_General/PCOMP.cpp:107-120 | a ply section with every THETA blank records no ply |
| Pcomps.Mids | Stress_Library/src/NASTRAN_General/PCOMP.cpp:110 | the material list has one entry per ply, the ply's MID |
| Pcomps.Thicknesses | Stress_Library/src/NASTRAN_General/PCOMP.cpp:111 | the thickness list has one entry per ply, its T |
| Pcomps.Thetas | Stress_Library/src/NASTRAN_General/PCOMP.cpp:112 | the orientation list has one entry per ply, its THETA |
| Pcomps.CountMod | Stress_Library/src/NASTRAN_General/PCOMP.cpp:109 | the unsigned-short ply counter after n increments from `start` is (start + n) mod 65536 |
| Pcomps.CountDrifts | Stress_Library/src/NASTRAN_General/PCOMP.cpp:45-49 | a counter that does not start at 0 never agrees with the ply count, whatever the number of plies |
| Pcomps.PushAllAppend | Stress_Library/src/NASTRAN_General/PCOMP.cpp:107-120 | recording plies a and then b is recording a + b |
| Pcomps.PushAllColumns | Stress_Library/src/NASTRAN_General/PCOMP.cpp:107-120 | recording plies appends their MIDs, thicknesses and orientations to the three lists and advances the counter by their number |
| Pcomps.PushAllConsistent | Stress_Library/src/NASTRAN_General/PCOMP.cpp:107-120 | the three lists grow together, so lists of equal length stay of equal length and in step with the counter |
| Pcomps.PushAllFromEmpty | Stress_Library/src/NASTRAN_General/PCOMP.cpp:107-120 | starting from no plies, the lists are exactly the columns of the plies |
| Pcomps.Pcomp.constructor | Stress_Library/src/NASTRAN_General/PCOMP.cpp:25-36 | `PCOMP()` sets layup code and counter to 0 with no plies |
| Pcomps.Pcomp.FromCard | Stress_Library/src/NASTRAN_General/PCOMP.cpp:45-49 | built as intended from zeroed state, a card gives the header's layup code, the ply lists of its plies, and a counter equal to the number of plies |
| Pcomps.Pcomp.FromCardAsWritten | Stress_Library/src/NASTRAN_General/PCOMP.cpp:45-49 | as written, `PCOMP();` only builds a temporary, so the counter continues from whatever value the allocation held |
| Pcomps.Pcomp.ParseBDFData | Stress_Library/src/NASTRAN_General/PCOMP.cpp:66-129 | sets PID from field 0, Z0 with its default and the layup code from LAM, and records every ply of the ply lines in order, keeping lists and counter in step |
| Pcomps.Pcomp.ParsePlies | Stress_Library/src/NASTRAN_General/PCOMP.cpp:75-91 | splits the ply lines (after line 0 in small field, after lines 0-1 in large field) and records their plies |
| Pcomps.Pcomp.ParseHeader | Stress_Library/src/NASTRAN_General/PCOMP.cpp:93-106 | sets PID, Z0 and the layup code and leaves the counter |
| Pcomps.Pcomp.SetLayup | Stress_Library/src/NASTRAN_General/PCOMP.cpp:100-106 | updates the layup code from LAM and leaves the counter |
| Pcomps.Pcomp.RecordPlies | Stress_Library/src/NASTRAN_General/PCOMP.cpp:107-120 | the ply loop records exactly the plies of the ply fields |
| Pcomps.Pcomp.RecordGroup | Stress_Library/src/NASTRAN_General/PCOMP.cpp:108-119 | one pass records the group's slots at offsets 0 and 4 |
| Pcomps.Pcomp.RecordSlot | Stress_Library/src/NASTRAN_General/PCOMP.cpp:108-113 | one slot is counted and appended to each list when its THETA holds text |
| Cquads.ParseCquadOrientation | Stress_Library/src/NASTRAN_General/CQUAD.cpp:86-107 | a blank field 6 gives theta 0 and no material frame; text with a '.' is theta; any other text names the material frame (MCID) and sets the flag; four corners are read and the offset comes from field 7 |
| Cquads.ParseCquadShortFirstLine | Stress_Library/src/NASTRAN_General/CQUAD.cpp:72-87 | a small-field CQUAD reads only its first line: EID, PID and the four corner grids at columns 8-55 |
| Cquads.KeepWellFormed | Stress_Library/src/NASTRAN_General/CQUAD.cpp:253-257 | storing a seven-slot tensor keeps every stored tensor at seven slots |
| Cquads.Part | Stress_Library/src/NASTRAN_General/CQUAD.cpp:331-432 | one map contributes three values for a stored subcase and nothing for a missing one |
| Cquads.After | Stress_Library/src/NASTRAN_General/CQUAD.cpp:343-430 | a request may rotate stored tensors in place but never adds or removes a subcase |
| Cquads.PadSixAppends | Stress_Library/src/NASTRAN_General/CQUAD.cpp:435-438 | the padding loop appends zeros until six values are present |
| Cquads.ForceResultLayout | Stress_Library/src/NASTRAN_General/CQUAD.cpp:329-439 | the result always has six values: the force part then the moment part, each replaced by zeros when the subcase is missing, so a missing subcase gives six zeros |
| Cquads.PartReadsRaw | Stress_Library/src/NASTRAN_General/CQUAD.cpp:331-396 | the raw slots 0-2 are returned unrotated exactly when the request's frame is the frame the result was stored in (material asked and stored, or element asked with no vector and stored in element axes); otherwise the rotated slots are returned |
| Cquads.ForceResultRepeatable | Stress_Library/src/NASTRAN_General/CQUAD.cpp:329-439 | because a rotation restarts from the raw slots, asking the same question again gives the same answer and leaves the maps as they are |
| Cquads.PartRepeatable | Stress_Library/src/NASTRAN_General/CQUAD.cpp:343-430 | the same for one map |
| Cquads.Cquad.FromCard | Stress_Library/src/NASTRAN_General/CQUAD.cpp:43-47 | a CQUAD built from a card holds the parsed card, no results, not composite, axes not yet computed |
| Cquads.Cquad.constructor | Stress_Library/src/NASTRAN_General/CQUAD.cpp:49-52 | a placeholder CQUAD holds only its element ID |
| Cquads.Cquad.GetCentroid | Stress_Library/src/NASTRAN_General/CQUAD.cpp:119-147 | returns the centroid for BASIC, and otherwise the centroid carried down the target's frame list, root first |
| Cquads.Cquad.ParseComposite | Stress_Library/src/NASTRAN_General/CQUAD.cpp:163-178 | the element becomes composite when its property is a PCOMP, or a PSHELL whose MID1 material exists and is not isotropic; the flag is never cleared |
| Cquads.Cquad.NodeConnect | Stress_Library/src/NASTRAN_General/CQUAD.cpp:194-211 | registers the element with every corner grid present and sets the centroid to the sum of the corners found, located in BASIC through the frame walks as intended, divided by 4 |
| Cquads.Cquad.AddForceResult | Stress_Library/src/NASTRAN_General/CQUAD.cpp:244-264 | stores N from fields 0-2, M from fields 3-5 and the shears from fields 6-7 under the subcase, keeping any entry already stored |
| Cquads.Cquad.GetForceResult | Stress_Library/src/NASTRAN_General/CQUAD.cpp:278-440 | computes the material angle only on the first request, then returns the padded six-value result and leaves the maps rotated as the request does |
| Cquads.Cquad.Index | Stress_Library/src/NASTRAN_General/CQUAD.cpp:543-551 | `operator[]` returns PID at 1, the corners at 2-5, MCID at 6 and the element ID otherwise |
| Cquads.Cquad.Value | Stress_Library/src/NASTRAN_General/CQUAD.cpp:569-581 | `operator()` returns theta at 1, the centroid at 2-4, the side lengths at 5-6 and the offset otherwise |
| Cquads.SumCorners | Stress_Library/src/NASTRAN_General/CQUAD.cpp:198-209 | the corner loop adds each corner the model has, located in BASIC through the frame walks as intended, in order |
| Cquads.CentroidInAgreesWithLocate | Stress_Library/src/NASTRAN_General/CQUAD.cpp:119-147 | `getCentroid` walks the frames like the intended `get_coordinate` of a node at the centroid in BASIC, and never crashes |
| Cquads.CentroidOfBasicCorners | Stress_Library/src/NASTRAN_General/CQUAD.cpp:198-211 | with all four corners present and located in BASIC, the centroid is the average of the corner points |
| Cquads.MissingCornerAddsNothing | Stress_Library/src/NASTRAN_General/CQUAD.cpp:200-211 | a missing corner adds nothing, yet the sum is still divided by four |
| Cbushes.PadLines | Stress_Library/src/NASTRAN_General/CBUSH.cpp:77-94 | the card is padded with blank 80-column lines up to two (short) or four (long) lines, keeping the given lines in front |
| Cbushes.PaddedParsable | Stress_Library/src/NASTRAN_General/CBUSH.cpp:77-94 | once padded, a card of 80-column lines always yields the thirteen fields the parser indexes, in either format |
| Cbushes.ParseCbushRules | Stress_Library/src/NASTRAN_General/CBUSH.cpp:96-130 | fields 0-3 are EID, PID, GA, GB; a blank field 4 orients by the frame in field 7 (type 3), a field 4 without '.' is the orientation grid GO (type 1), otherwise it starts the orientation vector (type 2); a blank S is 0.5; a blank or "-1" OCID gives -1 and a zero offset |
| Cbushes.Resolve | Stress_Library/src/NASTRAN_General/CBUSH.cpp:146-168 | a fastener end changes only when its grid lists exactly one RBE2, that RBE2 exists and has one dependent node, and the end is one of the RBE2's two nodes; it then becomes the other node |
| Cbushes.ResolveSwaps | Stress_Library/src/NASTRAN_General/CBUSH.cpp:158-165 | conversely, under those conditions the independent node resolves to the dependent node, the dependent node to the independent node, and any other node to itself |
| Cbushes.Placements | Stress_Library/src/NASTRAN_General/CBUSH.cpp:913-928 | every placed plate is a shell member with a centroid, carrying that centroid; at most one placement per shell entry |
| Cbushes.PlacementsComplete | Stress_Library/src/NASTRAN_General/CBUSH.cpp:913-928 | every shell member the model has is placed, so a shell entirely in the model is placed whole |
| Cbushes.Place | Stress_Library/src/NASTRAN_General/CBUSH.cpp:913-928 | the placement loop of `order_FH` computes exactly the placements |
| Cbushes.FlattenOrdered | Stress_Library/src/NASTRAN_General/CBUSH.cpp:786-807 | a freshly ordered ring of side n gives back 4n plates from `get_FH_CQUADs` (the four corners appear twice) |
| Cbushes.FirstComposite | Stress_Library/src/NASTRAN_General/CBUSH.cpp:809-817 | `FH_Composite` is true exactly when the first listed plate the model has is composite; false when no listed plate is in the model |
| Cbushes.Cases | Stress_Library/src/NASTRAN_General/CBUSH.cpp:560-620 | one case per load case, in order, each carrying its own subcase ID |
| Cbushes.CasesAt | Stress_Library/src/NASTRAN_General/CBUSH.cpp:560-708 | case i holds the four sides' plates for subcase i, this CBUSH's force for that subcase and, when paired, the other CBUSH's force taken to BASIC |
| Cbushes.MeshOf | Stress_Library/src/NASTRAN_General/CBUSH.cpp:241-347 | the connectivity the ring search reads is the linked model's: every node's CQUAD, RBE2 and RBE3 lists, the RBE2 and RBE3 elements, and each CQUAD's corners `operator[]` 2-5 |
| Cbushes.FactsOf | Stress_Library/src/NASTRAN_General/CBUSH.cpp:571-621 | each plate's facts are its `operator[]` 5 and 6 (fourth corner, material frame) and its `operator()` 5 and 6 (side lengths) |
| Cbushes.PlateTable | Stress_Library/src/NASTRAN_General/CBUSH.cpp:569-621 | a plate's snapshot for a subcase carries that subcase's fluxes and the plate's facts; a plate outside the model reads as zeros |
| Cbushes.PairedForces | Stress_Library/src/NASTRAN_General/CBUSH.cpp:692-704 | the paired CBUSH's stored forces are read exactly when there is a paired CBUSH |
| Cbushes.ReduceCase | Stress_Library/src/NASTRAN_General/CBUSH.cpp:560-766 | the accumulation loops of one subcase compute the record the reduction defines as intended: plates weighted by their side lengths, and the side-4 fallback divided by side 4's own length |
| Cbushes.RecordCase | Stress_Library/src/NASTRAN_General/CBUSH.cpp:767 | one pass of the subcase loop inserts the record unless the subcase already has one |
| Cbushes.RecordSubcases | Stress_Library/src/NASTRAN_General/CBUSH.cpp:560-768 | the subcase loop leaves the map holding the records of all subcases inserted in order, existing records kept |
| Cbushes.Cbush.FromCard | Stress_Library/src/NASTRAN_General/CBUSH.cpp:47-51 | a CBUSH built from a card holds the parsed card, no fastener nodes, shells, sides, forces or records |
| Cbushes.Cbush.constructor | Stress_Library/src/NASTRAN_General/CBUSH.cpp:53-56 | the placeholder CBUSH a result line creates holds only its element ID |
| Cbushes.Cbush.NodeConnect | Stress_Library/src/NASTRAN_General/CBUSH.cpp:143-171 | each end grid that exists lists this CBUSH once; each fastener node is its end resolved through a single-dependent RBE2; no other grid list, card or state changes |
| Cbushes.Cbush.ParseFH | Stress_Library/src/NASTRAN_General/CBUSH.cpp:241-371 | the result is the ring search as intended (RBE3 spiders consulted when no RBE2 spider is found) over the linked model's node lists, RBE2s, RBE3s and CQUAD corners; when it settles the shell becomes the node's shell and the ring is ordered into sides, otherwise nothing changes; a grid size below 2 runs no pass, so the shell is kept and no side is appended |
| Cbushes.Cbush.OrderFH | Stress_Library/src/NASTRAN_General/CBUSH.cpp:904-988 | when exactly `4 * gridSize - 4` plates are placed the four ordered sides are appended to the node's side lists, otherwise they stay, which is always the case for a grid size of 0 or less; the side-order flag is cleared either way |
| Cbushes.Cbush.GenerateFHResult | Stress_Library/src/NASTRAN_General/CBUSH.cpp:509-770 | the node's records gain one per subcase, reduced as intended from its sides, the model's plate facts, this CBUSH's forces and the paired CBUSH's forces, with the reversal flags set from the two alignment angles, the side and whether the paired CBUSH's fastener node A is this node; existing records and all other state are kept |
| Cbushes.Cbush.GetFHResult | Stress_Library/src/NASTRAN_General/CBUSH.cpp:773-784 | nine values: the stored record of the subcase, or nine zeros when there is none |
| Cbushes.Cbush.GetFHCquads | Stress_Library/src/NASTRAN_General/CBUSH.cpp:786-807 | on the first call since the last ordering both nodes' shells become their side lists in order 1, 2, 3, 4; returns the shell of the asked node |
| Cbushes.Cbush.FHComposite | Stress_Library/src/NASTRAN_General/CBUSH.cpp:809-817 | returns the composite flag of the first listed plate that the model has |
| Cbushes.Cbush.AddForceResult | Stress_Library/src/NASTRAN_General/CBUSH.cpp:393-407 | the force is read from fields 0-2 and the moment from fields 3-5 of 18-column fields; an existing subcase keeps its entry |
| Cbushes.Cbush.Index | Stress_Library/src/NASTRAN_General/CBUSH.cpp:835-846 | `operator[]` returns EID, PID, GA, GB for 0-3, the fastener nodes for 4-5, OCID for 6 and EID otherwise |
| BasicModel.PadLine | Stress_Library/src/NASTRAN_General/BASIC_MODEL.cpp:458-465 | a line shorter than 80 characters is padded with spaces to 80; the text is kept in front and longer lines are unchanged |
| BasicModel.IncludeCaseInsensitive | Stress_Library/src/NASTRAN_General/BASIC_MODEL.cpp:467-478 | a line is an INCLUDE line exactly when each of columns 0-6 is the upper- or lower-case letter of INCLUDE |
| BasicModel.Quotes | Stress_Library/src/NASTRAN_General/BASIC_MODEL.cpp:479-486 | the name delimiters: the first and last single quote, or without one the first and last double quote, or none |
| BasicModel.IncludeNameQuoted | Stress_Library/src/NASTRAN_General/BASIC_MODEL.cpp:479-489 | with exactly two single quotes the file name is the text between them |
| BasicModel.IncludeNameDoubleQuoted | Stress_Library/src/NASTRAN_General/BASIC_MODEL.cpp:481-489 | with no single quote and exactly two double quotes the file name is the text between them |
| BasicModel.IncludeNameUnquoted | Stress_Library/src/NASTRAN_General/BASIC_MODEL.cpp:479-489 | with no quote at all the whole padded line becomes the file name |
| BasicModel.ClassifyFormats | Stress_Library/src/NASTRAN_General/BASIC_MODEL.cpp:496-604 | every one of the ten card names is recognised, as small field, and with a trailing '*' as large field |
| BasicModel.Insert | Stress_Library/src/NASTRAN_General/BASIC_MODEL.cpp:606-660 | `std::map::insert` adds a new ID to its own card map only; an ID already present keeps its entry |
| BasicModel.Start | Stress_Library/src/NASTRAN_General/BASIC_MODEL.cpp:241-248 | the scan starts with the root file queued and no card pending |
| BasicModel.Flush | Stress_Library/src/NASTRAN_General/BASIC_MODEL.cpp:606-660 | flushing stores the pending card and leaves nothing pending, the file queue unchanged |
| BasicModel.NewCard | Stress_Library/src/NASTRAN_General/BASIC_MODEL.cpp:496-604 | `checkLine` leaves a consistent scan and never queues a file |
| BasicModel.Step | Stress_Library/src/NASTRAN_General/BASIC_MODEL.cpp:255-270 | one line keeps the scan consistent and the file queue only grows at its end |
| BasicModel.StepAll | Stress_Library/src/NASTRAN_General/BASIC_MODEL.cpp:255-270 | the same over a whole file |
| BasicModel.ReadFiles | Stress_Library/src/NASTRAN_General/BASIC_MODEL.cpp:250-278 | the file loop keeps the scan consistent |
| BasicModel.ContinuationOnlyWhilePending | Stress_Library/src/NASTRAN_General/BASIC_MODEL.cpp:264-267 | a continuation line joins the pending card and is dropped when no card is pending; no map changes |
| BasicModel.UnknownNameLeavesNothingPending | Stress_Library/src/NASTRAN_General/BASIC_MODEL.cpp:496-500 | a line naming no known card flushes any pending card and leaves nothing pending |
| BasicModel.HeaderStartsCard | Stress_Library/src/NASTRAN_General/BASIC_MODEL.cpp:496-604 | a header of a known card flushes any pending card and starts a new one holding just that line, with its type and format |
| BasicModel.IncludeQueuesFile | Stress_Library/src/NASTRAN_General/BASIC_MODEL.cpp:258-263 | an INCLUDE line queues its file name after the others and ends any pending card |
| BasicModel.FirstCardWins | Stress_Library/src/NASTRAN_General/BASIC_MODEL.cpp:606-660 | a later card with an ID already in its map is discarded: the first card wins |
| BasicModel.StoredCardsStay | Stress_Library/src/NASTRAN_General/BASIC_MODEL.cpp:250-278 | a stored card is never replaced or removed by any later line of any file |
| BasicModel.StepKeepsCard | Stress_Library/src/NASTRAN_General/BASIC_MODEL.cpp:255-270 | one line never replaces or removes a stored card |
| BasicModel.LastCardNeverStored | Stress_Library/src/NASTRAN_General/BASIC_MODEL.cpp:264-278 | a card still pending when the last line is read is never stored: the file loop flushes nothing at its end |
| BasicModel.PaddedLines | Stress_Library/src/NASTRAN_General/BASIC_MODEL.cpp:256-257 | each buffered line is the line as read, padded to 80 |
| BasicModel.NothingOpenedNothingRead | Stress_Library/src/NASTRAN_General/BASIC_MODEL.cpp:250-280 | when no queued file can be opened nothing is stored and the model is not valid, so no linking runs |
| BasicModel.LoadCaseHeader | Stress_Library/src/NASTRAN_General/BASIC_MODEL.cpp:403-442 | a header sets the current subcase from line 5, adds its load case when new, and keeps the other members and punch flags |
| BasicModel.LoadEntry | Stress_Library/src/NASTRAN_General/BASIC_MODEL.cpp:346-401 | a record only re-arms the record length (3 for plates, 2 for bushes) and never touches load cases or result flags |
| BasicModel.PunchStep | Stress_Library/src/NASTRAN_General/BASIC_MODEL.cpp:314-336 | one punch line keeps the header-buffer invariant and the seven result flags |
| BasicModel.PunchAll | Stress_Library/src/NASTRAN_General/BASIC_MODEL.cpp:313-337 | the same over the whole punch file |
| BasicModel.ZeroRecordIgnored | Stress_Library/src/NASTRAN_General/BASIC_MODEL.cpp:356-357 | a record whose ID reads as 0 changes nothing and does not re-arm the record length |
| BasicModel.LoadCaseCreatedOnce | Stress_Library/src/NASTRAN_General/BASIC_MODEL.cpp:413-424 | a load case is added with its trimmed title, subtitle and label only the first time its subcase is seen; others are kept |
| BasicModel.NewCasesOnce | Stress_Library/src/NASTRAN_General/BASIC_MODEL.cpp:413-424 | the load-case map gains the subcase, with its trimmed titles, only when it is missing |
| BasicModel.RecordTypes | Stress_Library/src/NASTRAN_General/BASIC_MODEL.cpp:426-441 | after an element-force header, QUAD4 in the material frame is record type 1 and other QUAD4 type 2, both three lines long; BUSH is type 3, two lines long; any other element keeps the previous type and length |
| BasicModel.AttachedHaveElements | Stress_Library/src/NASTRAN_General/BASIC_MODEL.cpp:346-401 | a record is attached to an element created first when missing, so every record belongs to an element its map holds, and the maps only grow |
| BasicModel.InsertKeepsOwned | Stress_Library/src/NASTRAN_General/BASIC_MODEL.cpp:361-367 | creating the placeholder element then attaching its record keeps every record owned |
| BasicModel.PunchKeepsOwned | Stress_Library/src/NASTRAN_General/BASIC_MODEL.cpp:305-343 | over a whole punch file every force record belongs to an element its map holds |
| BasicModel.Model.constructor | Stress_Library/src/NASTRAN_General/BASIC_MODEL.cpp:33-45 | a new model has empty maps and every result flag false |
| BasicModel.Model.MakeEntry | Stress_Library/src/NASTRAN_General/BASIC_MODEL.cpp:606-660 | `makeEntry` stores the pending card as the flush defines |
| BasicModel.Model.CheckLine | Stress_Library/src/NASTRAN_General/BASIC_MODEL.cpp:496-604 | `checkLine` updates the card maps as the header step defines |
| BasicModel.Model.ParseLine | Stress_Library/src/NASTRAN_General/BASIC_MODEL.cpp:255-270 | one iteration of the line loop updates the maps as one step defines |
| BasicModel.Model.ParseFile | Stress_Library/src/NASTRAN_General/BASIC_MODEL.cpp:255-271 | the line loop over a file updates the maps as the whole-file step defines |
| BasicModel.Model.ParseModel | Stress_Library/src/NASTRAN_General/BASIC_MODEL.cpp:239-278 | `parseModel` reads the queued files in order, INCLUDEs appended, and reports whether any file opened |
| BasicModel.Model.CheckLoadCase | Stress_Library/src/NASTRAN_General/BASIC_MODEL.cpp:403-442 | `checkLoadCase` updates the load cases and result flags as the header step defines |
| BasicModel.Model.MakeLoadEntry | Stress_Library/src/NASTRAN_General/BASIC_MODEL.cpp:346-401 | `makeLoadEntry` creates a missing element and attaches the record as the record step defines |
| BasicModel.Model.ParsePunchLine | Stress_Library/src/NASTRAN_General/BASIC_MODEL.cpp:314-336 | one iteration of the punch loop updates the members as one punch step defines |
| BasicModel.Model.ParsePunchFile | Stress_Library/src/NASTRAN_General/BASIC_MODEL.cpp:305-343 | `parsePunchFile` fills the members as the whole punch file defines, starting from the initial punch state |
| Linking.RegisterOne | Stress_Library/src/NASTRAN_General/RBE2.cpp:115-125 | one RBE2's `nodeConnect` never adds or removes a grid |
| Linking.Registered | Stress_Library/src/NASTRAN_General/BASIC_MODEL.cpp:291-293 | the RBE2 loop never adds or removes a grid |
| Linking.TouchingIds | Stress_Library/src/NASTRAN_General/BASIC_MODEL.cpp:291-293 | the collected IDs are exactly those of the RBE2s that touch the node |
| Linking.RegisteredLists | Stress_Library/src/NASTRAN_General/BASIC_MODEL.cpp:291-293 | after the RBE2 loop a node's RBE2 list holds what it held before plus the ID of every RBE2 touching it, and stays duplicate-free |
| Linking.ResolutionSeesRegisteredRbe2 | Stress_Library/src/NASTRAN_General/BASIC_MODEL.cpp:291-299 | a node with no RBE2 before the loop, touched by exactly one single-dependent RBE2, resolves in the CBUSH loop to that RBE2's other end |
| Linking.LinkPlates | Stress_Library/src/NASTRAN_General/BASIC_MODEL.cpp:286-290 | the plate loop runs `parseComposite` then `nodeConnect` on every CQUAD and changes no RBE2 list |
| Linking.LinkPlate | Stress_Library/src/NASTRAN_General/BASIC_MODEL.cpp:287-289 | one plate of that loop |
| Linking.LinkRbe2s | Stress_Library/src/NASTRAN_General/BASIC_MODEL.cpp:291-293 | the RBE2 loop leaves every grid's RBE2 list as the registration of all RBE2s, in map order, defines |
| Linking.RegisterNext | Stress_Library/src/NASTRAN_General/BASIC_MODEL.cpp:291-293 | one pass of the RBE2 loop extends the registration by the next RBE2 |
| Linking.RegisteredStep | Stress_Library/src/NASTRAN_General/BASIC_MODEL.cpp:291-293 | registering one more RBE2 is one more registration step |
| Linking.RegisterRbe2 | Stress_Library/src/NASTRAN_General/RBE2.cpp:115-125 | one RBE2 joins the lists of the nodes it touches |
| Linking.LinkRbe3s | Stress_Library/src/NASTRAN_General/BASIC_MODEL.cpp:294-296 | the RBE3 loop leaves the RBE2 lists unchanged |
| Linking.LinkFasteners | Stress_Library/src/NASTRAN_General/BASIC_MODEL.cpp:297-299 | every CBUSH resolves both ends against the RBE2 lists as the loop found them, and keeps its card |
| Linking.Link | Stress_Library/src/NASTRAN_General/BASIC_MODEL.cpp:280-301 | in the source's order (plates, RBE2s, RBE3s, CBUSHes) every CBUSH end is resolved against RBE2 lists holding every RBE2 of the model |
| Rings.UnknownMembers | Stress_Library/src/NASTRAN_General/CBUSH.cpp:257-262 | a plate listed at a node is kept exactly when it is not already in the shell |
| Rings.GatherMembers | Stress_Library/src/NASTRAN_General/CBUSH.cpp:253-265 | the plates found in a pass are exactly those listed at some frontier node the model has and not already in the shell |
| Rings.Insert | Stress_Library/src/NASTRAN_General/CBUSH.cpp:331-334 | inserting into a strictly increasing list keeps it strictly increasing and adds exactly the new entry |
| Rings.SortUnique | Stress_Library/src/NASTRAN_General/CBUSH.cpp:331-334 | `std::sort`, `std::unique` and `erase` leave the distinct entries in strictly increasing order |
| Rings.IncreasingUnique | Stress_Library/src/NASTRAN_General/CBUSH.cpp:331-334 | two strictly increasing lists with the same entries are equal, so the sorted result depends only on which entries were found |
| Rings.Rbe2Spider | Stress_Library/src/NASTRAN_General/CBUSH.cpp:271-285 | an RBE2 spider, when one is found, lists more than one dependent node |
| Rings.Rbe3Spider | Stress_Library/src/NASTRAN_General/CBUSH.cpp:286-302 | an RBE3 spider, when one is found, lists more than one independent node |
| Rings.KeepInMembers | Stress_Library/src/NASTRAN_General/CBUSH.cpp:312-318 | the erase loop keeps exactly the plates the other node also lists |
| Rings.CommonMembers | Stress_Library/src/NASTRAN_General/CBUSH.cpp:303-322 | the bridged shell is exactly the plates of the first spider node that every later spider node the model has also lists |
| Rings.AdvanceShape | Stress_Library/src/NASTRAN_General/CBUSH.cpp:253-265 | a pass that finds plates drops the counter by one; the shell becomes exactly the new plates, increasing; unless the counter reached zero the frontier becomes exactly the corner nodes of the new shell not in the old frontier; as written and as intended agree here |
| Rings.FallbackShape | Stress_Library/src/NASTRAN_General/CBUSH.cpp:266-327 | with no plate found and no RBE2 spider, the source only bridges the frontier's plates, while the intended branch first crosses an RBE3 spider when there is one |
| Rings.FixedPointAsWrittenRunsOut | Stress_Library/src/NASTRAN_General/CBUSH.cpp:251-365 | once a pass leaves the state unchanged with the counter positive the `while (i > 0)` loop never ends |
| Rings.BridgedFirstStep | Stress_Library/src/NASTRAN_General/CBUSH.cpp:266-327 | on a fastener tied to its plates only by an RBE3, the first pass as written changes nothing, while as intended it crosses to the RBE3's nodes and finds their common plate |
| Rings.LastStep | Stress_Library/src/NASTRAN_General/CBUSH.cpp:329-337 | a pass that finds plates with the counter at 1 ends the search with the plates found, sorted and distinct |
| Rings.Rbe3BridgeCounterexample | Stress_Library/src/NASTRAN_General/CBUSH.cpp:286 | as written the search from a fastener bridged only by an RBE3 never ends, while the intended search finds the ring |
| Rings.TwoStepsFind | Stress_Library/src/NASTRAN_General/CBUSH.cpp:251-365 | two passes that bring the counter to zero end the search with the second pass's shell |
| Rings.LinearSearch | Stress_Library/src/NASTRAN_General/CBUSH.cpp:220-227 | `linear_search` returns the first index holding the value, or -1 exactly when it is absent |
| Rings.Collect | Stress_Library/src/NASTRAN_General/CBUSH.cpp:253-265 | the gather loops compute exactly the plates (or nodes) the gather function defines |
| Rings.FindRbe2Spider | Stress_Library/src/NASTRAN_General/CBUSH.cpp:271-285 | the RBE2 spider loop returns the spider the definition names, its dependents read back from index 3 |
| Rings.FindRbe3Spider | Stress_Library/src/NASTRAN_General/CBUSH.cpp:286-302 | the RBE3 spider loop returns the spider the definition names, its independent nodes read back from index 3 |
| Rings.EraseMissing | Stress_Library/src/NASTRAN_General/CBUSH.cpp:312-318 | the in-place erase loop with `z--` leaves exactly the entries the other list holds, in order |
| Rings.CommonPlates | Stress_Library/src/NASTRAN_General/CBUSH.cpp:303-322 | the common-plate loop over the later spider nodes yields the bridged shell |
| Rings.FallbackPass | Stress_Library/src/NASTRAN_General/CBUSH.cpp:266-327 | a pass that found no plate leaves the frontier and shell the intended fallback defines |
| Rings.AdvancePass | Stress_Library/src/NASTRAN_General/CBUSH.cpp:328-361 | a pass that found plates leaves the counter, frontier and shell the advance defines |
| Rings.FindRing | Stress_Library/src/NASTRAN_General/CBUSH.cpp:241-371 | the search loop of `parse_FH`, with the RBE3 fallback as intended, ends as the intended search defines |
| Rings.NoPassBelowTwo | Stress_Library/src/NASTRAN_General/CBUSH.cpp:251-252 | a grid size below 2 starts the counter at 0 or less, so both forms of the search run no pass and return the shell they were given |
| Sides.Primary | Stress_Library/src/NASTRAN_General/CBUSH.cpp:945-947 | sides 1 and 3 are cut along x for axis codes 23 and 32, along y for 13 and 31, along z for every other code |
| Sides.Secondary | Stress_Library/src/NASTRAN_General/CBUSH.cpp:950-952 | sides 2 and 4 are cut along x for axis codes 21 and 31, along y for 12 and 32, along z for every other code |
| Sides.InsertByMultiset | Stress_Library/src/NASTRAN_General/CBUSH.cpp:881-891 | inserting a plate into a list adds exactly that plate |
| Sides.InsertBySorted | Stress_Library/src/NASTRAN_General/CBUSH.cpp:881-891 | inserting into a list sorted by one centroid component keeps it sorted |
| Sides.SortBySorted | Stress_Library/src/NASTRAN_General/CBUSH.cpp:945-947 | the sort by `sort_x`, `sort_y` or `sort_z` is a permutation of its input, sorted by that component |
| Sides.FromEndMultiset | Stress_Library/src/NASTRAN_General/CBUSH.cpp:957 | the backward copy loop takes exactly the entries from index m on |
| Sides.LowFacts | Stress_Library/src/NASTRAN_General/CBUSH.cpp:948-952 | a side cut from the front of a list and re-sorted is sorted and holds exactly the front entries |
| Sides.HighFacts | Stress_Library/src/NASTRAN_General/CBUSH.cpp:957-961 | a side cut from the back and re-sorted is sorted and holds exactly the back entries |
| Sides.ReverseMultiset | Stress_Library/src/NASTRAN_General/CBUSH.cpp:962 | pushing a side from last to first keeps its plates |
| Sides.ReverseSorted | Stress_Library/src/NASTRAN_General/CBUSH.cpp:962 | a side sorted ascending and pushed from last to first is descending |
| Sides.SortedSplit | Stress_Library/src/NASTRAN_General/CBUSH.cpp:945-948 | the front of a sorted list has no larger key than any later entry, and front plus back is the whole list |
| Sides.LowEnd | Stress_Library/src/NASTRAN_General/CBUSH.cpp:945-948 | the first n plates of the shell sorted along a direction are n of the shell's plates with the lowest keys along it |
| Sides.HighEnd | Stress_Library/src/NASTRAN_General/CBUSH.cpp:957 | the last n plates are n of the shell's plates with the highest keys |
| Sides.OrderSizes | Stress_Library/src/NASTRAN_General/CBUSH.cpp:936-940 | a shell of any size other than `4n - 4` gives no sides, so a grid size below 2 gives none; otherwise each of the four sides has n plates |
| Sides.SortsLengths | Stress_Library/src/NASTRAN_General/CBUSH.cpp:945-969 | both sorted copies of the shell are as long as the shell |
| Sides.OrderCuts | Stress_Library/src/NASTRAN_General/CBUSH.cpp:941-985 | the four sides are cut from the shell sorted along the primary direction and, for sides 2 and 4, the shell sorted along the secondary direction |
| Sides.Side1Shape | Stress_Library/src/NASTRAN_General/CBUSH.cpp:943-953 | side 1 holds n plates of the shell lowest along the primary direction, ascending along the secondary direction |
| Sides.Side3Shape | Stress_Library/src/NASTRAN_General/CBUSH.cpp:956-962 | side 3 holds n plates of the shell highest along the primary direction, descending along the secondary direction |
| Sides.ReversedHigh | Stress_Library/src/NASTRAN_General/CBUSH.cpp:957-962 | the back of a sorted shell, re-sorted and reversed, is descending and lies above the rest of the shell |
| Sides.Side2Shape | Stress_Library/src/NASTRAN_General/CBUSH.cpp:965-975 | side 2 holds n plates of the shell highest along the secondary direction, ascending along the primary direction |
| Sides.Side4Shape | Stress_Library/src/NASTRAN_General/CBUSH.cpp:978-984 | side 4 holds n plates of the shell lowest along the secondary direction, descending along the primary direction |
| Sides.OrderSides | Stress_Library/src/NASTRAN_General/CBUSH.cpp:932-985 | the side-ordering code returns no sides for a wrong-sized shell and otherwise the four sides `Order` defines, as plate IDs |
| Sides.CutSides | Stress_Library/src/NASTRAN_General/CBUSH.cpp:941-985 | the four side loops on the two sorted shells give the cut the definition names |
| Sides.LowSide | Stress_Library/src/NASTRAN_General/CBUSH.cpp:948-952 | a side copied from the front and sorted |
| Sides.HighSide | Stress_Library/src/NASTRAN_General/CBUSH.cpp:957-961 | a side copied from the back and sorted |
| Sides.Front | Stress_Library/src/NASTRAN_General/CBUSH.cpp:948 | the forward copy loop takes the first n entries |
| Sides.Back | Stress_Library/src/NASTRAN_General/CBUSH.cpp:957 | the backward copy loop takes the entries from `size - n` on, last first |
| Sides.Forward | Stress_Library/src/NASTRAN_General/CBUSH.cpp:953 | the plates of a side pushed from first to last |
| Sides.Backward | Stress_Library/src/NASTRAN_General/CBUSH.cpp:962 | the plates of a side pushed from last to first |
| Reduction.Columns | Stress_Library/src/NASTRAN_General/CBUSH.cpp:568-619 | sides 2 and 4 accumulate the flux columns Fxx, Fxy, Mxx, Mxy (0, 2, 3, 5); sides 1 and 3 accumulate Fyy, Fxy, Myy, Mxy (1, 2, 4, 5) |
| Reduction.Shares | Stress_Library/src/NASTRAN_General/CBUSH.cpp:568-619 | one weighted share per plate of the side |
| Reduction.SharesAsWritten | Stress_Library/src/NASTRAN_General/CBUSH.cpp:568-619 | the same count of shares, weighted as the source weights them |
| Reduction.SideTotals | Stress_Library/src/NASTRAN_General/CBUSH.cpp:568-619 | a side accumulates four weighted sums and its length |
| Reduction.TotalOfUniform | Stress_Library/src/NASTRAN_General/CBUSH.cpp:568-619 | when every plate of a side carries the same flux v, the weighted sum is v times the side length |
| Reduction.UniformSideMean | Stress_Library/src/NASTRAN_General/CBUSH.cpp:620-674 | a side whose plates all carry the same flux v averages to v, whatever the individual side lengths |
| Reduction.UniformSideTotal | Stress_Library/src/NASTRAN_General/CBUSH.cpp:568-619 | the same for each of the four accumulated columns |
| Reduction.MeanOfMultiple | Stress_Library/src/NASTRAN_General/CBUSH.cpp:620-674 | a sum that is v times the length averages to v |
| Reduction.TotalsAppend | Stress_Library/src/NASTRAN_General/CBUSH.cpp:568-619 | the sums and the length over two runs of plates add up |
| Reduction.RenumberingInvariant | Stress_Library/src/NASTRAN_General/CBUSH.cpp:568-619 | the side totals depend only on the plates' fluxes and side lengths, not on their IDs, corner grids or material frames |
| Reduction.SideWeightAsWrittenCounterexample | Stress_Library/src/NASTRAN_General/CBUSH.cpp:571-579 | two plates of equal side length but material frames 1 and 3 average to 25 as written, 20 when weighted by side length |
| Reduction.AccumulateSide | Stress_Library/src/NASTRAN_General/CBUSH.cpp:568-580 | the accumulation loop of a side computes exactly its four sums and its length |
| Reduction.Opposite | Stress_Library/src/NASTRAN_General/CBUSH.cpp:631-635 | the opposite-side choice is one of the two side averages and the smaller in magnitude; a tie goes to the second side |
| Reduction.OppositeAsWrittenCounterexample | Stress_Library/src/NASTRAN_General/CBUSH.cpp:628 | side 2 with sum 10 over length 1 and side 4 with sum 2 over length 2: as written Fxx is 2, larger than the side-4 average 1 it should be |
| Reduction.OppositeAsWrittenEqualLengths | Stress_Library/src/NASTRAN_General/CBUSH.cpp:625-629 | the fallback as written agrees with the intended one whenever the two sides have the same length |
| Reduction.Smallest | Stress_Library/src/NASTRAN_General/CBUSH.cpp:641-650 | the four-way choice for Fxy and Mxy is the first of the four side averages with the smallest magnitude |
| Reduction.ReverseThis | Stress_Library/src/NASTRAN_General/CBUSH.cpp:527-535 | this CBUSH's load is reversed at side 0 when node A is aligned and at side 1 when it is not |
| Reduction.ReverseOther | Stress_Library/src/NASTRAN_General/CBUSH.cpp:544-552 | the paired CBUSH's load is reversed exactly when its alignment equals the test that this fastener node is its node A |
| Reduction.OneSideReversed | Stress_Library/src/NASTRAN_General/CBUSH.cpp:527-535 | for either alignment exactly one of the two fastener nodes sees this CBUSH's load reversed |
| Reduction.Axial | Stress_Library/src/NASTRAN_General/CBUSH.cpp:711-720 | the fastener axis is x for axis codes 12 and 13, y for 21 and 23, z otherwise |
| Reduction.AlignmentAxis | Stress_Library/src/NASTRAN_General/CBUSH.cpp:468-488 | the plate fluxes align with x for axis codes 21 and 31, y for 12 and 32, z otherwise |
| Reduction.ShearAxes | Stress_Library/src/NASTRAN_General/CBUSH.cpp:736-763 | the two shears are two distinct components other than the fastener axis, the first along the alignment axis |
| Reduction.Shears | Stress_Library/src/NASTRAN_General/CBUSH.cpp:736-763 | the two shears are the load's components along those axes |
| Reduction.PullThrough | Stress_Library/src/NASTRAN_General/CBUSH.cpp:708-727 | a paired fastener reports no pull-through; an unpaired one reports the magnitude of its axial load exactly when that load is tensile for its alignment, else 0 |
| Reduction.PullThroughFlipped | Stress_Library/src/NASTRAN_General/CBUSH.cpp:722-727 | flipping the alignment and the sign of the force leaves the pull-through load unchanged |
| Reduction.ApplyNegated | Stress_Library/src/NASTRAN_General/CBUSH.cpp:697-700 | transforming a reversed force gives the reversed transformed force |
| Reduction.LoadReversed | Stress_Library/src/NASTRAN_General/CBUSH.cpp:693-735 | reversing both fasteners' loads reverses the combined fastener load |
| Reduction.UnpairedShears | Stress_Library/src/NASTRAN_General/CBUSH.cpp:701-735 | an unpaired fastener, unreversed and as is, reports its own shear components |
| Reduction.Values | Stress_Library/src/NASTRAN_General/CBUSH.cpp:620-766 | the record is returned as nine values in the order Fxx, Fyy, Fxy, Mxx, Myy, Mxy, shear 1, shear 2, pull-through |
| Reduction.RingOf | Stress_Library/src/NASTRAN_General/CBUSH.cpp:568-619 | the four sides accumulate into a well-formed ring |
| Reduction.RingAsWritten | Stress_Library/src/NASTRAN_General/CBUSH.cpp:568-619 | the same with the weights as written |
| Reduction.ReduceSelects | Stress_Library/src/NASTRAN_General/CBUSH.cpp:620-766 | Fxx and Mxx are the smaller in magnitude of sides 2 and 4's averages, Fyy and Myy of sides 1 and 3; Fxy and Mxy are no larger in magnitude than any side's; the shears come from the load's non-axial components and the pull-through is passed on |
| Reduction.ReduceAsWrittenAgrees | Stress_Library/src/NASTRAN_General/CBUSH.cpp:628-660 | as written and as intended give the same record when sides 2 and 4 have the same length |
| Reduction.SetupOf | Stress_Library/src/NASTRAN_General/CBUSH.cpp:521-552 | node A is aligned when its angle is under 90 degrees; the reversal flags follow the side number and the shared-node test |
| Reduction.CaseRecordPull | Stress_Library/src/NASTRAN_General/CBUSH.cpp:708-727 | a paired fastener's record has no pull-through; an unpaired one's is positive exactly in tension |
| Runtime.MapInsert | Stress_Library/src/NASTRAN_General/CBUSH.cpp:767 | `std::map::insert`, as the records, the CBUSH forces and the CQUAD tensors use it: a new key gets the value, a key already present keeps its entry, and every other entry is kept |
| Reduction.InsertAllStep | Stress_Library/src/NASTRAN_General/CBUSH.cpp:560-768 | the subcase loop is one insert per case, in order |
| Reduction.InsertAllKeeps | Stress_Library/src/NASTRAN_General/CBUSH.cpp:560-768 | records present before the loop are kept, every subcase met gets a record, and no other subcase does |
| Reduction.InsertAllOld | Stress_Library/src/NASTRAN_General/CBUSH.cpp:767 | records present before the loop are never replaced |
| Reduction.SubcaseSetMembers | Stress_Library/src/NASTRAN_General/CBUSH.cpp:560 | the subcases met are exactly those the cases name |
| Reduction.InsertAllKeys | Stress_Library/src/NASTRAN_General/CBUSH.cpp:560-768 | after the loop the recorded subcases are those before plus those met |
| Reduction.Lookup | Stress_Library/src/NASTRAN_General/CBUSH.cpp:773-784 | `get_FH_Result` gives the stored nine values or nine zeros |
| FhModel.Least | Fill_It_Library/src/FH_MODEL.cpp:49 | the least key of a non-empty map, where `std::map` iteration starts |
| FhModel.Ascending | Fill_It_Library/src/FH_MODEL.cpp:49 | `std::map` iteration visits every key exactly once, in strictly ascending order |
| FhModel.Group | Fill_It_Library/src/FH_MODEL.cpp:34-46 | grouping keeps every node list non-empty |
| FhModel.GroupIsIdsAt | Fill_It_Library/src/FH_MODEL.cpp:34-46 | after the first loop, a node's list is exactly the CBUSHes whose chosen fastener node it is, in visiting order, and nodes with no CBUSH have no list |
| FhModel.IdsAtFirstIsLeast | Fill_It_Library/src/FH_MODEL.cpp:34-46 | the first CBUSH of a node's list is the least-ID CBUSH at that node |
| FhModel.IdsAtEmpty | Fill_It_Library/src/FH_MODEL.cpp:34-46 | a node without a list has no CBUSH at it |
| FhModel.MergeCoversAndSeparates | Fill_It_Library/src/FH_MODEL.cpp:48-57 | after the merge the A nodes stay A nodes, the two key sets are disjoint and together cover both; a merged node's list is its A list followed by the first CBUSH of its B list, the rest of that B list is dropped |
| FhModel.Partner | Fill_It_Library/src/FH_MODEL.cpp:74-80 | a node list longer than one is a pair whose second entry is the paired CBUSH |
| FhModel.PairingOfLoneCbush | Fill_It_Library/src/FH_MODEL.cpp:29-58 | a CBUSH alone at its node A is paired exactly when some CBUSH has that node as node B, and then with the least-ID such CBUSH |
| FhModel.AxisPair | Fill_It_Library/src/FH_MODEL.cpp:98-105 | the axis pair is taken as given when the node's first CBUSH is the one `Axis_Check` names and swapped otherwise |
| FhModel.AllJobs | Fill_It_Library/src/FH_MODEL.cpp:71-90 | one call per node of the map |
| FhModel.RequestedJobsCount | Fill_It_Library/src/FH_MODEL.cpp:95-137 | with a node list, a requested node is worked once at each fastener side where it is found, so a node of both maps is worked twice |
| FhModel.MaxSize | Fill_It_Library/src/FH_MODEL.cpp:147-153 | the number of ring columns is the largest `4 * N - 4` over the requested ring sizes, or 0 |
| FhModel.Decimal | Fill_It_Library/src/FH_MODEL.cpp:296-308 | `ulong_to_str` and `int_to_str` give a non-empty decimal text |
| FhModel.DecimalRoundTrip | Fill_It_Library/src/FH_MODEL.cpp:296-301 | reading back the decimal text of a natural number gives the number |
| FhModel.Header | Fill_It_Library/src/FH_MODEL.cpp:158-162 | the header has fourteen fixed titles, CBUSH_1 and CBUSH_2 at 3 and 4, then one `CQUAD<i>` column per ring position |
| FhModel.RingColumns | Fill_It_Library/src/FH_MODEL.cpp:286-293 | one column per ring position up to the column count: the plate ID where the ring has one and "-" past its end |
| FhModel.Row | Fill_It_Library/src/FH_MODEL.cpp:268-294 | a row holds the subcase, subtitle, node and first CBUSH ID, then, as intended (the seventh Findings row), the second CBUSH's ID or "N/A" when unpaired, then the nine results and the ring columns |
| FhModel.RowAsWrittenDiffersOnlyThere | Fill_It_Library/src/FH_MODEL.cpp:274-278 | the row as written differs from the intended one only in the CBUSH_2 column, and only for a pair |
| FhModel.RowAsWrittenCounterexample | Fill_It_Library/src/FH_MODEL.cpp:275 | CBUSHes 101 (property 7) and 102 paired at node 5: as written the CBUSH_2 column reads "7", not "102" |
| FhModel.Subcases | Fill_It_Library/src/FH_MODEL.cpp:167-182 | the printed subcases all exist; without a request every subcase is printed in ascending order, with one every requested subcase that exists is printed |
| FhModel.Present | Fill_It_Library/src/FH_MODEL.cpp:169-176 | the requested subcases that exist, each one that exists printed |
| FhModel.LinesAt | Fill_It_Library/src/FH_MODEL.cpp:167-182 | one row per subcase, in order, for the node and side |
| FhModel.NodeLines | Fill_It_Library/src/FH_MODEL.cpp:164-204 | a requested node is printed from map A when it is an A node, else from map B when it is a B node, else not at all |
| FhModel.SelectionIgnoresCompositeForNodes | Fill_It_Library/src/FH_MODEL.cpp:163-206 | with a node list the composite-only switch has no effect |
| FhModel.AllLinesUnfiltered | Fill_It_Library/src/FH_MODEL.cpp:207-262 | without a node list and without the filter, every node of either map is printed for every subcase |
| FhModel.AllLinesFiltered | Fill_It_Library/src/FH_MODEL.cpp:210-262 | with the filter, a printed node is one whose first CBUSH's ring is composite |
| FhModel.FhModel.constructor | Fill_It_Library/src/FH_MODEL.cpp:24-27 | the pairing maps start empty |
| FhModel.FhModel.GenerateFHList | Fill_It_Library/src/FH_MODEL.cpp:29-58 | every CBUSH joins the list of its node A and its node B; then each A node that is also a B node takes the first CBUSH of the B list and that B entry is erased |
| FhModel.FhModel.CalculateAll | Fill_It_Library/src/FH_MODEL.cpp:67-90 | without a node list every A node then every B node is worked, in ascending order, with the first request row and its axis pair as given |
| FhModel.FhModel.CalculateNodes | Fill_It_Library/src/FH_MODEL.cpp:91-138 | with a node list each requested node is worked at node A if it is an A node and at node B if it is a B node, with its own request row and the axis pair arranged by `Axis_Check` |
| FhModel.FhModel.GenerateFHOutput | Fill_It_Library/src/FH_MODEL.cpp:163-262 | the rows printed are exactly the selection over the resolved subcases (the requested ones `LOAD_CASE_Map` holds, or every load case in ascending order when none is requested): requested nodes in request order, or all A nodes then all B nodes filtered by the composite flag when asked |
| FhModel.ResolveSubcases | Fill_It_Library/src/FH_MODEL.cpp:166-182 | the loop over the SUBCASES list keeps exactly the requested subcases that are load cases, in request order, and takes every load case in ascending order when the list is empty |
| FhModel.PresentKeepsOrder | Fill_It_Library/src/FH_MODEL.cpp:168-176 | when every requested subcase is a load case, the printed subcases are the request itself, order and repeats kept |
| FhModel.PresentDropsAbsent | Fill_It_Library/src/FH_MODEL.cpp:170-171 | a requested subcase that `LOAD_CASE_Map.find` does not locate adds no row |
| FhModel.RequestedLinesSubs | Fill_It_Library/src/FH_MODEL.cpp:188-202 | every row printed for a node list names a requested node found in map A or B and one of the printed subcases |
| FhModel.AllLinesSubs | Fill_It_Library/src/FH_MODEL.cpp:218-258 | every row printed without a node list names a node of the map and one of the printed subcases |
| FhModel.PrintedSubcasesExist | Fill_It_Library/src/FH_MODEL.cpp:166-258 | every printed row's subcase is a load case, and, with a SUBCASES list, one the list names |
| FhModel.NoSubcasesPrintsEveryLoadCase | Fill_It_Library/src/FH_MODEL.cpp:218-258 | with no node list, no SUBCASES list and no composite filter, every node of both maps is printed once per load case |
| FhModel.GroupLoop | Fill_It_Library/src/FH_MODEL.cpp:34-46 | the first loop of `generate_FH_List` computes the grouping for one node map |
| FhModel.Merge | Fill_It_Library/src/FH_MODEL.cpp:48-57 | the merge loop over the A nodes in ascending order computes the merged maps |
| FhModel.MergeStart | Fill_It_Library/src/FH_MODEL.cpp:48 | before the merge loop nothing is merged |
| FhModel.PrefixStep | Fill_It_Library/src/FH_MODEL.cpp:49 | the next key in ascending order is new to the visited set |
| FhModel.PartialB | Fill_It_Library/src/FH_MODEL.cpp:48-57 | B lists stay non-empty while the merge runs |
| FhModel.MergeStep | Fill_It_Library/src/FH_MODEL.cpp:50-56 | one visit of the merge loop at a new A node extends the merge by that node |
| FhModel.MergeDone | Fill_It_Library/src/FH_MODEL.cpp:48-57 | once every A node is visited the merge is complete |
| FhModel.KeyJobs | Fill_It_Library/src/FH_MODEL.cpp:71-90 | the calls for every node of one map, in ascending order |
| FhModel.JobsOfKeys | Fill_It_Library/src/FH_MODEL.cpp:71-90 | the key loop makes the calls for each listed node in turn |
| FhModel.AllJobsStep | Fill_It_Library/src/FH_MODEL.cpp:71-80 | one more node of the key loop adds its call |
| FhModel.AllLinesStep | Fill_It_Library/src/FH_MODEL.cpp:210-235 | one more node of the row loop adds its rows, unless filtered out |
| FhModel.KeyLines | Fill_It_Library/src/FH_MODEL.cpp:210-262 | the rows of one map's nodes in ascending order |
| FhModel.LinesOfKeys | Fill_It_Library/src/FH_MODEL.cpp:210-235 | the row loop adds each listed node's rows in turn, skipping non-composite nodes when asked |
| FhModel.PrintResult | Fill_It_Library/src/FH_MODEL.cpp:268-294 | `print_result` writes the intended row, with the second CBUSH's ID in the CBUSH_2 column |
| FhModel.ShowValues | Fill_It_Library/src/FH_MODEL.cpp:281-284 | each result value written as `double_to_str` writes it, in order |
| FhModel.ShowRing | Fill_It_Library/src/FH_MODEL.cpp:286-293 | the ring's plate IDs, then "-" up to the column count |
| FillIt.FirstNot | Fill_It_Library/src/fill_it.cpp:27 | `find_first_not_of` gives -1 exactly when every character is the given one, and otherwise the first index of another character |
| FillIt.SplitAtStep | Fill_It_Library/src/fill_it.cpp:31-36 | one cut: the piece up to the next comma, then the pieces after it |
| FillIt.CommaFields | Fill_It_Library/src/fill_it.cpp:25-39 | `parse_comma` returns no field exactly for a line of commas only |
| FillIt.JoinSplit | Fill_It_Library/src/fill_it.cpp:31-37 | the pieces joined with commas give the text back |
| FillIt.SplitHasNoComma | Fill_It_Library/src/fill_it.cpp:31-37 | no piece holds a comma |
| FillIt.CommasSkip | Fill_It_Library/src/fill_it.cpp:31-37 | a stretch without commas adds no piece |
| FillIt.SplitCount | Fill_It_Library/src/fill_it.cpp:31-37 | there is one more piece than there are commas |
| FillIt.FindAfterPiece | Fill_It_Library/src/fill_it.cpp:35 | the search for the next comma after a comma-free piece stops right after it |
| FillIt.CommaFreeAll | Fill_It_Library/src/fill_it.cpp:31-37 | the fields are comma-free exactly when no field holds a comma |
| FillIt.FirstPiece | Fill_It_Library/src/fill_it.cpp:31-33 | the first piece after the prefix is cut whole, ended by a comma or by the end of the text |
| FillIt.SplitJoin | Fill_It_Library/src/fill_it.cpp:31-37 | splitting comma-free pieces joined with commas gives the pieces back |
| FillIt.JoinFirst | Fill_It_Library/src/fill_it.cpp:31-35 | the first of several pieces is cut at its comma and the rest of the text starts after it |
| FillIt.CommaFieldsRoundTrip | Fill_It_Library/src/fill_it.cpp:25-39 | a line read back: the fields joined with commas are the line after its leading commas, one more field than commas, none holding a comma |
| FillIt.CommaFieldsOfJoin | Fill_It_Library/src/fill_it.cpp:25-39 | a line written from comma-free fields, the first non-empty, parses back to exactly those fields |
| FillIt.ParseComma | Fill_It_Library/src/fill_it.cpp:25-39 | the `parse_comma` loop computes exactly the fields |
| FillIt.RemoveFileExtension | Fill_It_Library/src/fill_it.cpp:41-45 | a name without a dot is kept whole; otherwise the result is the name up to its last dot |
| FillIt.OutputNameStem | Fill_It_Library/src/fill_it.cpp:237-238 | the results file of a group keeps the group's stem: removing its extension gives that stem back |
| FillIt.WordOf | Fill_It_Library/src/fill_it.cpp:72-137 | a trimmed control line is blank exactly when empty, a keyword exactly when it spells a section name, and a value otherwise |
| FillIt.NextFlags | Fill_It_Library/src/fill_it.cpp:73-137 | one line never leaves two sections open |
| FillIt.OneSectionAtATime | Fill_It_Library/src/fill_it.cpp:70-138 | whatever the control file holds, at most one section is open at a time |
| FillIt.TakerOpen | Fill_It_Library/src/fill_it.cpp:73-117 | a section takes a line only while it is open and the line does not close it; when none takes it the keyword tests run on a clean slate |
| FillIt.StepFlags | Fill_It_Library/src/fill_it.cpp:73-137 | a section is open after a line only if it was open before or the line is its keyword; INPUT only on its keyword |
| FillIt.OpenedOnly | Fill_It_Library/src/fill_it.cpp:118-137 | a keyword opens only its own section |
| FillIt.BlankLineCloses | Fill_It_Library/src/fill_it.cpp:73-117 | a blank line closes the open section and records nothing |
| FillIt.KeywordOpensSection | Fill_It_Library/src/fill_it.cpp:73-137 | another section's keyword closes the open section and opens its own, recording nothing |
| FillIt.OwnKeywordIsValue | Fill_It_Library/src/fill_it.cpp:82-85 | PUNCH inside the PUNCH section is taken as a punch file name |
| FillIt.StrayLineIgnored | Fill_It_Library/src/fill_it.cpp:118-137 | a line outside every section that is not a keyword is ignored |
| FillIt.FromLinesGrow | Fill_It_Library/src/fill_it.cpp:70-72 | more control lines keep every name read a line of the file |
| FillIt.StepFromLines | Fill_It_Library/src/fill_it.cpp:73-117 | a control line of the file keeps every name read a line of the file |
| FillIt.NamesComeFromLines | Fill_It_Library/src/fill_it.cpp:64-138 | the input file, the punch files, the group files and the ALL parameters all come from lines of the control file without their spaces |
| FillIt.NoInputKeywordNoInput | Fill_It_Library/src/fill_it.cpp:64-147 | without a line reading INPUT the input file stays at its default "HELLO WORLD", so the run stops |
| FillIt.NoPunchKeywordNoPunch | Fill_It_Library/src/fill_it.cpp:82-151 | without a line reading PUNCH no punch file is listed, so the run stops |
| FillIt.InputNamed | Fill_It_Library/src/fill_it.cpp:73-77 | INPUT followed by a line that does not close the section names the input file, and that name is never the default |
| FillIt.ReadControl | Fill_It_Library/src/fill_it.cpp:70-138 | the control loop computes the state the control lines define |
| FillIt.ControlLine | Fill_It_Library/src/fill_it.cpp:71-137 | the loop body computes one control step on the trimmed line |
| FillIt.SubcaseList | Fill_It_Library/src/fill_it.cpp:109-112 | a SUBCASES line gives each comma field, spaces removed, read with `atol` |
| FillIt.ProceedNeedsNames | Fill_It_Library/src/fill_it.cpp:144-151 | a run goes on only with an INPUT line, a PUNCH line and an input file named by a line of the control file |
| FillIt.ParseAll | Fill_It_Library/src/fill_it.cpp:164-183 | the ALL line is refused with four fields or fewer; otherwise both axes of the one request are field 4, and composite-only is set exactly when field 0 reads COMP |
| FillIt.ParseAllIgnoresExtraFields | Fill_It_Library/src/fill_it.cpp:164-183 | only the first five fields of the ALL line matter |
| FillIt.RowOf | Fill_It_Library/src/fill_it.cpp:203-226 | a group line is a row only with more than six fields; SINGLE in field 4 marks a single CBUSH, whose check is 0 and whose second axis is its first |
| FillIt.RowIgnoresExtraFields | Fill_It_Library/src/fill_it.cpp:203-226 | only the first seven fields of a group line matter |
| FillIt.Rows | Fill_It_Library/src/fill_it.cpp:201-228 | a group file gives at most one row per line |
| FillIt.Nodes | Fill_It_Library/src/fill_it.cpp:205 | `NODE_List` holds each row's node, in order |
| FillIt.Requests | Fill_It_Library/src/fill_it.cpp:205-226 | one request per row, each made from its own row |
| FillIt.RequestsAsWritten | Fill_It_Library/src/fill_it.cpp:205-226 | the same number of requests, the SINGLE ones taking the first row's axis |
| FillIt.RequestsCompose | Fill_It_Library/src/fill_it.cpp:201-228 | the requests and nodes of a group are those of its parts |
| FillIt.SingleRowOwnAxis | Fill_It_Library/src/fill_it.cpp:217-220 | every SINGLE row is worked about its own axis only |
| FillIt.RowsSingle | Fill_It_Library/src/fill_it.cpp:217-220 | a SINGLE row's second axis is its first |
| FillIt.AsWrittenDiffers | Fill_It_Library/src/fill_it.cpp:219 | the requests as written differ from the intended ones exactly at SINGLE rows whose axis is not the first row's |
| FillIt.AsWrittenCounterexample | Fill_It_Library/src/fill_it.cpp:219 | two SINGLE nodes about axes 1 and 2: as written the second is worked about axes (2, 1), and a group's requests no longer split into its parts |
| FillIt.ParseRow | Fill_It_Library/src/fill_it.cpp:203-226 | one group line gives the row the definition names |
| FillIt.ReadGroup | Fill_It_Library/src/fill_it.cpp:200-228 | the group-file loop gives the node list and request rows of its lines, each SINGLE row about its own axis as intended |
| FillIt.RowsStep | Fill_It_Library/src/fill_it.cpp:201-227 | one more line adds its row, if it has one, after the others |
| FillIt.RowAppended | Fill_It_Library/src/fill_it.cpp:205-226 | a row appended adds its node and its request at the end |
| FillIt.GroupOutcome | Fill_It_Library/src/fill_it.cpp:196-243 | a group is written only when it names a readable file with a row, to its own `.res` file, with one call per requested node per fastener side where found, each SINGLE row about its own axis as intended, and every printed row's subcase a load case and, with a SUBCASES list, one it names |
| FillIt.RunGroups | Fill_It_Library/src/fill_it.cpp:196-251 | one outcome per group file, in order, each group worked from empty lists and printed over the SUBCASES list resolved against the load cases |
| FillIt.RunGroup | Fill_It_Library/src/fill_it.cpp:198-250 | one pass of the group loop |
| FillIt.Process | Fill_It_Library/src/fill_it.cpp:161-253 | without group files, an ALL line with five or more fields writes FH_Data.res from every A node then every B node with the one request row, and a shorter one stops the run; the rows are printed over the SUBCASES list resolved against the load cases; with group files each group gets its own outcome |
| Pbushes.Pbush.constructor | Stress_Library/src/NASTRAN_General/PBUSH.cpp:19-22 | a default property card owns a fresh six-slot stiffness buffer and satisfies the card invariant |
| Pshells.Pshell.constructor | Stress_Library/src/NASTRAN_General/PSHELL.cpp:19-22 | a default shell property owns fresh four-slot ID and three-slot value buffers and satisfies the card invariant |

## Left out

- File and console I/O: opening, reading and writing files, `std::getline`, `cout` and `cin`. A file is the sequence of its lines, and an output row is the sequence of its columns.
- The C runtime and libm (`atol`, `atof`, `atoi`, `sqrt`, `acos`, `sin`, `cos`) are abstract functions in `Runtime.Libc`. No property depends on their values, on floating-point rounding, or on NaN and infinity.
- Runtime.Div: a zero divisor gives 0 where the source gets an IEEE infinity or NaN; Reduction.Mean inherits this for a side of length zero.
- Integer widths: `atol` of a negative text stored in an `unsigned long` (the OCID -1 of a CBUSH) is kept as the negative integer; only the ply counter's `unsigned short` wrap is written out.
- Sides.SortBy: `std::sort` leaves the order of equal keys unspecified; the model uses a stable insertion sort. The side properties are proved for its result, which is one of the orders the source may produce.
- Rings.SearchRing, Rings.Iterate and the frame walks of module Frames take a fuel bound. Running out of fuel is an explicit outcome, so a search or walk longer than the fuel is not described.
- `std::binary_search` on a list that may be unsorted after the bridged branch (CBUSH.cpp:259) is modelled as a membership test.
- Reading `GRID_Vector[0]` from an empty frontier (CBUSH.cpp:268) is undefined; the ring search returns `Undefined` there.
- `order_FH` with grid size 1 and no placed plate is undefined: 0 equals 4 * 1 - 4, so the size check of CBUSH.cpp:936 passes and `all_elements[0]` of an empty vector is read. Grid size 1 with placed plates fails the size check and appends nothing, and a grid size of 0 or less (a blank or non-numeric field read by `atoi`) runs no search pass and appends nothing; both are modelled.
- Grid sizes below 2: Dafny's `/` rounds the counter `grid_size / 2` down where C++ truncates toward zero, but both are 0 or less there and only the test `i > 0` reads the counter.
- Sides.Order: excludes only grid size 1 with an empty shell, the undefined case of `order_FH`.
- Sides.OrderSizes: excludes only grid size 1 with an empty shell, the undefined case of `order_FH`.
- Sides.OrderSides: excludes only grid size 1 with an empty shell, the undefined case of `order_FH`.
- Cbushes.Cbush.OrderFH: excludes only grid size 1 with no placed plate, the undefined case of `order_FH`.
- Cbushes.Cbush.ParseFH: excludes only grid size 1 with no placed plate in the node's shell, which is the shell `order_FH` then sees, since grid size 1 runs no search pass.
- Sides.Cut: requires a grid size of at least 2 with a shell of `4n - 4` plates; the only other shell that passes the size check is the empty one at grid size 1, which is undefined.
- Sides.OrderCuts: states the cut for grid sizes of at least 2 only; grid size 1 passes the size check only with an empty shell, which is undefined.
- Sides.CutSides: runs the side loops for grid sizes of at least 2 only, for the same reason.
- Sides.Side1Shape: states side 1 for grid sizes of at least 2 only, for the same reason.
- Sides.Side2Shape: states side 2 for grid sizes of at least 2 only, for the same reason.
- Sides.Side3Shape: states side 3 for grid sizes of at least 2 only, for the same reason.
- Sides.Side4Shape: states side 4 for grid sizes of at least 2 only, for the same reason.
- Cbushes.FlattenOrdered: counts the plates of a ring of grid size at least 2 only, for the same reason.
- A field read past the end of a card's field list reads as blank. This covers a one-line long GRID, PBUSH, PSHELL or MAT8 card and a PCOMP ply group cut short.
- The RBE3 header writes field 3 one slot past its three-slot array (RBE3.h:48); the model keeps that value in a separate overflow slot.
- Members the source leaves uninitialised: the cells of `Transformation()`, slot 1 of an RBE3, CP, CD and the point's frame of a GRID built from an ID, and the frame of a `Coordinate` built from three components start at zero; the PBUSH stiffnesses of a card without a "K" line keep whatever values they held.
- Coordinates.Coordinate.constructor: Coordinate.cpp:21-24 sets only the three components and leaves the frame pointer uninitialised; the model starts it at the basic frame 0, so the frame it promises is the model's choice, not the source's.
- Grids.Grid.constructor: GRID.cpp:37-40 assigns only the ID; CP, CD and the point's frame are uninitialised there, and the model starts them at 0, so those zeros are not a promise of the source.
- BasicModel.Model.constructor: `BASIC_MODEL();` in the file constructor (BASIC_MODEL.cpp:47-51) builds a temporary, so on the path fill_it.cpp:153 takes the seven result flags are never initialised; nothing reads them, and the model starts them false, which holds in the source only for the default constructor.
- BasicModel.RecordID: an empty record buffer reads as ID 0, where BASIC_MODEL.cpp:351 indexes `lineEntries[0]` of an empty vector, which is undefined. `parsePunchFile` (BASIC_MODEL.cpp:328-335) reaches it after a header whose third line is not "$ELEMENT FORCES", an element-force header for another element type, or a record whose ID reads 0, since none of them re-arms `int_data[0]`.
- Grids.Grid.GetCoordinate: follows the intended frame walks of the second and third Findings rows (Frames.WalkUp, Frames.CollectFrames), not Grids.LocateAsWritten of GRID.cpp:95-133.
- FhModel.Row: puts the second CBUSH's ID in the CBUSH_2 column, as corrected in the seventh Findings row, not FhModel.RowAsWritten of FH_MODEL.cpp:275, which prints the first CBUSH's property ID. FhModel.PrintResult, FhModel.FhModel.GenerateFHOutput, FillIt.GroupOutcome and FillIt.Process print through it.
- `PCOMP::parse_Plies` (the laminate stiffness), the Euler-angle `build_matrix`, `rodrigues_rotation`, and the CQUAD element axes, material angle and side lengths are arithmetic on libm results. The material angle and side lengths are inputs, and the side-vector loop's read of `pNodes[4]` is not modelled.
- `CBUSH::get_vector`, `get_alignment_angle` and `set_transform` compute geometry from libm results. The fastener's axis, its alignment flag and the plate centroids in the fastener's frame are inputs. Orientation types 1 and 2 of `get_vector` return no value in the source and are not modelled.
- `CBUSH::getForceResult` is modelled only for the call the reduction makes (the paired CBUSH's force in BASIC), as a given vector.
- A punch header line shorter than the column `substr` starts at throws `std::out_of_range` in the source, which `catch(int)` does not catch; the model reads "" there.
- Memory ownership: the deletion loops of `BASIC_MODEL`, `new`/`delete` of PCOMP's `Q_Values`, and the map-copying getters. Maps hold objects or values and are read directly.
- Commented-out code in CQUAD, GRID, BASIC_MODEL and CBUSH: the ply-stress and stress results, the vector helpers of CQUAD and the old GRID walks.
- `double_to_str` and `ulong_to_str` are the `show` parameter of the output row; only the order and count of the columns are stated.
- The composite filter is never set on the group path of `fill_it`, so the driver passes a constant filter.
- Frames.ParseCoordLayout: states the inverse as intended (the first Findings row, corrected adjugate), not Transformations.InverseAsWritten that COORD.cpp:86 stores.
- Cquads.Cquad.NodeConnect: locates the corners through the intended frame walks of the second and third Findings rows, not the as-written walks of GRID.cpp:100-126.
- Cquads.SumCorners: locates the corners through the intended frame walks of the second and third Findings rows, not the as-written walks of GRID.cpp:100-126.
- Cbushes.ReduceCase: computes Reduction.CaseRecord, the reduction corrected as in the fifth and sixth Findings rows, not Reduction.CaseRecordAsWritten that CBUSH.cpp:571-651 computes.
- Cbushes.Cbush.ParseFH: follows the intended RBE3 fallback of the fourth Findings row (Rings.SearchRing), not Rings.SearchRingAsWritten of CBUSH.cpp:286.
- Cbushes.Cbush.GenerateFHResult: records Reduction.CaseRecord, corrected as in the fifth and sixth Findings rows, not Reduction.CaseRecordAsWritten that CBUSH.cpp:571-651 computes. The plate fluxes `CQUAD::getForceResult` returns for the fastener's alignment vector are an input function, and so are the two alignment angles, the transformation into this CBUSH's frame, the material transformation and the one taking the paired CBUSH's forces to BASIC.
- FillIt.ReadGroup: gives each SINGLE row its own axis, as corrected in the eighth Findings row (FillIt.Requests), not FillIt.RequestsAsWritten of fill_it.cpp:219.
- FillIt.GroupOutcome: works each SINGLE row about its own axis, as corrected in the eighth Findings row (FillIt.Requests), not FillIt.RequestsAsWritten of fill_it.cpp:219.

## Findings

| source | as written | input that shows it | evidently intended | confidence | as-written member | corrected member |
|---|---|---|---|---|---|---|
| Stress_Library/src/Math/Transformation.cpp:226 | cofactor C is `m10*m21 - m11*m21` | the rotation about x with cosine 0.6 and sine 0.8: adj(M)·M has the off-diagonal entry 0.48 | `m10*m21 - m11*m20`, so adj(M)·M = det(M)·I | not executed | Transformations.AdjugateAsWrittenCounterexample | Transformations.AdjugateInverts |
| Stress_Library/src/NASTRAN_General/GRID.cpp:100-111 | the upward walk moves `refCoord` to the parent before transforming, so it applies the parent's frame | a frame defined in BASIC: the walk looks up frame 0, which does not exist | apply the current frame's inverse, then move to its parent | not executed | Frames.UpwardAsWrittenNullAtBasic | Frames.WalkUp |
| Stress_Library/src/NASTRAN_General/GRID.cpp:119-126 | the downward loop reads the parent of `COORD_ID` on every pass | a target frame whose parent is another present frame: the loop never ends | read the parent of `refCoord` | not executed | Frames.FrameListAsWrittenDiverges | Frames.CollectFrames |
| Stress_Library/src/NASTRAN_General/CBUSH.cpp:286 | RBE3 spiders are consulted only when an RBE2 spider was found | a fastener bridged to its plate only by an RBE3, grid size 2: the search never ends | consult RBE3 spiders when no RBE2 spider was found | not executed | Rings.Rbe3BridgeCounterexample | Rings.FindRing |
| Stress_Library/src/NASTRAN_General/CBUSH.cpp:628 | the side-4 fallback of Fxx (and Mxx at line 651) divides by side 2's length | side 2 sum 10 over length 1, side 4 sum 2 over length 2: Fxx is 2, not 1 | divide side 4's sum by side 4's length | not executed | Reduction.OppositeAsWrittenCounterexample | Reduction.ReduceSelects |
| Stress_Library/src/NASTRAN_General/CBUSH.cpp:571-619 | each plate's flux, and the side length, are weighted by `operator[](6)` (sides 1 and 3: the material frame ID) or `operator[](5)` (sides 2 and 4: the fourth corner's ID) | two plates of equal side length with material frames 1 and 3: the side averages to 25, not 20 | weight by `operator()(6)` or `operator()(5)`, the plate's side length | not executed | Reduction.SideWeightAsWrittenCounterexample | Reduction.RenumberingInvariant |
| Fill_It_Library/src/FH_MODEL.cpp:275 | the CBUSH_2 column prints `operator[](1)` of the first CBUSH, its property ID | CBUSHes 101 (property 7) and 102 paired at node 5: the column reads "7" | print the second CBUSH's ID | not executed | FhModel.RowAsWrittenCounterexample | FhModel.PrintResult |
| Fill_It_Library/src/fill_it.cpp:219 | a SINGLE row takes its second axis from the group's first row | two SINGLE rows about axes 1 and 2: the second is worked about axes (2, 1) | take the row's own axis | not executed | FillIt.AsWrittenCounterexample | FillIt.SingleRowOwnAxis |
| Stress_Library/src/NASTRAN_General/MAT.cpp:71-83 | a one-line large-field card gets two blank fields, 7 in all, but the MAT8 branch reads fields up to 10 | a MAT8* card on one line: fields 7-10 are read past the end | treat missing fields as blank and store the defaults | not executed | Materials.OneLineLongMat8ReadsPastEnd | Materials.Mat8Defaults |
| Stress_Library/src/NASTRAN_General/GRID.cpp:67-83 | a large-field card is not padded, yet X3 and CD are read from fields 4 and 5 | a GRID* card on one line has 4 fields; fields 4 and 5 are read past the end | treat missing fields as blank | not executed | Grids.OneLineLongGridReadsPastEnd | Grids.ParseGridAsWrittenInRange |
| Stress_Library/src/NASTRAN_General/PSHELL.cpp:60-95 | a large-field card is not padded | a PSHELL* card on one line has 4 fields; fields 4-6 are read past the end | treat missing fields as blank and take the defaults | not executed | Pshells.OneLineLongPshellReadsPastEnd | Pshells.PshellValues |
| Stress_Library/src/NASTRAN_General/PCOMP.cpp:45-49 | `PCOMP();` builds a temporary instead of initialising the object, so the ply counter is not reset | a counter that starts at any non-zero value: it never equals the number of plies | start from the default-initialised state | not executed | Pcomps.CountDrifts | Pcomps.Pcomp.FromCard |
