# DirectXGame core in Dafny

This project models the game logic of a small 2D side-scrolling action game written in
C++ on top of the KamataEngine (a DirectX framework). The parts modelled are:

- the tile grid (`MapChipField`): its 20 x 100 layout, the CSV loader, the bounds-checked
  cell lookup, and the conversions between tile indices and world positions;
- the player (`Player`): grounded running with braking and a speed limit, jumping,
  gravity with a fall-speed limit, landing on the floor at y = 1, the smoothstep turn
  between the two facings, the four box corners and the upward map-collision pass;
- the timer-driven state machines, each stepped by a fixed 1/60 s frame:
  - the screen fade (`Fade`);
  - the hit flash (`HitEffect`);
  - the death burst (`DeathParticles`);
  - the title screen (`TitleScene`);
  - the walking enemy (`Enemy`);
- the camera that follows the player (`CameraController`);
- the goal flag's bounding box (`Goal`);
- the shared arithmetic (`VectorMath`, `Matrix`, `Easing`).

There is one module per source file. `Numeric` holds the standard-library helpers (clamp,
min, max, the float-to-`uint32_t` cast) and the constants everything shares: the 1/60
frame and the float value of pi.

How the source is modelled:

- Objects whose fields the game updates in place are classes. Their methods carry
  `modifies` clauses and state the whole new state.
- In-place buffers stay arrays: the particle transforms and the ellipse transforms.
- The grid is a `seq<seq<MapChipType>>` field that the loader reassigns.
- `float` is modelled as `real`. The value of `std::numbers::pi_v<float>` is written out
  exactly as the float it denotes. The literal `3.14159265f` in `Enemy.cpp` rounds to
  that same float.
- `uint32_t` is a newtype. Casts and unsigned arithmetic appear wherever their range
  matters.
- Input comes in as parameters: each key held is a boolean, and every cosine and sine
  value the engine would compute is a number.

## Model

| member | source | states |
|---|---|---|
| Numeric.Clamp | DirectXGame/Player.cpp:232 | std::clamp: the result lies in [lo, hi]; a value inside is kept, one below gives lo, one above gives hi |
| Numeric.Min | DirectXGame/Fade.cpp:46 | std::min: the result is at most both arguments and equals one of them |
| Numeric.Max | DirectXGame/Player.cpp:101 | std::max: the result is at least both arguments and equals one of them |
| Numeric.Trunc | DirectXGame/MapChipField.cpp:86-87 | float-to-integer conversion truncates toward zero: the result is within one of the value, on the zero side |
| Numeric.ToUint32 | DirectXGame/MapChipField.cpp:86-87 | static_cast<uint32_t> is defined only when the value lies strictly between -1 and 2^32; the result is the truncation, 0 for values in (-1, 0) |
| VectorMath.Add | DirectXGame/VectorMath.h:12-21 | subtracting the second argument from the sum gives back the first |
| VectorMath.Subtract | DirectXGame/VectorMath.h:29-38 | componentwise difference; its meaning is carried by `SubtractUndoesAdd` (it undoes Add in both orders) |
| VectorMath.Multiply | DirectXGame/VectorMath.h:46-53 | every component times f; its meaning is carried by `MultiplyUnitAndZero`, `DotScales` and `LengthScales` |
| VectorMath.Dot | DirectXGame/VectorMath.h:68 | the three-term dot product; its meaning is carried by `DotSymmetric`, `DotSelfNonNegative`, `DotScales` and `DotDistributesOverAdd` |
| VectorMath.SubtractUndoesAdd | DirectXGame/VectorMath.h:12-38 | Add and Subtract undo each other in both orders |
| VectorMath.AddCommutative | DirectXGame/VectorMath.h:12-21 | Add is commutative |
| VectorMath.AddAssociative | DirectXGame/VectorMath.h:12-21 | Add is associative |
| VectorMath.MultiplyUnitAndZero | DirectXGame/VectorMath.h:46-53 | scaling by 1 keeps a vector; scaling by 0 gives the zero vector |
| VectorMath.DotSymmetric | DirectXGame/VectorMath.h:68 | Dot is symmetric |
| VectorMath.DotSelfNonNegative | DirectXGame/VectorMath.h:68 | Dot(v, v) is never negative |
| VectorMath.DotScales | DirectXGame/VectorMath.h:46-68 | Dot(Multiply(f, a), b) = f * Dot(a, b) |
| VectorMath.DotDistributesOverAdd | DirectXGame/VectorMath.h:12-68 | Dot distributes over Add |
| VectorMath.LengthUnique | DirectXGame/VectorMath.h:60 | a vector has only one non-negative length whose square is Dot(v, v) |
| VectorMath.LengthScales | DirectXGame/VectorMath.h:46-60 | scaling a vector by f scales its length by abs(f) |
| Matrix.MakeIdentity4x4 | DirectXGame/Matrix.h:8-22 | the identity entry by entry; `IdentityIsUnit` proves it is a unit for Multiply on both sides |
| Matrix.Multiply | DirectXGame/Matrix.h:30-67 | the product entry by entry, the reference that `IdentityIsUnit`, `TranslationsCompose`, `ScalesCompose`, `LinearClosed` and `AffineLayout` give their meaning to |
| Matrix.MakeRotateMatrix | DirectXGame/Matrix.h:208-219 | the product Rx * (Ry * Rz) has the identity's row 3 and column 3, whatever the cosines and sines |
| Matrix.MakeTranslateMatrix | DirectXGame/Matrix.h:70-92 | the translation matrix; its meaning is carried by `TranslateIsIdentityButRow3` and `TranslationsCompose` |
| Matrix.MakeScaleMatrix | DirectXGame/Matrix.h:95-117 | the scale matrix; its meaning is carried by `ScaleIsDiagonal` and `ScalesCompose` |
| Matrix.MakeRotateXMatrix | DirectXGame/Matrix.h:124-145 | the rotation about x from a given cosine and sine; `RotationsAreLinear` proves it has the identity's row 3 and column 3 |
| Matrix.MakeRotateYMatrix | DirectXGame/Matrix.h:152-173 | the rotation about y from a given cosine and sine; `RotationsAreLinear` proves it has the identity's row 3 and column 3 |
| Matrix.MakeRotateZMatrix | DirectXGame/Matrix.h:180-201 | the rotation about z from a given cosine and sine; `RotationsAreLinear` proves it has the identity's row 3 and column 3, and `DeathParticles.ParticleVelocity` what it does to (0.1, 0, 0) |
| Matrix.MakeAffineMatrix | DirectXGame/Matrix.h:228-239 | (S * R) * T in the source's order; its meaning is carried by `AffineLayout` |
| Matrix.IdentityIsUnit | DirectXGame/Matrix.h:8-67 | the identity is a unit for Multiply on both sides |
| Matrix.TranslateIsIdentityButRow3 | DirectXGame/Matrix.h:70-92 | a translation matrix equals the identity except that row 3 is (tx, ty, tz, 1) |
| Matrix.TranslationsCompose | DirectXGame/Matrix.h:70-92 | T(a) * T(b) = T(a + b) |
| Matrix.ScaleIsDiagonal | DirectXGame/Matrix.h:95-117 | a scale matrix is diag(sx, sy, sz, 1) |
| Matrix.ScalesCompose | DirectXGame/Matrix.h:95-117 | S(a) * S(b) is the scale by the componentwise product |
| Matrix.LinearClosed | DirectXGame/Matrix.h:30-67 | the product of two matrices with the identity's row 3 and column 3 has them too |
| Matrix.RotationsAreLinear | DirectXGame/Matrix.h:124-201 | each axis rotation, and the product Rx * (Ry * Rz), has the identity's row 3 and column 3 |
| Matrix.ScaleTimes | DirectXGame/Matrix.h:228-239 | row i of S * R is row i of R scaled by s_i, and row 3 is left alone |
| Matrix.TimesTranslate | DirectXGame/Matrix.h:228-239 | multiplying on the right by T(t) adds t to row 3 and keeps rows 0-2 of a matrix whose column 3 is (0, 0, 0, 1) |
| Matrix.ScaleLinearTranslate | DirectXGame/Matrix.h:228-239 | for a rotation-shaped R, (S * R) * T has row 3 = (t, 1), column 3 = 0 above it, and rows 0-2 equal to R's rows scaled by s |
| Matrix.AffineLayout | DirectXGame/Matrix.h:228-239 | MakeAffineMatrix = (S * R) * T has row 3 = (tx, ty, tz, 1), column 3 = 0 above it, and its upper-left block is the rotation scaled row by row |
| Easing.EaseOut | DirectXGame/Easing.cpp:3-10 | start + (end - start) (1 - (1 - t)^3) for the clamped t; its meaning is carried by `ParameterIsClamped`, `Endpoints`, `ResultBetween` and `EaseOutMonotone` |
| Easing.EaseIn | DirectXGame/Easing.cpp:12-18 | start + (end - start) t^2 for the clamped t; its meaning is carried by `ParameterIsClamped`, `Endpoints`, `ResultBetween` and `EaseInMonotone` |
| Easing.CurvesBounded | DirectXGame/Easing.cpp:3-18 | on [0, 1] both curves, 1 - (1 - t)^3 and t^2, stay in [0, 1] |
| Easing.CurvesMonotone | DirectXGame/Easing.cpp:3-18 | both curves are nondecreasing on [0, 1] |
| Easing.ParameterIsClamped | DirectXGame/Easing.cpp:3-18 | EaseOut and EaseIn read t only through its clamp into [0, 1] |
| Easing.Endpoints | DirectXGame/Easing.cpp:3-18 | t <= 0 gives start and t >= 1 gives end, for both functions |
| Easing.ResultBetween | DirectXGame/Easing.cpp:3-18 | both results always lie between start and end, inclusive |
| Easing.EaseOutMonotone | DirectXGame/Easing.cpp:3-10 | with start <= end, EaseOut is nondecreasing in t |
| Easing.EaseInMonotone | DirectXGame/Easing.cpp:12-18 | with start <= end, EaseIn is nondecreasing in t |
| MapChipField.GetLine | DirectXGame/MapChipField.cpp:52-60 | one std::getline: the piece holds no delimiter, and the input is the piece, the delimiter and the rest, or the piece alone when no delimiter is left; it always consumes input when there is some |
| MapChipField.CellOfWord | DirectXGame/MapChipField.cpp:12-15 | the table knows only "0" and "1": a word gives Block exactly when it is "1", and any other word leaves the reset's Blank |
| MapChipField.LoadedCell | DirectXGame/MapChipField.cpp:49-66 | the loaded cell [i][j] is Block exactly when the j-th ','-field of line i is "1", and Blank when it is "0" or anything else |
| MapChipField.RowOfLine | DirectXGame/MapChipField.cpp:57-65 | the reference row for one line, which `LoadLine`'s loop is proved to write; with `TokenOfCsv` and `ExtraInputIgnored` it gives the row of a written CSV back, and fields past the 100th never reach it |
| MapChipField.GetLineOfJoin | DirectXGame/MapChipField.cpp:52-60 | getline on text written by joining pieces returns the first piece and leaves the rest of the join |
| MapChipField.GetLineOfPrefix | DirectXGame/MapChipField.cpp:52-60 | getline on a delimiter-free prefix followed by a delimiter (or nothing) returns exactly that prefix |
| MapChipField.PieceOfJoin | DirectXGame/MapChipField.cpp:52-60 | the k-th getline on joined pieces returns the k-th piece, and "" once the pieces run out |
| MapChipField.EmptyStaysEmpty | DirectXGame/MapChipField.cpp:52-60 | getline on an exhausted stream keeps giving "" |
| MapChipField.NoNewlineInJoin | DirectXGame/MapChipField.cpp:52-60 | joining newline-free words with ',' gives a newline-free line |
| MapChipField.TokenOfCsv | DirectXGame/MapChipField.cpp:49-66 | parsing a written CSV gives back word j of row i, and "" where the row or word is missing |
| MapChipField.ExtraInputIgnored | DirectXGame/MapChipField.cpp:49-57 | lines after the 20th and words after the 100th change no loaded cell |
| MapChipField.PieceStep | DirectXGame/MapChipField.cpp:49-60 | each further getline reads the next piece from what the previous calls left unread |
| MapChipField.GetMatChipPositionByIndex | DirectXGame/MapChipField.cpp:80 | (2 * x, 2 * (19 - y), 0) for a row y <= 19 (the unsigned subtraction wraps above 19); y lies in [0, 38] |
| MapChipField.GetMapChipIndexSetByPosition | DirectXGame/MapChipField.cpp:82-90 | defined only where both casts are defined; column c covers x in [2c - 1, 2c + 1) and all x < -1 give column 0; the row is read from -y, so every y in (-1, 1) gives row 0 and y <= -1 gives the row whose band holds it |
| MapChipField.ColumnRoundTrip | DirectXGame/MapChipField.cpp:80-86 | the column of a tile's own x position is that tile's column |
| MapChipField.BottomRowRoundTrip | DirectXGame/MapChipField.cpp:80-87 | the bottom row's position is indexable and maps back to (x, 0) |
| MapChipField.UpperRowsNotIndexable | DirectXGame/MapChipField.cpp:80-87 | every other row lies at y >= 2, where the row cast is undefined |
| MapChipField.RowsGoDown | DirectXGame/MapChipField.cpp:80 | a larger row index means a lower world y |
| MapChipField.MapChipField.constructor | DirectXGame/MapChipField.h:11-13 | a fresh field holds no rows |
| MapChipField.MapChipField.ResetMapChipData | DirectXGame/MapChipField.cpp:19-27 | afterwards the grid has 20 rows of 100 cells, every one Blank |
| MapChipField.MapChipField.LoadMapChipCsv | DirectXGame/MapChipField.cpp:29-67 | after loading contents, the grid has 20 x 100 cells and every cell is LoadedCell of the contents |
| MapChipField.MapChipField.LoadLine | DirectXGame/MapChipField.cpp:57-65 | one line's pass replaces row i, which the reset left Blank, by RowOfLine of the line and changes no other row |
| MapChipField.MapChipField.GetMapChipTypeByIndex | DirectXGame/MapChipField.cpp:69-78 | Blank when x > 99 or y > 19, the stored cell [y][x] otherwise; never fails |
| MapChipField.MapChipField.GetNumBlockVertical | DirectXGame/MapChipField.h:26 | 20 |
| MapChipField.MapChipField.GetNumBlockHorizontal | DirectXGame/MapChipField.h:28 | 100 |
| Player.CornerPosition | DirectXGame/Player.cpp:286-296 | the centre moved by +0.4 in x for the right corners (-0.4 for the left) and +0.4 in y for the top corners (-0.4 for the bottom); z is kept |
| Player.CornersSpanTheBox | DirectXGame/Player.cpp:286-296 | opposite corners are one width and one height apart, and their midpoint is the centre |
| Player.Facing | DirectXGame/Player.cpp:194-226 | the reference facing, which `Player.Move` and `Player.Update` are proved to set; with `RightWins` it makes Right win over Left |
| Player.RunVelocityX | DirectXGame/Player.cpp:194-237 | with a key held, velocity.x ends in [-0.2, 0.2]; with none it is multiplied by 0.9 |
| Player.RightWins | DirectXGame/Player.cpp:194-210 | holding both keys is the same as holding Right alone |
| Player.LeftMirrorsRight | DirectXGame/Player.cpp:194-232 | Left on -vx gives the negation of Right on vx |
| Player.RightBrakesLeftwardMotion | DirectXGame/Player.cpp:194-232 | Right held against leftward motion gives clamp(vx * 0.9 + 0.01) |
| Player.RightAccelerates | DirectXGame/Player.cpp:194-232 | within the speed limit, Right never lowers velocity.x, and raises it strictly below the limit |
| Player.DecayShrinks | DirectXGame/Player.cpp:233-237 | with no key the speed shrinks towards 0 and keeps its sign |
| Player.Fall | DirectXGame/Player.cpp:95-102 | the airborne velocity.y drops by 0.05 but never below -0.3 |
| Player.FallNeverRises | DirectXGame/Player.cpp:95-102 | gravity never raises a fall speed within the limit |
| Player.DestinationRotationY | DirectXGame/Player.cpp:141-147 | the target yaw is pi/2 facing right and 3 pi/2 facing left |
| Player.Smoothstep | DirectXGame/Player.cpp:149-152 | the EaseInOut weight t^2 (3 - 2t); its meaning is carried by `SmoothstepBounds` |
| Player.TurnYaw | DirectXGame/Player.cpp:149-155 | the yaw of a turn frame for the timer after its decrement; its meaning is carried by `TurnYawBetween` and `TurnFramesStayBetween`, and `Player.TurnControl` is proved to set it |
| Player.SmoothstepBounds | DirectXGame/Player.cpp:149-152 | t^2 (3 - 2t) maps [0, 1] into [0, 1], 0 to 0 and 1 to 1 |
| Player.TurnYawBetween | DirectXGame/Player.cpp:149-155 | while the timer is in [0, 0.3] the yaw lies between the recorded yaw and the destination, and equals the destination at timer 0 |
| Player.TurnFramesStayBetween | DirectXGame/Player.cpp:136-156 | every frame of a turn keeps the yaw between the recorded yaw and the destination, and the last frame lands on it |
| Player.Player.constructor | DirectXGame/Player.cpp:9-22 | the position, yaw pi/2, and the defaults of Player.h: no velocity, facing right, grounded, no turn running |
| Player.Player.SetMapChipField | DirectXGame/Player.h:58 | only the field pointer changes |
| Player.Player.Move | DirectXGame/Player.cpp:186-239 | airborne: nothing changes; grounded: velocity.x becomes RunVelocityX and velocity.y is untouched; a facing change records the current yaw and sets the timer to 0.3; keeping the facing leaves both alone |
| Player.Player.CheckMapCollisionUp | DirectXGame/Player.cpp:248-284 | a move that is not upward reports no hit; an upward one reports a hit exactly when the tile under either top corner after the move is a block; info is never written |
| Player.Player.CheckMapCollision | DirectXGame/Player.cpp:241-246 | the result of the upward pass, the only pass with a body |
| Player.Player.TurnControl | DirectXGame/Player.cpp:136-156 | a running timer loses 0.03 and the yaw follows the smoothstep between the recorded yaw and the destination, staying between them and landing on the destination at 0; a stopped timer changes nothing |
| Player.Player.Update | DirectXGame/Player.cpp:24-163 | grounded: Move, then the jump, leaving the ground exactly when Up is held; airborne: gravity with the fall limit and, when falling at y <= 1, the landing (y = 1, vertical speed 0, velocity.x times 0.9); then the turn step and translation += velocity |
| Fade.Progress | DirectXGame/Fade.cpp:35-49 | counter / duration clamped into [0, 1] |
| Fade.FadeInAlpha | DirectXGame/Fade.cpp:35 | a fade-in frame's alpha lies in [0, 1] and is 1 minus the progress |
| Fade.FadeOutAlpha | DirectXGame/Fade.cpp:49 | a fade-out frame's alpha lies in [0, 1] and is the complement of the fade-in alpha |
| Fade.ProgressIsRatio | DirectXGame/Fade.cpp:35-49 | within a positive duration the clamp never acts: the progress is the ratio, 0 at the start and 1 at the end |
| Fade.ProgressMonotone | DirectXGame/Fade.cpp:35-49 | a later counter never lowers the progress |
| Fade.Fade.constructor | DirectXGame/Fade.h:33-42 | status None, duration 0, counter 0 |
| Fade.Fade.Start | DirectXGame/Fade.cpp:67-71 | the given status and duration, with the counter at 0 |
| Fade.Fade.Stop | DirectXGame/Fade.cpp:73 | the status becomes None |
| Fade.Fade.IsFinished | DirectXGame/Fade.cpp:75-83 | true when off; otherwise true exactly when the counter has reached the duration |
| Fade.Fade.Update | DirectXGame/Fade.cpp:17-54 | None: nothing changes and alpha is 0; FadeIn: the counter advances a frame, and on reaching the duration it is clamped and the fade switches off; FadeOut: counter = min(counter + 1/60, duration); the alpha is in [0, 1]; the counter stays in [0, duration] and never decreases |
| HitEffect.EaseOutCubic | DirectXGame/HitEffect.cpp:11-15 | the result lies in [0, 1]; t <= 0 gives 0 and t >= 1 gives 1 |
| HitEffect.EaseOutCubicIsEaseOutCurve | DirectXGame/HitEffect.cpp:11-15 | EaseOutCubic is the ease-out curve of Easing.cpp applied to the clamped t |
| HitEffect.EaseOutCubicMonotone | DirectXGame/HitEffect.cpp:11-15 | EaseOutCubic never decreases |
| HitEffect.GrowthBetween | DirectXGame/HitEffect.cpp:55-70 | a + (b - a) e lies in [a, b] for e in [0, 1] |
| HitEffect.HitEffect.IsDead | DirectXGame/HitEffect.h:22 | true exactly in the Dead state |
| HitEffect.HitEffect.constructor | DirectXGame/HitEffect.cpp:18-43 | Create: `new HitEffect()` value-initialises the timer to 0, then Initialize gives the Spread state, opacity 1, circle scale (0.6, 0.6, 1) and both ellipse scales (1.5, 0.1, 1) |
| HitEffect.HitEffect.Update | DirectXGame/HitEffect.cpp:45-96 | the timer always advances a frame first; Spread: the scales follow the eased ratio within their bounds, and the state becomes Fade with the timer reset once the ratio reaches 1; Fade: opacity = 1 - EaseOutCubic(timer / 0.2), and Dead once the ratio reaches 1; Dead only advances the timer; states only move forward, one step at a time |
| HitEffect.HitEffect.SpreadStep | DirectXGame/HitEffect.cpp:50-80 | the circle's x and y scale move from 0.6 to 1.6 and each ellipse's from (1.5, 0.1) to (3.0, 0.2) by the eased ratio; the switch to Fade with the timer reset happens exactly when the ratio reaches 1 |
| HitEffect.HitEffect.GrowEllipses | DirectXGame/HitEffect.cpp:65-73 | every ellipse's x scale becomes 1.5 + 1.5 e and its y scale becomes 0.1 + 0.1 e, both within their bounds |
| DeathParticles.Transform | DirectXGame/DeathParticles.cpp:76-84 | the row vector times the upper-left 3x3 block; its meaning is carried by `TransformIdentity`, `TransformReadsOnlyBlock` and `TransformIgnoresTranslation` |
| DeathParticles.TransformIdentity | DirectXGame/DeathParticles.cpp:76-84 | Transform by the identity leaves a vector unchanged |
| DeathParticles.TransformReadsOnlyBlock | DirectXGame/DeathParticles.cpp:76-84 | only the upper-left 3x3 block of the matrix is read |
| DeathParticles.TransformIgnoresTranslation | DirectXGame/DeathParticles.cpp:76-84 | a translation matrix moves no direction vector |
| DeathParticles.ParticleVelocity | DirectXGame/DeathParticles.cpp:30-39 | (0.1, 0, 0) turned by the z rotation is (0.1 cos, 0.1 sin, 0) |
| DeathParticles.ParticleSpeed | DirectXGame/DeathParticles.cpp:30-39 | for a true cosine/sine pair every particle moves at speed 0.1 |
| DeathParticles.Alpha | DirectXGame/DeathParticles.cpp:25 | the opacity lies in [0, 1] and, for a counter within the duration, is 1 minus the counter |
| DeathParticles.DeathParticles.IsFinished | DirectXGame/DeathParticles.h:17 | true exactly when the counter has reached the duration |
| DeathParticles.DeathParticles.constructor | DirectXGame/DeathParticles.cpp:3-16 | all eight particles at the position, alpha 1, not finished, counter 0 |
| DeathParticles.DeathParticles.Update | DirectXGame/DeathParticles.cpp:18-56 | a finished burst is left exactly as it was; otherwise each particle moves by its own velocity and no other, the alpha comes from the counter before it advances, and the counter advances a frame and stops at 1.0, where the burst is finished |
| DeathParticles.DeathParticles.MoveParticle | DirectXGame/DeathParticles.cpp:29-42 | particle i moves by its rotated velocity, and no other particle moves |
| TitleScene.BobHeight | DirectXGame/TitleScene.cpp:32-34 | 0.1 times the sine value, in [-0.1, 0.1], with 0, 1 and -1 going to 0, 0.1 and -0.1 |
| TitleScene.BobHeightMonotone | DirectXGame/TitleScene.cpp:32-34 | a higher sine value raises the title |
| TitleScene.TitleScene.IsFinished | DirectXGame/TitleScene.h:15 | a finished scene is in the fade-out phase |
| TitleScene.TitleScene.constructor | DirectXGame/TitleScene.cpp:3-16 | phase FadeIn, time 0, not finished, and a fade-in of duration 1.0 started |
| TitleScene.TitleScene.Update | DirectXGame/TitleScene.cpp:18-52 | the fade is fading in during FadeIn, off during Main and fading out during FadeOut; phases only move forward, one at a time, and finished is never cleared; FadeIn: the fade's counter becomes min(counter + 1/60, 1.0) and Main is entered exactly when the fade reports finished; Main: time grows by 1/60, the bob height is 0.1 sin, and Space starts a fade-out of 1.0 and enters FadeOut, while otherwise the fade is untouched; FadeOut: the fade's counter becomes min(counter + 1/60, 1.0), and finished is set once it reaches 1.0 |
| Enemy.PitchDegree | DirectXGame/Enemy.cpp:28 | -10 + 20 (param + 1) / 2 lies in [-10, 10] for param in [-1, 1], with -10 at -1, 10 at 1 and 0 at 0 |
| Enemy.PitchDegreeMonotone | DirectXGame/Enemy.cpp:28 | the pitch grows with the sine value |
| Enemy.DegreesToRadians | DirectXGame/Enemy.cpp:29 | the conversion keeps the sign and 0 |
| Enemy.PitchRadiansBounded | DirectXGame/Enemy.cpp:26-29 | the pitch in radians stays within 10 degrees either way |
| Enemy.Enemy.constructor | DirectXGame/Enemy.cpp:3-17 | translation (14, 1, 0), yaw pi/2, velocity (-0.05, 0, 0), timer 0 |
| Enemy.Enemy.Update | DirectXGame/Enemy.cpp:19-32 | translation += velocity with the velocity unchanged, the timer grows by 1/60, only rotation.x changes, to the pitch in radians; nothing else changes |
| Enemy.WalkedTranslation | DirectXGame/Enemy.cpp:9-20 | the closed form (14 - 0.05 n, 1, 0) of n steps from the start; `Enemy.Walk` proves the class reaches it |
| Enemy.Walk | DirectXGame/Enemy.cpp:3-32 | Initialize followed by one Update per frame: after n frames the enemy stands at WalkedTranslation(n), its timer is n / 60, it still walks at (-0.05, 0, 0) facing yaw pi/2, and its pitch is that of the last frame |
| CameraController.ConstantRectsWellFormed | DirectXGame/CameraController.h:9-83 | the default Rect, the default movable area and the margin all have left <= right and bottom <= top |
| CameraController.Lerp | DirectXGame/CameraController.h:45-54 | t v1 + (1 - t) v2 per component; its meaning is carried by `LerpEndpoints`, `LerpIsReversedBlend`, `LerpHalfSymmetric`, `LerpBetween` and `LerpOfEqualEnds` |
| CameraController.LerpEndpoints | DirectXGame/CameraController.h:45-54 | t = 1 gives v1 and t = 0 gives v2, the reverse of the usual convention |
| CameraController.LerpIsReversedBlend | DirectXGame/CameraController.h:45-54 | Lerp(v1, v2, t) walks from v2 towards v1 by t |
| CameraController.LerpHalfSymmetric | DirectXGame/CameraController.h:45-74 | at the rate 0.5 the arguments can be swapped and the result is their midpoint |
| CameraController.LerpBetween | DirectXGame/CameraController.h:45-54 | for t in [0, 1] every component lies between those of the two ends |
| CameraController.LerpOfEqualEnds | DirectXGame/CameraController.h:45-54 | blending a point with itself gives the point |
| CameraController.TargetPosition | DirectXGame/CameraController.cpp:18-24 | the aim point minus (player + (0, 0, -17)) is 10 times the player's velocity |
| CameraController.ClampIntoWindow | DirectXGame/CameraController.cpp:30-35 | the result lies in the movable area, z is kept, and a coordinate already inside both the margin window and the area is kept |
| CameraController.FollowPosition | DirectXGame/CameraController.cpp:27-35 | the new camera position lies in the movable area, and only the lerp sets z |
| CameraController.MarginHoldsInsideArea | DirectXGame/CameraController.cpp:30-35 | when the area contains the margin window, the camera ends within x in [px - 1, px + 4] and y in [py, py + 5] |
| CameraController.RestingTarget | DirectXGame/CameraController.cpp:24 | a resting player's aim point is the player plus the offset |
| CameraController.RestingLerp | DirectXGame/CameraController.cpp:24-27 | a camera already at that aim point stays there through the lerp |
| CameraController.WindowKeepsPlayerColumn | DirectXGame/CameraController.cpp:30-35 | a point straight in front of the player, inside the area, passes both clamps unchanged |
| CameraController.RestingTargetIsFixed | DirectXGame/CameraController.cpp:16-39 | a camera at the aim point of a resting player, inside the area, does not move |
| CameraController.Camera.constructor | DirectXGame/CameraController.h:32-63 | the stand-in for the engine camera behind targetCamera_, set by SetTargetCamera and written by Update: it starts at the translation it is given |
| CameraController.CameraController.constructor | DirectXGame/CameraController.h:56-83 | no target and no target camera, the default movable area (0, 100, 0, 100); `target_` has no initialiser and is taken as null, the two vectors without one as zero |
| CameraController.CameraController.SetTarget | DirectXGame/CameraController.h:30 | only the target changes |
| CameraController.CameraController.SetTargetCamera | DirectXGame/CameraController.h:32 | only the target camera changes |
| CameraController.CameraController.SetMovableArea | DirectXGame/CameraController.h:34 | only the movable area changes |
| CameraController.CameraController.Update | DirectXGame/CameraController.cpp:16-39 | the velocity and aim point are recorded, and the steered camera moves to FollowPosition, so it ends inside the movable area |
| CameraController.CameraController.Reset | DirectXGame/CameraController.cpp:41-48 | the controller's own camera is put at the player plus the offset; the steered camera is untouched |
| Goal.Goal.constructor | DirectXGame/Goal.cpp:4-13 | translation pos, yaw pi/2, size (1, 2, 1), unit scale |
| Goal.Goal.GetWorldPosition | DirectXGame/Goal.cpp:27-36 | row 3 (x, y, z) of the world matrix; `WorldPositionIsTranslation` proves it is the goal's translation when the matrix is MakeAffineMatrix of its transform |
| Goal.Goal.GetAABB | DirectXGame/Goal.cpp:15-25 | min <= max componentwise, extents exactly (1, 2, 1) with the width reused for z, and centred on the world position |
| Goal.Goal.SetScale | DirectXGame/Goal.h:21 | only the scale changes |
| Goal.WorldPositionIsTranslation | DirectXGame/Goal.cpp:27-36 | when the world matrix is MakeAffineMatrix of the goal's own transform, the world position (row 3 of the matrix) is its translation and the box is centred on it |
| Goal.BoxIsDeterminedByCentre | DirectXGame/Goal.cpp:15-25 | GetAABB's box is the only box with those extents centred on the world position |

## Left out

- File opening in `LoadMapChipCsv` (`MapChipField.cpp:35-46`) is I/O. The loader takes the
  file's contents as a string.
- Drawing, models, sprites, textures, object colours and `WorldTransformUpdate` /
  `UpdateMatrix` / `TransferMatrix` are engine calls. The engine's matrix for the goal is a
  constructor parameter.
- Keyboard polling: each key is a boolean parameter.
- `sinf`, `cosf`, `std::sin` and `std::sqrt` are not modelled:
  - the rotation matrices take their cosine and sine as given numbers;
  - the Enemy's pitch sine, the title's bob sine and the death burst's eight directions
    (angle `kAngleUnit * i`) are parameters;
  - a length is characterised by `IsLength` rather than computed.
- IEEE float rounding: every value is an exact real. Frame counts that depend on how
  1/60 rounds (when a fade or a turn ends exactly) are not claimed.
- The random ellipse yaws of `HitEffect::Initialize` (the `mt19937_64` engine) and the
  rotations and translations of the hit effect's transforms. Only the scales, opacity,
  timer and state are modelled.
- `HitEffect::Create` and `Initialize` are one constructor. `timer_` has no member
  initialiser in `HitEffect.h`, but `Create`'s `new HitEffect()` (`HitEffect.cpp:119`)
  value-initialises it to 0, so the constructor starts the timer at 0.
- `CheckMapCollisionDown`, `CheckMapCollisionRight` and `CheckMapCollisionLeft` are
  declared in `Player.h` without bodies. `CheckMapCollision` runs only the upward pass.
- The `CollisionMapInfo` built in `Player::Update` is never applied. The model discards it
  as the source does.
- Player.Player.CheckMapCollisionUp: the model requires the map and indexable top corners
  only for an upward move. Inside `Update` the move is never upward (a grounded player has
  no vertical speed), so no cast is reached there.
- `Player::GetAABB`, `OnCollision`, the attack, wire, double jump and wall slide, and
  `Enemy::OnCollision` / `GetAABB`, are declared without bodies. `IsCollision` in `AABB.h` is
  also declared only. None of them is modelled.
- `Player::Initialize` and `Enemy::Initialize` take different parameters in their headers.
  The `.cpp` bodies are followed, and the model pointers are left out.
- `Goal::Update` only calls `WorldTransformUpdate`, so it is left out with the engine calls.
- `MakePerspectiveFovMatrix`, `MakeOrthographicMatrix` and `Inverse` are not modelled.
  `Inverse` divides by the determinant without a guard.
- `GameScene`, `Skydome` and `main.cpp` are not modelled: the engine loop, scene
  switching and rendering.
- `MapChipField.GetMapChipIndexSetByPosition` and its `IndexSet` type are defined in
  `MapChipField.cpp` but not declared in `MapChipField.h`. The model follows the `.cpp`.
- Several loop bodies are separate helper methods: `MapChipField.LoadLine`,
  `Player.TurnControl`, `HitEffect.SpreadStep`, `HitEffect.GrowEllipses` and
  `DeathParticles.MoveParticle`. They do exactly what the source does in place.
- Fade.Fade.Update: a running fade of zero duration is excluded by a precondition. The
  source would divide 0 by 0 at `Fade.cpp:35` and `Fade.cpp:49` and compute a NaN alpha. No
  caller reaches it, because both `Start` calls pass `kFadeDuration` = 1.0
  (`TitleScene.cpp:15`, `TitleScene.cpp:37`).
- The title scene's camera and model, and the Fade's sprite set-up (`Fade::Initialize`),
  are engine calls.
