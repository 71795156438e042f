# Turtle graphics and wireframe demos, modelled in Dafny

The repository holds six small browser programs:

- three 2D turtle pages: a canvas editor (`lista1/zad1/turtle.js`), a canvas presentation that plays a fixed script (`lista1/zad1/turtle_pres.js`), and an SVG editor (`lista1/zad3/svg.js`);
- two 3D turtle pages (`lista1/zad5/turtle_3d.js` and its presentation `lista1/zad5/turtle_3d_pres.js`), which draw the turtle's track as wireframe `Line` objects seen through a perspective camera;
- a game (`lista1/zad4/3d_game.js`) in which the player flies a point through a field of grey cubes towards a green one.

The pages are near duplicates. The project models each shared piece once:

- `text.dfy` (module `Text`): the JavaScript string built-ins the command lines use. These are `split` on one character, `trim`, `toLowerCase`, `parseInt` and the `Number` coercion of a string (decimal numerals with a fraction and an exponent, the `0x`, `0o` and `0b` prefixes, `Infinity`, and `NaN` for anything else).
- `angles.dfy` (module `Angles`): JavaScript's truncating `%`, which keeps the sign of the dividend, and congruence of headings. It also holds `Trig`, the sine, cosine and square root handed to the model as function values.
- `ops.dfy` and `fractals.dfy` (modules `TurtleOps` and `Fractals`): the calls `koch_line`, `koch` and `sierp` issue, as a list of primitive turtle calls. The lemmas count the forward moves and the net turn.
- `script.dfy` (module `Script`): the statement scan of every `readInput`. It splits on `;`, lower-cases, trims and splits on a single space, and a `repeat N; ...; end` block replays its body N times. `Dispatched` lists the commands handed to `runCmd`, in order. The 3D pages resume at the `end` statement (`i = k - 1`), so `end` itself then reaches `runCmd` as an unknown command. The 2D pages resume after it (`i = k`).
- `geometry.dfy` and `render.dfy` (modules `Geometry` and `Render`): `Cube`, `Line`, collision, the perspective projection, `rotate`, and `Engine.render` with its depth cull.
- `turtle3d.dfy` (module `Turtle3D`): the 3D turtle and its command interpreter. The state is the value `Page3D`, and `CmdStep` and `RunCmds` give the meaning of commands. The class `Turtle3DPage` holds the page's globals. Its methods are proved to do what those functions say.
- `turtle2d.dfy` (module `Turtle2D`): the same for the three 2D pages. It records what the canvas or the SVG picture receives as a trace of `Draw` records.
- `cube_game.dfy` (module `CubeGame`): the game. `Math.random()` is a stream of draws in [0, 1) passed in as a function of the call number.

Trigonometry, the square root and the random draws are parameters. Positions are exact reals. Headings are integers, because every turn argument is an integer literal or a `parseInt` result.

## Model

| member | source | states |
|---|---|---|
| Angles.TruncRem | lista1/zad5/turtle_3d.js:273-290 | the `%` of a turn lies strictly between -m and m |
| Angles.TruncRemSpec | lista1/zad1/turtle.js:88-91 | JavaScript's remainder: it has the sign of the dividend (or is 0) and differs from it by a multiple of m |
| Angles.TruncRemUnique | lista1/zad1/turtle.js:88-91 | those three facts determine the remainder, so `TruncRem` is exactly JavaScript's `%` |
| Angles.TruncRemCongruent | lista1/zad3/svg.js:99-102 | a reduced heading is congruent to the unreduced one |
| TurtleOps.CountFdTimes | lista1/zad5/turtle_3d.js:357-361 | a block issued n times by a counted loop issues n times its forward moves |
| TurtleOps.NetTurnTimes | lista1/zad5/turtle_3d.js:357-361 | ... and n times its net turn |
| TurtleOps.PenUpAfterAppend | lista1/zad1/turtle.js:222-226 | the pen after two runs of calls is the pen after the second, starting from the first's |
| Fractals.KochLineFacts | lista1/zad5/turtle_3d.js:326-338 | `koch_line(n, L)` issues exactly 4^n forward moves, each of length L/3^n, and a net turn of 0 |
| Fractals.Koch3DFacts | lista1/zad5/turtle_3d.js:341-350 | `koch(n, L)` issues 3·4^n forward moves and a net turn of 360, congruent to 0 mod 360 |
| Fractals.Koch2DCommandFacts | lista1/zad1/turtle.js:222-231 | the 2D `koch` command issues 1 + 3·4^n forward moves and a net turn of 360, and ends with the pen down |
| Fractals.KochLinePenFree | lista1/zad1/turtle_pres.js:111-123 | the Koch curve never touches the pen |
| Fractals.Sierp3DCount | lista1/zad5/turtle_3d.js:353-363 | `sierp(n)` issues (3^(n+1) - 3)/2 forward moves (stated times 2) |
| Fractals.Sierp3DTurn | lista1/zad5/turtle_3d.js:353-363 | `sierp(n)` turns right by 180·(3^n - 1) degrees in total |
| Fractals.Sierp3DTurnCircles | lista1/zad5/turtle_3d.js:353-363 | ... which is a whole number of turns |
| Fractals.OddPower | lista1/zad5/turtle_3d.js:353-363 | 3^n is odd, the fact that closes the net turn of `sierp` |
| Fractals.Sierp3DCommandTurn | lista1/zad5/turtle_3d.js:412-419 | the `rt 30`, `sierp`, `lt 30` of the command leaves the heading where it was, mod 360 |
| Fractals.OutlineFacts | lista1/zad1/turtle.js:134-141 | the outer triangle is 3 forward moves and a net turn of -540 |
| Fractals.RepositionFacts | lista1/zad1/turtle.js:153-157 | the pen-up move to the right corner is 2 forward moves and a net turn of -150, and leaves the pen down |
| Fractals.RestoringFacts | lista1/zad1/turtle.js:143-151 | a sub-triangle between a save and a restore adds its own forward moves and no net turn |
| Fractals.Sierp2DCountStep | lista1/zad1/turtle.js:129-185 | one level of the 2D `sierp` issues 7 forward moves of its own plus three sub-triangles |
| Fractals.Sierp2DCount | lista1/zad3/svg.js:140-196 | the 2D `sierp(n)` issues 7·(3^n - 1)/2 forward moves (stated times 2) |
| Fractals.Sierp2DTurn | lista1/zad1/turtle.js:129-185 | for n ≥ 1 the 2D `sierp` turns by -930 degrees in total, which is not a whole number of turns |
| Fractals.Sierp2DPen | lista1/zad1/turtle.js:153-155 | for n ≥ 1 the 2D `sierp` ends with the pen down, whatever it started with |
| Fractals.KochLineNaN | lista1/zad5/turtle_3d.js:326-338 | with a length that is not a number every forward move of the curve is by a non-number (`NaN / 3` is `NaN`) |
| Fractals.Koch3DNaN | lista1/zad5/turtle_3d.js:341-350 | ... and so is every forward move of the 3D snowflake |
| Fractals.Koch2DNaN | lista1/zad1/turtle.js:228-231 | ... and of the three curves of the 2D command |
| Fractals.Sierp3DNaN | lista1/zad5/turtle_3d.js:353-363 | ... and of the 3D triangle, with and without the turns around it |
| Fractals.Sierp2DNaN | lista1/zad1/turtle.js:129-185 | ... and of the 2D triangle when the height is not a number either |
| Geometry.Cube | lista1/zad5/turtle_3d_pres.js:22-64 | a cube has 8 vertices and 12 edges, every edge names existing vertices, and it keeps its colour |
| Geometry.Line | lista1/zad5/turtle_3d_pres.js:78-96 | a line has exactly the vertices p1 and p2 and the single edge [0, 1], and no point collides with it |
| Geometry.CubeCollision | lista1/zad5/turtle_3d_pres.js:66-73 | a point collides with a cube iff it is within size/2 of the centre on every axis, bounds included |
| Geometry.CubeCollidesWithItself | lista1/zad4/3d_game.js:64-70 | for size ≥ 0 the centre and all 8 vertices collide |
| Geometry.CubeEdgesAreSides | lista1/zad5/turtle_3d_pres.js:39-64 | every edge joins two vertices that differ in exactly one coordinate, by `size` |
| Geometry.CubeDegrees | lista1/zad4/3d_game.js:48-61 | every vertex of a cube is an end of exactly 3 edges |
| Geometry.Project | lista1/zad5/turtle_3d_pres.js:99-105 | the depth is a.y - c.y; the point is at the eye iff that depth is 0; otherwise the screen x and y times the depth are d·(a.x - c.x) and d·(a.z - c.z) |
| Geometry.ProjectTranslate | lista1/zad5/turtle_3d_pres.js:99-105 | moving the point and the camera by the same vector changes nothing |
| Geometry.ProjectAlongRay | lista1/zad5/turtle_3d_pres.js:99-105 | points on one ray from the eye land on the same screen point, with depth scaled |
| Geometry.RotateFixesCenter | lista1/zad5/turtle_3d_pres.js:530-545 | `rotate` leaves the centre where it is |
| Geometry.RotateIdentity | lista1/zad5/turtle_3d_pres.js:530-545 | with coefficients (1, 0, 1, 0) `rotate` is the identity |
| Geometry.RotateTranslate | lista1/zad5/turtle_3d_pres.js:530-545 | `rotate` depends only on the offset from the centre: moving vertex and centre by one vector moves the image by that vector |
| Geometry.RotateShape | lista1/zad5/turtle_3d_pres.js:504-508 | every vertex of a copied object is rotated, and its edges, colour and collider are kept; edges that named vertices still do, and with no drag (coefficients 1, 0, 1, 0) the copy equals the object |
| Render.EdgeStrokesCount | lista1/zad5/turtle_3d_pres.js:138-155 | an object gives exactly as many strokes as it has edges with no negative depth, all in its colour; all edges are stroked iff all are visible |
| Render.FrameAppend | lista1/zad5/turtle_3d_pres.js:135-156 | a frame is drawn object by object, so the frame of a + b is the frame of a followed by that of b |
| Render.Engine.constructor | lista1/zad5/turtle_3d_pres.js:123-129 | the offsets are half the canvas width and height |
| Render.Engine.Render | lista1/zad5/turtle_3d_pres.js:131-157 | the nested loops stroke exactly `Frame(objects, camera)`: objects in order, their edges in order, culled when a depth is negative, at (x + dx, -y + dy), in the object's colour |
| Text.Lower | lista1/zad5/turtle_3d.js:443 | `toLowerCase` keeps the length, leaves no capital ASCII letter, and changes only capital letters, each to its small letter |
| Text.TrimStart | lista1/zad5/turtle_3d.js:443 | what `trim` drops at the front is ECMAScript white space or a line terminator (the Unicode space separators included), and what is left starts with neither |
| Text.TrimEnd | lista1/zad5/turtle_3d.js:443 | the same at the back |
| Text.TrimLowerCommute | lista1/zad5/turtle_3d.js:454 | `trim().toLowerCase()` in the block and `toLowerCase().trim()` outside it give the same tokens |
| Text.Split | lista1/zad5/turtle_3d.js:440 | `split(";")` gives at least one piece and no piece holds the separator |
| Text.JoinSplit | lista1/zad5/turtle_3d.js:440 | joining the pieces of a split gives the input back |
| Text.SplitJoin | lista1/zad5/turtle_3d.js:440 | splitting undoes a join of pieces free of the separator |
| Text.ParseShowInt | lista1/zad5/turtle_3d.js:371 | `parseInt` reads every integer numeral back as its value |
| Text.SplitCount | lista1/zad5/turtle_3d.js:440 | `split` gives one piece more than there are separators |
| Text.NumberShowInt | lista1/zad5/turtle_3d.js:414-417 | the `Number` coercion `sierp` applies to its raw arguments agrees with `parseInt` on integer numerals |
| Text.NumberOfDigits | lista1/zad5/turtle_3d.js:414-417 | a trimmed, optionally signed run of digits coerces to its decimal value, negated after a `-` |
| Text.NumberDecimal | lista1/zad1/turtle.js:104-106 | a trimmed, optionally signed text that starts with a digit and has no `0x`/`0o`/`0b` prefix coerces as a decimal numeral, and to `NaN` when the numeral does not reach the end |
| Text.NumberExponent | lista1/zad3/svg.js:115-117 | `Number("me k")` is m·10^k, so `ss 3e0` reads 3 |
| Text.DecimalExponent | lista1/zad3/svg.js:115-117 | a run of digits followed by `e` and a run of digits reads as the first times 10 to the second |
| Text.NumberNonDecimal | lista1/zad1/turtle.js:104-106 | `0x`, `0o` and `0b` followed by digits of base 16, 8 or 2 coerce to their value in that base, so `ss 0x3` reads 3 |
| Script.ParseStmt | lista1/zad5/turtle_3d.js:442-453 | a statement ends a block iff its trimmed raw text is exactly `end`, case-sensitively; it has at least one token, no token holds a space, and the tokens joined by spaces give back the lower-cased, trimmed text |
| Script.Statements | lista1/zad5/turtle_3d.js:440-444 | one statement per piece of `input.split(";")`, in order: one more than there are `;`, and the whole input as the one statement when it has none |
| Script.FindEnd | lista1/zad5/turtle_3d.js:451-459 | the inner `while` stops at a statement at or after the block start that ends the block |
| Script.FindEndFirst | lista1/zad5/turtle_3d.js:451-459 | ... and it is the first such statement |
| Script.DispatchedRepeat | lista1/zad5/turtle_3d.js:445-461 | a `repeat N` dispatches its body N times and then the scan from where it resumes |
| Script.RepeatBlock | lista1/zad1/turtle.js:266-279 | `repeat N; s1; ...; sm; end` dispatches s1..sm N times in order and then resumes after (2D) or at (3D) the `end` |
| Script.DispatchedPlain | lista1/zad1/turtle.js:280-282 | without a `repeat`, every statement is dispatched once, in order |
| Script.DispatchedFromInput | lista1/zad3/svg.js:272-294 | every dispatched command is the token list of some statement of the input |
| Script.RepeatElements | lista1/zad3/svg.js:279-289 | a replayed body dispatches exactly the body's commands |
| Script.EndTokens | lista1/zad5/turtle_3d.js:461 | an `end` statement reached by the 3D scan reaches `runCmd` as the single token `end` |
| Script.ResumeAgree | lista1/zad5/turtle_3d.js:461 | every input the 2D scan (`i = k`) accepts, the 3D scan (`i = k - 1`) accepts too, and the two dispatch the same commands once the `end` commands are dropped |
| Turtle3D.MoveTo | lista1/zad5/turtle_3d.js:226-244 | a target outside the box changes nothing; inside, the turtle moves there, keeps its headings and pen, and gains one `Line` from the old to the new position iff the pen is down |
| Turtle3D.FdBkInverse | lista1/zad5/turtle_3d.js:219-270 | `fd(v)` then `bk(v)`, both in the box, return the turtle to its start with its heading, drawing two lines when the pen is down |
| Turtle3D.RunHeading | lista1/zad5/turtle_3d.js:273-280 | over any run of calls theta stays in (-360, 360), is congruent to the start plus the net turn, and phi is untouched |
| Turtle3D.RunObjects | lista1/zad5/turtle_3d.js:236-240 | calls keep the old objects as a prefix, add at most one object per forward move, and keep every edge inside its object |
| Turtle3D.RunPenUpDrawsNothing | lista1/zad5/turtle_3d.js:320-323 | with the pen up, moves and turns add no object |
| Turtle3D.TurnTheta | lista1/zad5/turtle_3d.js:273-280 | `rt`/`lt` set theta to a value in (-360, 360) congruent to the old one ± v, and change nothing else |
| Turtle3D.TurnPhi | lista1/zad5/turtle_3d.js:283-290 | `ut`/`dt` set phi to a value in (-180, 180) congruent to the old one ± v, and change nothing else |
| Turtle3D.FdOutsideBox | lista1/zad5/turtle_3d.js:215-233 | a `fd` whose target leaves [-1000, 1000]^3 leaves the whole page unchanged |
| Turtle3D.FdInsideBox | lista1/zad5/turtle_3d.js:236-244 | an in-box `fd` moves to the target, keeps the headings, and adds one line old→new iff the pen is down |
| Turtle3D.MoveNaN | lista1/zad5/turtle_3d.js:370-377 | a `fd` or `bk` whose argument is not a number changes nothing |
| Turtle3D.KochCommand | lista1/zad5/turtle_3d.js:400-411 | `koch` above level 6 changes nothing, whatever its length; at level 6 or below theta ends congruent to its start and at most 3·4^level lines are added after the old ones (3 below level 0, drawn as level 0); with a length that is not a number neither the position nor the objects change |
| Turtle3D.SierpCommand | lista1/zad5/turtle_3d.js:412-419 | `sierp` leaves theta congruent to its start; below level 1 it draws nothing, otherwise at most (3^(n+1) - 3)/2 lines for n = floor(level); with a length that is not a number neither the position nor the objects change |
| Turtle3D.SierpLevels | lista1/zad5/turtle_3d.js:353-355 | for a finite level r ≥ 1 the recursion runs through floor(r) levels, and through none below 1 or at `-Infinity` |
| Turtle3D.RunStill | lista1/zad5/turtle_3d.js:219-233 | calls whose forward moves are all by a non-number leave the position and the objects as they were |
| Turtle3D.ScCommand | lista1/zad5/turtle_3d_pres.js:283-303 | `sc` throws on the editor page always and on the presentation page exactly for its five colour names; otherwise nothing changes |
| Turtle3D.CsResets | lista1/zad5/turtle_3d.js:426-428 | `cs` gives the `initTurtle` state: no objects, position (0,0,0), theta = phi = 0, drag angles 0 and -90, camera at (0,-2000,0) with distance 350, whatever came before |
| Turtle3D.UnknownCommand | lista1/zad5/turtle_3d.js:429-430 | a name that is not a command changes nothing |
| Turtle3D.RunCmdsThrown | lista1/zad5/turtle_3d.js:436-466 | a command that throws ends the whole scan |
| Turtle3D.CmdStepReduced | lista1/zad5/turtle_3d.js:366-433 | whatever a command does, theta stays in (-360, 360), phi in (-180, 180), and every edge inside its object |
| Turtle3D.RotateAll | lista1/zad5/turtle_3d_pres.js:499-511 | `update_graphics` rotates every object of a copy, one for one |
| Turtle3D.DragTelescopes | lista1/zad5/turtle_3d_pres.js:513-523 | over one press, the moves add up to the last pointer position minus the press position |
| Turtle3D.Turtle3DPage.constructor | lista1/zad5/turtle_3d_pres.js:575-581 | loading a page gives the `initTurtle` state with the pen down and width 1, and the canvas shows that scene |
| Turtle3D.Turtle3DPage.InitTurtle | lista1/zad5/turtle_3d.js:198-212 | the page becomes `AfterInit` of what it was: pen and line width kept, everything else reset |
| Turtle3D.Turtle3DPage.Fd | lista1/zad5/turtle_3d.js:219-245 | the turtle becomes `FdMove` of the old one |
| Turtle3D.Turtle3DPage.Bk | lista1/zad5/turtle_3d.js:248-270 | the turtle becomes `BkMove` of the old one |
| Turtle3D.Turtle3DPage.Lt | lista1/zad5/turtle_3d.js:273-275 | theta becomes (theta - v) truncating-rem 360 |
| Turtle3D.Turtle3DPage.Rt | lista1/zad5/turtle_3d.js:278-280 | theta becomes (theta + v) truncating-rem 360 |
| Turtle3D.Turtle3DPage.Ut | lista1/zad5/turtle_3d.js:283-285 | phi becomes (phi + v) truncating-rem 180 |
| Turtle3D.Turtle3DPage.Dt | lista1/zad5/turtle_3d.js:288-290 | phi becomes (phi - v) truncating-rem 180 |
| Turtle3D.Turtle3DPage.Pu | lista1/zad5/turtle_3d.js:320 | the pen goes up and nothing else changes |
| Turtle3D.Turtle3DPage.Pd | lista1/zad5/turtle_3d.js:323 | the pen goes down and nothing else changes |
| Turtle3D.Turtle3DPage.KochLine | lista1/zad5/turtle_3d.js:326-338 | the recursion leaves the turtle as the calls `KochLineOps` leave it |
| Turtle3D.Turtle3DPage.Koch | lista1/zad5/turtle_3d.js:341-350 | the turtle ends as `Koch3DOps` leaves it |
| Turtle3D.Turtle3DPage.Sierp | lista1/zad5/turtle_3d.js:353-363 | the recursion and its `for` loop leave the turtle as `Sierp3DOps` leaves it |
| Turtle3D.Turtle3DPage.UpdateGraphics | lista1/zad5/turtle_3d.js:507-519 | the canvas shows the frame of the rotated copy of the objects, and the stored objects are not touched |
| Turtle3D.Turtle3DPage.RunCmd | lista1/zad5/turtle_3d.js:366-433 | the page after one command is the one `CmdStep` gives; a throw leaves page and canvas as they were; headings stay reduced and the canvas shows the scene |
| Turtle3D.Turtle3DPage.ReadInput | lista1/zad5/turtle_3d.js:436-466 | the page after the scan is `RunCmds` over the commands `Dispatched` lists (resuming at `end`), or the scan stopped at a throw |
| Turtle3D.Turtle3DPage.RunRepeat | lista1/zad5/turtle_3d.js:450-460 | the `for` loop runs the block body N times and leaves k on the block's `end` |
| Turtle3D.Turtle3DPage.RunBody | lista1/zad5/turtle_3d.js:451-459 | one pass of the `while` dispatches the statements up to the first `end` and stops k there |
| Turtle3D.Turtle3DPage.InitMove | lista1/zad5/turtle_3d_pres.js:493-497 | a press starts a drag at the pointer |
| Turtle3D.Turtle3DPage.Move | lista1/zad5/turtle_3d_pres.js:513-523 | while pressed, the drag angles grow by the pointer's travel and the scene is redrawn; without a press nothing changes |
| Turtle3D.Turtle3DPage.StopMove | lista1/zad5/turtle_3d_pres.js:525-527 | a release ends the drag |
| Turtle2D.Go | lista1/zad1/turtle.js:52-62 | a target outside the surface changes nothing; inside, the turtle moves there, keeps heading and pen, and gains at most one record |
| Turtle2D.MoveRecords | lista1/zad3/svg.js:63-72 | an in-box move strokes one segment old→new with the current style when the pen is down; with the pen up a canvas only moves its path and the SVG picture gets nothing |
| Turtle2D.FdBkInverse | lista1/zad1/turtle.js:45-85 | `fd(v)` then `bk(v)`, both in the surface, return the turtle to its start and heading |
| Turtle2D.RunHeading | lista1/zad1/turtle.js:88-91 | over any run of calls the angle stays in (-360, 360) and is congruent to the start plus the net turn |
| Turtle2D.RunTrace | lista1/zad1/turtle.js:54-60 | calls only add records, at most one per forward move |
| Turtle2D.RunPen | lista1/zad1/turtle.js:109-112 | the pen ends as the pen calls, restoring blocks included, leave it |
| Turtle2D.SierpDepth | lista1/zad1/turtle.js:129-131 | an absent or empty level is depth 0, the `!level` base case; any other level is truthy and draws as `DepthOf` its `Number` value says |
| Turtle2D.DepthOf | lista1/zad1/turtle.js:129-147 | a level that is not a number draws one level (`level - 1` is `NaN`, falsy); a whole number n ≥ 1 draws n levels; a depth of 2 or more comes only from that whole number |
| Turtle2D.DepthStops | lista1/zad1/turtle.js:129-131 | for a depth d, the levels passed 1 to d - 1 calls down are truthy and the one d calls down is falsy, so exactly d levels draw |
| Turtle2D.DepthRuns | lista1/zad1/turtle.js:129-131 | when `DepthOf` gives none, no level passed at any depth is falsy: the recursion never reaches its base case, and only the exhausted call stack ends it |
| Turtle2D.RunStill | lista1/zad1/turtle.js:45-52 | calls whose forward moves are all by a non-number leave the position and the trace as they were |
| Turtle2D.TurnCommand | lista1/zad1/turtle.js:199-206 | `rt`/`lt` set the angle to a value in (-360, 360) congruent to the old one ± v and change nothing else |
| Turtle2D.MoveOutsideBox | lista1/zad1/turtle.js:42-52 | a `fd`/`bk` whose target leaves the open box (0, width) × (0, height) changes nothing |
| Turtle2D.MoveInsideBox | lista1/zad1/turtle.js:54-62 | an in-box `fd`/`bk` moves to the target, keeps style, angle and pen, and leaves the record `MoveRecords` describes |
| Turtle2D.MoveNaN | lista1/zad1/turtle.js:191-198 | a `fd`/`bk` whose argument is not a number changes nothing |
| Turtle2D.SsCommand | lista1/zad3/svg.js:115-117 | `ss` sets the width iff the `Number` value of its argument is finite and in 1..7, bounds included (so `0x3` and `3e0` set it); otherwise the width stays |
| Turtle2D.ScCommand | lista1/zad3/svg.js:105-112 | `sc` stores the string form of its argument (`undefined` when absent) and nothing else |
| Turtle2D.KochCommand | lista1/zad1/turtle_pres.js:152-171 | `koch` above level 5 changes nothing; at level 5 or below the pen ends down, the angle congruent to its start, and at most 1 + 3·4^level records are added after the old ones (4 below level 0, drawn as level 0); with a length that is not a number at most the one record of the 100-unit step |
| Turtle2D.SierpCommand | lista1/zad1/turtle.js:233-243 | `sierp` ends with the pen down and keeps the old records; at depth 0 the angle is kept and at most 1 record is added; at depth n ≥ 1 at most 1 + 7·(3^n - 1)/2 records are added; with a length that is not a number at most the one record of the 300-unit step |
| Turtle2D.SierpCommandTurn | lista1/zad1/turtle.js:233-243 | at depth n ≥ 1 the angle ends congruent to the start minus 930 |
| Turtle2D.UnknownCommand | lista1/zad1/turtle.js:249-250 | a name that is not a command changes nothing (including `sierp` on the canvas presentation page) |
| Turtle2D.RunCmdsReduced | lista1/zad1/turtle.js:188-252 | over any run of commands the angle stays in (-360, 360) |
| Turtle2D.Turtle2DPage.constructor | lista1/zad1/turtle.js:287 | loading a page gives the pen down, the page's default style and the `initTurtle` state; the svg board is 500 by 500 whatever the canvas size |
| Turtle2D.Turtle2DPage.InitTurtle | lista1/zad1/turtle.js:33-39 | the turtle is at the middle of the board with angle 0; a canvas also moves its path there |
| Turtle2D.Turtle2DPage.Fd | lista1/zad1/turtle.js:45-63 | the turtle becomes `Go` to `FdTarget` of the old one; a value that is not a number leaves it where it was |
| Turtle2D.Turtle2DPage.Bk | lista1/zad1/turtle.js:65-85 | the turtle becomes `Go` to `BkTarget` of the old one |
| Turtle2D.Turtle2DPage.Lt | lista1/zad1/turtle.js:88 | the angle becomes (angle - v) truncating-rem 360 |
| Turtle2D.Turtle2DPage.Rt | lista1/zad1/turtle.js:91 | the angle becomes (angle + v) truncating-rem 360 |
| Turtle2D.Turtle2DPage.Pu | lista1/zad1/turtle.js:109 | the pen goes up |
| Turtle2D.Turtle2DPage.Pd | lista1/zad1/turtle.js:112 | the pen goes down |
| Turtle2D.Turtle2DPage.Sc | lista1/zad3/svg.js:105-112 | the colour becomes the argument's string form |
| Turtle2D.Turtle2DPage.Ss | lista1/zad1/turtle.js:104-106 | the width becomes the argument iff its `Number` value is finite and in 1..7 |
| Turtle2D.Turtle2DPage.Koch | lista1/zad1/turtle_pres.js:111-123 | the recursion leaves the turtle as `KochLineOps` leaves it |
| Turtle2D.Turtle2DPage.KochCase | lista1/zad1/turtle.js:222-231 | the repositioning and the three curves leave the turtle as `Koch2DCommandOps` leaves it |
| Turtle2D.Turtle2DPage.Sierp | lista1/zad1/turtle.js:129-185 | the recursion leaves the turtle as `Sierp2DOps` leaves it |
| Turtle2D.Turtle2DPage.SubTriangle | lista1/zad1/turtle.js:143-151 | after a recursive call, position and angle are those saved before its turn; pen and records are kept |
| Turtle2D.Turtle2DPage.SierpCase | lista1/zad1/turtle.js:233-243 | pen up, 300 forward, pen down, then the triangle with height length·sqrt(3)/2 |
| Turtle2D.Turtle2DPage.RunCmd | lista1/zad1/turtle.js:188-252 | the page after one command is the one `CmdStep` gives, and the angle stays reduced |
| Turtle2D.Turtle2DPage.ReadInput | lista1/zad1/turtle.js:255-284 | the page after the scan is `RunCmds` over the commands `Dispatched` lists, resuming after each `end` |
| Turtle2D.Turtle2DPage.RunRepeat | lista1/zad1/turtle_pres.js:199-210 | the `for` loop runs the block body N times and leaves k on the block's `end` |
| Turtle2D.Turtle2DPage.RunBody | lista1/zad3/svg.js:280-288 | one pass of the `while` dispatches the statements up to the first `end` and stops k there |
| CubeGame.RandomIntRange | lista1/zad4/3d_game.js:158-162 | for integers min < max and a draw in [0, 1), `getRandomInt` gives an integer in [min, max - 1] |
| CubeGame.RandomIntReaches | lista1/zad4/3d_game.js:158-162 | every integer in [min, max - 1] is reached by some draw |
| CubeGame.GreyCubesIndex | lista1/zad4/3d_game.js:195-200 | the grey cubes are, index by index, the cubes their three draws give |
| CubeGame.FieldEdges | lista1/zad4/3d_game.js:188-200 | every edge of the green and grey cubes names a vertex, so `render` never indexes outside `vertices` |
| CubeGame.DestinationRange | lista1/zad4/3d_game.js:188 | the green centre has y = 5500, z = 0 and a whole x in [-100, 99] |
| CubeGame.ColliderRange | lista1/zad4/3d_game.js:196 | a grey centre lies in [-1500, 1499] × [500, 4999] × [-500, 499] |
| CubeGame.FreshFieldIsSafe | lista1/zad4/3d_game.js:183-201 | with cubes narrower than 1000, the start point is in no cube of a new field |
| CubeGame.HitsNone | lista1/zad4/3d_game.js:207-213 | no grey cube is hit iff the player is in none of them |
| CubeGame.KeyStepInverse | lista1/zad4/3d_game.js:227-247 | opposite keys undo each other |
| CubeGame.KeyStepsCommute | lista1/zad4/3d_game.js:227-247 | the order of two key presses does not matter |
| CubeGame.KeyStepDistance | lista1/zad4/3d_game.js:227-247 | a key moves along one axis, by 40 on y and 20 on x or z; any other key does not move |
| CubeGame.Game.constructor | lista1/zad4/3d_game.js:165-181 | loading gives the engine's offsets, cubes of side half the canvas height, the player at the origin and the first field |
| CubeGame.Game.RandomInt | lista1/zad4/3d_game.js:158-162 | one draw is read and `getRandomInt` of it returned |
| CubeGame.Game.Reset | lista1/zad4/3d_game.js:183-201 | the player and camera are at the origin; a green cube and 52 grey ones are laid from the next 157 draws; `renderedObjects` is the green cube followed by the grey ones |
| CubeGame.Game.LayColliders | lista1/zad4/3d_game.js:195-200 | the loop pushes the 52 grey cubes the draws give onto both lists |
| CubeGame.Game.PushCollider | lista1/zad4/3d_game.js:196-199 | one grey cube from three draws, pushed onto both lists |
| CubeGame.Game.Collision | lista1/zad4/3d_game.js:204-220 | one loss and a reset per grey cube containing the player's point, then a win and a reset iff the green cube (the new one after a reset) contains it; no hit changes nothing |
| CubeGame.Game.ScanColliders | lista1/zad4/3d_game.js:207-213 | the `forEach` over the cubes as they were loses once per cube containing the point |
| CubeGame.Game.ResetIfInside | lista1/zad4/3d_game.js:209-212 | a reset happens iff the cube contains the point |
| CubeGame.Game.KeyDown | lista1/zad4/3d_game.js:223-253 | the alerts are those `Collision` gives at the stepped position: one loss per grey cube containing it, then a win iff the green cube it then faces contains it; without a hit the player moves as `KeyStep` says and the field stays; after a hit the player is at the origin; the frame is the one rendered from the final scene |
| CubeGame.Game.Step | lista1/zad4/3d_game.js:227-249 | the position moves as `KeyStep` says and the camera follows it |
| CubeGame.Game.FirstFrame | lista1/zad4/3d_game.js:256 | the first frame is `Frame` of the scene |

## Left out

- Floating point: positions, depths and screen points are exact reals. `NaN` and the infinities appear as the `Num` of a coerced string and as a `None` length, whose moves fail the box test; a heading is never `NaN` (see `ArgsOk` below).
- `Math.sin`, `Math.cos` and `Math.sqrt` are parameters (`Trig`, `Coeffs`). No property depends on their values, so polygon closure and the exact `sierp` height are not stated.
- The canvas and SVG calls (`beginPath`, `stroke`, `clearRect`, `innerHTML +=`) are kept only as the trace of `Draw` records or the frame of strokes. Event listeners, touch events, `console.log`, `alert` and `preventDefault` are left out. The game keeps its alerts as a list of `Lost`/`Won`.
- The canvas ignores a colour string it cannot parse. The model stores whatever `sc` gives it. CSS colour parsing belongs to the browser.
- Pauses and interleaving: the `setTimeout` delays in `koch` (turtle.js, svg.js) and in the presentation pages' `runCmd` are left out. So is the interleaving of commands that `readInput` starts without `await`. Each command runs to completion, in scan order.
- The presentation pages' `readInput` scans a fixed text (turtle_pres.js lines 185-187, turtle_3d_pres.js lines 422-428). The model gives that text to the same `ReadInput` as its argument. It does not derive that the fixed text is well formed, and it leaves out the pacing variable `time`.
- Turtle2D.Turtle2DPage.ReadInput, Turtle3D.Turtle3DPage.ReadInput: require every `repeat` to have a count of at least 1 and a later `end`. Without an `end` the page crashes on `undefined.trim()`. With a count of 0 or `NaN` the block never runs, so `k` is not set for this `repeat`. On the 3D pages `k` is declared with `var` inside `readInput` (turtle_3d.js line 447): it holds the value of an earlier `repeat` of the same input, or is `undefined`, in which case `i = k - 1` is `NaN` and the scan stops. On the 2D pages `k` is an undeclared global (turtle.js lines 269 and 279, turtle_pres.js lines 201 and 212, svg.js lines 280 and 290): it holds the value of any earlier `repeat`, of this input or an earlier one, and when no `repeat` has ever assigned it, `i = k` throws a `ReferenceError`.
- Turtle2D.ArgsOk, Turtle3D.ArgsOk: the commands below are excluded, and `CmdStep` returns `Outside` for them (the 3D `CmdStep` returns `Thrown` only for `sc`). A turn by `NaN` leaves the turtle in a state the model of whole-degree headings does not hold. Each other case recurses until the JavaScript call stack runs out and a `RangeError` is thrown, after partial effects that the model leaves out:
  - a turn or tilt by `NaN`, which makes the heading `NaN`, so that every later move has a `NaN` target and fails the box test;
  - a `koch` level that is not a number, which passes the level test (`NaN < 1` is false, so `koch_line` and `koch` only ever recurse). On the 3D pages the error follows the `rt(30)` of `koch`. On the 2D pages it follows the `pu; lt 90; fd 100; rt 90; pd` prefix;
  - a 3D `sierp` level that is missing, not a number or `+Infinity` (`level < 1` stays false). `sierp` recurses before it moves, so the error follows the `rt(30)` of the command;
  - a 2D `sierp` level of "0", a negative, a fractional or an infinite number, which is truthy and never reaches the `!level` base case (`DepthRuns`). After `pu; fd 300; pd` each level draws its outline and recurses, until the stack runs out.

  Where `runCmd` is awaited (both 3D pages and turtle_pres.js), the error ends the scan. On the 3D editor page it also skips the closing `update_graphics()`. turtle.js and svg.js do not await `runCmd`, so their scan goes on with the next statement.
- Turtle2D.Turtle2DPage.RunCmd, Turtle3D.Turtle3DPage.RunCmd, Turtle2D.Turtle2DPage.ReadInput, Turtle3D.Turtle3DPage.ReadInput: require `ArgsOk` of every command, for the reasons above. Lengths are not restricted: a missing or non-numeric length makes each forward move of a figure a move nowhere, while the turns and pen calls still happen.
- Text.Lower, Text.TrimStart, Text.TrimEnd: `toLowerCase` is modelled on ASCII letters only. Non-ASCII case mapping is left out: the Kelvin sign U+212A lower-cases to `k` in JavaScript and stays as it is here, and "İ" becomes two code units there and one here. White space is the full ECMAScript set (the Unicode space separators included), on UTF-16 code units.
- Text.ToNumber: the value is an exact real. Rounding to the nearest double, overflow of a large exponent to `Infinity` and underflow to 0, and the sign of `-0`, are not modelled: a numeral of any length reads as its exact value.
- The `sc` of the 3D pages assigns to `context`, which no file defines. The model keeps only whether it throws, and so which commands still run.
- The `keyDownCallback` of turtle_3d_pres.js (lines 547-572) is never installed (`onkeydown` is commented out) and changes variables nothing reads.
- `getRandomInt` rounds its bounds with `Math.ceil` and `Math.floor`. The game passes whole numbers only, so the model takes integer bounds.
- `JSON.parse(JSON.stringify(objects))` in `update_graphics` is modelled by value semantics. The rotated copy is a new sequence.
