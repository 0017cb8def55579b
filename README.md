# Computer-graphics course programs: a verified model of their computable core

This project models the logic of the repository's computer-graphics teaching programs that
does not depend on floating point or on the graphics driver. The programs come in C++ and
Python pairs. The model covers five parts:

- **Netpbm writers.** `escrever_pgm` (`pgm_simples.cpp`, `pgm_simples.py`) checks a greyscale
  matrix and writes a binary PGM (Netpbm "P5": magic, width, height, maxval 255, then one
  octet per pixel, row-major). The sunflower programs (`pgm.cpp`, `pgm.py`) write their
  256 x 256 picture as a plain PPM (Netpbm "P3"). File contents are modelled as strings whose
  characters are octets. Each writer is paired with a reader, and a round trip is proved.
- **Integer raster drawing.** `desenharLinha` / `desenhar_linha` (Bresenham) and the
  centre-disc fill work in place on a `array2` canvas. The loop invariants carry the error
  term. The methods are proved to paint exactly the line's cells (or the disc's) and to leave
  every other pixel alone. The Python line starts its error at `dx / 2`, a true quotient. It
  is modelled as a doubled integer error and shown to visit the same cells as the C++ loop.
- **Wavefront OBJ loading.** `carregar_obj` splits each line on whitespace and dispatches on
  `v`, `vn` and `f`. Face indices are read up to the first `/` and become 0-based. `int()`
  failures, and the failure of the final array conversion on rows of unequal length, are
  modelled as error results.
- **2 x 2 viewport layout and GL command traces.** The model covers:
  - the rectangle list of the cube program;
  - the nested `i, j` loops of both house programs;
  - the per-view rectangle, eye and up vector of the teapot program.

  The render loops, setup functions and teardown functions issue an abstract command trace
  (`GlTrace.Cmd`) through a `GlTrace.Gl` object, which also keeps the set of live object
  names. Lemmas over the replayed trace state what each session draws, in which viewport,
  with which slots enabled, and which objects it leaves alive.
- **The Phong lighting demo.** A `FixedPipeline` class holds the enabled capabilities, the
  light intensities, the scene ambient light, the modelview stack and the immediate-mode calls. The mode string picks
  which of the three lights are on. The sphere emitter's loops fix how many vertices it
  issues, each vertex right after its normal.

Parameters stand in for the driver's answers (shader compile and link success), the
framebuffer and window sizes, the number of frames shown before the window closes, the
petal endpoints, and whether output files open.

## Model

| member | source | states |
|---|---|---|
| Text.NatText | cores_imagens/pgm_simples.cpp:28 | the decimal numeral of n: digits only, never empty, no leading zero unless n is 0 |
| Text.ReadNatText | cores_imagens/pgm_simples.cpp:28 | reading a numeral back from the front of `NatText(n) + rest` yields n and exactly rest, when rest does not start with a digit |
| Text.ParseIntText | projecoes/multiprojecoes/multiprojecoes.py:20 | Python `int()` of the numeral of any integer, signed or not, gives back that integer |
| Text.SplitWord | projecoes/multiprojecoes/multiprojecoes.py:14 | `str.split()` of a word with no whitespace, then whitespace, then more text, yields that word and then the split of the rest |
| Text.SplitLastWord | projecoes/multiprojecoes/multiprojecoes.py:14 | `str.split()` of a single word with no whitespace is the one-word list |
| PgmSimple.RowIsGrey | cores_imagens/pgm_simples.cpp:15-21 | the inner validation loop returns true exactly when every pixel of the row is in 0..255 |
| PgmSimple.PackRow | cores_imagens/pgm_simples.cpp:32-37 | the `push_back` loop appends the row's octets, in order, to the bytes already packed |
| PgmSimple.WritePgm | cores_imagens/pgm_simples.cpp:8-46 | the result is the empty-image error, the out-of-range error, the open error, or the file text header + row-major octets, matching PgmFile |
| PgmSimple.PgmRejects | cores_imagens/pgm_simples.cpp:10-21 | the writer fails iff the image has no rows, has an empty first row, has a pixel outside 0..255, or the file does not open; an invalid image fails with its own error whether or not the file would open, since the checks come before the open |
| PgmSimple.PgmDataLayout | cores_imagens/pgm_simples.cpp:32-45 | the output is the header `P5 W H 255\n` immediately followed by one octet per pixel; octet k is element k of the concatenated rows |
| PgmSimple.PgmRoundTrip | cores_imagens/pgm_simples.cpp:24-37 | for a rectangular grey image, reading width and height from the header and cutting the data into rows of width octets recovers the image |
| PgmSimple.RaggedImageAccepted | cores_imagens/pgm_simples.cpp:24-37 | a two-row ragged image is accepted; its data length (3) differs from width x height (2), and it does not read back |
| PgmSimple.PgmFileCheckedRoundTrip | cores_imagens/pgm_simples.cpp:10-37 | the writer that also rejects ragged images reads back to its input whenever it succeeds |
| PgmSimple.ArrayOf | cores_imagens/pgm_simples.py:15-16 | a rectangular matrix becomes a well-formed 2-D array of the same rows |
| PgmSimple.PgmFilePy | cores_imagens/pgm_simples.py:2-34 | `escrever_pgm` succeeds only on a 2-D array with both dimensions positive and a file that opens; its file is then the header `P5 largura altura 255\n` followed by exactly altura x largura octets |
| PgmSimple.PyAgreesWithCpp | cores_imagens/pgm_simples.py:15-34 | on a non-empty rectangular matrix the Python writer gives the C++ writer's result, text or error; an empty first row is a zero-size-array error in Python and a not-a-matrix error in C++ |
| PgmSimple.PyRejects | cores_imagens/pgm_simples.py:15-20 | the Python writer fails iff the array is not 2-D, has zero size, holds a value outside 0..255, or the file does not open; the first three fail whether or not the file would open |
| PgmSimple.PyDataLayout | cores_imagens/pgm_simples.py:23-34 | the Python file is the header `P5 largura altura 255\n` followed by exactly altura x largura octets, element k in C order being octet k |
| PgmSimple.PyRoundTrip | cores_imagens/pgm_simples.py:23-34 | whatever the Python writer writes for a matrix reads back to that matrix |
| PgmSimple.ExampleImage | cores_imagens/pgm_simples.py:37-43 | the example 3 x 3 image gives the header `P5 3 3 255\n` followed by 0,50,100,150,200,255,220,180,130 |
| Raster.CreateImage | cores_imagens/pgm.cpp:8-15 | a fresh 256 x 256 image, every pixel white (255,255,255) |
| Raster.MakePlan | cores_imagens/pgm.cpp:19-27 | after the two swaps the major coordinate increases and changes at least as much as the minor one |
| Raster.Swaps | cores_imagens/pgm.cpp:19-27 | the steep swap and the order swap compute MakePlan |
| Raster.SwapsMakePlan | cores_imagens/pgm.py:11-17 | the Python swaps, written as tuple exchanges, give the same plan |
| Raster.LineCells | cores_imagens/pgm.cpp:28-33 | the loop visits exactly dx + 1 major-axis positions |
| Raster.PaintedCells | cores_imagens/pgm.cpp:33-48 | the cells painted by the first n iterations are exactly the first n cells of the line |
| Raster.Plot | cores_imagens/pgm.cpp:34-42 | the write changes only the given cell and only when it lies inside the image; otherwise nothing changes |
| Raster.Step | cores_imagens/pgm.cpp:43-47 | one `erro -= dy` / `y += ystep` step moves the error term and the minor coordinate to their values at the next iteration |
| Raster.Iteration | cores_imagens/pgm.cpp:34-47 | one pass of the C++ loop body paints the k-th cell of the line (when inside the image) and leaves the error term and minor coordinate at their values for pass k + 1; the painted cells grow from the first k to the first k + 1 and every other pixel keeps its value |
| Raster.TraceLine | cores_imagens/pgm.cpp:28-48 | after the loop, the in-image cells of the line hold cor and every other pixel is unchanged |
| Raster.DrawLine | cores_imagens/pgm.cpp:18-49 | `desenharLinha` paints cor on exactly the in-image cells of Line(x0, y0, x1, y1); every other pixel is unchanged |
| Raster.StartPy | cores_imagens/pgm.py:20 | twice the C++ starting error plus dx's parity is dx, so the doubled Python error starts at 2 * (dx / 2) |
| Raster.DoubledSign | cores_imagens/pgm.py:30-32 | the doubled error with its odd half added is negative iff the integer error is |
| Raster.StepPy | cores_imagens/pgm.py:30-33 | one Python step keeps the doubled error equal to twice the C++ error plus the odd half |
| Raster.IterationPy | cores_imagens/pgm.py:24-33 | one pass of the Python loop body paints the same k-th cell as the C++ loop and keeps the doubled error equal to twice the C++ error plus the odd half at pass k + 1 |
| Raster.TraceLinePy | cores_imagens/pgm.py:18-33 | the Python loop over `range(x0, x1 + 1)` paints the same cells as the C++ loop and nothing else |
| Raster.DrawLinePy | cores_imagens/pgm.py:10-33 | `desenhar_linha` paints cor on exactly the in-image cells of the C++ line; others are unchanged |
| Raster.TrackInvariant | cores_imagens/pgm.cpp:30-47 | with dx > 0 the error term stays in [0, dx) at each loop head and equals dx/2 - k*dy + (moves so far)*dx |
| Raster.LineConnected | cores_imagens/pgm.cpp:43-47 | each step moves the minor coordinate by 0 or ystep, so consecutive cells touch |
| Raster.LineCloseToExact | cores_imagens/pgm.cpp:30-47 | at every iteration the minor offset is within half a pixel of the exact line |
| Raster.MovesAtEnd | cores_imagens/pgm.cpp:43-47 | after dx steps the minor coordinate has moved exactly dy times and equals y1 |
| Raster.LineEndpoints | cores_imagens/pgm.cpp:19-36 | the first and last cells of the line are the two endpoints (in either order, after the order swap), as (row y, column x), steep lines being written back un-swapped |
| Raster.LineSymmetric | cores_imagens/pgm.cpp:19-27 | swapping the endpoints gives the same plan and the same cells |
| Raster.LineInBox | cores_imagens/pgm.cpp:28-48 | every cell of the line lies in the endpoints' bounding box |
| Raster.MovesBounded | cores_imagens/pgm.cpp:43-47 | the number of minor moves never passes its final value dy |
| Raster.FillDisc | cores_imagens/pgm.cpp:72-81 | the C++ nested loops paint exactly the in-image cells of the closed disc; every other pixel is unchanged |
| Raster.FillDiscPy | cores_imagens/pgm.py:50-55 | the Python loops paint exactly the in-image cells of the half-open `range` box within the disc; others are unchanged |
| Raster.DiscIsRound | cores_imagens/pgm.cpp:72-81 | for r >= 0 the loops' square box cuts nothing off: a cell is painted iff (x-cx)^2 + (y-cy)^2 <= r^2 |
| Raster.DiscSymmetric | cores_imagens/pgm.cpp:72-81 | the C++ disc is symmetric about its centre along both axes |
| Raster.PyDiscAsWritten | cores_imagens/pgm.py:51-52 | the Python disc is the C++ disc without column cx + r and row cy + r |
| Raster.PyDiscMissesEdge | cores_imagens/pgm.py:51-52 | for r > 0 the Python disc holds its leftmost point but not its rightmost one; the C++ disc holds both |
| Ppm.Contents | cores_imagens/pgm.cpp:84-91 | the image as 256 rows of 256 colours, each pixel equal to the array's |
| Ppm.HeaderText | cores_imagens/pgm.cpp:84 | the header is exactly `P3\n256 256\n255\n` |
| Ppm.WriteRow | cores_imagens/pgm.cpp:87-90 | one row's text: `r g b ` per pixel, then a newline |
| Ppm.WritePpm | cores_imagens/pgm.cpp:84-91 | the nested writer loops produce the header followed by each row's text, in row order |
| Ppm.SplitPpm | cores_imagens/pgm.py:58-64 | splitting the file at whitespace gives the four header tokens followed by three numerals per pixel |
| Ppm.TokensCount | cores_imagens/pgm.py:61-64 | the body holds exactly 3 tokens per pixel |
| Ppm.PpmRoundTrip | cores_imagens/pgm.cpp:84-91 | reading the written text back (header check, then three numerals per pixel) recovers the 256 x 256 picture |
| Sunflower.DrawPetals | cores_imagens/pgm.cpp:64-69 | drawing the petal lines on a white image leaves exactly the cells on some petal yellow and the others white |
| Sunflower.Draw | cores_imagens/pgm.cpp:52-94 | the C++ main's picture: orange on the closed centre disc, yellow on the petals, white elsewhere; the file text is its PPM |
| Sunflower.DrawPy | cores_imagens/pgm.py:36-64 | the Python script's picture, with its half-open disc, and its PPM text |
| Sunflower.PicturesAgreeOffEdge | cores_imagens/pgm.py:51-55 | the two pictures agree everywhere except on the disc box's last column and last row |
| Sunflower.RightmostCentreCell | cores_imagens/pgm.py:51-52 | row 128, column 178 is orange in the C++ picture and not in the Python one |
| ObjLoader.BeforeSlash | projecoes/multiprojecoes/multiprojecoes.py:20 | the text before the first `/` is a prefix of the token and holds no `/` |
| ObjLoader.FaceIndicesLength | projecoes/multiprojecoes/multiprojecoes.py:20-21 | a face line with n index tokens gives exactly n indices, or an error |
| ObjLoader.FaceIndicesOfNumbers | projecoes/multiprojecoes/multiprojecoes.py:20 | tokens written as `n/...` with any suffix give the indices n - 1, in order |
| ObjLoader.LineEffect | projecoes/multiprojecoes/multiprojecoes.py:14-23 | a blank line or unknown tag changes nothing; `v` and `vn` add one entry from tokens 2 to 4; `f` extends the indices |
| ObjLoader.ReadFace | projecoes/multiprojecoes/multiprojecoes.py:20 | the list comprehension's loop computes FaceIndices |
| ObjLoader.LoadObj | projecoes/multiprojecoes/multiprojecoes.py:8-24 | the loop over lines and the final conversion compute LoadFile: the three lists, the first `int()` error, or the conversion error of ragged vertex or normal rows |
| ObjLoader.LoadCounts | projecoes/multiprojecoes/multiprojecoes.py:18-23 | on success there is one vertex per `v` line, one normal per `vn` line, and one index per face token (no triangulation) |
| ObjLoader.LoadConcat | projecoes/multiprojecoes/multiprojecoes.py:18-24 | loading two files' lines one after the other appends the results, so file order is kept |
| ObjLoader.LoadFailsIff | projecoes/multiprojecoes/multiprojecoes.py:14-24 | `carregar_obj` fails iff some face line holds a token whose index part is not an integer, or the `v` rows or the `vn` rows differ in length; a bad face line is reported first, with the error of the first bad line, then ragged vertices, then ragged normals |
| ObjLoader.LoopFailsIff | projecoes/multiprojecoes/multiprojecoes.py:13-23 | the line loop fails iff some face line holds a token whose index part is not an integer |
| ObjLoader.FirstBadLine | projecoes/multiprojecoes/multiprojecoes.py:13-23 | when the loop fails, its error is the face error of the first bad line, and no earlier line is bad |
| ObjLoader.LoadRows | projecoes/multiprojecoes/multiprojecoes.py:17-23 | a loop that succeeds collects exactly the coordinate rows of the `v` lines and of the `vn` lines, in file order |
| ObjLoader.FirstBad | projecoes/multiprojecoes/multiprojecoes.py:20 | within one face line, the error reported is that of the first token `int()` rejects, every earlier token being read |
| Layout.QuadrantsTile | projecoes/cubo/cubo-visualizacao-multipla-atividade.cpp:233-238 | a pixel lies in rectangle k iff it lies in [0, 2(W/2)) x [0, 2(H/2)) and k is its quarter in the order bottom-left, bottom-right, top-left, top-right, each quarter W/2 x H/2 |
| Layout.QuadrantsDisjoint | projecoes/cubo/cubo-visualizacao-multipla-atividade.cpp:233-238 | no point lies in two of the rectangles |
| Layout.QuadrantsUnion | projecoes/cubo/cubo-visualizacao-multipla-atividade.cpp:233-238 | a point lies in some rectangle iff it lies in [0, 2(W/2)) x [0, 2(H/2)) |
| Layout.QuadrantsCoverWindow | projecoes/cubo/cubo-visualizacao-multipla-atividade.cpp:233-238 | the rectangles cover the whole framebuffer iff W and H are both even (for W, H > 0) |
| Layout.QuadrantsRemainder | projecoes/cubo/cubo-visualizacao-multipla-atividade.cpp:233-238 | for odd W the last column is covered by no rectangle, for odd H the top row |
| Layout.QuadrantsFlat | projecoes/cubo/cubo-visualizacao-multipla-atividade.cpp:259 | the region height, the divisor of the aspect ratio, is 0 iff the framebuffer height is below 2 |
| Layout.GridOrderCell | casa/casa-viewport.cpp:140-148 | the nested loops visit (0,0), (0,1), (1,0), (1,1), with viewport (j*rw, i*rh, rw, rh) |
| Layout.GridIsQuadrants | casa/casa-viewport.py:285-291 | the four grid viewports are the quadrants, in the same order |
| Multiview.ViewRect | projecoes/multiprojecoes/multiprojecoes.py:27-29 | every view's viewport is W/2 x H/2 and lies within the width; for views 0..3 it also lies within the height |
| Multiview.ViewCamera | projecoes/multiprojecoes/multiprojecoes.py:32-55 | a camera is set only for views 0..3 that index `cores`; its eye stands 3r from the centre and only view 0 is perspective; the index error is raised exactly for a view number `cores` does not index |
| Multiview.ConfigureView | projecoes/multiprojecoes/multiprojecoes.py:26-55 | the viewport is W/2 x H/2 within the width whether or not the camera fails; when the camera is set the view is one of 0..3 and its viewport lies within the framebuffer |
| Multiview.ViewsAreQuadrants | projecoes/multiprojecoes/multiprojecoes.py:27-29 | views 0..3 draw into the bottom-left, bottom-right, top-left and top-right quarters |
| Multiview.ConfigureViewErrors | projecoes/multiprojecoes/multiprojecoes.py:32-48 | the set-up fails iff the view number does not index `cores` (index error, checked first), or view 0 meets a zero height (division by zero), or an indexing view number is outside 0..3 (eye unbound) |
| Multiview.MainViewErrors | projecoes/multiprojecoes/multiprojecoes.py:26-48 | with the four colours of `main`: views 0..3 fail only on a zero height, -4..-1 find no eye, and every other view number is an index error |
| Multiview.OnlyFirstViewPerspective | projecoes/multiprojecoes/multiprojecoes.py:38-42 | only view 0 is perspective, with the whole framebuffer's aspect; views 1..3 are orthographic over the radius |
| Multiview.EyeDistance | projecoes/multiprojecoes/multiprojecoes.py:40-48 | every eye stands 3r from the centre |
| Multiview.CameraTable | projecoes/multiprojecoes/multiprojecoes.py:40-55 | a view that succeeds is one of 0..3; its eye offset is 3r along +z, +y, -x, +z for views 0..3, and its up vector is -z for view 1 and +y otherwise |
| Multiview.CameraFrame | projecoes/multiprojecoes/multiprojecoes.py:40-55 | every camera's eye axis and up vector are unit vectors at right angles to each other |
| Multiview.OrthographicAxes | projecoes/multiprojecoes/multiprojecoes.py:40-48 | the three orthographic views look along three mutually perpendicular axes, and the front view looks from where the perspective view does |
| Vertices.PointFloats | projecoes/cubo/cubo-visualizacao-multipla-atividade.cpp:154-183 | a list of points flattens to three floats per point |
| Vertices.FaceFloatsLength | projecoes/cubo/cubo-visualizacao-multipla-atividade.cpp:154-167 | n triangles flatten to 9n floats |
| GlTrace.RunAppend | projecoes/cubo/cubo-visualizacao-multipla-atividade.cpp:225-294 | running two traces one after the other is running their concatenation |
| GlTrace.DrawsAppend | projecoes/cubo/cubo-visualizacao-multipla-atividade.cpp:225-294 | the draws of a concatenated trace are the first trace's followed by the second's, seen from the intermediate state |
| GlTrace.FeedEffect | casa/casa-viewport.py:225-233 | enabling a slot, binding a buffer and pointing the slot at it leaves the slot enabled and reading that buffer, and draws nothing |
| GlTrace.AttachEffect | casa/casa-viewport.cpp:258-268 | the C++ order (bind, point, enable) has the same effect as the Python order |
| GlTrace.FeedTwoAndDraw | casa/casa-viewport.py:225-241 | feeding slots 0 and 1 and drawing makes one draw that reads the two buffers, and leaves both slots disabled and everything else as it was |
| GlTrace.DrawAndDisableEffect | casa/casa-viewport.py:236-241 | a draw followed by disabling both slots makes exactly that draw, then leaves both slots disabled and nothing else changed |
| GlTrace.UploadTwoEffect | casa/casa-viewport.cpp:246-256 | uploading two float arrays to two buffers records each buffer's size, leaves the second bound and draws nothing |
| GlTrace.Gl.Create | casa/casa-viewport.cpp:243-253 | `glGen*` returns a name never handed out before and adds it to the live set |
| GlTrace.Gl.Delete | casa/casa-viewport.cpp:271-276 | `glDelete*` removes the name from the live set and changes nothing else |
| Shaders.ReadShaderSource | projecoes/cubo/cubo-visualizacao-multipla-atividade.cpp:62-79 | the `getline` loop builds the concatenation of "\n" + line over the file's lines |
| Shaders.MissingFileIsEmpty | projecoes/cubo/cubo-visualizacao-multipla-atividade.cpp:63-69 | a file that does not open gives the empty source |
| Shaders.JoinedLength | projecoes/cubo/cubo-visualizacao-multipla-atividade.cpp:62-79 | the source's length is the lines' total length plus one per line |
| Shaders.JoinedRoundTrip | projecoes/cubo/cubo-visualizacao-multipla-atividade.cpp:62-79 | splitting the source after each newline gives back the lines, so nothing is lost or merged |
| Shaders.LoadProgram | casa/casa-viewport.cpp:168-217 | compile and link failures are only reported; both shader objects are deleted and the program is returned whatever the driver says |
| Shaders.ComplaintsReported | casa/casa-viewport.cpp:180-211 | something is reported iff a compile or the link failed |
| Shaders.LoadProgramPy | casa/casa-viewport.py:87-149 | the first failure among vertex compile, fragment compile and link raises; the shaders are deleted only when all three succeed |
| Shaders.PyLeavesShadersOnFailure | casa/casa-viewport.py:103-146 | on failure, the shaders created so far stay alive |
| CubeView.CubeBufferSizes | projecoes/cubo/cubo-visualizacao-multipla-atividade.cpp:154-193 | the cube's vertex and colour arrays hold 108 floats each, 36 vertices, the `12 * 3` of the draw |
| CubeView.AxisBufferSizes | projecoes/cubo/cubo-visualizacao-multipla-atividade.cpp:300-331 | the axis arrays hold 18 floats each, the 6 vertices of the line draw |
| CubeView.AxisLines | projecoes/cubo/cubo-visualizacao-multipla-atividade.cpp:300-310 | the axis data is three segments from the origin along x, y and z, coloured red, green and blue |
| CubeView.AllocatedDistinct | projecoes/cubo/cubo-visualizacao-multipla-atividade.cpp:141-194 | the VAO, the program and the four buffers get distinct names |
| CubeView.AxisBuffersLeak | projecoes/cubo/cubo-visualizacao-multipla-atividade.cpp:198-203 | teardown releases the cube buffers, the VAO and the program but not the two axis buffers |
| CubeView.CamerasAtTargets | projecoes/cubo/cubo-visualizacao-multipla-atividade.cpp:240-252 | each camera eye equals its target, the origin |
| CubeView.FrameEffect | projecoes/cubo/cubo-visualizacao-multipla-atividade.cpp:255-293 | a frame makes 8 draws: in each quadrant 36 triangle vertices from the cube buffers in slots 0 and 1, then 6 line vertices from the axis buffers; the viewport ends at (0,0,W,H) and both slots disabled |
| CubeView.FramesEffect | projecoes/cubo/cubo-visualizacao-multipla-atividade.cpp:380-390 | n frames make 8n draws, frame by frame |
| CubeView.SessionDrawsInBounds | projecoes/cubo/cubo-visualizacao-multipla-atividade.cpp:366-393 | no draw of a session reads past the end of a buffer |
| CubeView.LoadShaders | projecoes/cubo/cubo-visualizacao-multipla-atividade.cpp:56-128 | the program is returned and both shaders deleted, whatever the driver says |
| CubeView.CubeApp.TransferData | projecoes/cubo/cubo-visualizacao-multipla-atividade.cpp:141-194 | creates the two axis buffers, the VAO, the program and the two cube buffers, all alive afterwards, and issues the set-up trace (18 floats per axis buffer, 108 per cube buffer) |
| CubeView.CubeApp.InitAxes | projecoes/cubo/cubo-visualizacao-multipla-atividade.cpp:298-319 | creates the two axis buffers and uploads 18 floats into each |
| CubeView.CubeApp.UploadCube | projecoes/cubo/cubo-visualizacao-multipla-atividade.cpp:185-193 | creates two fresh buffer names, the vertex buffer first, adds them to the live set and uploads 108 floats into each |
| CubeView.CubeApp.DrawCube | projecoes/cubo/cubo-visualizacao-multipla-atividade.cpp:272-286 | appends the cube's commands: slots 0 and 1 fed from the cube buffers, 36 triangle vertices drawn, both slots disabled; nothing is created or deleted |
| CubeView.CubeApp.DrawAxes | projecoes/cubo/cubo-visualizacao-multipla-atividade.cpp:322-335 | appends the axes' commands: slots 0 and 1 fed from the axis buffers, 6 line vertices drawn, both slots disabled; nothing is created or deleted |
| CubeView.CubeApp.DrawRegion | projecoes/cubo/cubo-visualizacao-multipla-atividade.cpp:255-290 | appends one region's commands: viewport, matrix, cube draw, axes draw |
| CubeView.CubeApp.DrawRegions | projecoes/cubo/cubo-visualizacao-multipla-atividade.cpp:254-290 | the loop appends one region's commands per viewport of the list, in order; nothing is created or deleted |
| CubeView.CubeApp.DrawFrame | projecoes/cubo/cubo-visualizacao-multipla-atividade.cpp:225-294 | appends the clear, the four regions and the viewport restore |
| CubeView.CubeApp.DrawFrames | projecoes/cubo/cubo-visualizacao-multipla-atividade.cpp:380-390 | the do-while loop appends at least one frame, one per entry of the frame list |
| CubeView.CubeApp.CleanUp | projecoes/cubo/cubo-visualizacao-multipla-atividade.cpp:198-203 | deletes the two cube buffers, the VAO and the program |
| CubeView.CubeApp.Session | projecoes/cubo/cubo-visualizacao-multipla-atividade.cpp:366-393 | the issued trace is the session trace, and the objects left alive are the earlier ones plus the two axis buffers |
| CubeView.CubeApp.CleanUpAll | projecoes/cubo/cubo-visualizacao-multipla-atividade.cpp:198-203 | the corrected teardown also deletes the two axis buffers |
| CubeView.CubeApp.SessionCleaningAll | projecoes/cubo/cubo-visualizacao-multipla-atividade.cpp:366-393 | with the corrected teardown a session leaves alive exactly what was alive before |
| CasaViewport.HouseBufferSizes | casa/casa-viewport.cpp:221-239 | the vertex and colour arrays hold 27 floats each, the 9 vertices of the draw |
| CasaViewport.HouseShape | casa/casa-viewport.py:166-170 | the house is 3 triangles in the plane z = 0 |
| CasaViewport.AllocatedDistinct | casa/casa-viewport.cpp:219-256 | the VAO, the two buffers and the program get distinct names, in both programs' creation order |
| CasaViewport.CellsEffect | casa/casa-viewport.cpp:140-148 | the grid makes one draw per cell, in order, each of 9 triangle vertices from the two house buffers in that cell's viewport; buffer sizes never change |
| CasaViewport.FrameEffect | casa/casa-viewport.cpp:136-155 | a frame makes 4 house draws of 9 vertices, one per quadrant in order, in both programs |
| CasaViewport.SessionDraws | casa/casa-viewport.cpp:123-159 | n frames make 4n draws; draw i goes into quadrant i mod 4 and reads only inside the two 27-float buffers |
| CasaViewport.VariantsDrawAlike | casa/casa-viewport.py:270-303 | the C++ and Python sessions make the same number of draws, each with the same primitive, vertex range and viewport |
| CasaViewport.SessionClears | casa/casa-viewport.py:279 | a C++ session clears once per frame, a Python session once in all |
| CasaViewport.CasaApp.TransferData | casa/casa-viewport.cpp:219-269 | creates the VAO and the two buffers, uploads 27 floats into each buffer and points slots 0 and 1 at them |
| CasaViewport.CasaApp.LoadShaders | casa/casa-viewport.cpp:168-217 | the program is created and kept, the two shaders are created and deleted, and the report lists exactly the driver's refusals |
| CasaViewport.CasaApp.Draw | casa/casa-viewport.cpp:278-296 | appends the draw of 9 triangle vertices |
| CasaViewport.CasaApp.DrawFrame | casa/casa-viewport.cpp:136-155 | appends the clear and the four cells |
| CasaViewport.CasaApp.DrawFrames | casa/casa-viewport.cpp:136-155 | the render loop appends n frames, each the default-framebuffer bind, the clear and the four cells, all with the region size computed before the loop; the live objects and the next free name are unchanged |
| CasaViewport.CasaApp.DrawRow | casa/casa-viewport.cpp:140-148 | appends the two cells of row i |
| CasaViewport.CasaApp.DrawCell | casa/casa-viewport.cpp:143-146 | appends the cell's viewport and then the house draw; nothing is created or deleted |
| CasaViewport.CasaApp.CleanUp | casa/casa-viewport.cpp:271-276 | deletes the vertex buffer, the colour buffer, the VAO and the program |
| CasaViewport.CasaApp.Session | casa/casa-viewport.cpp:123-164 | issues the session trace and leaves alive exactly what was alive before |
| CasaViewport.CasaAppPy.TransferData | casa/casa-viewport.py:151-197 | succeeds iff the driver accepts both shaders and the link; on failure raises the first error, leaving the VAO and the objects the shader step left alive; on success creates and uploads the house |
| CasaViewport.CasaAppPy.UploadHouse | casa/casa-viewport.py:184-197 | creates two fresh buffer names, the vertex buffer first, adds them to the live set and uploads 27 floats into each |
| CasaViewport.CasaAppPy.Draw | casa/casa-viewport.py:207-241 | binds the buffers, enables both slots, draws 9 vertices and disables both slots |
| CasaViewport.CasaAppPy.DrawFrame | casa/casa-viewport.py:282-297 | appends the four cells (no clear inside the loop) |
| CasaViewport.CasaAppPy.DrawRow | casa/casa-viewport.py:286-291 | one pass of the outer `range(2)` loop appends cells (i, 0) and (i, 1) after the cells of the rows before it; nothing is created or deleted |
| CasaViewport.CasaAppPy.DrawFrames | casa/casa-viewport.py:282-297 | the render loop appends n frames, each the default-framebuffer bind and the four cells with no clear, all with the region size computed before the loop; the live objects and the next free name are unchanged |
| CasaViewport.CasaAppPy.DrawCell | casa/casa-viewport.py:288-291 | appends the cell's viewport and then the house draw; nothing is created or deleted |
| CasaViewport.CasaAppPy.CleanUp | casa/casa-viewport.py:200-205 | deletes both buffers, the VAO and the program |
| CasaViewport.CasaAppPy.Session | casa/casa-viewport.py:243-305 | on success issues the session trace and frees everything; on failure leaks the VAO and the shaders it had made |
| Phong.ModeLights | modelo-iluminacao-phong/phong.cpp:98-114 | a known mode names a subset of the three lights |
| Phong.ModesLight | modelo-iluminacao-phong/phong.cpp:98-113 | whatever was on before, `ambiente` leaves only light 0 on among the three, `difusa` only light 1, `especular` only light 2, `phong` all three |
| Phong.SelectDecides | modelo-iluminacao-phong/phong.cpp:98-114 | `ambiente`, `difusa` and `especular` leave only light 0, 1 or 2 on; `phong` all three; any other string changes nothing |
| Phong.OneLightShows | modelo-iluminacao-phong/phong.py:85-100 | with lighting on and the configured lights, a single-light mode shows its own term, plus the ambient term unless the scene ambient light is black |
| Phong.AllLightsShow | modelo-iluminacao-phong/phong.py:85-100 | with lighting on and all three configured lights on, all three terms show |
| Phong.DefaultLightZeroLitTerms | modelo-iluminacao-phong/phong.cpp:34-38 | with light 0's default intensities the ambient mode shows the diffuse and specular terms, and the ambient term only through the scene ambient light, which is why light 0's other terms are set to black |
| Phong.StripShape | modelo-iluminacao-phong/phong.cpp:70-82 | each slice is one quad strip of 2(stacks + 1) vertices, each right after its normal |
| Phong.SphereVertices | modelo-iluminacao-phong/phong.cpp:57-84 | the sphere issues slices times 2(stacks + 1) vertices |
| Phong.SphereNormals | modelo-iluminacao-phong/phong.cpp:77-80 | every vertex comes right after a normal with the same components |
| Phong.StripAt | modelo-iluminacao-phong/phong.py:49-71 | slice i occupies its own block of calls, in slice order |
| Phong.FrameEnables | modelo-iluminacao-phong/phong.cpp:134-137 | after a frame all three lights are on and every other capability is as before |
| Phong.EnabledSteps | modelo-iluminacao-phong/phong.py:134-137 | the frame selects ambiente, difusa, especular and phong, in that order |
| Phong.FrameLighting | modelo-iluminacao-phong/phong.cpp:121-138 | with lighting on and the configured lights, the four spheres show ambient, diffuse, specular and all three, each of the first three also showing the ambient term unless the scene ambient light is black |
| Phong.LightingKept | modelo-iluminacao-phong/phong.cpp:98-114 | no mode switches lighting off |
| Phong.FixedPipeline.ConfigureLighting | modelo-iluminacao-phong/phong.cpp:27-54 | lighting and lights 0..2 become enabled and the lights get exactly the configured intensities |
| Phong.FixedPipeline.SetLightTerms | modelo-iluminacao-phong/phong.cpp:34-53 | three `glLightfv` calls on one light leave it with exactly the three given intensities and no other light changed |
| Phong.FixedPipeline.PushMatrix | modelo-iluminacao-phong/phong.cpp:88 | pushes a copy of the top matrix |
| Phong.FixedPipeline.PopMatrix | modelo-iluminacao-phong/phong.cpp:117 | pops the top matrix, or on a one-matrix stack flags an underflow and changes nothing |
| Phong.FixedPipeline.SelectMode | modelo-iluminacao-phong/phong.py:85-100 | the if/elif chain leaves the enabled set equal to Select(mode, before) |
| Phong.FixedPipeline.DrawSphere | modelo-iluminacao-phong/phong.cpp:57-84 | the nested loops issue exactly SphereCalls for the current state |
| Phong.FixedPipeline.DrawStrip | modelo-iluminacao-phong/phong.cpp:70-82 | one slice issues `glBegin` with the current state, the inner loop's normal and vertex calls for rings i and i + 1, and `glEnd` |
| Phong.FixedPipeline.EmitQuad | modelo-iluminacao-phong/phong.cpp:72-80 | one pass of the inner loop appends exactly the normal and vertex of ring i and then of ring i + 1 at stack j, as phong.py:62-70 does too; nothing else changes |
| Phong.FixedPipeline.DrawSphereAt | modelo-iluminacao-phong/phong.cpp:87-118 | push and pop are balanced: the matrix stack and its error flag end as they began; the lights follow the mode |
| Phong.FixedPipeline.Render | modelo-iluminacao-phong/phong.py:122-137 | the frame resets the modelview to identity, draws the four spheres and leaves all three lights on |
| Phong.FixedPipeline.Session | modelo-iluminacao-phong/phong.cpp:152-160 | depth test, lighting and the three lights are on, the lights configured, the scene ambient light unchanged, and n frames issued |
| Phong.FixedPipeline.RenderFrames | modelo-iluminacao-phong/phong.cpp:156-160 | the render loop issues n frames, all with the calls of the first, and leaves all three lights on |
| Phong.FixedPipeline.SessionBlackScene | modelo-iluminacao-phong/phong.cpp:27-54 | the corrected session, which also sets the scene ambient light to black after configuring the lights: the same state and frames, with a black scene ambient |
| Phong.SessionLighting | modelo-iluminacao-phong/phong.py:145-152 | in every frame of a session begun on a fresh context each sphere shows what its mode names and also the ambient term, from the default scene ambient light |
| Phong.SessionSpheresShowAmbient | modelo-iluminacao-phong/phong.cpp:27-54 | as written, the `difusa` sphere shows the ambient and diffuse terms and the `especular` sphere the ambient and specular terms, not their own term alone |
| Phong.SessionBlackSceneLighting | modelo-iluminacao-phong/phong.cpp:27-54 | with the scene ambient light black, the four spheres show exactly the ambient, diffuse, specular and all three terms |
| Phong.FramesFrom | modelo-iluminacao-phong/phong.cpp:156-160 | a frame drawn once the three lights are on issues the same calls as the first frame |

## Left out

- Window, context and extension set-up (GLFW, GLEW, GLUT) and event polling are not modelled. The frame loops run for a given number of frames, or over a given frame list.
- The real effect of every OpenGL call (compilation, linking, upload, rasterisation) is not modelled. The calls are an abstract command trace, and the driver's compile and link answers are parameters.
- Matrix code is not modelled: `configurarMVP`, `glm::perspective`, `ortho`, `lookAt`, the MVP products, `gluPerspective`, `glOrtho` and `gluLookAt`. A matrix upload is one abstract command, and a camera is its axis, distance and up vector.
- Phong light positions and directions are not modelled: phong.cpp:45-46 and :53 place lights 1 and 2 as directional lights along +x. Neither is the effect the float intensities have on shading. The model keeps only which intensity terms are non-zero.
- The `sin`/`cos` sphere coordinates are not modelled; `Phong.SpherePoint` is an uninterpreted point of ring i, stack j.
- The petal endpoints are computed with `cos`/`sin` in both flower programs; here they are a parameter.
- OBJ floats are not modelled. The coordinates of `v` and `vn` lines are kept as their tokens, so `float()` errors on them are not modelled.
- ObjLoader.LoadFile: the conversion of the index list to `np.uint32` is not modelled. Depending on the NumPy version it wraps a negative index or raises. Indices stay integers.
- The model's centre and radius (`np.mean`, `np.ptp`) are not modelled; the radius is a parameter of `Multiview.ViewCamera`.
- The teapot program's client-state drawing, `glScissor` and the clear colour are not modelled. Only the rectangle, projection choice and camera are.
- Opening and writing files are not modelled. A PGM write either opens or not (a parameter), and the writers return the file's contents.
- Shader file paths (`getCaminhoShader`, `std::filesystem`) are not modelled. Shaders.ReadShaderSource takes the file's lines, or nothing for a file that does not open.
- The cube program prints its compile and link logs without checking the status; that printing is not modelled.
- The Python house program generates and deletes a framebuffer with name 0. That pair is not modelled.
- Text.ParseInt: Python `int()` also accepts underscores between digits, surrounding whitespace and non-ASCII digits. This model accepts only an optional sign followed by ASCII digits.
- The letterbox programs of viewport/configuracao-automatizada, the transformation demos, the geometria demos, cubo/cubo-visualizacao-unica.py, projecoes/multiprojecoes/multiprojecoes.cpp and convexhull/carros.py are not part of this model. They are float numerics, constant viewports or library calls.
- CubeView.CamerasAtTargets: every camera's eye equals its target, so `lookAt` gets a zero view direction. The model states this but does not correct it, because what the authors intended is not evident.
- PgmSimple.PgmFilePy takes a matrix of integers. `astype(np.uint8)` on a float array, which truncates each in-range value, is not modelled.
- Raster.DrawLine: C++ `int` overflow in `desenharLinha` is not modelled. Coordinates are unbounded integers; the programs only pass coordinates of a 256 x 256 image.
- Phong.FixedPipeline.DrawSphere: with stacks = 0, `float(j) / stacks` raises `ZeroDivisionError` in phong.py. The model draws anyway. Both programs pass 250.
- CasaViewport.VariantsDrawAlike: both variants get the same width and height. The Python program reads the window size and the C++ program reads the framebuffer size, which differ on high-density displays.
- There is no concurrency in the programs.

## Findings

| source | as written | input that shows it | evidently intended | confidence | as-written member | corrected member |
|---|---|---|---|---|---|---|
| cores_imagens/pgm_simples.cpp:24-37 | rows are never checked for equal length; width is row 0's length and the data is every row's pixels | `{{1, 2}, {3}}`: the header says 2 x 2 but the data has 3 octets | reject a ragged image like the Python version's 2-D check | not executed | PgmSimple.RaggedImageAccepted | PgmSimple.PgmFileCheckedRoundTrip |
| cores_imagens/pgm.py:51-52 | the disc loops use `range(cx - r, cx + r)` and `range(cy - r, cy + r)`, which exclude cx + r and cy + r | r = 50 at (128, 128): cell (row 128, column 178) is not orange in the Python picture but is in the C++ one | the closed ranges of the C++ fill, giving a symmetric disc | not executed | Raster.PyDiscMissesEdge | Raster.DiscSymmetric |
| projecoes/cubo/cubo-visualizacao-multipla-atividade.cpp:198-203 | teardown deletes the cube buffers, the VAO and the program, but not the axis buffers made at lines 312-318 | any session: the two axis buffer names stay alive after teardown | delete all six objects the program created | not executed | CubeView.CubeApp.Session | CubeView.CubeApp.SessionCleaningAll |
| modelo-iluminacao-phong/phong.cpp:27-54 | the lights' own ambient terms are zeroed, but the scene ambient light `GL_LIGHT_MODEL_AMBIENT` keeps its default grey 0.2, which lighting adds to every sphere | any frame: the `difusa` sphere shows the ambient and diffuse terms, the `especular` sphere the ambient and specular terms | also set the scene ambient light to black, so each of the first three spheres shows its mode's term alone | medium (the mode names and the zeroed ambient terms of lights 1 and 2 suggest it); not executed | Phong.SessionSpheresShowAmbient | Phong.SessionBlackSceneLighting |
