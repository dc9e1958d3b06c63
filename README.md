# Polargraph plotter server: a verified model of its core

This project models, in Dafny, the core of a web server that drives a
polargraph pen plotter (two motors hang a pen gondola on cords). The
server keeps a vector drawing, the *turtle*: a list of stroke layers, each
holding lines of points. It fills that drawing from SVG, DXF or G-code
files, from built-in pattern generators, or from commands that a language
model returns. It then streams a G-code program to the plotter over a
serial link, one line per `ok` acknowledgement from the firmware.

The model follows the program's own modules, one Dafny module each:

| Dafny module | file | source |
|---|---|---|
| `Text` | text.dfy | Python string built-ins the core relies on (`strip`, `upper`, `lower`, `split`, `find`, `join`) |
| `PathModel` | turtle.dfy | `src/modules/turtle.py`: the `Turtle` class with its layers, pen commands, queries and transforms |
| `Settings` | settings.dfy | `src/modules/plotter_settings.py`: the settings map and the commands built from it |
| `SerialLink` | serial.dfy | `src/modules/serial_handler.py`: connection state, command framing, checksum, the reader's line splitting |
| `Controller` | controller.dfy | `src/app.py`: the plotting session (program, cursor, flags, gondola) and its handlers |
| `Files` | files.dfy | `src/modules/file_handler.py`: the G-code filter, SVG path and points parsing, SVG output, the DXF reader |
| `Generators` | generators.dfy | `src/modules/turtle_generator.py`: maze, dragon curve, text, border, listing and dispatch |
| `Gpent` | gpent.dfy | `src/modules/gpent.py`: the lookup tables and the mapping of decoded commands |

Code that changes state in place is modelled imperatively:
- `Turtle`, `PlotterSettings`, `SerialHandler` and the plotting `Session` are classes whose methods modify their fields.
- The maze works on `array2<bool>` grids.
- Every loop of the source is a `while` loop with its invariants.

Each method is proved against a specification function. Lemmas about those functions state what the source promises: bounds, round trips, invariants and the error cases.

Things outside the process are parameters:
- `float()` of a string is `parse: string -> Option<real>`, and `int()` of a string is `parseInt`.
- Float formatting is `repr` (Python's `str` of a float) or `fixed3` (the `:.3f` format).
- `math.cos`/`math.sin` at a heading are `heading: real -> Point`. The 37 (cos, sin) pairs of a circle are a `unit` table.
- `random.choice` is an index oracle `pick`.
- `json.loads` is `decode`.

Socket.IO notifications are kept as a ghost event log, and the bytes written to the serial port as a log of lines.

## Model

| member | source | states |
|---|---|---|
| PathModel.Turtle.constructor | src/modules/turtle.py:48-57 | a new turtle has exactly one layer, with no lines and the given colour and diameter; it is at (0,0), heading 0, with the pen up |
| PathModel.Turtle.NewLine | src/modules/turtle.py:71-75 | the new line holds exactly one point, the current position, and is appended to the current layer; earlier layers are untouched |
| PathModel.AddLine | src/modules/turtle.py:71-75 | starting a line leaves every earlier layer and the current layer's colour and diameter unchanged, and appends the line to the current layer |
| PathModel.AddPoint | src/modules/turtle.py:96-104 | a pen-down move changes only the last line of the current layer, which gains the point at its end |
| PathModel.Turtle.SetStroke | src/modules/turtle.py:77-84 | the same colour and diameter change nothing; otherwise exactly one layer is appended in the new stroke, holding a one-point line at the position when the pen is down; the pen-at-line-end invariant is kept |
| PathModel.Turtle.PenDown | src/modules/turtle.py:86-90 | lowering a raised pen starts a one-point line at the position; lowering a lowered pen leaves the drawing unchanged |
| PathModel.Turtle.PenUpCmd | src/modules/turtle.py:92-94 | raises the pen and changes no layer or line |
| PathModel.Turtle.MoveTo | src/modules/turtle.py:96-104 | the position is always (x, y); with the pen up no layer changes; with the pen down exactly one point is appended to the last line; afterwards a lowered pen sits at the end of the last line |
| PathModel.Turtle.JumpTo | src/modules/turtle.py:106-111 | the pen ends down at (x, y), which is the one point of a new line |
| PathModel.Turtle.MoveOn | src/modules/turtle.py:96-104 | a pen-down move sets the position and appends the point to the last line |
| PathModel.Turtle.Forward | src/modules/turtle.py:113-118 | moves `distance` along the unit vector of the current heading, adding that point to the line exactly when the pen is down |
| PathModel.Turtle.Turn | src/modules/turtle.py:124-126 | the heading grows by `degrees` |
| PathModel.Turtle.TurnRight | src/modules/turtle.py:128-130 | the heading shrinks by `degrees` |
| PathModel.Turtle.TurnLeft | src/modules/turtle.py:132-134 | the heading grows by `degrees` |
| PathModel.Turtle.SetAngle | src/modules/turtle.py:136-138 | the heading becomes `degrees` |
| PathModel.Turtle.DrawLine | src/modules/turtle.py:162-165 | exactly one new line, (x1,y1) to (x2,y2), with the pen left down at (x2,y2) |
| PathModel.Turtle.DrawRect | src/modules/turtle.py:167-173 | exactly one new closed five-point line round the rectangle, ending back at its first corner |
| PathModel.Turtle.CountPoints | src/modules/turtle.py:206-212 | the loop returns the number of points over all lines of all layers |
| PathModel.Turtle.CountLines | src/modules/turtle.py:214-220 | the loop returns the number of segments: each non-empty line contributes its length minus one |
| PathModel.Turtle.GetLines | src/modules/turtle.py:260-267 | exactly the lines with at least two points, in layer-then-line order |
| PathModel.Turtle.GetPaths | src/modules/turtle.py:245-258 | one path per line with at least two points, with that line's points and its layer's colour and diameter, in order |
| PathModel.Turtle.HasContent | src/modules/turtle.py:269-275 | true exactly when `get_lines` would be non-empty |
| PathModel.Turtle.GetBounds | src/modules/turtle.py:179-204 | the loop computes the running min/max box over every point, or the all-zero box for a drawing without points |
| PathModel.Turtle.Translate | src/modules/turtle.py:281-287 | every point is shifted by (dx, dy); layers, lines, colours and diameters are kept |
| PathModel.Turtle.Scale | src/modules/turtle.py:289-298 | every point is multiplied by (sx, sy), with sy defaulting to sx |
| PathModel.Turtle.ApplyToPoints | src/modules/turtle.py:281-298 | the nested loop over layers, lines and points applies one point transform to every point and keeps all structure |
| PathModel.Turtle.Refit | src/modules/turtle.py:340-343 | the three transform steps of fitting in order: shift, scale, shift |
| PathModel.Turtle.CenterOn | src/modules/turtle.py:314-319 | shifts the drawing by the offset that brings the centre of its bounds onto (cx, cy) |
| PathModel.CenteredOn | src/modules/turtle.py:314-319 | after `center_on(cx, cy)` the bounds of a drawing with points are centred on (cx, cy), with the same width and height |
| PathModel.ShiftedBounds | src/modules/turtle.py:281-287 | a translated drawing with points has its bounds moved by the same offset, with the same extents; a drawing without points keeps the all-zero box |
| PathModel.AllPointsMap | src/modules/turtle.py:281-298 | the points of a transformed drawing are the images of its points, in the same order |
| PathModel.Turtle.FitToBounds | src/modules/turtle.py:321-343 | a drawing of zero width or height is unchanged; otherwise it is centred on the origin, scaled (uniformly when the aspect is kept) and moved to the centre of the target box |
| PathModel.ReplayCounts | src/modules/turtle.py:96-111 | a sequence of jumps and moves adds one line per jump; once a line is open, it adds one point per step |
| PathModel.BoxOfCovers | src/modules/turtle.py:179-204 | the running box is empty only for no points; it contains every point; each of its four sides is attained by some point; width and height are the spans |
| PathModel.BoundsCover | src/modules/turtle.py:179-204 | every point of every line lies inside `get_bounds`; a drawing without points has the all-zero box |
| PathModel.AllPointsHas | src/modules/turtle.py:179-204 | every point of every line is visited by the bounds scan |
| PathModel.SegmentsPlusLines | src/modules/turtle.py:206-220 | when no line is empty, the segment count plus the number of lines is the point count |
| PathModel.DrawnIffSegments | src/modules/turtle.py:214-220 | there is a drawable line exactly when the segment count is positive |
| PathModel.DrawnHas | src/modules/turtle.py:260-267 | every line with at least two points, in any layer, is among the lines returned |
| PathModel.MapLayersCounts | src/modules/turtle.py:281-298 | a point transform keeps the number of layers, lines, points and segments |
| PathModel.NeutralTransforms | src/modules/turtle.py:281-298 | `translate(0, 0)` and `scale(1)` change no point |
| PathModel.MapLayersCompose | src/modules/turtle.py:281-298 | applying two point transforms in turn is applying their composition |
| PathModel.TranslateTwice | src/modules/turtle.py:281-287 | two translations are one translation by the summed offsets |
| PathModel.FitFlatUnchanged | src/modules/turtle.py:326-327 | fitting a drawing without points, or of zero width or height, changes nothing |
| PathModel.FittedInside | src/modules/turtle.py:321-343 | for a well-ordered target box, every point of a fitted drawing that is not flat lies inside the box, with or without the aspect ratio kept |
| PathModel.FitOwnBoundsUnchanged | src/modules/turtle.py:321-343 | fitting a drawing that is not flat to its own bounds changes nothing |
| Settings.PlotterSettings.constructor | src/modules/plotter_settings.py:68-73 | the settings are a copy of the defaults, overlaid with what was loaded |
| Settings.Lookup | src/modules/plotter_settings.py:75-77 | a stored key gives its value and an absent key gives the default |
| Settings.PlotterSettings.Get | src/modules/plotter_settings.py:75-77 | returns the stored value, or the supplied default for an absent key |
| Settings.PlotterSettings.Set | src/modules/plotter_settings.py:79-81 | only `key` changes, and it now maps to `value` |
| Settings.PlotterSettings.GetAll | src/modules/plotter_settings.py:83-85 | returns the whole map, as a value that later updates do not touch |
| Settings.PlotterSettings.Update | src/modules/plotter_settings.py:87-89 | the keys of `data` take its values, and every other key is kept |
| Settings.StoreThenLookup | src/modules/plotter_settings.py:75-81 | after `set(k, v)`, `get(k)` is v and every other key reads as before |
| Settings.UpdateOverwrites | src/modules/plotter_settings.py:87-89 | after `update`, the keys are the old ones plus those of `data`; a key of `data` reads its new value and any other key its old one |
| Settings.Minus | src/modules/plotter_settings.py:123-132 | subtraction succeeds exactly for two numbers (booleans count as 0/1) and yields their difference |
| Settings.GetWorkArea | src/modules/plotter_settings.py:123-132 | the four edges are the limit settings; width = right - left and height = top - bottom; it fails exactly when a limit is not a number |
| Settings.DefaultWorkArea | src/modules/plotter_settings.py:12-62 | with the default settings the area is ±420.5 by ±594.5, 841 wide and 1189 high |
| Settings.GotoCommand | src/modules/plotter_settings.py:118-121 | the command is a G1 move exactly when the pen is down and a G0 move otherwise |
| Settings.DefaultFeeds | src/modules/plotter_settings.py:118-121 | with the defaults, a drawing move runs at F500 and a travel move at F1000, with coordinates to three decimals |
| Settings.DefaultPenAngles | src/modules/plotter_settings.py:110-116 | with the defaults, pen up is `G0 Z90 F1000` and pen down is `G0 Z40 F1000` |
| Settings.DefaultCommands | src/modules/plotter_settings.py:110-121 | the four default commands together: pen up, pen down, drawing move and travel move |
| SerialLink.SerialHandler.constructor | src/modules/serial_handler.py:18-27 | a new handler has no port, is closed and not running, has no callback and line number 0, and has written nothing |
| SerialLink.SerialHandler.Connect | src/modules/serial_handler.py:34-65 | reports success exactly when the port opens; success sets the port and callback, resets the line number to 0 and starts the reader; failure leaves the port unset and the reader stopped |
| SerialLink.SerialHandler.Disconnect | src/modules/serial_handler.py:67-78 | afterwards the reader is stopped, the link is closed and the port is unset, whatever the state before |
| SerialLink.SerialHandler.SendCommand | src/modules/serial_handler.py:84-101 | when connected, writes the stripped command plus a newline and notifies the callback with "TX: " and the command; when not connected, writes nothing |
| SerialLink.SerialHandler.SendRaw | src/modules/serial_handler.py:103-112 | when connected, writes the command unstripped plus a newline; otherwise nothing |
| SerialLink.Checksum | src/modules/serial_handler.py:114-119 | the checksum lies in 0..255 and is 0 for the empty line |
| SerialLink.CalculateChecksum | src/modules/serial_handler.py:114-119 | the loop computes the XOR of all character codes, masked to the low byte |
| SerialLink.XorAllAppend | src/modules/serial_handler.py:114-119 | the XOR over a concatenation is the XOR of the two parts |
| SerialLink.ChecksumAppend | src/modules/serial_handler.py:114-119 | checksum(a + b) = checksum(a) xor checksum(b) |
| SerialLink.ReadStep | src/modules/serial_handler.py:121-137 | after one read the callback has received the complete lines of buffer + data, stripped and non-empty, or nothing without a callback; the buffer keeps what follows the last newline |
| SerialLink.ReadLoop | src/modules/serial_handler.py:121-144 | reading a stream in any chunks delivers the lines of the whole stream in order and keeps its unterminated tail |
| SerialLink.LinesSpec | src/modules/serial_handler.py:132-137 | every delivered line is non-empty and stripped |
| SerialLink.RemainderSpec | src/modules/serial_handler.py:128-133 | the buffer kept has no newline, is a suffix of the input, and starts just after the last newline, or is the whole input when there is none |
| SerialLink.LinesAppend | src/modules/serial_handler.py:126-137 | splitting input anywhere delivers the same lines and leaves the same buffer as reading it whole |
| SerialLink.TwoChunks | src/modules/serial_handler.py:126-137 | two reads deliver the same lines and leave the same buffer as one read of their concatenation |
| SerialLink.FramedAt | src/modules/serial_handler.py:84-101 | the i-th line written for a command sequence is the i-th command, stripped, plus a newline |
| SerialLink.FramedShape | src/modules/serial_handler.py:84-101 | every line written ends in a newline, and its text before the newline is stripped |
| SerialLink.SendTwice | src/modules/serial_handler.py:84-112 | sending a and then b writes and announces the same lines as sending a + b |
| SerialLink.NoticeIsNotAck | src/app.py:54-63 | the "TX: ..." notice that `send_command` passes to the callback can never be read as an `ok` acknowledgement |
| Text.StripSpec | src/modules/serial_handler.py:134 | `strip` removes exactly the leading and trailing whitespace (the characters `str.isspace()` accepts): the result is a slice of the input, everything before and after that slice is whitespace, and the result is empty or starts and ends with non-whitespace |
| Text.StripUnicodeSpaces | src/modules/serial_handler.py:134 | a no-break space and an em space around a reply are stripped, as `str.strip()` does; a zero-width space, which `str.isspace()` rejects, is kept |
| Text.LStripSpec | src/modules/serial_handler.py:134 | the left-stripped text is a suffix of the input; everything removed is whitespace and what remains does not start with whitespace |
| Text.RStripSpec | src/modules/serial_handler.py:134 | the right-stripped text is a prefix of the input; everything removed is whitespace and what remains does not end with whitespace |
| Text.StripIdempotent | src/modules/file_handler.py:41 | stripping twice is stripping once |
| Text.FindSpec | src/modules/serial_handler.py:132-133 | the index found is the first occurrence of the character, and it is the length exactly when the character does not occur |
| Text.UpperAt | src/app.py:108 | upper-casing maps each character by itself |
| Text.LowerAt | src/app.py:62 | lower-casing maps each character by itself |
| Text.WordsSpec | src/app.py:112 | the words that `split()` yields are non-empty and contain none of the characters `str.isspace()` accepts |
| Text.WordsOfSpaces | src/app.py:112 | a line made only of whitespace splits into no words |
| Text.WordsOfWord | src/app.py:112 | a non-empty run without whitespace splits into exactly itself |
| Text.WordsSplitAt | src/app.py:112 | a whitespace character separates words: the words of `x + c + y` are the words of `x` followed by the words of `y`; with the two rows above this fixes `split()` on every line as the maximal non-whitespace runs, in order |
| Text.SplitOnSpec | src/app.py:425 | no part of `split('\n')` contains the separator |
| Text.JoinSplitOn | src/app.py:425 | joining the parts of a split with the separator gives back the text |
| Controller.Session.constructor | src/app.py:46-51 | a new session has no program, cursor 0, is neither plotting nor paused, has the gondola at (0, 0, 90), and has sent nothing |
| Controller.Session.LoadProgram | src/app.py:533 | an upload replaces the program and leaves the cursor where it was |
| Controller.NextReal | src/app.py:66-98 | the next line to send is at or after the cursor; it is a command line, or it is the end |
| Controller.NextRealSkips | src/app.py:76-93 | every line skipped on the way is blank or a `;` comment |
| Controller.DispatchOf | src/app.py:66-98 | one call sends at most one line, at or after the cursor |
| Controller.CursorAfter | src/app.py:66-98 | after a send the cursor is one past the line sent; when nothing is left to send it is at the end (or unchanged past it) |
| Controller.ProgressPercent | src/app.py:86 | the percent of a progress event for a line before the end lies in 0..100 |
| Controller.ProgressBounded | src/app.py:82-88 | one progress event per line passed, in order, each carrying its line, the total and a percent in 0..100 |
| Controller.Session.SendNextLine | src/app.py:66-98 | when plotting and not paused, the session passes any blank and comment lines, sends the next command line and tracks the gondola by it, with one progress event per line passed; when nothing is left, the cursor moves to the end, plotting stops and completion is signalled; when not plotting or paused, nothing changes |
| Controller.Session.SendAt | src/app.py:76-88 | sending the command line at the cursor gives the state `send_next_line` promises from where the skipping began |
| Controller.Session.OnMessage | src/app.py:54-63 | every message is forwarded as an event; it dispatches exactly when plotting, not paused, and the message starts with "ok" in any case |
| Controller.DrainExact | src/app.py:54-98 | the lines that successive acknowledgements send are exactly the command lines from the cursor on, in increasing order, each once |
| Controller.SkipLine | src/app.py:90-93 | passing a blank or comment line changes neither the next line sent nor where the cursor ends |
| Controller.DrainStep | src/app.py:66-98 | what remains to send after one dispatch is what remained before, minus the line just sent |
| Controller.DispatchesDrain | src/app.py:54-98 | n acknowledgements send the first n of the remaining command lines (all of them when fewer remain) |
| Controller.NothingLeft | src/app.py:94-98 | once nothing is left to send, further acknowledgements send nothing |
| Controller.Session.UpdateGondola | src/app.py:104-133 | the gondola follows what the line says, as `Track` defines it |
| Controller.TrackAxes | src/app.py:117-133 | for a move, each axis becomes the last value given for it that parses, and keeps its value otherwise; the other axes are unaffected |
| Controller.TrackOnlyMoves | src/app.py:107-117 | a line that is not a G0/G1/G00/G01 move after upper-casing leaves the gondola where it is |
| Controller.Session.SendLines | src/app.py:425-427 | sends the stripped non-blank parts, in order and nothing else |
| Controller.NonBlankSpec | src/app.py:425-427 | every script line sent is non-empty and stripped |
| Controller.Session.SendScript | src/app.py:423-427 | a falsy setting sends nothing; a string sends its non-blank lines stripped; any other value fails |
| Controller.Session.SendSetup | src/app.py:401-427 | sends the eight initialisation commands and then the start script, in that order |
| Controller.Session.Start | src/app.py:386-432 | when disconnected or with no program, returns that error and changes nothing; otherwise it starts the plot as `Begin` states |
| Controller.Session.Prepare | src/app.py:396-427 | sets plotting, clears paused, resets the cursor to 0 and the gondola to home, then writes the initialisation commands and the start script; it reports whether the start script could be read |
| Controller.Session.Begin | src/app.py:396-432 | clears paused, sends the eight initialisation commands and the start script, then dispatches from line 0 with the gondola at home and returns the line count; a start script that is neither falsy nor a string fails after the initialisation commands, with plotting set and nothing dispatched |
| Controller.Session.Pause | src/app.py:436-445 | sets paused and sends the pen-up command; cursor, program and plotting flag are untouched |
| Controller.Session.Resume | src/app.py:449-454 | clears paused and dispatches from the current cursor, so no earlier line is sent again |
| Controller.Session.Stop | src/app.py:458-472 | clears both flags, sets the cursor to 0 and sends the end script |
| Controller.Session.Rewind | src/app.py:476-480 | the cursor becomes 0 |
| Controller.Session.GotoLine | src/app.py:484-490 | the cursor becomes the requested line clamped to [0, program length], and that is returned |
| Controller.StatusPercent | src/app.py:501 | the percent lies in 0..100 whenever the cursor is within the program, and is 100 at its end |
| Controller.Session.Status | src/app.py:494-502 | reports the flags, cursor and total unchanged, and a percent in 0..100 whenever the cursor is within the program |
| Controller.Session.SendAll | src/app.py:402-419 | each command is sent in order through `send_command`: stripped and framed when connected, announced when there is a callback |
| Controller.Session.EmergencyStop | src/app.py:339-363 | clears both flags, even when disconnected; when connected it writes M112 five times, then M18, then `G0 Z90 F1000`, unstripped |
| Controller.EmergencyWire | src/app.py:348-356 | the emergency sequence on the wire is five `M112` lines, `M18`, and the pen-up move |
| Files.LoadGcode | src/modules/file_handler.py:33-45 | the loop keeps the stripped lines that are neither blank nor `;` comments, in order |
| Files.KeptSpec | src/modules/file_handler.py:38-45 | the program is no longer than the file; every line in it is a stripped command line; a text is in it exactly when it is the stripped form of a command line of the file |
| Files.KeptIdempotent | src/modules/file_handler.py:38-45 | filtering a loaded program again changes nothing |
| Files.LoadedProgramStreams | src/modules/file_handler.py:38-45 | a loaded program has nothing for the streamer to skip: acknowledgements send its lines 0, 1, 2, ... in turn |
| Files.ParseSvgPoints | src/modules/file_handler.py:254-260 | floor(n/2) points, each a pair of consecutive numbers, with a trailing odd number dropped |
| Files.Extension | src/modules/file_handler.py:24 | the extension is empty or a dot followed by neither a dot nor a slash |
| Files.LoadVectorByName | src/modules/file_handler.py:22-31 | for any extension after the stem, of any length: `.svg` and `.dxf` in any case select the SVG and DXF loaders; any other extension is refused with ValueError naming the lower-cased extension |
| Files.CurveSampleIsBezier | src/modules/file_handler.py:243-246 | the k-th sample is the cubic Bézier polynomial at t = k/10 |
| Files.CurveOps | src/modules/file_handler.py:224-248 | a curve segment is ten pen moves, the last at the segment's end point with y negated |
| Files.Command | src/modules/file_handler.py:155-252 | one command letter and its run of numbers: the pen operations it performs, followed by the parse of the rest, are the parse from that letter; it always moves past the letter unless the parse stops there |
| Files.SampleCurve | src/modules/file_handler.py:241-248 | the ten samples of a curve segment are drawn as the moves `CurveOps` states |
| Files.ParseSvgPath | src/modules/file_handler.py:146-252 | M/m jumps and records the subpath start; L/l, H/h and V/v move (H only in x, V only in y); Z/z returns to the start; C/c samples ten points; unknown letters are skipped; y is negated throughout; it fails where `float()` meets a letter or a run indexes past the last token, with the moves made so far kept |
| Files.PathTokensParse | src/modules/file_handler.py:158-189 | the tokens of `M x y L x y ...` parse, without error, to a jump to the first point and a move to each other point |
| Files.PolylineReplay | src/modules/turtle.py:96-111 | a jump followed by moves draws exactly one new line through all the points, ending at the last with the pen down |
| Files.PathDataRoundTrip | src/modules/file_handler.py:73-76 | at token level: the `M`/`L` command and number tokens written for a line parse without error and replay to exactly that line, in the turtle's stroke |
| Files.PathDataTokens | src/modules/file_handler.py:74-76 | the `d` attribute is the tokens `M x -y L x -y ...`, written out and joined by spaces |
| Files.LineElement | src/modules/file_handler.py:73-81 | the loop builds the `<path>` element of the line, with its layer's stroke |
| Files.TurtleToSvg | src/modules/file_handler.py:52-84 | the document is the lines of `SvgLines` joined by newlines |
| Files.SvgShape | src/modules/file_handler.py:61-84 | the document is the XML header, the `<svg>` element built from the bounds, one `<path>` per line with at least two points in layer-then-line order, and `</svg>` |
| Files.PathsLong | src/modules/file_handler.py:70-71 | every path written has at least two points |
| Files.ReadGroupLoop | src/modules/file_handler.py:279-290 | the loop computes `ReadGroups` from all-zero fields: group-code/value pairs up to the next `0` line, keeping the last value of each code it knows |
| Files.ReadGroups | src/modules/file_handler.py:279-290 | a successful read keeps one value per code and stops inside the file, at a `0` line or at the end; it moves past any first line that is not `0` |
| Files.DrawCircle | src/modules/turtle.py:140-160 | a circle is exactly one new line, through one point round the centre per entry of the (cos, sin) table (37 in the DXF reader), in the current stroke |
| Files.DrawEntity | src/modules/file_handler.py:292-309 | a LINE draws one two-point line and a CIRCLE one circle |
| Files.EntityStep | src/modules/file_handler.py:276-309 | reading one entity consumes its lines and yields its fields, or the error of the first value that does not parse; this is the corrected reading (see ## Findings) |
| Files.EntityAt | src/modules/file_handler.py:270-312 | handles the entity at one line: a read error is the error of the whole read; otherwise it moves forward and draws what it read, so the entities still to come are the same; this is the corrected reading (see ## Findings) |
| Files.DrawDxf | src/modules/file_handler.py:262-312 | every entity read is drawn, one line each, in file order, in a single layer; the drawing fails exactly when reading fails, with the same message; this is the corrected reading (see ## Findings) |
| Files.DxfDrawingShape | src/modules/file_handler.py:264-312 | a DXF drawing is a single default layer with one line per entity |
| Files.LoadDxf | src/modules/file_handler.py:262-315 | the loaded drawing is the entities' lines, centred on the origin; a value that does not parse fails the load; this is the corrected reading (see ## Findings) |
| Files.CentreOnOrigin | src/modules/file_handler.py:314 | the drawing is moved so that its bounds are centred on (0, 0) |
| Files.CentredOnOriginBounds | src/modules/file_handler.py:314 | after centring, the bounds of a drawing with points have their centre at (0, 0) and keep their extents |
| Files.LineRecordRoundTrip | src/modules/file_handler.py:276-292 | a LINE record written with the four group codes reads back as exactly that line (group pairs read from the line after the entity name) |
| Files.RecordGroups | src/modules/file_handler.py:279-290 | when every coordinate's text parses back to that coordinate, reading a LINE record from the line after its name fills the four fields with its coordinates and stops at the closing `0` line |
| Files.ShiftedGroups | src/modules/file_handler.py:279-290 | reading the sample LINE record from its name line pairs each code with the next code, so all four fields stay at 0; the `0` line is taken as a value and reading runs to line 12, the end of the file |
| Files.ShiftedRecordMisread | src/modules/file_handler.py:276-292 | as written, the record LINE (1,2)-(3,4) is read as the line (0,0)-(0,0) |
| Generators.ListGenerators | src/modules/turtle_generator.py:127-132 | one entry per catalogue key, in order, with id equal to the key and the catalogue's name, description and options |
| Generators.Dispatch | src/modules/turtle_generator.py:134-140 | a name has a generator exactly when it is one of the twelve; any other name fails with "Unknown generator: " and the name |
| Generators.ListedIffDispatched | src/modules/turtle_generator.py:127-140 | a name is listed exactly when it can be generated, and no id is listed twice |
| Generators.ListedIds | src/modules/turtle_generator.py:17-132 | the listed ids are the twelve generator names in catalogue order |
| Generators.NamesDistinct | src/modules/turtle_generator.py:17-122 | the twelve generator names are distinct |
| Generators.IntOption | src/modules/turtle_generator.py:231-232 | an option is its value when it is an integer, the default when absent, and fails for anything else |
| Generators.RealOption | src/modules/turtle_generator.py:233 | a numeric option is its value when present, the default when absent, and fails for a non-number |
| Generators.MazeParams | src/modules/turtle_generator.py:231-244 | when the maze can be built, it has at least one row and one column |
| Generators.MazeDefaults | src/modules/turtle_generator.py:231-233 | without options the maze is 20 by 20 cells of 15 units |
| Generators.NeighboursSpec | src/modules/turtle_generator.py:250-253 | the candidates are exactly the unvisited in-grid cells next to the current one, in the order up, down, left, right |
| Generators.Neighbours | src/modules/turtle_generator.py:248-253 | the loop collects exactly those candidates |
| Generators.GridCard | src/modules/turtle_generator.py:236 | the grid has rows * cols cells |
| Generators.StartCarving | src/modules/turtle_generator.py:235-244 | before the loop every wall stands, only (0, 0) is visited and it is alone on the stack, so the carving invariant holds from the start |
| Generators.Push | src/modules/turtle_generator.py:255-269 | removing the wall to an unvisited neighbour and pushing it keeps every removed wall interior and between visited cells, with one removed wall per visited cell after (0, 0); the stack holds visited cells, and every visited cell off the stack has no unvisited neighbour |
| Generators.PushLinked | src/modules/turtle_generator.py:255-269 | pushing a neighbour through the wall just removed keeps the stack a walk of adjacent cells from (0, 0), each step through a removed wall, and keeps every visited cell reachable from (0, 0) through removed walls |
| Generators.Pop | src/modules/turtle_generator.py:270-271 | popping a cell with no unvisited neighbour keeps the stack invariant, and the shorter stack is still a walk from (0, 0) |
| Generators.CarveStep | src/modules/turtle_generator.py:246-271 | one pass of the loop keeps the carving invariant, and either visits one more cell or pops the stack |
| Generators.Connected | src/modules/turtle_generator.py:243-271 | when no visited cell has an unvisited neighbour and the start is visited, every cell is visited |
| Generators.Carved | src/modules/turtle_generator.py:243-271 | when the stack is empty, every cell is visited, the outer walls all stand, exactly rows * cols - 1 walls are removed, and every cell is reachable from (0, 0) through them: a connected set of rows * cols - 1 passages over rows * cols cells, that is, a spanning tree |
| Generators.CarveMaze | src/modules/turtle_generator.py:236-271 | for any choice of neighbours, the loop ends with every cell visited, every outer wall standing, only interior walls removed, exactly rows * cols - 1 of them, and every cell reachable from (0, 0) through them |
| Generators.RowWallsHas | src/modules/turtle_generator.py:278-293 | a row scan lists exactly the standing walls of that row left of the column reached |
| Generators.GridWallsHas | src/modules/turtle_generator.py:278-293 | a grid scan lists exactly the standing walls of the rows reached |
| Generators.WallsHas | src/modules/turtle_generator.py:277-293 | the drawing scan lists each standing wall once, and the standing and removed walls together are all the walls |
| Generators.StandingCount | src/modules/turtle_generator.py:236-293 | after carving, the standing walls number rows * cols + rows + cols + 1 |
| Generators.DrawWalls | src/modules/turtle_generator.py:277-293 | the maze drawing gains one two-point line per standing wall, horizontal walls first, in row and column order |
| Generators.DrawGrid | src/modules/turtle_generator.py:278-284 | one grid scan draws one line per standing wall of that grid |
| Generators.DrawRow | src/modules/turtle_generator.py:279-284 | one row scan draws one line per standing wall of that row |
| Generators.StandingDrawn | src/modules/turtle_generator.py:274-293 | the maze draws exactly one line per standing wall, so rows * cols + rows + cols + 1 lines |
| Generators.Maze | src/modules/turtle_generator.py:227-295 | the maze turtle holds one line per standing wall, each wall once, with exactly rows * cols + rows + cols + 1 lines |
| Generators.DrawMaze | src/modules/turtle_generator.py:274-295 | a carved grid is drawn as one line per standing wall, each wall once |
| Generators.GenerateMaze | src/modules/turtle_generator.py:227-295 | builds the maze exactly when the options allow it, otherwise fails with the source's error; the result has one line per standing wall |
| Generators.RewriteOnce | src/modules/turtle_generator.py:309-313 | the loop rewrites X to "X+YF+" and Y to "-FX-Y" and keeps every other character |
| Generators.DragonString | src/modules/turtle_generator.py:305-313 | the string is the axiom "FX" rewritten `iterations` times (no times for a negative count) |
| Generators.RuleCounts | src/modules/turtle_generator.py:306 | each rule produces one F exactly for F, X and Y, and one X and one Y for X and Y |
| Generators.RewriteCounts | src/modules/turtle_generator.py:309-313 | a rewrite turns the F count into F + X + Y, and the X and Y counts into X + Y each |
| Generators.RewriteFixed | src/modules/turtle_generator.py:312 | a string without X or Y is left unchanged by a rewrite |
| Generators.DragonCounts | src/modules/turtle_generator.py:305-313 | after n rewrites the string holds 2^n F's, and 2^n X's and Y's together |
| Generators.WalkShape | src/modules/turtle_generator.py:316-325 | the walk is one jump to the origin followed by one move per F |
| Generators.DrawDragon | src/modules/turtle_generator.py:316-325 | the turtle follows the walk: F moves forward by `size` along the heading, + turns right 90, - turns left 90, and other symbols do nothing |
| Generators.DragonLine | src/modules/turtle_generator.py:297-327 | the dragon curve is a single line of 2^n + 1 points |
| Generators.GenerateDragon | src/modules/turtle_generator.py:297-327 | draws the dragon exactly when the options are numbers, otherwise fails; the result is one line of 2^n + 1 points |
| Generators.LayoutJumps | src/modules/turtle_generator.py:602-618 | the text starts one line per stroke of at least two points of a known character |
| Generators.SkipsBlank | src/modules/turtle_generator.py:603-607 | a space or an unknown character draws nothing, and only advances x |
| Generators.XAfterSpan | src/modules/turtle_generator.py:597-618 | after a text, x has advanced one letter width per character less half a width per space |
| Generators.Centred | src/modules/turtle_generator.py:597-600 | a text without spaces ends as far right of the origin as it began left of it |
| Generators.DrawStroke | src/modules/turtle_generator.py:610-616 | a stroke of at least two points is a jump to its first point and a move to each other, placed and scaled in the letter cell |
| Generators.DrawGlyph | src/modules/turtle_generator.py:609-616 | a character's strokes are drawn in order, skipping those with fewer than two points |
| Generators.DrawChar | src/modules/turtle_generator.py:603-618 | draws the character's glyph at x and returns x advanced by the letter width (half for a space) |
| Generators.DrawText | src/modules/turtle_generator.py:602-618 | the loop draws the characters left to right as the layout defines |
| Generators.TextTurtle | src/modules/turtle_generator.py:540-620 | the text turtle is the layout of the upper-cased text, centred; it has one line per drawn stroke |
| Generators.GenerateText | src/modules/turtle_generator.py:540-620 | draws the text exactly when the options are valid, otherwise fails; one line per drawn stroke |
| Generators.BoxCorners | src/modules/turtle_generator.py:531-536 | the border rectangle's corners are the four margin-inset edges, closed |
| Generators.DefaultBorder | src/modules/turtle_generator.py:524-536 | with default settings and margin the border runs from (-410.5, -584.5) to (410.5, 584.5) |
| Generators.Border | src/modules/turtle_generator.py:526-536 | the border turtle is a single closed rectangle |
| Generators.GenerateBorder | src/modules/turtle_generator.py:524-538 | draws the border exactly when the work area and margin are numbers, otherwise fails with that error |
| Generators.FitInsideArea | src/modules/turtle_generator.py:145-152 | for any numeric work area at least 40 units wide and high, every point of a generated drawing that is not flat lies inside the area, at least 20 units from every edge |
| Generators.DefaultFitBox | src/modules/turtle_generator.py:145-152 | with the default settings the fit box is (-400.5, -574.5) to (400.5, 574.5) |
| Generators.DefaultFitInside | src/modules/turtle_generator.py:134-154 | with the default settings every point of a generated drawing that is not flat lies at least 20 units inside the sheet |
| Generators.FittedCounts | src/modules/turtle_generator.py:145-152 | fitting keeps the number of layers, lines and points |
| Generators.FitToWorkArea | src/modules/turtle_generator.py:145-152 | the drawing is fitted to the work area inset by 20; a non-numeric work area fails and leaves it unchanged |
| Generators.FittedMaze | src/modules/turtle_generator.py:134-154 | the maze, fitted; it fails with the first error; one line per standing wall |
| Generators.FittedDragon | src/modules/turtle_generator.py:134-154 | the dragon, fitted; one line of 2^n + 1 points |
| Generators.FittedBorder | src/modules/turtle_generator.py:134-154 | the border, fitted to the work area |
| Generators.FittedText | src/modules/turtle_generator.py:134-154 | the text, fitted; one line per drawn stroke |
| Generators.FittedOther | src/modules/turtle_generator.py:134-154 | a drawing from a generator outside the model, fitted to the work area; the first error is passed on |
| Generators.Generate | src/modules/turtle_generator.py:134-154 | an unknown name fails with "Unknown generator: " and the name; a known one runs its generator and fits the result to the work area inset by 20, failing with the first error |
| Generators.ListedDefaultsAgree | src/modules/turtle_generator.py:17-122 | the defaults listed in the catalogue for maze, dragon, border and text are the defaults the generators use |
| Generators.MazeDefaultsListed | src/modules/turtle_generator.py:46-53 | the maze's listed defaults (20 rows, 20 columns, cell size 15) are the defaults `_generate_maze` reads at lines 231-233 |
| Generators.DragonDefaultsListed | src/modules/turtle_generator.py:55-61 | the dragon's listed defaults (12 iterations, size 3) are the defaults `_generate_dragon` reads at lines 301-302 |
| Generators.BorderDefaultsListed | src/modules/turtle_generator.py:17-122 | the border's listed defaults are its built-in defaults |
| Generators.TextDefaultsListed | src/modules/turtle_generator.py:17-122 | the text's listed defaults are its built-in defaults |
| Gpent.GeneratorId | src/modules/gpent.py:155-159 | a number in 1..25 maps to its table id; any other number maps to "spiral" |
| Gpent.ColorId | src/modules/gpent.py:162-166 | a number in 1..9 maps to its table id; any other number maps to "black" |
| Gpent.TablesDistinct | src/modules/gpent.py:16-55 | the ids of both tables are distinct, so distinct generator numbers name distinct generators |
| Gpent.ServedGenerators | src/modules/gpent.py:16-42 | generator numbers 1 to 11, and any number out of range, name a generator that exists; numbers 12 to 25 name generators that do not |
| Gpent.Trunc | src/modules/gpent.py:155 | `int()` of a float truncates toward zero |
| Gpent.PyInt | src/modules/gpent.py:155 | `int()` accepts integers, booleans, floats and strings that parse, and raises for anything else |
| Gpent.ArrayMatch | src/modules/gpent.py:144 | a match starts with '[' and ends with ']' |
| Gpent.ArrayMatchSpec | src/modules/gpent.py:144 | there is a match exactly when some '[' precedes some ']'; it runs from the first '[' to the first ']' after it |
| Gpent.Accepted | src/modules/gpent.py:148-149 | every accepted entry has a "generator" key, and there are no more of them than elements |
| Gpent.AcceptedAppend | src/modules/gpent.py:148-149 | the filter keeps entries in order: filtering a concatenation is concatenating the filtered parts |
| Gpent.AcceptedAt | src/modules/gpent.py:148-168 | each dictionary with a "generator" key is kept, at the position given by the accepted entries before it |
| Gpent.Thoughts | src/modules/gpent.py:151-152 | there are no more thoughts than commands |
| Gpent.ThoughtsSpec | src/modules/gpent.py:151-152 | the thoughts are exactly the "thought" fields of the accepted commands |
| Gpent.Annotate | src/modules/gpent.py:155-168 | a command keeps its fields and gains "generator_id" and "color_id" from the tables, with 1 and 2 as defaults; it fails when `int()` fails |
| Gpent.AnnotateDefaults | src/modules/gpent.py:155-166 | a command without a colour is black, and an out-of-range generator is the spiral |
| Gpent.ContainsSpec | src/modules/gpent.py:172 | the substring test holds exactly when the text occurs at some position |
| Gpent.FinishedAnyCase | src/modules/gpent.py:172 | the reply is finished exactly when some eight-character slice of it upper-cases to "FINISHED" |
| Gpent.TakeCommand | src/modules/gpent.py:150-168 | one accepted command is annotated and appended, with its thought; it fails exactly when `int()` fails on its generator or colour |
| Gpent.TakeAt | src/modules/gpent.py:149-168 | one pass of the loop: an element that is not a dictionary with a 'generator' key is skipped; an accepted one is annotated and appended with its thought; an `int()` failure on it ends the loop with the error of that accepted entry |
| Gpent.ArrayMatchFound | src/modules/gpent.py:144 | the regular expression finds an array exactly when some '[' precedes some ']' |
| Gpent.ParseCommands | src/modules/gpent.py:135-172 | succeeds exactly when every accepted entry converts; then the commands are the accepted entries, annotated and in order, the thoughts are their "thought" fields, and the reply is finished exactly when "FINISHED" occurs in its upper-cased text |
| Gpent.NothingToParse | src/modules/gpent.py:144-170 | no bracketed array, or one that does not decode, yields no commands |
| Gpent.GenerateArtwork | src/modules/gpent.py:194-220 | with no commands only the raw reply is returned; otherwise the annotated commands, the thoughts and the finished flag with the raw reply; a conversion error propagates |

## Left out

- Trigonometry and square roots. The heading's unit vector in `forward` and the dragon walk is a parameter `heading`. `draw_circle` takes its 37 (cos, sin) pairs as a `unit` table. Left out entirely: `backward`, `rotate`, `draw_arc` with other angles or step counts, `distance_to`, `get_draw_distance` and `get_travel_distance` (src/modules/turtle.py:17-20, 120-122, 140-156, 222-243, 300-312).
- Floating point: coordinates are exact reals, with no rounding, `inf` or `nan`.
- Number text: `float()` and `int()` of strings are the parameters `parse` and `parseInt`. Float output is `repr` (Python's `str`) or `fixed3` (`:.3f`).
- Upper- and lower-casing cover ASCII letters only.
- FinishedAnyCase: "any case" means ASCII letter case. Python's `upper()` also maps some non-ASCII characters onto ASCII letters (the ligature `ﬁ` becomes `FI`), and such spellings are not covered.
- Regular expressions: the SVG path and points tokeniser (src/modules/file_handler.py:149, 257) is not modelled. The parser and `_parse_svg_points` take tokens or numbers that are already split.
- PathDataRoundTrip: holds at token level only. The text written by `turtle_to_svg` is not tokenised again, so number forms that the regular expression at src/modules/file_handler.py:149 would split (such as `1e-05`) are not covered.
- `_load_svg`: the XML element walk (src/modules/file_handler.py:86-144) is not modelled, apart from `_parse_svg_path`, `_parse_svg_points` and `draw_circle`.
- `json.loads` is the parameter `decode`. JSON values are a small datatype.
- `build_system_prompt` and `call_gemini` are network and prompt text. `generate_artwork` starts from the reply text.
- Log callbacks in gpent.py, and in the generators, do nothing the model can see.
- The other generators (spiral, spirograph, lissajous, hilbert, tree, hexagons, voronoi, flowfield) use trigonometry or randomness.
- Generators.FittedOther: takes the turtle another generator built as a parameter and only fits it to the work area.
- `random.choice` in the maze is an index oracle `pick`. Every property is proved for all choices.
- The serial port and threads:
  - pyserial's open, read, flush and exceptions: `connect` takes whether the port opened as a parameter;
  - port listing;
  - the reader thread and the lock;
  - `time.sleep`.
- SerialLink.SerialHandler.SendCommand: the `line_number` field is kept but never advanced, as in the source.
- SerialLink.ReadLoop: the chunks the thread reads are a parameter; how bytes are decoded is not modelled.
- Flask routes and Socket.IO:
  - request parsing and the `/api/send_gcode` route;
  - notifications are a ghost event log (serial messages, progress, completion); the gondola position in progress events is not recorded;
  - the "TX: …" notices that `send_command` passes to the serial callback, which app.py emits as `serial_message` before each progress event (src/app.py:58), are kept in the link's own notice list, so their order relative to the session's events is not captured;
  - `clear_uploads_folder` and file saving.
- Controller.Session.LoadProgram: only the upload path that replaces the program (src/app.py:533) is modelled. The cursor is not reset there, so cursor ≤ program length is not an invariant of the session.
- Controller.Session.SendNextLine: the source's recursion over skipped lines is a loop, with the same order of effects.
- Controller.Session.EmergencyStop: the flushing of the port buffers (src/app.py:359-361) is left out.
- Settings persistence: `load` and `save` are JSON file I/O (src/modules/plotter_settings.py:91-108). The constructor takes the loaded map.
- `GCodeGenerator` (turtle to G-code and back) is not part of this model. Its source is not available, so no round trip is claimed.
- Not part of this model: src/modules/image_converter.py, src/mqtt_subscriber.py and build_static.py.
- Gpent.ServedGenerators: generator numbers 12 to 25 name ids with no `_generate_` method. Generating them fails with "Unknown generator", and the model states this rather than hiding it.

## Findings

| source | as written | input that shows it | evidently intended | confidence | as-written member | corrected member |
|---|---|---|---|---|---|---|
| src/modules/file_handler.py:276-309 | The group-code loop of a LINE or CIRCLE entity starts on the entity-name line itself. So it takes `LINE` as a group code and `10` as its value, and then pairs every code with the following code. | `0, LINE, 10, 1, 20, 2, 11, 3, 21, 4, 0, EOF` is read as the line (0,0)-(0,0). | Read the pairs from the line after the entity name, giving the line (1,2)-(3,4). | not executed | Files.ShiftedRecordMisread, Files.ShiftedGroups | Files.LineRecordRoundTrip, Files.EntityStep, Files.EntityAt, Files.DrawDxf, Files.LoadDxf |
