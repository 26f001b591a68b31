# BitArm: a verified model of the touch interface, its display and touch drivers, and the servo controller

BitArm is a small robotic arm that a touch screen on a second board drives.
The touch board runs MicroPython. It draws a grid of ten buttons on an
ILI9341 LCD and polls a TSC2046 resistive touch controller on the same SPI
bus, switching the bus speed between the two. Each polling tick turns
touches into single command characters, which it sends over BLE. The arm
board is an ESP32. It receives the characters, maps each one to a pose or a
gripper angle, and moves four servos there one degree at a time.

This project models that core in Dafny and proves properties of the model.
It is split into one module per source file:

- `Ili9341` covers the LCD driver. The SPI traffic is a log of command and
  data records (`Display.bus`), and every drawing method is proved to append
  the records of a specification function. The module shows how
  `fill_rect` splits its pixels into chunks, the byte count it streams, how
  a glyph's cells tile its box, and where `text` moves its cursor.
- `Tsc2046` covers the touch driver. It assembles the 12-bit samples from
  the SPI replies, normalises them against the calibration rectangle, and
  decides whether the panel is touched.
- `Buttons` covers the screen layout. It holds the ten touch zones and their
  first-match classification, the eight buttons that `montar_botoes` draws,
  and the `RainbowColors` generator.
- `ControlLoop` covers one iteration of the main loop. The tick is a
  specification function over the loop's state, and a class runs the same
  steps imperatively. The module proves the debouncing, the gripper latch,
  the long-press shutdown and the easter-egg counter, over one tick and over
  whole runs.
- `ArmController` covers the servo controller. It models the preset table,
  the angle-to-duty map, the step-by-step joint moves and the command
  dispatch of `onWrite`.
- `prelude.dfy` holds three support modules: `Optional`, `Bits` (bytes,
  shifts, masks) and `Sequences` (repetition and concatenation facts).

## Model

| member | source | states |
|---|---|---|
| Ili9341.MadctlValue | Firmware/external/libs/ili9341.py:41-54 | each orientation's MADCTL byte is the OR of its flags: MX\|BGR, MV\|BGR, MY\|BGR, MV\|MY\|BGR |
| Ili9341.MadctlFlags | Firmware/external/libs/ili9341.py:41-54 | BGR is set in every orientation; MV is set exactly for the two landscapes, MY exactly for the two inverted ones, MX only for portrait |
| Ili9341.Pack16 | Firmware/external/libs/ili9341.py:173 | `pack(">H", v)` gives two bytes that read back big-endian as `v` modulo 2^16 |
| Ili9341.Pack16Unpack16 | Firmware/external/libs/ili9341.py:173 | packing the value that two bytes encode gives back those bytes (round trip) |
| Ili9341.WindowLayout | Firmware/external/libs/ili9341.py:171-180 | for 16-bit coordinates, `set_window` sends CASET with `x, x+w-1`, then RASET with `y, y+h-1`, each as two big-endian halves of a 4-byte record, then RAMWR |
| Ili9341.ChunkSplit | Firmware/external/libs/ili9341.py:209-212 | the pixel count is full chunks times 256 plus a remainder below 256 |
| Ili9341.FillRectShape | Firmware/external/libs/ili9341.py:204-221 | `fill_rect` sends the window, then one record per full chunk and a last record only when pixels remain; every data record is non-empty, at most 512 bytes, and repeats the big-endian colour |
| Ili9341.ChunkStreamShape | Firmware/external/libs/ili9341.py:214-221 | the chunk stream has one record per full chunk plus one when a remainder is left, and each record repeats the two colour bytes |
| Ili9341.FillRectDataBytes | Firmware/external/libs/ili9341.py:204-221 | after the window, `fill_rect` streams exactly `2*w*h` colour bytes |
| Ili9341.ChunkStreamBytes | Firmware/external/libs/ili9341.py:214-221 | the chunks carry `512*full + 2*remaining` bytes |
| Ili9341.DataBytesAppend | Firmware/external/libs/ili9341.py:147-157 | the data bytes of two record logs add up |
| Ili9341.DataBytesRepeat | Firmware/external/libs/ili9341.py:215-217 | `n` copies of a data record carry `n` times its bytes |
| Ili9341.PixelIsUnitFillRect | Firmware/external/libs/ili9341.py:186-189 | `pixel` sends the same records as a 1x1 `fill_rect` |
| Ili9341.GlyphCode | Firmware/external/libs/ili9341.py:243-245 | a printable ASCII code is kept and anything else becomes 32 (space) |
| Ili9341.DefaultFontSize | Firmware/external/libs/ili9341.py:305-337 | the built-in font table is 480 bytes, 96 glyphs of 5 columns, so every code from 32 to 126 has its glyph |
| Ili9341.GlyphStart | Firmware/external/libs/ili9341.py:248-249 | a glyph starts at a multiple of 5 and its 5 columns lie inside the font table |
| Ili9341.PixelOn | Firmware/external/libs/ili9341.py:259 | row `r` of a column is lit exactly when bit `7 - r` is set |
| Ili9341.DrawCharOps | Firmware/external/libs/ili9341.py:255-272 | a glyph is drawn as 40 cells, column by column and 8 rows each |
| Ili9341.DrawCharOpAt | Firmware/external/libs/ili9341.py:255-272 | cell `(col, row)` is the foreground colour when its font bit is set and the background otherwise; at scale 1 it is the pixel `(x+col, y+row)`, at other scales the square at `(x+col*s, y+row*s)` of side `s` |
| Ili9341.BlocksTileGlyphBox | Firmware/external/libs/ili9341.py:251-272 | at scale above 1, a point lies in the `5s x 8s` box exactly when some cell covers it, and no two cells cover the same point |
| Ili9341.BlockUnique | Firmware/external/libs/ili9341.py:266-272 | a point lies in at most one block of a row of blocks |
| Ili9341.BlockOfPoint | Firmware/external/libs/ili9341.py:266-272 | every point inside a run of `count` blocks lies in one of them |
| Ili9341.BlockInside | Firmware/external/libs/ili9341.py:266-272 | a point of one of the blocks lies inside the run |
| Ili9341.MulCancel | Firmware/external/libs/ili9341.py:266-272 | block indices compare as the block origins do |
| Ili9341.RenderStep | Firmware/external/libs/ili9341.py:255-272 | drawing one more cell appends that cell's records |
| Ili9341.TextStep | Firmware/external/libs/ili9341.py:296-302 | one more character of `text` moves the cursor by one step and appends that glyph's records, or nothing for a newline |
| Ili9341.TextCursorClosedForm | Firmware/external/libs/ili9341.py:296-302 | after a string, the cursor has moved right by `5*scale + spacing` for each non-newline character and down by `8*scale + line_spacing` for each newline; `x` is never reset |
| Ili9341.Display.constructor | Firmware/external/libs/ili9341.py:80-95 | the defaults (LANDSCAPE_INV, spacing 1, white on black, scale 1, RGB565), then the bring-up commands and a full-screen black fill |
| Ili9341.Display.InitDisplay | Firmware/external/libs/ili9341.py:104-137 | appends SWRESET, SLPOUT, MADCTL and its byte, COLMOD and its byte, INVON, DISPON, then the records of `fill(0)` |
| Ili9341.Display.SendInitCommands | Firmware/external/libs/ili9341.py:114-134 | appends exactly the eight command and data records of the bring-up sequence |
| Ili9341.Display.WriteCmd | Firmware/external/libs/ili9341.py:139-145 | appends one command record |
| Ili9341.Display.WriteData | Firmware/external/libs/ili9341.py:147-157 | appends one data record |
| Ili9341.Display.SetWindow | Firmware/external/libs/ili9341.py:171-180 | appends the window records |
| Ili9341.Display.Fill | Firmware/external/libs/ili9341.py:182-184 | appends the records of a full-screen `fill_rect` |
| Ili9341.Display.Pixel | Firmware/external/libs/ili9341.py:186-189 | appends the window of a single pixel and its two colour bytes |
| Ili9341.Display.FillRect | Firmware/external/libs/ili9341.py:204-221 | appends the window, `pixel_count // 256` full chunks of 512 bytes (none for a negative count) and a last record for the remaining pixels |
| Ili9341.Display.DrawCell | Firmware/external/libs/ili9341.py:258-272 | appends the records of one glyph cell |
| Ili9341.Display.DrawColumn | Firmware/external/libs/ili9341.py:255-272 | the inner loop appends the 8 cells of one column |
| Ili9341.Display.DrawNextCell | Firmware/external/libs/ili9341.py:258-272 | one pass of the inner loop extends the drawn prefix by one cell |
| Ili9341.Display.DrawChar | Firmware/external/libs/ili9341.py:238-274 | applies the colour and scale defaults, appends the 40 cells of the glyph, and returns `(5*scale, 8*scale)` |
| Ili9341.Display.Text | Firmware/external/libs/ili9341.py:291-302 | appends the glyph records of every non-newline character at the cursor that the string has reached |
| Ili9341.Display.TextChar | Firmware/external/libs/ili9341.py:297-302 | one character: a newline moves down and draws nothing, anything else draws its glyph and moves right |
| Tsc2046.AxisValue | Firmware/external/libs/tsc2046.py:83 | the sample is `hi*16 + lo/16`, below 4096, so the 12-bit mask never cuts anything |
| Tsc2046.Clamp01 | Firmware/external/libs/tsc2046.py:121-122 | the result is in [0, 1]; a value inside is kept and one outside goes to the nearer bound |
| Tsc2046.Normalize | Firmware/external/libs/tsc2046.py:111-124 | fails exactly when the X or Y bounds are equal (a division by zero); otherwise both coordinates are in [0, 1] and the pressure is passed through |
| Tsc2046.CalibrationEndpoints | Firmware/external/libs/tsc2046.py:114-118 | before clamping, `x_min` maps to 0 and `x_max` to 1; the Y axis is inverted, so `y_max` maps to 0 and `y_min` to 1 |
| Tsc2046.RatioInUnit | Firmware/external/libs/tsc2046.py:114-118 | a ratio whose numerator lies between zero and the denominator is in [0, 1] |
| Tsc2046.InsideBoundsNotClamped | Firmware/external/libs/tsc2046.py:114-122 | a sample between the bounds, in either order, is not changed by the clamp |
| Tsc2046.DefaultCalibrationScale | Firmware/external/libs/tsc2046.py:48 | with the default calibration, a 12-bit sample maps to `x/4095` and `(4095-y)/4095` |
| Tsc2046.DefaultCalibrationSamples | Firmware/external/libs/tsc2046.py:48 | the same for values assembled from three SPI replies |
| Tsc2046.PanelCalibrationCorner | main.py:193-197 | with the panel calibration (X bounds swapped), raw `(150, 270)` is the corner `(1, 1)` |
| Tsc2046.TouchDecision | Firmware/external/libs/tsc2046.py:135 | with an IRQ line, touched means the line is low; without one, touched means the pressure exceeds 100, and a failed read fails |
| Tsc2046.TouchPanel.constructor | Firmware/external/libs/tsc2046.py:45-48 | the default calibration and no traffic yet |
| Tsc2046.TouchPanel.SetCalibration | Firmware/external/libs/tsc2046.py:85-93 | the calibration is replaced as given |
| Tsc2046.TouchPanel.ReadAxis | Firmware/external/libs/tsc2046.py:67-83 | sends the command byte and returns the assembled 12-bit value |
| Tsc2046.TouchPanel.Read | Firmware/external/libs/tsc2046.py:95-124 | sends X, Y, Z in that order and returns the normalisation of the three samples |
| Tsc2046.TouchPanel.IsTouched | Firmware/external/libs/tsc2046.py:126-135 | touches the bus only without an IRQ line, and returns the touch decision |
| Buttons.ZoneIndex | main.py:319-356 | the zones are numbered 0..9 in the order of the chain, and only the two gripper zones get 8 and 9 |
| Buttons.ZoneIndexInjective | main.py:319-356 | different zones have different numbers |
| Buttons.ZonesDisjoint | main.py:319-356 | no pixel lies in two zones |
| Buttons.ClassifyIsZoneLookup | main.py:319-356 | the `if`/`elif` chain picks zone `z` exactly when `z`'s flag is clear and the pixel is in `z`; it picks nothing exactly when no such zone exists |
| Buttons.ClassifyEdges | main.py:319-356 | the zone bounds are half-open: `(80, 0)` is D2, and `x = 320` or `y = 240` is outside every zone |
| Buttons.LabelOffsetValue | main.py:115-116 | the label offset is `80 // 2 - 15` |
| Buttons.ButtonsMatchZones | main.py:113-135 | each drawn button covers exactly the zone that sends its command and carries that zone's label; its two colours are `cor1` and `cor2`, and neighbours alternate like a checkerboard |
| Buttons.FlattenStep | main.py:118-134 | drawing one more button appends its records |
| Buttons.LayoutParts | main.py:118-120 | the layout has eight buttons |
| Buttons.LayoutPartAt | main.py:118-134 | the stretch at `4*linha + coluna` is the button at that row and column |
| Buttons.CaptionAt | main.py:117-122 | the label built from the row letter and the column digit is the button's caption |
| Buttons.DrawButton | main.py:131-133 | appends the outer square, the square inset by 5, and the label at scale 3 |
| Buttons.DrawLayoutCell | main.py:123-133 | draws the cell at `(80*coluna, 80*linha)` with colours chosen by the parity of `linha + coluna` |
| Buttons.MountRow | main.py:119-134 | the inner loop appends the four buttons of a row |
| Buttons.MountRows | main.py:117-135 | the outer loop appends the eight buttons, row D and then row U |
| Buttons.MountButtons | main.py:113-135 | `montar_botoes` appends an optional full-screen fill and then the eight buttons |
| Buttons.RainbowNeverResets | main.py:226-233 | from 0, `next` moves up by 0xA on every call and never reaches 0xFFFF, so the wrap to 0 never fires |
| Buttons.RainbowOutgrowsSixteenBits | main.py:230-233 | since the colour never wraps, after 6554 calls it is 65540, past 16 bits, and packs to the same bytes as 4 |
| Buttons.RainbowColors.constructor | main.py:228-229 | starts at colour 0 |
| Buttons.RainbowColors.Next | main.py:230-233 | resets 0xFFFF to 0, adds 0xA to anything else, and returns the new colour |
| ControlLoop.Command | main.py:361-423 | D1..D4 send '0'..'3' and U1..U4 send '4'..'7', in zone order |
| ControlLoop.FirstSet | main.py:361-447 | the release chain finds a set flag exactly when some flag is set |
| ControlLoop.NoZoneNoFlags | main.py:361-460 | a set of zones with no first element is empty |
| ControlLoop.SilentSendsNothing | main.py:250-478 | a log with no send events sends no characters |
| ControlLoop.SendsAppend | main.py:250-478 | the characters sent by two logs add up |
| ControlLoop.SendsOne | main.py:361-460 | a log with one send event around silent ones sends that one character |
| ControlLoop.AtMostOneFlag | main.py:309-356 | a set of at most one zone that holds `z` is `{z}` |
| ControlLoop.SilentAppend | main.py:250-478 | two silent logs together are silent |
| ControlLoop.TouchedPhaseFlags | main.py:291-356 | a touched tick sets at most one flag, and only on the tick the touch starts; it keeps the latch, counts `k` while `closeit` holds, ends the loop exactly at `k == 200`, and sends nothing |
| ControlLoop.ReleaseChars | main.py:361-460 | releasing a zone sends at most one character |
| ControlLoop.ReleaseSends | main.py:357-460 | a release tick sends at most one character |
| ControlLoop.ReleaseZoneFacts | main.py:361-460 | releasing a zone clears its flag and flips the latch at most; releasing D1 lowers `ee` by one, releasing U1 raises it by one, and any other zone leaves it alone; the characters sent are `ReleaseChars` |
| ControlLoop.ReleasedPhaseFlags | main.py:357-460 | a release tick clears the flag it handles and keeps the others, and flips the latch only for close or open; `ee` drops by one when that flag is D1, rises by one when it is U1, and stays otherwise; the characters sent are `ReleaseSends` |
| ControlLoop.EasterEggPhaseBounds | main.py:462-476 | the easter-egg block leaves `ee` in 0..3 and keeps the colour invariant, never lowers `n`, and sends nothing |
| ControlLoop.EasterEggSilent | main.py:462-476 | the easter-egg block never sends, whatever the state |
| ControlLoop.TickTailSilent | main.py:462-478 | the end of a tick sends nothing |
| ControlLoop.TickSends | main.py:250-478 | a touched tick sends nothing, and a release tick sends exactly `ReleaseSends` |
| ControlLoop.TouchedPhaseSilent | main.py:291-356 | the touched branch sends no character |
| ControlLoop.TickPreservesInv | main.py:250-478 | every tick keeps the loop invariant: no flag once released and at most one while touched, an exclusive latch, `ee` in 0..3, `k` at most 200 unless ending, colours multiples of 0xA, the bus at 1 MHz |
| ControlLoop.TouchTickPreservesInv | main.py:291-356 | the touched tick keeps the invariant |
| ControlLoop.ReleaseTickPreservesInv | main.py:357-460 | the release tick keeps the invariant |
| ControlLoop.TickFlagsAndCommands | main.py:291-460 | a held touch changes no flag; a new touch sets only the flag of the touched zone; a release clears every flag; at most one character goes out per tick, and none while touched |
| ControlLoop.ReleaseSendsCommand | main.py:361-423 | releasing a pose button sends its character and leaves the latch alone |
| ControlLoop.ReleaseLatch | main.py:424-460 | releasing close while open closes the gripper and sends '8', and while closed sends nothing; releasing open is the mirror image with '9' |
| ControlLoop.LongPress | main.py:293-307 | `k` counts the touched ticks on which `closeit` holds and is never reset; the loop ends exactly after a touched tick that starts at `k == 200` |
| ControlLoop.EasterEggCounter | main.py:462-476 | at `ee >= 3`, `ee` is pinned to 3 and every hundredth tick advances the rainbow colour into `BRANCO`; a negative `ee` becomes 0; below 3 a coloured `BRANCO` goes back to 0 with `ee` |
| ControlLoop.TickEndsSlow | main.py:478 | every connected tick ends with the bus set back to 1 MHz |
| ControlLoop.Holds | main.py:250 | `m` ticks of a held touch |
| ControlLoop.RunAppend | main.py:250 | running two input sequences one after the other is running their concatenation |
| ControlLoop.RunOne | main.py:250 | a run of one input is one tick |
| ControlLoop.InitialInv | main.py:279-285 | the state the initialisation block sets up (no flags, `opened` and not `closed`, counters at zero) satisfies the loop invariant |
| ControlLoop.RunPreservesInv | main.py:250-478 | any run of ticks from a state satisfying the invariant ends in a state satisfying it |
| ControlLoop.ReachableInv | main.py:250-478 | every state the loop reaches from initialisation, over any inputs, satisfies the invariant: at most one flag, an exclusive gripper latch, `ee` in 0..3, `k` at most 200 unless ending, the bus at 1 MHz |
| ControlLoop.HoldIsQuiet | main.py:291-356 | holding a pose button down for any number of ticks sends nothing and keeps its flag and the invariant |
| ControlLoop.PressHoldRelease | main.py:291-423 | touching a pose button, holding it for any number of ticks and letting go sends that button's command exactly once |
| ControlLoop.Loop.constructor | main.py:175-289 | the state after initialisation, which satisfies the invariant: no flags, gripper open, counters at zero; the bus set up at 30 MHz, the first screen drawn, the bus at 1 MHz, and '4' and '9' sent |
| ControlLoop.Loop.SetSpiSpeed | main.py:93-94 | sets the bus speed and logs it |
| ControlLoop.Loop.Emit | main.py:250-478 | logs one effect |
| ControlLoop.Loop.ShutdownCheck | main.py:293-304 | at `k == 200` the bus goes to 50 MHz, the shutdown runs and `end` is set |
| ControlLoop.Loop.TouchStartStep | main.py:309-356 | on a new touch: read the panel, switch the bus to 30 MHz, and set the flag of the first free zone under the pixel |
| ControlLoop.Loop.TouchedStep | main.py:291-356 | the touched branch as the specification function states it |
| ControlLoop.Loop.ReleaseCloseStep | main.py:424-445 | the latch and send of releasing close |
| ControlLoop.Loop.ReleaseOpenStep | main.py:447-460 | the latch and send of releasing open |
| ControlLoop.Loop.ReleaseButtonStep | main.py:361-423 | the easter-egg count and the send of releasing a pose button |
| ControlLoop.Loop.ReleaseZoneStep | main.py:361-460 | releasing one zone: the bus at 50 MHz, its flag cleared, then its action |
| ControlLoop.Loop.ReleasedStep | main.py:357-460 | the release branch as the specification function states it |
| ControlLoop.Loop.RainbowRedraw | main.py:464-471 | the next rainbow colour becomes `BRANCO` and the buttons are redrawn at 50 MHz, then the bus goes back to 1 MHz |
| ControlLoop.Loop.EasterEgg | main.py:462-476 | the easter-egg block as the specification function states it |
| ControlLoop.Loop.Tick | main.py:250-478 | one iteration of `while not end`: the touched or release branch, then the easter egg, then the bus back to 1 MHz; nothing happens while offline |
| ArmController.PresetsKeepGripper | Arm/arm_controller.cpp:42-52 | the eight presets all keep the gripper at 90; the bases lie in 5..160, and the second arm joint sits 20 above the first, which is 100 or 130 |
| ArmController.TruncDiv | Arm/arm_controller.cpp:29-31 | C++ integer division truncates toward zero |
| ArmController.AngleToDuty | Arm/arm_controller.cpp:29-31 | `map(ang, 0, 180, 1638, 8192)` is `ang*6554/180 + 1638`, truncated, and lies in 1638..8192 for angles in 0..180 |
| ArmController.AngleToDutyMonotone | Arm/arm_controller.cpp:29-31 | 0 maps to 1638 and 180 to 8192, and the map never decreases on 0..180 |
| ArmController.Div180Monotone | Arm/arm_controller.cpp:29-31 | division by 180 preserves order on non-negative values |
| ArmController.StepJoint | Arm/arm_controller.cpp:64-74 | a joint not at its target moves one degree closer and stays between its old value and the target; at the target it stays |
| ArmController.Step | Arm/arm_controller.cpp:63-74 | one loop pass brings the largest remaining joint distance down by one |
| ArmController.FullMoveLength | Arm/arm_controller.cpp:63-82 | the smooth move writes once per degree of the largest joint distance |
| ArmController.FullMoveStaysBetween | Arm/arm_controller.cpp:63-82 | every written pose lies between start and target, and each write moves every joint at most one degree towards its target |
| ArmController.FullMoveEndsAtTarget | Arm/arm_controller.cpp:63-82 | the last write of a non-empty move is the target |
| ArmController.GripperMoveShape | Arm/arm_controller.cpp:98-105 | the gripper loop writes `|a - t|` times and its last write is the target |
| ArmController.GripperOnlyWrites | Arm/arm_controller.cpp:103 | the gripper loop writes only the gripper channel |
| ArmController.ParseCommand | Arm/arm_controller.cpp:114-129 | empty means no command; '0'..'7' select that preset, '8' sets the gripper to 60 and '9' to 120; anything else is invalid |
| ArmController.OnlyFirstCharCounts | Arm/arm_controller.cpp:116-117 | only the first character of the value counts |
| ArmController.TargetPose | Arm/arm_controller.cpp:118-127 | a preset command takes the arm to exactly that entry of the preset table, whose gripper is 90; a gripper command changes only the gripper; no command and an invalid one leave the pose |
| ArmController.InvalidIsNoOp | Arm/arm_controller.cpp:125-127 | an empty or invalid value moves nothing and writes nothing |
| ArmController.GripperCommandMovesGripperOnly | Arm/arm_controller.cpp:121-124 | '8' and '9' keep the other three joints, end on 60 or 120, and write only the gripper, once per degree |
| ArmController.Arm.constructor | Arm/arm_controller.cpp:23-26 | all four joints start at 90 |
| ArmController.Arm.StepToward | Arm/arm_controller.cpp:64-74 | the two `if`s move a joint as `StepJoint` states |
| ArmController.Arm.ApplyFullPose | Arm/arm_controller.cpp:54-92 | ends at the target and appends the writes of the smooth move from the old pose |
| ArmController.Arm.MoveGripperTo | Arm/arm_controller.cpp:94-109 | changes only the gripper and appends the gripper writes from its old angle |
| ArmController.Arm.OnWrite | Arm/arm_controller.cpp:114-129 | the new pose and the writes are those of the parsed command |

## Left out

- BLE, `asyncio` and every sleep or delay are left out. Connecting is modelled only as an `Offline` tick that does nothing; the reconnection messages are not modelled.
- The LEDs, the OLED, the buzzer and `Serial.printf` are output with no effect on the modelled state, so they are left out.
- The press and release animations (`tocar_botao`, `tocar_garra`, `abrir`, `fechar`), the first screen that `init` draws and the shutdown screen are abstract log events (`Press`, `Release`, `Recolor`, `InitialScreen`, `Shutdown`), not display records. `montar_botoes` itself is modelled on the display.
- `init_bitdog`, `oled_write`, `play`, `led` and `wait_movement` are outside the core and are left out.
- Touch input is the touched pixel as an integer. The float read and its conversion `int(x * 320)`, `int(y * 240)`, including the swapped tuple `y, x, z = touch.read()`, are not modelled.
- Tsc2046.Normalize: the division and the clamp run over exact reals, not floating point, so rounding is not modelled.
- The calls to `is_touched` inside the tick are inputs. The model does not connect the tick to `Tsc2046.TouchPanel.IsTouched`.
- Chip-select and data/command pin toggling, the reset pin and the bring-up delays of the two drivers are left out. The bus is a log of command and data records.
- Ili9341.Pack16: keeps the low 16 bits of the colour. This is what MicroPython's `ustruct.pack(">H", v)` stores. A colour can pass 0xFFFF: the rainbow colour is never wrapped, reaches 65540 after 6554 redraws (`Buttons.RainbowOutgrowsSixteenBits`), and is then handed as `BRANCO` to `fill_rect`.
- Ili9341.Madctl: the orientation bytes are a table. `MadctlValue` proves that each one equals the OR of its flags.
- The debug printing of the display driver (`_debug`) is never enabled, so it is left out.
- ArmController.AngleToDuty: Arduino's `map` is outside the repository. The model uses its usual definition, `(x - in_min) * (out_max - out_min) / (in_max - in_min) + out_min`, with C++ truncating division.
- `ledcWrite` is modelled as a log of `ServoWrite` entries carrying the joint angles, not duty values. The PWM setup and the BLE server of the arm board are left out.
- Buttons: the label offset of 25 is a constant. `LabelOffsetValue` ties it to `80 // 2 - 15`.

Where the behaviour described for the system and the code differ, the model follows the code:
- A newline in `text` moves the cursor down but does not bring `x` back to the start column.
- `k` counts every touched tick on which `closeit` is set, over the whole session, and is never reset.
- On the tick that shuts down, the rest of the touched branch still runs, at 50 MHz.
