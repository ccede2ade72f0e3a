# AP3216C sensor / SSD1306 OLED demo — Dafny model

This project models the core of an OpenHarmony demo, `base_ap3216c_example.c`.
At start-up, `SensorOledDemo` initializes three I²C devices:

- the PCF8574 I/O expander;
- the AP3216C infrared / ambient-light / proximity sensor;
- the SSD1306 OLED display.

It then creates the display task. `SensorDisplayTask` clears the screen and draws the title `" AP3216C Sensor "` on row 0. After that it loops forever. Each pass reads the sensor and formats each of the three channels into a 20-byte buffer. For each channel it clears the buffer with `memset_s`, formats it with `sprintf_s` using `" IR: %-5d "`, `" ALS: %-5d "` or `" PS: %-5d "`, and draws it on rows 1, 2 and 3. Then it sleeps for one second.

The model has seven modules:

- `Decimal`: decimal digit strings and their parser.
- `Printf`: the subset of `printf` formatting used here (ISO C11 section 7.21.6.1): ordinary characters, `%%`, and `d` conversions with `-` flags and a field width.
- `SafeString`: `memset_s` (ISO C11 section K.3.7.4.1), `sprintf_s` (section K.3.5.3.6), and the C-string view of a buffer.
- `ChannelLine`: the three channel lines, their fixed width, parsing them back, and the 20-byte buffer after each clear-and-format.
- `Display`: the display's text surface. Clearing blanks it; drawing a text overwrites the characters it covers.
- `SensorTask`: device calls as events in a trace. It covers the start-up order, the task as a method, the structure of the trace, and the screen contents after replaying the trace.
- `Wrappers`: `Option`.

The endless `while (1)` loop becomes one iteration per reading in an input sequence. Each reading holds the values in `ir`, `als` and `ps` after that iteration's `AP3216C_ReadData` call. Buffers are sequences of characters with `'\0'` as NUL; the `uint8_t` buffer holds ASCII text.

The model keeps these facts of the code:

- The return value of `AP3216C_ReadData` is ignored (line 40). Each iteration draws whatever `ir`, `als` and `ps` hold, so a reading is just the values of those variables, and no skip or retry exists.
- The three init calls are never checked (lines 69-71). The model always emits all three inits and then the task creation.
- `" ALS: %-5d "` writes 56 as `"56"`, then three padding spaces, then the format's final space: `" ALS: 56    "`, 12 characters. `SensorTask.ExampleReading` proves this line.
- `ps` is declared `uint16_t` (line 30), like `ir` and `als`, so all three channels are 16-bit.

## Model

| member | source | states |
|---|---|---|
| `Decimal.Digits` | base_ap3216c_example.c:44 | the digits `%d` writes for a non-negative value: at least one decimal digit, no leading zero, and `"0"` exactly when the value is zero |
| `Decimal.ParseDigitsOfDigits` | base_ap3216c_example.c:44 | reading the written digits back as a decimal number gives the original value |
| `Decimal.DigitsOfParseDigits` | base_ap3216c_example.c:44 | writing the number a canonical digit string denotes gives that same string: the other direction of the round trip |
| `Decimal.DigitsLengthBound` | base_ap3216c_example.c:30 | a value needs at most k digits exactly when it is below 10^k, so any 16-bit value has at most 5 digits and the `%-5d` padding is never negative |
| `Printf.Field` | base_ap3216c_example.c:44 | the field-width rule: the field is `width` characters wide, or as long as the conversion if that is longer; with `-` the digits come first and spaces fill the rest, otherwise the spaces come first |
| `Printf.LeftJustifiedFormat` | base_ap3216c_example.c:44-56 | a format made of a `%`-free prefix, then `%-5d`, then a space, applied to one value, writes the prefix, the left-justified width-5 field of the value, and the space |
| `SafeString.MemsetS` | base_ap3216c_example.c:43 | `memset_s` writes the fill byte into exactly the first `n` bytes (at most `smax` of them) and leaves the rest; `n > smax` is a constraint violation |
| `SafeString.SprintfS` | base_ap3216c_example.c:44 | `sprintf_s` meets its runtime constraints exactly when the buffer size is positive, the format is valid and the text plus its NUL fits. Then it writes the text and a NUL, leaves the bytes after that unchanged and returns the text length. On a violation it returns zero, and when the size is positive it sets byte 0 to NUL |
| `SafeString.CString` | base_ap3216c_example.c:45-46 | the text a draw call reads from a buffer: the characters before the first NUL; there is such a text exactly when the buffer holds a NUL |
| `SafeString.CStringOfTerminated` | base_ap3216c_example.c:45-46 | a NUL-free text followed by a NUL reads back as exactly that text, whatever follows |
| `ChannelLine.ChannelText` | base_ap3216c_example.c:44-56 | each channel's line has a fixed width whatever the value: 11 for IR and PS, 12 for ALS |
| `ChannelLine.FormatIsChannelText` | base_ap3216c_example.c:44-56 | for every 16-bit value, formatting the channel's format string gives exactly the label, then the decimal digits, then (5 − digit count) spaces, then one space |
| `ChannelLine.ChannelTextLength` | base_ap3216c_example.c:31-56 | every line with its NUL fits the 20-byte `displayBuff`, so `sprintf_s` never hits its overflow constraint |
| `ChannelLine.ParseChannelTextRoundTrip` | base_ap3216c_example.c:44-56 | parsing a channel line after its label (the digit run, then the padding) gives back the value that was formatted |
| `ChannelLine.ParseChannelTextExact` | base_ap3216c_example.c:44-56 | a text parses to a value only if it is exactly that value's line, so parsing and formatting are inverse in both directions |
| `ChannelLine.ChannelTextInjective` | base_ap3216c_example.c:44-56 | different values always give different lines |
| `ChannelLine.FormatIntoBuffer` | base_ap3216c_example.c:43-44 | clearing the buffer and then formatting a channel value never violates a constraint and returns the line width. The buffer holds the line and every byte after it is NUL |
| `ChannelLine.FormatIntoBufferIsLineBuffer` | base_ap3216c_example.c:43-56 | the buffer after clear-and-format does not depend on what it held before, so formatting the same value twice gives byte-identical buffers |
| `ChannelLine.LineBufferText` | base_ap3216c_example.c:44-46 | the text the draw call reads from the formatted buffer is exactly the channel line |
| `SensorTask.LoopEvents` | base_ap3216c_example.c:38-61 | N loop iterations produce exactly 5·N calls |
| `SensorTask.RenderIteration` | base_ap3216c_example.c:40-60 | one loop pass, run on the one shared display buffer, makes exactly these calls in order, whatever the buffer held: read, draw rows 1, 2 and 3 at column 0 with text size 16, then sleep 1 |
| `SensorTask.SensorDisplayTask` | base_ap3216c_example.c:28-62 | the task, run with one buffer reused across iterations, makes exactly the calls of `TaskTrace(readings)`: clear, title, then one iteration per reading |
| `SensorTask.LoopEventsIteration` | base_ap3216c_example.c:38-61 | iteration k takes up loop events 5k to 5k+4, and they are that reading's iteration |
| `SensorTask.TaskTraceShape` | base_ap3216c_example.c:34-61 | the task makes 2 + 5·N calls: clear and title first, then the N iterations in reading order |
| `SensorTask.LoopEventsKinds` | base_ap3216c_example.c:40-60 | every call inside the loop is a read, a one-second sleep, or a draw at column 0 of row 1, 2 or 3 with text size 16 |
| `SensorTask.TitleOnce` | base_ap3216c_example.c:34-38 | the screen is cleared only at position 0 and row 0 is drawn only at position 1, with the title, so both happen once and before any read |
| `SensorTask.StartupOrder` | base_ap3216c_example.c:69-85 | start-up initializes PCF8574, then AP3216C, then SSD1306, then creates the task; no init or task creation happens after that |
| `SensorTask.SystemInitializedBeforeUse` | base_ap3216c_example.c:69-71 | every call to a device (read, clear, draw) comes after that device's init |
| `SensorTask.TaskScreen` | base_ap3216c_example.c:34-61 | whatever the display showed before, after the task has run through the readings it shows the title on row 0 and the last reading's three lines on rows 1 to 3, with nothing left from earlier readings |
| `SensorTask.NoStaleDigits` | base_ap3216c_example.c:43-58 | drawing one value's line over another value's line of the same channel leaves exactly what drawing only the second would, e.g. 3 drawn over 65535 leaves no stray digit |
| `SensorTask.ExampleReading` | base_ap3216c_example.c:44-58 | ir 1234, als 56, ps 7 are shown as `" IR: 1234  "`, `" ALS: 56    "` and `" PS: 7     "` under the title |

## Left out

- The bodies of `PCF8574_Init`, `AP3216C_Init`, `SSD1306_Init`, `AP3216C_ReadData`, `SSD1306_CLS` and `SSD1306_ShowStr`. They are driver code that is not part of this model and appear only as events. The effect of clearing and drawing on the screen (`Display`) is an assumed text-surface behaviour, not the driver's code.
- The values of the header macros `OLED_TEXT16_COLUMN_0`, `OLED_TEXT16_LINE_0`…`_3` and `TEXT_SIZE_16`, which are defined in a driver header that is not part of this model. They appear as column 0, rows 0 to 3 and the single `TextSize16` size.
- `osThreadNew`, the `osThreadAttr_t` attributes (name, stack size `TASK_STACK_SIZE`, priority), the task handle `SensorTask_ID` and its null check, and `SYS_RUN` (lines 74-94). These are RTOS plumbing, represented by one `CreateTask` event.
- The `printf` diagnostics (lines 66 and 89). They are console output only.
- The real-time meaning of `sleep(1)`: only the `Sleep(1)` call is recorded.
- The endless loop is cut to one iteration per given reading.
- Concurrency: the task runs in its own thread. The model places the task's calls after start-up, so the diagnostic `printf` that may interleave with the task is left out.
- How the sensor produces its values, including byte order and read failures. The values after each read are an input, because the code never checks the read status.
- The ignored return values of `memset_s` and `sprintf_s`. They are computed but never branched on, as in the code.
- SafeString.SprintfS: on a runtime-constraint violation with a positive size, section K.3.5.3.6 of ISO C11 promises only that byte 0 becomes NUL; the model also keeps every other byte, which is one implementation's choice. Formats outside the modelled directives are treated as a runtime-constraint violation, although the standard names only `%n` as one. The source never takes this path, since it always passes a 20-byte buffer and a line that fits.
- Annex K's null-pointer and `RSIZE_MAX` constraints. The source always passes a real 20-byte array and its size.
- Conversions and flags the source does not use: precision, length modifiers, the `+`, space, `#` and `0` flags, and conversions other than `d`. These make `Printf.Format` fail instead of being modelled.
- The physical width of a display row. It depends on the display driver, so rows are unbounded in the model.
- Lines 98-115. They are a pasted fragment with no code to model.
