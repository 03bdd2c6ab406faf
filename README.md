# Bike telemetry controller and LoRa gateway, modelled in Dafny

This project models the logic of three parts of a bike race telemetry system:

- **The rider controller (`rider.py`).**
  - A `PulseCounter` debounces the crank sensor's interrupts.
  - `main` loops forever. Each pass may redraw the display with the halved crank count and may send a LoRa packet `{"id", "c", "w"}`.
  - The 16x1 character LCD is redrawn when the stored halved count differs from the raw counter. Once the counter is non-zero, that holds on every pass, so the display is redrawn every time whether or not the count changed (`Rider.StepHalves`; see Findings).
  - Packets go out only after a random start delay, and then at most once every 3000 ms.
- **The gateway (`gateway.py`).**
  - `NanoGateWay` holds a `connected` flag and a nullable UDP socket.
  - `run` passes each received LoRa packet to `send`, which calls `sendto` only when the gateway is connected.
  - When it is not connected, it reconnects: it joins Wi-Fi, then opens and binds a fresh socket.
  - Nothing ever sets `connected`, so no packet reaches `sendto` and every `run` opens one more socket (`Gateway.NeverTransmits`; see Findings).
- **The HD44780 LCD driver (`Adafruit_LCD.py`).**
  - `CharLCD` translates API calls into `write8` commands.
  - Each command goes onto a 4-bit bus as two enable pulses.
  - It keeps the `displaycontrol` and `displaymode` bit registers.

Each file is modelled as a class whose fields and methods follow the Python object. Each method is proved against a pure function of the old state and its inputs. The properties the code promises are proved as lemmas about those functions.

- `wrappers.dfy` defines `Option`, which stands in for Python's `None`.
- `char_lcd.dfy` (module `CharLcd`) covers the LCD driver.
  - The bus is a log of pulses `(rs, d4, d5, d6, d7)`.
  - A ghost log of `write8` calls is kept, and the bus is always its encoding: two pulses per call (`CharLcd.Encode`). Decoding gives back each value mod 256 (`CharLcd.DecodeEncode`).
  - The `_delay_microseconds` waits are a log of millisecond delays. The `sleep_us` waits inside `write8` and `_pulse_enable` are not logged.
  - An `IndexError` raised by `LCD_ROW_OFFSETS[row]` or `pattern[i]` is a `raised` result.
- `rider.dfy` (module `Rider`) covers the pulse counter and one iteration of `main`'s loop.
  - The loop iteration works on the real `CharLCD` object.
  - The clock, the counter value and `machine.rng()` are inputs.
- `gateway.dfy` (module `Gateway`) covers the gateway state machine.
  - The outside world is an input per `run`: the packet `lora.recv()` returns, whether `sendto` succeeds, how often `isconnected()` answers False, and whether `bind` succeeds.
  - A refused `bind` raises out of `run` and `main`, so the modelled loop ends there.
  - The Wi-Fi and socket calls are recorded as a trace.
  - Socket handles are numbered in creation order.

## Model

| member | source | states |
|---|---|---|
| CharLcd.SetFlag | Adafruit_LCD.py:89-139 | `reg \|= flag` when on and `reg &= ~flag` when off. The flag's bits end set or cleared, and every other bit of the register is kept. |
| CharLcd.Write8Recombines | Adafruit_LCD.py:156-176 | Both enable pulses of `write8` carry RS = `char_mode`. The first carries bits 4..7 of the value and the second bits 0..3. Recombining them gives `value mod 256`. |
| CharLcd.EncodeAppend | Adafruit_LCD.py:156-176 | The pulses of two runs of `write8` calls are the pulses of the first run followed by those of the second. |
| CharLcd.DecodeEncode | Adafruit_LCD.py:156-176 | Decoding the bus of any sequence of `write8` calls gives back each call's value mod 256 and its mode, in order. |
| CharLcd.DelayMs | Adafruit_LCD.py:185-186 | `_delay_microseconds(us)` sleeps `us // 1000` ms: the largest whole number of ms not above `us` µs. |
| CharLcd.RowOffset | Adafruit_LCD.py:43-87 | `LCD_ROW_OFFSETS[row]` is defined exactly for `-4 <= row < 4`, as Python indexing is. Any other row raises. |
| CharLcd.SetBit7 | Adafruit_LCD.py:87 | `0x80 \| x` on any Python int sets bit 7 and keeps every other bit. |
| CharLcd.CursorAddress | Adafruit_LCD.py:81-87 | A row in 0..3 that is at most `lines` is not clamped. When the address stays below 0x80, `set_cursor` sends `0x80 + col + offset[row]`. |
| CharLcd.CursorClamp | Adafruit_LCD.py:81-87 | A row greater than `lines` becomes `lines - 1`. The result is then defined exactly when `-3 <= lines <= 4`. |
| CharLcd.CursorCommand | Adafruit_LCD.py:81-87 | The `set_cursor` command exists exactly when the clamped row is a valid Python index into the four offsets (-4..3). Otherwise the call raises. `CursorAddress` and `CursorClamp` give the command's value. |
| CharLcd.CgramCommand | Adafruit_LCD.py:178-181 | `create_char` masks the location to 0..7 and sends `0x40 + 8 * (location mod 8)`. |
| CharLcd.MessageFrom | Adafruit_LCD.py:141-154 | `message` makes at most one write per character, and exactly one per character when it does not raise. `MessageRaises`, `MessageWritesAt`, `MessagePlain` and `MessageConcat` state which writes they are. |
| CharLcd.MessageRaises | Adafruit_LCD.py:141-154 | `message` raises exactly when the `set_cursor` of some newline raises. That newline's row is the number of newlines up to and including it. |
| CharLcd.MessageWritesAt | Adafruit_LCD.py:141-154 | When `message` does not raise, it makes one write per character. A non-newline is written as `ord(c)` in character mode. The k-th newline is written as the `set_cursor` command for row k in command mode. |
| CharLcd.MessagePlain | Adafruit_LCD.py:141-154 | Text without a newline is written character by character, in order, and never raises. |
| CharLcd.MessageConcat | Adafruit_LCD.py:141-154 | When `message(a)` does not raise, `message(a + b)` writes what `message(a)` writes, then what `b` writes from the line `a` ended on. |
| CharLcd.CharLCD.constructor | Adafruit_LCD.py:46-69 | It sends exactly 0x33, 0x32, 0x0C, 0x28, 0x06 and 0x01, in that order. It leaves `displaycontrol = 0x04` and `displaymode = 0x02`, and waits 10 ms once. |
| CharLcd.CharLCD.Write8 | Adafruit_LCD.py:156-176 | It appends one command to the log and its two nibble pulses to the bus. The registers are unchanged. |
| CharLcd.CharLCD.DelayMicroseconds | Adafruit_LCD.py:185-186 | It records a sleep of `us // 1000` ms. |
| CharLcd.CharLCD.Home | Adafruit_LCD.py:71-74 | It sends exactly 0x02 and waits 10 ms. |
| CharLcd.CharLCD.Clear | Adafruit_LCD.py:76-79 | It sends exactly 0x01 and waits 10 ms. |
| CharLcd.CharLCD.SetCursor | Adafruit_LCD.py:81-87 | It sends the clamped cursor command. When the row index raises, it sends nothing and reports the raise. |
| CharLcd.CharLCD.EnableDisplay | Adafruit_LCD.py:89-95 | It sets or clears bit 0x04 of `displaycontrol` only, then sends `0x08 \| displaycontrol`. |
| CharLcd.CharLCD.ShowCursor | Adafruit_LCD.py:97-103 | It sets or clears bit 0x02 of `displaycontrol` only, then sends `0x08 \| displaycontrol`. |
| CharLcd.CharLCD.Blink | Adafruit_LCD.py:105-111 | It sets or clears bit 0x01 of `displaycontrol` only, then sends `0x08 \| displaycontrol`. |
| CharLcd.CharLCD.MoveLeft | Adafruit_LCD.py:113-115 | It sends exactly 0x18. |
| CharLcd.CharLCD.MoveRight | Adafruit_LCD.py:117-119 | It sends exactly 0x1C. |
| CharLcd.CharLCD.SetLeftToRight | Adafruit_LCD.py:121-124 | It sets bit 0x02 of `displaymode` only, then sends `0x04 \| displaymode`. `displaymode` stays within 0..3. |
| CharLcd.CharLCD.SetRightToLeft | Adafruit_LCD.py:126-129 | It clears bit 0x02 of `displaymode` only, then sends `0x04 \| displaymode`. |
| CharLcd.CharLCD.Autoscroll | Adafruit_LCD.py:131-139 | It sets or clears bit 0x01 of `displaymode` only, then sends `0x04 \| displaymode`. |
| CharLcd.CharLCD.PutChar | Adafruit_LCD.py:145-154 | One character of `message`. A newline advances the line counter and sends the `set_cursor` command for the new line at column 0 (left-to-right) or `cols - 1`. It raises exactly when that row index raises. Any other character is written as `ord(c)` in character mode. |
| CharLcd.CharLCD.Message | Adafruit_LCD.py:141-154 | The loop writes exactly what `MessageFrom` describes for the display's entry mode and size. Its lemmas above say what that is. It stops at the first raising newline. |
| CharLcd.CharLCD.CreateChar | Adafruit_LCD.py:178-183 | It sends the CGRAM command, then `pattern[0..7]` in character mode. It raises exactly when the pattern has fewer than 8 rows, after writing the rows it has. |
| Rider.Handle | rider.py:20-24 | The counter grows by exactly 1 and `_last_count_ms` becomes the time if and only if `time - _last_count_ms > debounce` (strict). Otherwise nothing changes. |
| Rider.HandleAllCounts | rider.py:18-24 | Over any run of interrupts, the counter grows by exactly the number of pulses accepted. It never decreases and grows at most once per call. |
| Rider.AcceptedSpaced | rider.py:16-24 | Accepted pulses are more than `debounce_ms` apart. The first comes more than `debounce_ms` after the seeded `_last_count_ms`, which is the construction time. `_last_count_ms` ends at the last accepted pulse. |
| Rider.PulseCounter.constructor | rider.py:13-18 | A fresh counter is 0, with `_last_count_ms` set to the creation time. |
| Rider.PulseCounter.Handler | rider.py:20-24 | The interrupt handler performs `Handle` on the object's fields. |
| Rider.StartOffset | rider.py:54 | `(rng % 30) * 100` is a multiple of 100 in 0..2900. |
| Rider.Step | rider.py:56-72 | A redraw happens if and only if `_prev_crank != counter`, and it sets `_prev_crank := counter // 2`. A packet goes out if and only if `now >= start delay` and `now > _last_sent_ms + 3000`. `_last_sent_ms` then becomes `now`. The packet holds the id, the new `_prev_crank` and `_prev_wheel`. |
| Rider.RedrawsUnchanged | rider.py:57-60 | The same non-zero counter value read twice redraws on both iterations, although the value shown stays the same. |
| Rider.IntendedStep | rider.py:56-72 | With the evidently intended test `_prev_crank != counter // 2`, the display is redrawn exactly when the value it shows changes. The send rules are unchanged. |
| Rider.IntendedSteady | rider.py:57-60 | With the intended test, the same reading twice redraws at most once. |
| Rider.IntendedSameSends | rider.py:56-72 | In every state the loop reaches, the intended test changes only which iterations redraw. The new locals and the packet are those of the code as written. |
| Rider.StepHalves | rider.py:57-58 | When `_prev_crank` is the halved earlier count, each iteration leaves `_prev_crank == counter // 2` and sends that value. Because the halved value is compared with the raw count, the display is redrawn on every iteration once the count is non-zero. |
| Rider.Run | rider.py:56-76 | `main`'s loop over a finite sequence of readings. It has no ensures of its own. `RunSpacing`, `RunPackets`, `RunHalves` and `RunWheelZero` state what it does. |
| Rider.RunHalves | rider.py:57-58 | Over any run with non-decreasing counter readings, `_prev_crank` ends as the last reading halved. |
| Rider.RunSpacing | rider.py:67-72 | Over any run, consecutive packets are more than 3000 ms apart, the first more than 3000 ms after the entry `_last_sent_ms`. `_last_sent_ms` ends as the last send time. |
| Rider.RunPackets | rider.py:67-72 | Over any run, no packet precedes the start delay and at most one goes out per iteration. Each packet carries the id and the unchanged `_prev_wheel`. |
| Rider.RunWheelZero | rider.py:28-72 | From the loop's entry state, every packet reports `w == 0` and goes out no earlier than the time the delay was drawn. |
| Rider.DecimalRoundTrip | rider.py:52 | The decimal digits used by `{:4d}` denote the number formatted. |
| Rider.PadLeft | rider.py:52 | `{:4d}` right-aligns in at least 4 characters, padding with spaces on the left only. |
| Rider.Format4d | rider.py:52 | The formatted count is at least 4 characters long and holds no newline. |
| Rider.RiderSecondRow | Adafruit_LCD.py:81-87 | On the 16x1 display the newline's row 1 is not clamped, because it equals `lines`. Its command is 0xC0. |
| Rider.DisplayMessage | rider.py:60 | Redrawing `C=....\nW=....` on the rider's display writes the `C=` text and then cursor command 0xC0. It then writes the `W=` text and never raises. |
| Rider.TwoRows | Adafruit_LCD.py:141-154 | Two newline-free rows joined by a newline whose row command is 0xC0 are written as the first row, then 0xC0 in command mode, then the second row. |
| Rider.NewlineThen | Adafruit_LCD.py:145-154 | From line 0, a text that starts with a newline first sends the row-1 cursor command (when row 1 has one) and then its newline-free rest, character by character. It does not raise. |
| Rider.RiderMain.constructor | rider.py:27-54 | `main` before its loop creates the crank counter with a 250 ms window and a count of 0, initialises the LCD (display on: `displaycontrol = 0x04`) and shows the zero counts. `_last_sent_ms` is the boot time. The start delay is `StartOffset(rng)` plus the clock. |
| Rider.RiderMain.Redraw | rider.py:59-60 | `lcd.home()` and then the message add exactly 0x02 and the display text's writes, and one 10 ms wait. `displaycontrol` is kept. |
| Rider.RiderMain.RefreshDisplay | rider.py:57-60 | When `_prev_crank` differs from the counter, it becomes `counter // 2` and the display is redrawn with it. Otherwise nothing changes. `displaycontrol` is kept. |
| Rider.RiderMain.SendDue | rider.py:67-72 | A packet is produced if and only if `now >= start delay` and `now > _last_sent_ms + 3000`. It carries the id and both counts, and `_last_sent_ms` becomes `now`. |
| Rider.RiderMain.Iterate | rider.py:56-74 | One iteration updates the loop variables as `Step` says and returns its packet. On a redraw it sends home (0x02) and then the display text. `displaycontrol` is kept. |
| Gateway.WlanEvents | gateway.py:19-22 | `connect_to_wlan` calls connect once and polls `isconnected()`. It returns only after the poll answers True. |
| Gateway.AfterConnectToWlan | gateway.py:19-22 | `connect_to_wlan` changes none of the gateway's fields. It appends only Wi-Fi calls, `failedPolls + 2` of them, the last a poll that answers True. |
| Gateway.AfterConnectToRpi | gateway.py:24-26 | `sock` becomes a fresh socket, which is then bound to port 50140. The socket is in `sock` even when the bind raises. `connected` is untouched and nothing is closed. |
| Gateway.AfterSend | gateway.py:28-35 | When not (`connected` and `sock`), nothing happens at all. A successful `sendto` goes to 192.168.8.7:50141. A raising `sendto` closes the old handle, sets `connected = False` and sets `sock = None`. |
| Gateway.AfterRun | gateway.py:37-43 | No path through `run` sets `connected`. A run that ends disconnected holds the socket it has just opened. A run that stays connected opens none. It only appends to the trace. |
| Gateway.Init | gateway.py:12-17 | After construction `sock` is None and `connected` is False. |
| Gateway.RunAll | gateway.py:45-49 | `main`'s loop never sets `connected` and only appends to the trace. It ends after the first `run` that raises. |
| Gateway.RunsMade | gateway.py:45-49 | When every run reconnects, `main` makes all runs up to and including the first whose `bind` fails. |
| Gateway.RunDisconnected | gateway.py:37-43 | A disconnected `run` makes exactly one Wi-Fi connect and one `connect_to_rpi`, and sends nothing. The old socket stays open beside the new one. The run raises exactly when the bind fails. |
| Gateway.RunSendFails | gateway.py:28-43 | When `sendto` raises, `run` closes the socket and reconnects in the same call. |
| Gateway.RunConnected | gateway.py:37-43 | When `sendto` succeeds, or the packet is empty, a connected `run` sends a non-empty packet on its socket, before the reconnect check, and does not raise. An empty packet changes nothing. |
| Gateway.NeverConnected | gateway.py:24-49 | From a disconnected state, `connected` stays False for as long as `main` runs. There is no `sendto` and no `close`, and each run made leaves one more socket open. |
| Gateway.NeverTransmits | gateway.py:12-49 | From construction, `connected` is False in every reachable state and `sendto` is never called. Every socket opened by the runs made, up to the first refused bind, is open at once. |
| Gateway.LeakExample | gateway.py:24-49 | The second run binds a new socket to port 50140 while socket 0, never closed, still holds it. Handles 0 and 1 are open together whether that bind is accepted or refused. When it is refused, `main` ends there. |
| Gateway.IntendedAfterConnectToRpi | gateway.py:24-26 | The evidently intended reconnect closes the stale handle if there is one, then opens and binds a fresh one. It is connected exactly when that bind succeeds. |
| Gateway.IntendedTransmits | gateway.py:28-43 | With the intended reconnect, a first run whose bind succeeds connects, and a later packet does reach `sendto`. |
| Gateway.IntendedOneLive | gateway.py:24-43 | With the intended reconnect, runs from a state whose open sockets are exactly `sock` keep it so: at most one socket is open. |
| Gateway.IntendedOneLiveFromInit | gateway.py:12-49 | From construction, with the intended reconnect, the open sockets are exactly `sock` after any runs, so at most one is open. |
| Gateway.NanoGateWay.constructor | gateway.py:12-17 | The object starts in `Init`: Wi-Fi is connected first, then `sock = None` and `connected = False`. |
| Gateway.NanoGateWay.ConnectToWlan | gateway.py:19-22 | The polling loop appends exactly `WlanEvents` and changes no field. |
| Gateway.NanoGateWay.ConnectToRpi | gateway.py:24-26 | The method performs `AfterConnectToRpi` and raises exactly when the bind fails. |
| Gateway.NanoGateWay.Send | gateway.py:28-35 | The method performs `AfterSend`. |
| Gateway.NanoGateWay.Run | gateway.py:37-43 | The method performs `AfterRun`: any send comes first, then the reconnect. It raises exactly when `RunRaises` says. |

## Left out

- Hardware is not modelled: pins, the enable-pulse timing, `time.sleep_ms`/`sleep_us` (apart from the LCD's delay log), IRQ registration, LoRa, Wi-Fi and sockets. Their results are inputs and their calls are a trace.
- The `ticks_ms()` clock is an input and times are unbounded integers, so the clock's wrap-around is not modelled.
- The race between the crank interrupt and the main loop is not modelled. The counter is read twice at `rider.py:57-58`, and the model reads it once per iteration. Each handler call and each loop iteration is atomic.
- `main`'s infinite loops are modelled as finite runs (`Rider.Run`, `Gateway.RunAll`). The 50 ms naps between iterations are not modelled.
- The JSON encoding of the LoRa packet and the `print` of it are not modelled. The packet is the record `(id, c, w)`.
- `isconnected()` is modelled as answering False a given number of times and then True. A Wi-Fi link that never comes up makes the Python loop spin forever, and the model does not represent that.
- The socket layer's rule for when `bind` fails is not modelled: whether a bind succeeds is an input. `close` raising and `lora.recv()` returning anything other than bytes are not modelled either.
- Only `bind` and `sendto` may raise in the model. An exception from `socket.socket()`, `wlan.connect()`, `lora.recv()` or the rider's `LoRa.send` is not modelled. Each would escape `run` or `main` uncaught.
- The code evidently intends a reconnect to leave the gateway connected on one open socket. As written, it never closes the old socket and never sets `connected` to True. The model, `NanoGateWay` included, follows the code. The intended version is the separate `Gateway.Intended…` functions (see Findings).
- Likewise, the rider's redraw test evidently means to compare halved values. `RiderMain` follows the code, and `Rider.IntendedStep` is the intended version (see Findings).
- The Python `int` registers are modelled as `bv8`. `displaycontrol` and `displaymode` only ever hold values in 0..7, where `&= ~flag` on an int and on a byte agree. `displayfunction` is the constant 0x08.
- server.py is not part of this model. It is MQTT/TLS and JSON plumbing with floats.

## Findings

| source | as written | input that shows it | evidently intended | confidence | as-written member | corrected member |
|---|---|---|---|---|---|---|
| gateway.py:24-26 | `connect_to_rpi` opens and binds a socket but never sets `connected`. The only other assignment (line 33) sets it False, so `send` never reaches `sendto`. | Construct the gateway, then call `run` with a non-empty packet and a working network, as many times as you like. No `sendto` happens. | A successful connect sets `connected = True`, so packets are forwarded. | high; not executed | Gateway.NeverTransmits | Gateway.IntendedTransmits |
| gateway.py:24-26 | Every reconnect replaces `sock` without closing the previous socket. Because the gateway never counts as connected, every `run` reconnects. The second run binds a new socket to port 50140 while socket 0 still holds it. A socket layer that accepts this leaks one socket per run. One that refuses it (EADDRINUSE) raises out of `run` and `main`, so the gateway stops on its second run. | Construct the gateway and call `run` twice with empty packets. Handles 0 and 1 are both open, and the second bind is to a port the first socket holds. | Close the stale handle before opening a fresh one, keeping at most one live handle. | high; not executed | Gateway.LeakExample | Gateway.IntendedOneLive |
| rider.py:57 | The redraw test compares `_prev_crank`, which holds the halved count, with the raw `crank.counter`. Once the counter is non-zero they differ on every pass, so the display is redrawn on every iteration even when the count is unchanged. | `_prev_crank = 1` and the counter stays at 3: every iteration calls `home()` and redraws `C=   1`. | Compare `_prev_crank` with `crank.counter // 2`, so the display is redrawn only when the value it shows changes. | medium; not executed | Rider.RedrawsUnchanged | Rider.IntendedStep |
