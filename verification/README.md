# Light-source controller firmware: supervisor, actuator and command handler

This project models the core of a three-channel light-source controller firmware:

- **The LED driver** (`LedDriver`). It is the channel supervisor.
  - It keeps, for each light, the commanded intensity, the latest current and temperature snapshot, and a latched alarm code.
  - Every operation that drives a channel first refreshes the snapshot, and the alarm check trips any channel out of range.
  - A tripped channel has its alarm set, its stored intensity set to 0 and its PWM register set to 0.
  - Once operating, an alarm is cleared only by an explicit clear, and only while the channel's fresh readings are in range. Driver initialisation also resets every alarm.
- **The PWM actuator layer** (`ValPwm`). It holds three compare registers. Every write is clamped to 100, and channels outside 1..3 are refused.
- **The system coordinator** (`SysCoordinator`). It keeps a cache of the three intensities, refreshed from the driver once per task cycle, and two getters over it.
- **The command handler**:
  - `CommsFormat` holds the response texts.
  - `CommsHandler` holds the rest:
    - the receive accumulator, which collects bytes until `'\n'` or `'\r'`;
    - the scan of the message envelope (`id`, `type`, `topic`, `action`);
    - the search for `data.id`;
    - the routing to the `system/ping`, `light/get` and `light/get_all` responses, each ending in `"\r\n"`.

The state the C keeps in static arrays is modelled as Dafny classes over arrays:

| Class | Arrays |
|---|---|
| `LedDriver.Driver` | intensities, sensor snapshot, alarm codes, and a `ValPwm.Pwm` |
| `ValPwm.Pwm` | compare registers |
| `SysCoordinator.Coordinator` | the cache |
| `CommsHandler.Handler` | receive buffer, receive index, and the log of sent texts |

Each state-changing driver operation is specified by a pure function on a sequence of `Channel` values (intensity, reading, alarm, register), for example `SetIntensityOp`. The method's postcondition says that the method's status and new state equal that function applied to the old state. The supervisor's guarantees are stated on these functions:

- **Latched**: an alarmed channel stores intensity 0. Every operation keeps it, including `SetIntensity` as written.
- **Coherent**: the register holds the clamped stored intensity.
- **Safe**: no alarmed channel is driven.
- An alarm is never cleared except by `ClearAlarm` and by `Init`, which resets every channel.

Coherent and Safe hold for the corrected `SetIntensity` (see "## Findings"). The code as written breaks both, because it drives the register after the alarm check has tripped the channel.

Sensor values come from the analog layer, which is not part of this model. Each driver call that refreshes is given a `SensorSample`, which holds the status and the three readings the analog layer would return. The JSON tokenizer is not part of this model either. The handler receives a `parse` function from the received bytes to the root token, and a token is a name, a kind and a value.

## Model

| member | source | states |
|---|---|---|
| ValStatus.ToU8 | Drivers/VAL/Src/val_pwm.c:101 | the conversion to uint8_t keeps values 0..255 and is congruent to its argument modulo 256 |
| ValPwm.Clamp | Drivers/VAL/Src/val_pwm.c:74-77 | the duty written is the request when it is at most 100, and 100 otherwise; it never exceeds 100 |
| ValPwm.Pwm.constructor | Drivers/VAL/Src/val_pwm.c:35-61 | the registers start at 0 and satisfy the bound |
| ValPwm.Pwm.Init | Drivers/VAL/Src/val_pwm.c:55-58 | every register is 0 after initialisation |
| ValPwm.Pwm.SetIntensity | Drivers/VAL/Src/val_pwm.c:69-83 | a channel outside 1..3 gives Param and changes nothing; otherwise only that channel's register changes, to the clamped duty, and every register stays within 0..100 |
| ValPwm.Pwm.GetIntensity | Drivers/VAL/Src/val_pwm.c:91-104 | Param with the output untouched for a bad channel; otherwise Ok and the register's value |
| ValPwm.Pwm.SetAllIntensities | Drivers/VAL/Src/val_pwm.c:111-123 | every register holds the clamped duty of its entry, and the status is Ok |
| ValPwm.Pwm.StopChannel | Drivers/VAL/Src/val_pwm.c:130-140 | a valid channel's register becomes 0 and no other changes; a bad channel gives Param |
| LedDriver.ValidateLightId | Core/Src/app_led_driver.c:225-230 | Ok exactly when the id indexes one of the three channels, Error otherwise |
| LedDriver.CheckChannel | Core/Src/app_led_driver.c:194-218 | an out-of-range reading raises an alarm and zeroes the intensity and the register; the temperature alarm overrides the current alarm; an in-range channel is unchanged; an alarm is never cleared |
| LedDriver.CheckAll | Core/Src/app_led_driver.c:194-218 | every out-of-range channel is tripped, every other channel is unchanged, and alarms, Latched and Coherent are preserved |
| LedDriver.Refresh | Core/Src/app_led_driver.c:178-188 | the new readings are stored and checked, preserving alarms, Latched and Coherent |
| LedDriver.CheckAfterRefreshIsIdle | Core/Src/app_led_driver.c:194-218 | a second alarm check on the readings of the last refresh changes nothing |
| LedDriver.SetIntensityOp | Core/Src/app_led_driver.c:73-106 | Error with no change for a bad id, an intensity above 100 or an alarmed channel; a failed sample returns its status with the state as the refresh left it; Ok exactly when all of those pass and the sample is Ok; then an in-range target holds the new intensity and register, an out-of-range target is tripped with intensity and register 0, and every other channel is as the refresh left it; no alarm is cleared; Latched, Coherent and Safe hold after |
| LedDriver.SetIntensityAsWrittenOp | Core/Src/app_led_driver.c:100-105 | the same status and state as SetIntensityOp in every case, except that on success the target's register is the requested intensity, even when the check tripped the channel; no alarm is cleared and Latched is preserved |
| LedDriver.AsWrittenDrivesAlarmedChannel | Core/Src/app_led_driver.c:100-105 | from the idle state, channel 1 at 60 mA and a request of 80 end with an OverCurrent alarm, stored intensity 0 and register 80 |
| LedDriver.AsWrittenClearLeavesLightDriven | Core/Src/app_led_driver.c:289-315 | after that as-written write, a clear with channel 1 back at 10 mA succeeds and reports no alarm and intensity 0 while the register still drives the light at 80 |
| LedDriver.SetAllIntensitiesOp | Core/Src/app_led_driver.c:113-143 | the status is the sample's; on Ok every channel not alarmed after the refresh takes its value and the clamped register, and alarmed channels are left as the refresh left them; no alarm is cleared; Latched and Coherent are preserved |
| LedDriver.SetAllStoresOutOfRangeValue | Core/Src/app_led_driver.c:127-134 | a value of 200 is stored as 200 while its register is clamped to 100 |
| LedDriver.ClearAlarmOp | Core/Src/app_led_driver.c:289-315 | Error with no change for a bad id; Ok exactly when the id is valid, the sample is Ok and the fresh readings are in range; then only that channel's alarm is reset; when the fresh readings are still out of range the result is Error with the state exactly as the refresh left it, so the channel stays alarmed; other alarms stay |
| LedDriver.ClearDoesNotResume | Core/Src/app_led_driver.c:305-312 | clearing an alarmed channel leaves its intensity and register at 0 |
| LedDriver.Driver.constructor | Core/Src/app_led_driver.c:24-33 | every channel starts idle: intensity 0, zero readings, no alarm, register 0 |
| LedDriver.Driver.Init | Core/Src/app_led_driver.c:46-65 | with a failing analog layer nothing changes; otherwise each channel's intensity, alarm and register are set to 0 and its stored reading is kept |
| LedDriver.Driver.CheckAlarmConditions | Core/Src/app_led_driver.c:194-218 | the new state is CheckAll of the old one |
| LedDriver.Driver.UpdateSensorReadings | Core/Src/app_led_driver.c:178-188 | the new state is Refresh of the old one, and the status is the sample's |
| LedDriver.Driver.SetIntensity | Core/Src/app_led_driver.c:73-106 | status and new state are SetIntensityOp of the old state, keeping the driver's invariant |
| LedDriver.Driver.SetIntensityAsWritten | Core/Src/app_led_driver.c:73-106 | status and new state are SetIntensityAsWrittenOp of the old state; only Latched is kept |
| LedDriver.Driver.SetAllIntensities | Core/Src/app_led_driver.c:113-143 | status and new state are SetAllIntensitiesOp of the old state |
| LedDriver.Driver.GetIntensity | Core/Src/app_led_driver.c:151-161 | Error with the output untouched for a bad id; otherwise the stored intensity, which is 0 for an alarmed channel |
| LedDriver.Driver.GetAllIntensities | Core/Src/app_led_driver.c:168-172 | the three stored intensities in light order |
| LedDriver.Driver.GetSensorData | Core/Src/app_led_driver.c:238-259 | for a valid id the snapshot is refreshed and on Ok the channel's fresh reading is returned; a bad id changes nothing |
| LedDriver.Driver.GetAllSensorData | Core/Src/app_led_driver.c:266-282 | the snapshot is refreshed and on Ok all three fresh readings are returned |
| LedDriver.Driver.ClearAlarm | Core/Src/app_led_driver.c:289-315 | status and new state are ClearAlarmOp of the old state |
| LedDriver.Driver.GetAlarmStatus | Core/Src/app_led_driver.c:322-331 | the three alarm codes, and every alarmed channel stores intensity 0 |
| SysCoordinator.Coordinator.constructor | Core/Src/app_sys_coordinator.c:31 | the cache starts at {0, 0, 0} |
| SysCoordinator.Coordinator.GetLightIntensity | Core/Src/app_sys_coordinator.c:60-69 | Error with the output untouched for an id outside 1..3; otherwise Ok and the cached value |
| SysCoordinator.Coordinator.GetAllLightIntensities | Core/Src/app_sys_coordinator.c:76-80 | Ok and the three cached values in order |
| SysCoordinator.Coordinator.SyncStep | Core/Src/app_sys_coordinator.c:94-99 | the cache equals the driver's stored intensities and the driver is unchanged; it needs only the driver's shape, so it also follows the as-written SetIntensity |
| CommsFormat.Decimal | Core/Src/app_comms_handler.c:149 | %u prints only digits with no leading zero, at most three of them for a uint8_t |
| CommsFormat.DecimalRoundTrip | Core/Src/app_comms_handler.c:149 | reading the printed digits back gives the printed number |
| CommsFormat.Frame | Core/Src/app_comms_handler.c:141-151 | every response echoes the message id right after its head and ends in CR LF; its length is fixed by its parts |
| CommsFormat.PingResponse | Core/Src/app_comms_handler.c:100-117 | the pong text echoes the id, ends in CR LF and fits the 256-byte transmit buffer when the id fits its 64-byte buffer |
| CommsFormat.LightGetAllResponse | Core/Src/app_comms_handler.c:141-152 | the same three facts; the text ends with the three intensities' digits, in light order, followed by the closing bracket, braces and CR LF |
| CommsFormat.LightGetResponse | Core/Src/app_comms_handler.c:154-166 | the same three facts; the light id's digits sit at a fixed offset after the id, and the intensity's digits sit just before the closing braces and CR LF |
| CommsFormat.LightErrorResponse | Core/Src/app_comms_handler.c:170-182 | the same three facts; the failed action's name sits at a fixed offset after the id, closed by a quote |
| CommsHandler.EnvelopeOf | Core/Src/app_comms_handler.c:206-236 | when every id member fits, the resulting message id fits its buffer |
| CommsHandler.LastMatchWins | Core/Src/app_comms_handler.c:213-236 | each of id, type, topic and action holds the text of the last string member whose name matches it first in the chain |
| CommsHandler.NoMatchKeepsDefault | Core/Src/app_comms_handler.c:206-210 | with no matching member the id stays "unknown" and type, topic and action stay absent |
| CommsHandler.ExtractEnvelope | Core/Src/app_comms_handler.c:213-236 | the scan loop computes EnvelopeOf of the root's members |
| CommsHandler.FirstIntIdDecides | Core/Src/app_comms_handler.c:261-270 | the first integer id member inside data decides the light id, narrowed modulo 256 |
| CommsHandler.NoIntIdIsZero | Core/Src/app_comms_handler.c:252 | without an integer id member in data the light id stays 0 |
| CommsHandler.FirstDataObjectDecides | Core/Src/app_comms_handler.c:254-274 | only the first data object member of the root is searched |
| CommsHandler.NoDataObjectIsZero | Core/Src/app_comms_handler.c:252-274 | without a data object the light id stays 0 |
| CommsHandler.FindLightId | Core/Src/app_comms_handler.c:252-274 | the nested search loop with its two breaks computes LightIdOf |
| CommsHandler.LightIntensityResponse | Core/Src/app_comms_handler.c:125-187 | light 0 reports the three cached values, lights 1..3 their own id and cached value, any other id the get error; the text echoes the id, ends in CR LF and fits the transmit buffer |
| CommsHandler.Respond | Core/Src/app_comms_handler.c:194-288 | a response is sent exactly when the root is an object whose envelope is a command (type, topic and action present, type matching "cmd") for system/ping, light/get or light/get_all; it is the pong, the light/get answer for the data id, or the get_all answer; it echoes the id, ends in CR LF and fits the transmit buffer |
| CommsHandler.GetWithoutDataReportsAll | Core/Src/app_comms_handler.c:250-277 | a light/get without a data object is answered with all three intensities |
| CommsHandler.UntilNul | Core/Src/app_comms_handler.c:304-309 | the string handed on is the longest NUL-free prefix of the buffer |
| CommsHandler.RxStep | Core/Src/app_comms_handler.c:295-315 | a byte is stored while the index is below 255; a terminator ends the message, hands on the buffer's string and resets the index; the index stays below 256; every terminator hands on a message, so the empty-message check never skips |
| CommsHandler.Accumulates | Core/Src/app_comms_handler.c:297-299 | non-terminator bytes collect at the front of the buffer, up to 255 of them, and deliver nothing |
| CommsHandler.LineDelivered | Core/Src/app_comms_handler.c:295-315 | a NUL-free line of at most 254 bytes and its terminator arrive as one message that keeps the terminator; a longer line arrives as its first 255 bytes |
| CommsHandler.CrLfDeliversTwoMessages | Core/Src/app_comms_handler.c:302-314 | a line ending in CR LF is delivered as the line with its CR, then the LF alone |
| CommsHandler.Handler.constructor | Core/Src/app_comms_handler.c:37-39 | the receive index starts at 0 and nothing has been sent |
| CommsHandler.Handler.SendPingResponse | Core/Src/app_comms_handler.c:100-117 | the pong text is appended to the serial output |
| CommsHandler.Handler.SendLightIntensityResponse | Core/Src/app_comms_handler.c:125-187 | the text appended is LightIntensityResponse over the coordinator's cache |
| CommsHandler.Handler.ProcessJsonCommand | Core/Src/app_comms_handler.c:194-288 | the serial output grows by exactly Respond's answer for the parsed text, and nothing when there is none |
| CommsHandler.Handler.SerialRxCallback | Core/Src/app_comms_handler.c:295-315 | buffer and index move as RxStep says, and the serial output grows by the response to the message RxStep hands on |

## Left out

- The analog layer (ADC sampling, conversion to mA and degrees Celsius) is not part of this model. Each refreshing driver call takes the sample it would return, and readings are exact `real` numbers: single-precision rounding and NaN are not modelled.
- The `lightId` field that the C copies into sensor data alongside the readings is not modelled. Only the current and temperature values are returned.
- The NULL checks on output arguments are not modelled. Every output is a returned value, and a call that fails returns the caller's prior value in its place.
- Numeric values of the alarm codes: their defining header is not part of this model, so they are the datatype `Alarm`.
- Timer start-up and HAL set-up in `VAL_PWM_Init`, and `VAL_PWM_DeInit`, are hardware configuration and are not modelled. Registers are plain integers.
- `LED_Driver_Init` is modelled as `Driver.Init`, but nothing in `main.c` calls it. The constructor stands for the static initialisers and the PWM reset.
- The UART transport is not part of this model. `VAL_Serial_Send` is an append to `Handler.txLog`, so its busy and timeout results, its 1000 ms timeout and the byte count passed from `snprintf` are not modelled.
- The lwjson tokenizer is not part of this model. A parse is a function from the received bytes to the root token; token limits (32 tokens) and parse errors are inside that function.
- The FreeRTOS tasks, their delays and their concurrency are not modelled. The coordinator's loop is one `SyncStep`, the handler's task loop does nothing, and calls are atomic.
- `COMMS_Handler_Init`, `SYS_Coordinator_Init` and the logger are task and peripheral set-up and are not modelled.
- CommsHandler.Respond: an id member of 64 bytes or more overruns the 64-byte `msgId` buffer in the C. The model requires every id member to be shorter (`RootIdsFit`), so that overrun is not modelled.
- The `Driver` methods that change state (`SetIntensity`, `SetAllIntensities`, `ClearAlarm`, `GetSensorData`, `GetAllSensorData`, `Init`) require `Valid()`, so at method level they follow only states the corrected write reaches. What follows the as-written write is stated on the pure operations (`AsWrittenClearLeavesLightDriven`).
- LedDriver.SetAllIntensitiesOp: the values are not range-checked. Any byte is stored, and only the PWM layer clamps it (see `SetAllStoresOutOfRangeValue`).
- Data-store persistence and the declared-but-undefined functions are not part of this model.

## Findings

| source | as written | input that shows it | evidently intended | confidence | as-written member | corrected member |
|---|---|---|---|---|---|---|
| Core/Src/app_led_driver.c:105 | after the sensor refresh and the alarm check, the PWM register is written with the requested intensity | all channels idle; channel 1 reads 60 mA and 25 °C; `LED_Driver_SetIntensity(1, 80)` with an Ok sample ends with OverCurrent, stored intensity 0 and register 80, so an alarmed channel is driven | the register receives the intensity left after the check (0 when the channel tripped), so no alarmed channel is driven | high, not executed | LedDriver.SetIntensityAsWrittenOp | LedDriver.SetIntensityOp |
