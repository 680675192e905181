# ESP-Drone ground controller and AutoNav receiver, modelled in Dafny

This project models both ends of the AutoNav command link of an ESP-Drone quadrotor and proves properties of them.

- **Ground side** (`Controller/`):
  - a connection manager that builds one-byte-code AutoNav packets and gates every send on the connection state;
  - a desktop controller with a 100 Hz manual-control tick driven by held keys.
- **Drone side** (`Firmware/.../modules/`):
  - a CRTP receiver that filters packets, decodes them and answers with a 3-byte status frame;
  - a navigation module whose safety timer lands the drone after 30 s without a command.

The radio library is modelled as a recorder of what it was asked to do (`Connection.Event`). The RTOS tick counter, the sensor read and the ground station's polling readings are parameters.

| file | module | models |
|---|---|---|
| common.dfy | `Common` | fixed-width integers, `Option` |
| autonav_protocol.dfy | `AutonavProtocol` | `modules/interface/autonav_crtp.h` |
| autonav_core.dfy | `AutonavCore` | `modules/src/autonav.c` |
| autonav_receiver.dfy | `AutonavReceiver` | `modules/src/autonav_crtp.c` |
| connection.dfy | `Connection` | `Controller/drone_connection.py` |
| controller.dfy | `Controller` | `Controller/main.py`, non-UI parts |
| wire_agreement.dfy | `WireAgreement` | what the firmware does with each packet the controller sends |

Notable behaviour of the code, which the model keeps:

- **Opposing keys:** they are last-writer-wins. With `a` and `d` held, roll is +15. With `w` and `s` held, pitch is −15. With `left` and `right` held, yaw rate is +100. They do not cancel each other.
- **Shapes during manual control:** `send_shape` and the controller's send handler do not check manual mode. Only the disabled buttons keep shapes out, and buttons are outside the model.
- **Altitude range:** `[100, 3000]` is checked only by the controller's `set_altitude`. The connection layer checks only that the value fits `struct.pack('<H')`, and raises otherwise.
- **Decoding:** the ground station never decodes; only the firmware's handler does. A 1-byte code-5 packet leads to no navigation call, but it passes the filter, so the firmware still answers it with a status frame.
- **Connection state:** it is the three fields `connected`, `scf` and `cf`; `is_connected` needs both `connected` and a Crazyflie handle.
- **Starting manual control:** `start_manual_control` does not check the connection itself. `toggle_manual_control` does.

Code 5 is both PENTAGON and SET_ALT_MM on the controller. The firmware's command table has SET_ALT_MM only. So the Pentagon button's packet `[5]` reaches the drone as a SET_ALT_MM too short to carry an altitude. It makes no navigation call and does not kick the safety timer; the drone only answers it with a status frame (`WireAgreement.PentagonHasNoEffect`). The model keeps this as written.

## Model

| member | source | states |
|---|---|---|
| AutonavProtocol.CmdCode | Firmware/esp-drone/components/core/crazyflie/modules/interface/autonav_crtp.h:9-18 | every command's code is one of 0-5, 10, 11; codes 1-4 are exactly the four shapes and only the two override commands lie above 5 |
| AutonavProtocol.CmdOfCode | Firmware/esp-drone/components/core/crazyflie/modules/interface/autonav_crtp.h:9-18 | a byte names command c exactly when c's code is that byte; the eight codes are pairwise distinct and every other byte names none |
| AutonavProtocol.StatusBytes | Firmware/esp-drone/components/core/crazyflie/modules/interface/autonav_crtp.h:21-24 | the packed status is 3 bytes: the state byte, then the altitude little-endian |
| AutonavProtocol.StatusBytesInjective | Firmware/esp-drone/components/core/crazyflie/modules/interface/autonav_crtp.h:21-24 | equal frames come only from equal status values |
| AutonavCore.NowMs | Firmware/esp-drone/components/core/crazyflie/modules/src/autonav.c:19 | the tick count times the tick period, equal to the product when it fits in 32 bits and congruent to it modulo 2^32 otherwise |
| AutonavCore.WrapSub | Firmware/esp-drone/components/core/crazyflie/modules/src/autonav.c:34 | uint32 subtraction is the forward distance modulo 2^32, and plain subtraction when there is no wrap |
| AutonavCore.TimedOut | Firmware/esp-drone/components/core/crazyflie/modules/src/autonav.c:34 | never when the timer was never armed (0); otherwise strictly more than 30000 ms elapsed, counted across a wrap |
| AutonavCore.TimeoutPersists | Firmware/esp-drone/components/core/crazyflie/modules/src/autonav.c:32-57 | once timed out, still timed out at every later time until the elapsed time goes round the 32-bit clock |
| AutonavCore.Autonav.constructor | Firmware/esp-drone/components/core/crazyflie/modules/src/autonav.c:8-10 | all three variables start at zero/false |
| AutonavCore.Autonav.Init | Firmware/esp-drone/components/core/crazyflie/modules/src/autonav.c:12-16 | timer disarmed, shape 0, no obstacle; no update can time out until the next kick or shape start |
| AutonavCore.Autonav.KickSafety | Firmware/esp-drone/components/core/crazyflie/modules/src/autonav.c:18-20 | lastCommandTime becomes tick count × period, modulo 2^32; nothing else changes |
| AutonavCore.Autonav.SetObstacle | Firmware/esp-drone/components/core/crazyflie/modules/src/autonav.c:22-24 | only the obstacle flag changes |
| AutonavCore.Autonav.StartShape | Firmware/esp-drone/components/core/crazyflie/modules/src/autonav.c:26-30 | selects the shape and refreshes the timer |
| AutonavCore.Autonav.Update | Firmware/esp-drone/components/core/crazyflie/modules/src/autonav.c:32-57 | timeout lands and clears the shape, taking precedence over the obstacle hover; with neither, nothing changes; the timer and obstacle flag are never changed |
| AutonavReceiver.U16le | Firmware/esp-drone/components/core/crazyflie/modules/src/autonav_crtp.c:21 | the low byte of the result is p[0], the high byte p[1] |
| AutonavReceiver.PassesFilter | Firmware/esp-drone/components/core/crazyflie/modules/src/autonav_crtp.c:26-28 | a null or empty packet is dropped; a non-empty one is accepted exactly when it is on the AutoNav port and channel |
| AutonavReceiver.Dispatch | Firmware/esp-drone/components/core/crazyflie/modules/src/autonav_crtp.c:26-79 | dropped packets do nothing; STOP, shapes 1-4, SET_ALT_MM with at least 3 bytes, and OVERRIDE_ON each make their call exactly when their code arrives, then a kick; OVERRIDE_OFF only kicks; a short SET_ALT_MM or an unknown code does nothing |
| AutonavReceiver.StatusReply | Firmware/esp-drone/components/core/crazyflie/modules/src/autonav_crtp.c:81-93 | the reply is on the AutoNav port and channel, 3 bytes, carries the state and reads back as the sensor altitude (0 when none was written) |
| AutonavReceiver.AutonavCrtp.HandlePacket | Firmware/esp-drone/components/core/crazyflie/modules/src/autonav_crtp.c:24-94 | makes the calls Dispatch gives, in order; one status reply for every packet that passes the filter and none otherwise; the timer is refreshed whenever a call is made, since the kick comes last; when no call goes to a navigation function whose body is unavailable, the shape is set as the calls do and nothing else changes |
| AutonavReceiver.AutonavCrtp.Kick | Firmware/esp-drone/components/core/crazyflie/modules/src/autonav_crtp.c:35 | one kick call, logged and applied to the navigation timer |
| AutonavReceiver.AutonavCrtp.ShapeThenKick | Firmware/esp-drone/components/core/crazyflie/modules/src/autonav_crtp.c:38-56 | start-shape then kick, in that order, shape selected and timer refreshed |
| AutonavReceiver.AutonavCrtp.constructor | Firmware/esp-drone/components/core/crazyflie/modules/src/autonav_crtp.c:115 | not started, no task, nothing logged |
| AutonavReceiver.AutonavCrtp.Start | Firmware/esp-drone/components/core/crazyflie/modules/src/autonav_crtp.c:113-119 | the receiver task is created at most once however often start is called |
| Connection.StructPackU16 | Controller/drone_connection.py:183 | succeeds exactly on 0..65535, yielding 2 bytes whose little-endian value is the input |
| Connection.AutonavPacket | Controller/drone_connection.py:133-134 | the packet is the command byte followed by the payload |
| Connection.ShapeName | Controller/drone_connection.py:154-160 | a name exists exactly for the ids 1..5, and id 5 is the Pentagon |
| Connection.ShapePacket | Controller/drone_connection.py:147-167 | a one-byte packet holding the id for ids 1..5, nothing for any other id |
| Connection.AltitudePacket | Controller/drone_connection.py:174-184 | for 0..65535: 3 bytes, code 5, then the altitude little-endian; otherwise nothing |
| Connection.OverridePacket | Controller/drone_connection.py:186-196 | one byte, 10 exactly when enabling and 11 otherwise |
| Connection.ClampReal | Controller/drone_connection.py:217-219 | saturates into [lo, hi]: identity inside, the nearer bound outside |
| Connection.ClampInt | Controller/drone_connection.py:220 | the same saturation on integers |
| Connection.ClampSetpoint | Controller/drone_connection.py:216-220 | every field lands in its range (±30, ±30, ±200, 0..65535); in-range fields are kept, field by field |
| Connection.ClampSetpointIdempotent | Controller/drone_connection.py:216-220 | clamping twice equals clamping once |
| Connection.AwaitParamToc | Controller/drone_connection.py:75-84 | the poll loop reports success exactly when some reading of the parameter table flag was true |
| Connection.DroneConnection.constructor | Controller/drone_connection.py:34-39 | starts disconnected with no link and nothing sent |
| Connection.DroneConnection.IsConnected | Controller/drone_connection.py:116-118 | connected only with the flag set and a Crazyflie handle present; in a consistent connection the flag alone decides |
| Connection.DroneConnection.Connect | Controller/drone_connection.py:48-101 | success exactly when the link opens and the table arrives; failure leaves connected false and both handles empty, after closing the link |
| Connection.DroneConnection.Disconnect | Controller/drone_connection.py:103-114 | closes the link if there is one, then empties the connection; a second call closes nothing |
| Connection.DroneConnection.SendAutonavCommand | Controller/drone_connection.py:120-145 | `[command] + payload` on port 0x0D, channel 0, only when connected and a link is present |
| Connection.DroneConnection.SendShape | Controller/drone_connection.py:147-167 | sends the shape packet only for ids 1..5 and only when connected |
| Connection.DroneConnection.SendStop | Controller/drone_connection.py:169-172 | sends `[0]` when connected |
| Connection.DroneConnection.SendAltitude | Controller/drone_connection.py:174-184 | raises for an altitude outside uint16, connected or not, and sends nothing then; otherwise the altitude packet when connected |
| Connection.DroneConnection.SendManualOverride | Controller/drone_connection.py:186-196 | sends `[10]` or `[11]` when connected |
| Connection.DroneConnection.SendManualControl | Controller/drone_connection.py:198-226 | sends the clamped setpoint only when connected |
| Connection.DroneConnection.SendStopSetpoint | Controller/drone_connection.py:228-242 | sends the stop setpoint only when connected |
| Controller.Lower | Controller/main.py:276 | same length, each character lower-cased, no upper-case letter left |
| Controller.PressThenReleaseRestores | Controller/main.py:271-285 | pressing a key and releasing any key name with the same lower-case form gives back the keys held before, when it was not already held |
| Controller.ShiftReleasedFirstRestores | Controller/main.py:276 | `D` pressed and `d` released leaves the held keys as they were |
| Controller.LastHeld | Controller/main.py:379-395 | the second key's value whenever it is held, the first key's when only it is held, 0 when neither |
| Controller.ThrustAfterTick | Controller/main.py:397-408 | reset gives 32000; [10001, 60000] is preserved; no thrust key keeps the thrust; up alone raises, down alone lowers, saturating; both together, in the source's up-then-down order, keep the thrust except at the top, where 60000 ends at 58000 |
| Controller.TickSetpoint | Controller/main.py:374-411 | reset zeroes every axis and hovers; axes take only 0, ±15 or ±100; with thrust in range the setpoint is already inside the clamp |
| Controller.OpposingKeysLastWriterWins | Controller/main.py:379-395 | with all opposing keys held: roll +15, pitch −15, yaw rate +100 |
| Controller.DroneControllerApp.constructor | Controller/main.py:27-37 | manual control off, no keys, no timer, thrust 0, disconnected |
| Controller.DroneControllerApp.OnKeyPress | Controller/main.py:271-277 | adds the lower-cased key only while manual control is active |
| Controller.DroneControllerApp.OnKeyRelease | Controller/main.py:279-285 | removes the lower-cased key only while active; releasing a key not held changes nothing |
| Controller.DroneControllerApp.SendControlLoop | Controller/main.py:369-414 | inactive: nothing sent, nothing scheduled; active: one setpoint from the held keys (when connected), thrust kept in [10001, 60000], next tick scheduled |
| Controller.DroneControllerApp.StartManualControl | Controller/main.py:297-338 | when confirmed: override ON strictly before the first setpoint (0, 0, 0, 32000); active, thrust 32000, no keys |
| Controller.DroneControllerApp.StopManualControl | Controller/main.py:340-367 | no-op when inactive; otherwise inactive, keys cleared, timer cancelled, stop setpoint strictly before override OFF |
| Controller.DroneControllerApp.ToggleManualControl | Controller/main.py:287-295 | nothing when disconnected; when active: inactive, keys cleared, timer cancelled, stop setpoint then override OFF; when inactive and confirmed: active, no keys, thrust 32000, one tick scheduled, override ON then the hover setpoint; unconfirmed: nothing changes |
| Controller.DroneControllerApp.EnableControls | Controller/main.py:195-215 | disabling while manual control is active stops it: keys cleared, pending tick cancelled, stop setpoint then override OFF when connected; otherwise nothing changes |
| Controller.DroneControllerApp.Connect | Controller/main.py:157-187 | an empty address or unparsable port touches nothing; otherwise connected exactly when the link opens and answers, and a failure leaves the connection flag and both handles empty |
| Controller.DroneControllerApp.Disconnect | Controller/main.py:189-193 | closes the link first, so no transmission follows, not even in manual mode; the connection is left empty with its address kept, and a pending tick is cancelled |
| Controller.DroneControllerApp.DisconnectStoppingManualFirst | Controller/main.py:213-215 | in every case: stop setpoint and override OFF when in manual mode and connected, then the link closes if there was one; the connection is left empty with its address kept, and a pending tick is cancelled |
| Controller.DroneControllerApp.SendShape | Controller/main.py:217-236 | sends the shape packet only when connected and confirmed, whatever the manual mode |
| Controller.DroneControllerApp.EmergencyStop | Controller/main.py:238-245 | sends `[0]` only when connected |
| Controller.DroneControllerApp.SetAltitude | Controller/main.py:247-264 | sends the altitude packet only when connected and the entry is an integer in [100, 3000] |
| Controller.ManualSessionScenario | Controller/main.py:297-367 | connect, start, one tick with D and Up held, stop: the exact sequence override ON, hover, (15, 0, 0, 34000), stop setpoint, override OFF |
| Controller.DisconnectDuringManualControl | Controller/main.py:189-193 | disconnecting during manual control closes the link and never sends a stop setpoint |
| Controller.DisconnectStoppingManualFirstDuringManualControl | Controller/main.py:213-215 | with manual control stopped first, the stop setpoint and override OFF precede the close |
| WireAgreement.Delivered | Controller/drone_connection.py:137-141 | a sent packet arrives on the same port and channel with the same data; anything else delivers nothing |
| WireAgreement.PortAndChannelAgree | Firmware/esp-drone/components/core/crazyflie/modules/interface/autonav_crtp.h:5-6 | the controller's port 0x0D and channel 0 are the firmware's |
| WireAgreement.U16leInvertsStructPack | Firmware/esp-drone/components/core/crazyflie/modules/src/autonav_crtp.c:21 | reading the controller's packed uint16 little-endian gives it back |
| WireAgreement.ControllerPacketsPassFilter | Firmware/esp-drone/components/core/crazyflie/modules/src/autonav_crtp.c:26-28 | every AutoNav packet the controller builds passes the firmware's filter and is answered |
| WireAgreement.CommandCodesAgree | Controller/drone_connection.py:19-28 | the controller's codes name the firmware's commands of the same name; PENTAGON names SET_ALT_MM |
| WireAgreement.PentagonIsTruncatedAltitude | Controller/drone_connection.py:25-26 | the pentagon packet equals the first byte of every altitude packet and differs only in length |
| WireAgreement.AltitudeReachesFirmware | Firmware/esp-drone/components/core/crazyflie/modules/src/autonav_crtp.c:58-65 | the controller's altitude packet sets exactly that altitude, then kicks |
| WireAgreement.ShapesReachFirmware | Firmware/esp-drone/components/core/crazyflie/modules/src/autonav_crtp.c:38-56 | shapes 1-4 start the same-numbered shape, then kick |
| WireAgreement.PentagonHasNoEffect | Firmware/esp-drone/components/core/crazyflie/modules/src/autonav_crtp.c:58-65 | the pentagon packet causes no call at all, not even a kick, yet passes the filter and so is answered with a status frame |
| WireAgreement.OverrideReachesFirmware | Firmware/esp-drone/components/core/crazyflie/modules/src/autonav_crtp.c:67-75 | override ON enters override and kicks; OFF only kicks |
| WireAgreement.StopReachesFirmware | Firmware/esp-drone/components/core/crazyflie/modules/src/autonav_crtp.c:33-36 | STOP stops, then kicks |

## Left out

- Tk widgets, dialogs, status labels and theming. A dialog answer is a boolean argument and an entry field is its parsed value; button enabling and disabling is not modelled.
- `DroneControllerApp.connect`, address handling: the address is taken as already stripped.
- cflib driver initialisation and logging.
- The URI string: it is a `(host, port)` value rather than formatted text.
- The wire encoding of `send_setpoint` and `send_stop_setpoint`.
- Whether `send_packet` accepts the keyword arguments used.
- Exceptions raised by `send_packet` and the commander calls. They are swallowed, so the record stands for the call being made.
- `SyncCrazyflie` construction: the constructor is taken not to raise.
- `connection_timeout` and the wall-clock timing of the 3 s poll loop. The loop sees a given list of readings of the parameter-table flag.
- The final re-read of that flag after the loop: it is taken to equal the last reading.
- `root.after` and `after_cancel` timing. Each tick is an explicit call and the timer is a handle; a callback that fires after cancellation is not modelled.
- Controller.Lower: ASCII only, whereas Python's `str.lower` also folds non-ASCII letters; Tk key names are ASCII.
- Floating point: roll, pitch and yaw rate are `real`.
- The FreeRTOS receive loop `autonav_crtp_task`, `xTaskCreate` (counted, not run), `vTaskDelay`, and the build without `crtp.h`.
- `xTaskGetTickCount` and `portTICK_PERIOD_MS`: they are the `Clock` parameter.
- `crtpSendPacketBlock`: recorded as a reply.
- `sensorsGetDownTofMm` and `autonavGetState`: their results are parameters.
- `autonavStop`, `autonavSetTargetAltMm` and `autonavEnterOverride` have no bodies in the source, so they are recorded calls only.
- AutonavReceiver.AutonavCrtp.HandlePacket: after STOP, a full SET_ALT_MM or OVERRIDE_ON, it promises nothing about the shape, the obstacle flag or the commander calls, because the bodies of those three callees are not available (one header documents `autonavStop` as resetting state).
- `commanderLand` and `commanderHover` are recorded calls; the `LOG_*` macros are left out.
- The shape trajectories in `autonavUpdate` are empty TODO cases in the source.
- CRTP packets: the `size` field is the length of `data`; the 30-byte buffer and the bit widths of port and channel are not modelled.
- The two `autonav.h` headers disagree about `AUTONAV_OVERRIDE`. This does not matter here, because the state byte is a parameter.
- Test and simulation drivers: `Controller/test.py`, both `autonav_test.c` files and `tools/sim/*`.

## Findings

| source | as written | input that shows it | evidently intended | confidence | as-written member | corrected member |
|---|---|---|---|---|---|---|
| Controller/main.py:189-193 | `disconnect` calls `drone.disconnect()` before `enable_controls(False)`. The manual-control stop then runs on a closed connection, so the stop setpoint and override OFF are both dropped by the send gate. | connected, manual control active, Disconnect pressed | manual control is stopped (stop setpoint, then override OFF) before the link closes, as the comment at line 213 says | medium, not executed | Controller.DisconnectDuringManualControl | Controller.DroneControllerApp.DisconnectStoppingManualFirst |
