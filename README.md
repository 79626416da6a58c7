# Horno-CS measurement system, modelled in Dafny

The measurement system is a thermocouple logger with two halves.

- **The host program** (`MS_interface` in `measurement-system/software/main.py`) talks to the
  logger over a serial line with a small ASCII protocol. The commands are `START`, `STOP`,
  `GET`, `CLEAR`, `SETS n`, `SETA n` and `BSIZE n`, and replies are matched as exact tokens
  such as `STAOK`, `SSNOK` or `BF`.
  - It polls `GET` on a timer. Each decoded reply becomes a timestamped six-channel row of
    the sample table; a reply that is not JSON becomes a row of -1s.
  - It seeds and resets that table.
  - It negotiates three device parameters, resending each command until the device answers
    OK or NOK. A value is committed only on OK.
- **The firmware driver** (`MMAX6675` in `measurement-system/hardware/src/multimax_spi.cpp`)
  reads six MAX6675 converters. It decodes each 16-bit word into quarter degrees or
  "no thermocouple" and keeps the measurements in a bounded FIFO queue. The host drains the
  queue one JSON message at a time and can clear it or change its capacity.

Modules:

- `Wrappers` — `Option`.
- `Text` —
  - Python's `str` of an integer and its inverse;
  - `str.split` on one character and its inverse `join`;
  - `n` copies of a value.
- `SerialLink` — the serial port as a class `ScriptedPort`. It holds whether the port is
  open, the lines the device will answer with (a script, in order), and the log of what
  was written.
- `Protocol` —
  - the command vocabulary and its wire text;
  - the reply tokens;
  - how a raw line becomes a reply;
  - the resend-until-answered handshake, as a specification function over the script.
- `Acquisition` —
  - table rows;
  - numpy's `arange`;
  - the zero-filled seed table;
  - what `json.loads` makes of a reply.
- `SerialSettings` — the six serial-settings comboboxes and the record they fill.
- `MsInterface` — class `Interface`, the state of `MS_interface` without its widgets, with
  one method per slot of the core.
- `MultimaxSpi` — the word decoding, the message format, and class `MMAX6675` with its
  queue as a `seq` and its capacity.

In these places the code may look unintended; the model follows the code as written:

- `stop_streaming` stops the timer only on `STOOK`. After any other reply the timer keeps
  running.
- `SSNOK` (like `SANOK` and `BSNOK`) ends the resend loop. The value is then not committed
  and no second attempt is made.
- Choosing a flow-control mode only ever sets a flag. Two choices in a row leave two modes
  enabled, and "None" clears nothing.
- `reset_table_data` seeds `initial_data_size + 1` rows. Their times are `-n*rate … 0`.
- On `BF`, `update_data` calls `stop_streaming` twice and returns 0. On `BE` it calls it once
  and returns 2, and `timer_isr` renders on 2 as it does on 1 and -1.
- `resize_queue` tests its two conditions with `&` rather than `&&`. On two booleans this is
  the same test.

## Model

| member | source | states |
|---|---|---|
| `Text.SplitHead` | measurement-system/software/main.py:300-303 | the first field of `split("\r")` is a prefix of the line, holds no carriage return, and ends at the line's end or at its first carriage return |
| `Protocol.ReplyText` | measurement-system/software/main.py:299-311 | the reply kept from a raw line is exactly the part before the first `"\r"`: a prefix free of `"\r"` followed by `"\r"` or by the end of the line |
| `Text.NatToStringRoundTrip` | measurement-system/software/main.py:733 | the decimal digits of a natural number denote that number |
| `Text.IntToStringRoundTrip` | measurement-system/software/main.py:733 | `str(v)` of any integer reads back as `v`, so the argument of `SETS`/`SETA`/`BSIZE` is carried exactly |
| `Text.SplitJoin` | measurement-system/hardware/src/multimax_spi.cpp:69-75 | splitting a separator-joined list whose parts hold no separator gives back the parts |
| `Text.RepeatElements` | measurement-system/software/main.py:735-737 | every command of a resend run is the identical command |
| `Protocol.DecodeEncode` | measurement-system/software/main.py:466 | the wire texts of `START`, `STOP`, `GET`, `CLEAR`, `SETS n`, `SETA n` and `BSIZE n` are pairwise distinct and read back as the command, argument included |
| `Protocol.HandshakeSpec` | measurement-system/software/main.py:733-740 | a handshake is answered iff some scripted line answers it; it then ends at the first such line (every earlier line is neither ok nor nok), is Accepted iff that line is exactly the ok token, sends the command once per line read, and leaves the script after that line; unanswered, it has read the whole script |
| `Protocol.RunSteps` | measurement-system/software/main.py:733-758 | handshakes run in order until one is unanswered; an unanswered step can only be the last one, and with none unanswered every step ran |
| `Protocol.RunThreeSteps` | measurement-system/software/main.py:733-758 | three handshakes in a row: each starts on the script its predecessor left, the log is the three resend runs in order, and a stall at any step ends the sequence there |
| `SerialLink.ScriptedPort.Write` | measurement-system/software/main.py:294-296 | a write on an open port appends the command to the log; on a closed port it is refused and the log is unchanged |
| `SerialLink.ScriptedPort.ReadLine` | measurement-system/software/main.py:300 | a read yields the next scripted line and consumes it, or "" (a timeout) once the script is used up |
| `Acquisition.ArangeSteps` | measurement-system/software/main.py:554-556 | `arange(a, a + m*step, step)` has `m` elements, the k-th being `a + k*step` |
| `Acquisition.SeedTable` | measurement-system/software/main.py:553-562 | the seed table has `n + 1` rows; row k is at time `(k - n)*rate` and all of T1..T6 are 0 |
| `Acquisition.SeedTableSpacing` | measurement-system/software/main.py:553-562 | the seed table is evenly spaced by the sampling rate, strictly increasing, starts at `-n*rate` and ends at 0 |
| `Acquisition.AppendKeepsSpacing` | measurement-system/software/main.py:517-534 | a row stamped one sampling interval after the last keeps the table evenly spaced, and increasing for a positive rate |
| `SerialSettings.BaudRate` | measurement-system/software/main.py:87-90 | a baud name is found iff it is one of the eight labels |
| `SerialSettings.BaudRateInjective` | measurement-system/software/main.py:87-90 | distinct baud labels give distinct rates |
| `SerialSettings.BaudRateLabel` | measurement-system/software/main.py:87-90 | each baud label maps to the rate it spells in decimal |
| `SerialSettings.DataBits` | measurement-system/software/main.py:91-93 | a data-bits name is found iff it is "5".."8", and the value is 5..8 with that decimal name |
| `SerialSettings.ParityOf` | measurement-system/software/main.py:94-96 | a parity name is found iff it is None, Even or Odd |
| `SerialSettings.StopBitsOf` | measurement-system/software/main.py:97-99 | a stop-bits name is found iff it is 1, 1.5 or 2 |
| `SerialSettings.Selected` | measurement-system/software/main.py:224-260 | a port name other than "refresh" and "---" is stored as the port; a baud, data-bits, parity or stop-bits label that its table holds is stored as the looked-up value; XON/XOFF, RTS/CTS and DTR/DSR switch their flag on; nothing else changes: only the entry of the chosen combobox can change, unknown names and the two placeholders change nothing, and flow-control flags are only ever set |
| `SerialSettings.StartupSelection` | measurement-system/software/main.py:148-169 | at start-up the port, baud and data-bits entries hold the selection of the label at their configured index whenever that index is not 0 ("" for an index past the list), parity and stop bits are unset and no flow-control flag is on |
| `SerialSettings.StartupDefaults` | measurement-system/software/main.py:195-197 | with the default indexes 2, 7 and 3 the first listed port ("" when none is listed) is chosen, at 115200 baud and 8 data bits |
| `SerialSettings.FlowControlAccumulates` | measurement-system/software/main.py:250-258 | choosing XON/XOFF and then RTS/CTS leaves both enabled; choosing "None" changes nothing |
| `MsInterface.UnappliedSpec` | measurement-system/software/main.py:767-773 | the names reported are a subsequence of the keys in key order, a key is reported iff its flag is false, and nothing is reported iff every flag is set |
| `MsInterface.ReportedNames` | measurement-system/software/main.py:729-773 | with all three steps answered, `plotting_rate` is never reported and each of the other three keys is reported iff its step was refused; nothing is reported iff all three were accepted |
| `MsInterface.NotChangedNames` | measurement-system/software/main.py:770-773 | the loop over the keys collects exactly the unapplied names, in key order |
| `MsInterface.StepsFacts` | measurement-system/software/main.py:733-758 | the three parameter handshakes, `SETS`/`SSOK`/`SSNOK` then `SETA`/`SAOK`/`SANOK` then `BSIZE`/`BSOK`/`BSNOK`, run in order on the script |
| `MsInterface.Interface.constructor` | measurement-system/software/main.py:45-169 | start-up takes the configured parameters as both confirmed and proposed (main.py:198-209), seeds the table, leaves the timer stopped, and holds the serial settings that moving the port, baud and data-bits comboboxes to their configured indexes selects |
| `MsInterface.Interface.SerialComboboxSelection` | measurement-system/software/main.py:224-260 | the serial settings become the selection of the shown text in that combobox; nothing else changes |
| `MsInterface.Interface.ArduinoRequest` | measurement-system/software/main.py:294-296 | the command is logged iff the port is open; otherwise the call raises |
| `MsInterface.Interface.ArduinoResponse` | measurement-system/software/main.py:299-311 | one line is consumed and the reply is its text before the first carriage return |
| `MsInterface.Interface.StartStreaming` | measurement-system/software/main.py:462-471 | `START` is sent; the timer is (re)started at the plotting rate iff the reply is exactly `STAOK`, otherwise it is as it was; on a closed port the write raises and nothing changes |
| `MsInterface.Interface.StopStreaming` | measurement-system/software/main.py:474-483 | `STOP` is sent; the timer stops iff the reply is exactly `STOOK`, otherwise its state is unchanged; on a closed port the write raises and nothing changes |
| `MsInterface.Interface.StoreReading` | measurement-system/software/main.py:514-539 | an object is appended as one row stamped `last time + sampling_rate` (code 1); text that is not JSON appends one sentinel row (all -1) at that stamp (code -1); other JSON changes nothing (code 0); spacing and order of the table are kept |
| `MsInterface.Interface.UpdateData` | measurement-system/software/main.py:491-545 | `GET` is sent and one line consumed; `BE` stops once and returns 2, `BF` stops twice and returns 0, neither appends; an empty reply returns 0 with the table unchanged; any other reply is stored as `StoreReading` states; a closed port raises |
| `MsInterface.Interface.TimerIsr` | measurement-system/software/main.py:486-488 | one poll as `UpdateData` states, rendered iff it returned a non-zero code |
| `MsInterface.Interface.ResetTableData` | measurement-system/software/main.py:553-565 | the table becomes the seed of `initial_data_size + 1` zero rows ending at time 0, evenly spaced |
| `MsInterface.Interface.Reset` | measurement-system/software/main.py:644-652 | a running timer is stopped first (raising on a closed port, which ends the reset); `CLEAR` is sent and its reply ignored iff the port is open; the table is then re-seeded |
| `MsInterface.Interface.Negotiate` | measurement-system/software/main.py:733-740 | the resend loop sends the identical command once per line read and ends as `Handshake` of the script says: on the first line that is exactly ok or nok, or when the script runs out |
| `MsInterface.Interface.NegotiateAll` | measurement-system/software/main.py:733-758 | the three resend loops run in order; the log, the script left and the answers are those of `RunSteps` over the three steps |
| `MsInterface.Interface.ApplyStreamingParams` | measurement-system/software/main.py:719-776 | with the port closed no parameter changes and nothing is sent; with it open `plotting_rate` is always taken, each other value is committed iff its step was accepted, and the outcome reports the unapplied keys in key order (or that a step ran out of replies) |
| `MultimaxSpi.RawWord` | measurement-system/hardware/src/multimax_spi.cpp:38-40 | the word holds the first byte above the second: its high byte is `hi` and its low byte `lo` |
| `MultimaxSpi.Convert` | measurement-system/hardware/src/multimax_spi.cpp:46-50 | a reading is "no thermocouple" iff bit `0x4` is set; otherwise it is `raw >> 3` quarter degrees, below `0x2000` |
| `MultimaxSpi.ConvertBytes` | measurement-system/hardware/src/multimax_spi.cpp:38-50 | the open flag is bit 2 of the low byte, and the temperature is `hi*32 + lo/8` quarter degrees |
| `MultimaxSpi.MeasurementJsonFields` | measurement-system/hardware/src/multimax_spi.cpp:69-75 | the message is `{` … `}` around exactly six comma-separated members `"T1":a` … `"T6":f`, in that order, provided no rendered value holds a comma |
| `MultimaxSpi.MMAX6675.constructor` | measurement-system/hardware/src/multimax_spi.cpp:4-8 | a new driver has an empty queue of the given capacity |
| `MultimaxSpi.MMAX6675.RegTemperatures` | measurement-system/hardware/src/multimax_spi.cpp:29-63 | when the queue is not full the decoded measurement is appended at the back and 1 is returned; when full, 0 is returned and the queue is unchanged |
| `MultimaxSpi.MMAX6675.GetMeasurements` | measurement-system/hardware/src/multimax_spi.cpp:66-78 | exactly the oldest measurement is removed and rendered as the message; the rest keep their order |
| `MultimaxSpi.MMAX6675.ClearQueue` | measurement-system/hardware/src/multimax_spi.cpp:82-90 | the recursion ends (the count drops at each call) and leaves the queue empty |
| `MultimaxSpi.MMAX6675.ResizeQueue` | measurement-system/hardware/src/multimax_spi.cpp:93-122 | the resize succeeds iff `itemCount <= maxItems <= 40`; on success the elements are the same and in the same order and the capacity is the new one; on failure queue and capacity are unchanged |

## Left out

- Qt presentation is not modelled: windows, menus, pages, message boxes, tooltips and the serial monitor text box. The warning after `apply_streaming_params` is modelled as the list of names it shows, not as the newline-joined text.
- Plotting, table rendering and `update_streaming_params` are not modelled. They are matplotlib and dialog glue. The proposal `params_to_apply` is a field that such a dialog would set, with the key order `sampling_rate, plotting_rate, analysis_time, buffer_size` of `measurement-system/software/src/dialogwidgets.py:75`.
- File I/O is not modelled: the configuration load and save, and the Excel and PNG export.
- The port is not opened, closed or listed (`connect_disconnect_COM`, `refreshCOMPorts`, pyserial). The port is a script of reply lines plus a log of writes. A read past the script is the read timeout: it returns "".
- The "refresh" entry of the port combobox re-lists the ports, and that listing is not modelled. In the model the selection is then unchanged.
- A combobox label that its lookup table lacks raises `KeyError` inside the Qt slot. The model treats it as a selection that changes nothing; how PyQt reports an exception escaping a slot is not modelled. At start-up this covers a baud or data-bits index past the end of its list, where Qt shows "".
- MsInterface.Interface.constructor: the ports the start-up listing finds are a parameter. The model follows Qt's rules that a filled combobox shows item 0, that `setCurrentIndex` signals only when the index changes, and that an index out of range shows "". The Qt library is not part of this model.
- `json.loads` is a parameter of `UpdateData` and `TimerIsr`. It decides whether a reply is an object, some other JSON value, or not JSON. Which exception other than `ValueError` a bad object raises is folded into "other JSON": both return 0 with the table unchanged.
- Readings on the host are `real` and times are integers (milliseconds). pandas' float rendering of times is not modelled, and the table assumes pandas before 2.0, where `DataFrame.append` exists.
- QTimer timing is not modelled (ticks, overlapping polls, wall-clock behaviour). The timer is its active flag and its interval.
- Protocol.Handshake: the program resends for ever while no answer comes. The model ends the handshake when the script runs out and reports it as unanswered (`NoAnswer`, and `Stalled` from `ApplyStreamingParams`). Whatever the program would do after that point is not modelled.
- MsInterface.Interface.ApplyStreamingParams: the source commits each value right after its own loop. The model runs the three loops (`NegotiateAll`) and then commits the accepted values. Nothing can observe the difference: no value is read between the loops, and a stall never returns in the source.
- MsInterface.Interface.ApplyStreamingParams: the `changed` list is built once from the three answers (`ChangedFlags`) instead of being updated element by element. The two give the same list.
- MsInterface.Interface.Negotiate requires non-empty ok and nok tokens, as all six the program uses are. With an empty token a read timeout would count as an answer.
- MsInterface.Interface.ArduinoResponse: the script holds lines already decoded as text. A line that is not valid UTF-8 makes `decode("utf-8")` at main.py:300 raise outside any `try`. That error path is not modelled: `UpdateData`, and through it `TimerIsr`, would let the error escape with no row added, and so would the other callers of a read.
- Float conversion is not modelled in the firmware: the `* 0.25` to Celsius, the `NAN` stored in a `uint16_t`, and `String(float)`. A reading is an integer number of quarter degrees or "no thermocouple", and its rendering is a parameter `render`.
- MultimaxSpi.MMAX6675.GetMeasurements: the `ArduinoQueue` library is not part of this model, so what its `dequeue` does on an empty queue is unknown. The model returns None and leaves the queue empty.
- The firmware's SPI transfers, chip-select pins, `ArduinoQueue` internals and the `new`/`delete` of `resize_queue` are not modelled. The two bytes each sensor sends are parameters of `RegTemperatures`, and the queue is a sequence plus a capacity.
- The firmware's command loop and the rest of the sketch are not part of this model.
