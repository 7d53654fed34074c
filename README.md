# PosixSerialPort — a verified model

This project models the POSIX serial port of BOSSA (`PosixSerialPort`). The port is one
object that owns a device descriptor (`_devfd`, -1 when closed) and a read timeout in
milliseconds (`_timeout`). It offers these operations:

- `open` acquires `/dev/<name>` and turns a request (baud rate, data bits, parity, stop
  bits) into edits of the device's `termios` record.
- `read` waits with `select` and accumulates bytes until the request is met, a wait times
  out or a call fails. In the code nothing else bounds the loop; see "## Left out".
- `write`, `get`, `put`, `close` and the `timeout` setter complete the interface.

The system calls are replaced by scripted results that the caller passes in:

- `PortConfig.OpenOracle` holds the results of `::open`, `tcgetattr`, `cfsetispeed`,
  `cfsetospeed` and `tcsetattr`.
- a sequence of `BoundedRead.Event`s stands for what `select` and `::read` report on each
  loop iteration.
- a plain integer is what `::write` returns.

What the port hands to the system comes back in ghost out-parameters: the path it opens,
the attributes it applies, the descriptor it releases, the waits it arms and the bytes it
writes.

Modules:

- `Results`: `Option` and `Result`.
- `Termios`: the `termios` record. Each of the four mode words is a set of abstract bits,
  and every bit the port never names is an `Other…` value, so "nothing else changes" is a
  statement about set membership. It also holds the speed codes and the baud-rate switch.
- `PortConfig`: the request enums and `RawSettings`, a declarative reference for the
  attribute edits. `SetLineOptions` performs those edits one `|=` / `&= ~` at a time.
  `OpenOutcome` says which check decides the result of `open`.
- `BoundedRead`: the read loop as a specification over the event script (`ReadLoop`,
  `ReadCall`), the `select` timeout split, and lemmas about timeouts, errors and full
  reads.
- `PosixSerial`: the class `PosixSerialPort`. Its fields are `devfd` and `timeout`, and
  it has the methods `Open`, `Close`, `Read`, `Write`, `Get`, `Put` and `SetTimeout`.
  `Read` fills an `array<bv8>` in place.

`open` overwrites `_devfd` without closing a descriptor the port already holds
(src/PosixSerialPort.cpp:42), so reopening an open port leaks the old descriptor. The model
keeps this behaviour: `Open` reports in `released` only the descriptor it acquired itself.

## Model

| member | source | states |
|---|---|---|
| `Termios.BaudSpeed` | src/PosixSerialPort.cpp:52-81 | a speed code exists exactly for the eight supported rates, and the code's nominal rate is the requested one, so distinct rates get distinct codes |
| `Termios.BaudSpeedRoundTrip` | src/PosixSerialPort.cpp:52-81 | each standard speed code is selected by its own rate and by no other |
| `PortConfig.RawSettings` | src/PosixSerialPort.cpp:89-156 | CSIZE holds exactly CS8 or CS7. None clears PARENB, PARODD, INPCK and ISTRIP. Odd sets all four. Even sets PARENB, INPCK and ISTRIP and clears PARODD. CSTOPB is set iff two stop bits. CLOCAL and CREAD are set. CRTSCTS, IXON/IXOFF/IXANY, BRKINT/ICRNL, ICANON/ECHO/ECHOE/ISIG and OPOST are clear. VMIN = VTIME = 0. The speeds are kept |
| `PortConfig.RawSettingsKeepsOtherBits` | src/PosixSerialPort.cpp:89-156 | every bit outside the touched ones, and every control character but VMIN and VTIME, keeps its baseline value |
| `PortConfig.SetLineOptions` | src/PosixSerialPort.cpp:89-156 | the step-by-step edits succeed iff the data width is 7 or 8 and parity and stop bit are ones the switches name; on success the result is `RawSettings` of the input |
| `PortConfig.OpenOutcome` | src/PosixSerialPort.cpp:31-165 | `open` succeeds iff acquisition, tcgetattr, the baud rate, both speed settings, data bits, parity, stop bit and tcsetattr all pass. Success applies `RawSettings` with the requested speed in both directions. Each failure kind implies its cause |
| `PortConfig.UnsupportedRequestNeverOpens` | src/PosixSerialPort.cpp:52-139 | a rejected baud rate, data width, parity or stop bit makes `open` fail whatever the system calls return |
| `BoundedRead.SelectTimeout` | src/PosixSerialPort.cpp:191-192 | with C's truncating division, `tv_sec * 1000000 + tv_usec == _timeout * 1000`; for `_timeout >= 0`, `0 <= tv_usec < 1000000` (for a negative timeout both parts are non-positive) |
| `BoundedRead.ReadLoop` | src/PosixSerialPort.cpp:186-213 | the loop places at most `len` bytes, never drops bytes already counted from the count, and returns -1 or exactly the number of bytes placed |
| `BoundedRead.ReadCall` | src/PosixSerialPort.cpp:175-214 | a call returns -1 or a count in `[0, len]` equal to the bytes placed in the buffer |
| `BoundedRead.ReadKeepsAccumulated` | src/PosixSerialPort.cpp:204-210 | each chunk lands after the bytes already read; earlier bytes are never overwritten |
| `BoundedRead.AccumulatesAcrossWaits` | src/PosixSerialPort.cpp:186-211 | short deliveries accumulate across as many re-armed waits as they take |
| `BoundedRead.TimeoutReturnsPartialCount` | src/PosixSerialPort.cpp:200-203 | a wait that times out after a short delivery returns exactly the bytes delivered so far, not an error |
| `BoundedRead.ErrorDiscardsPartialCount` | src/PosixSerialPort.cpp:194-208 | a select error or a negative `::read` returns -1 even after bytes were accumulated |
| `BoundedRead.FullRequestReturnsLen` | src/PosixSerialPort.cpp:186-213 | once deliveries reach `len` bytes the loop returns `len` and the buffer holds the first `len` bytes delivered |
| `BoundedRead.FilledRequest` | src/PosixSerialPort.cpp:186-213 | a whole call whose deliveries reach `len` bytes returns `len` with those bytes |
| `BoundedRead.ErrorOnlyFromFailedCall` | src/PosixSerialPort.cpp:194-210 | -1 is returned only when select or `::read` actually reported an error |
| `BoundedRead.ByteReply` | src/PosixSerialPort.cpp:225-237 | the single-byte result is -1 or a value in 0..255, and it is the byte iff the read returned exactly 1 |
| `BoundedRead.SingleByteReplies` | src/PosixSerialPort.cpp:225-237 | a delivered byte comes back from `get`; a timeout with no byte gives 0 from `read` but -1 from `get` |
| `PosixSerial.PosixSerialPort.constructor` | src/PosixSerialPort.cpp:20-23 | a new port is closed (`devfd == -1`) with timeout 0 |
| `PosixSerial.PosixSerialPort.Close` | src/PosixSerialPort.cpp:167-173 | afterwards the port is closed; the descriptor is released only if one was held, so a second call releases nothing |
| `PosixSerial.PosixSerialPort.Open` | src/PosixSerialPort.cpp:31-165 | opens `"/dev/" + name`. The result is `OpenOutcome`'s verdict. Success keeps the acquired descriptor. Every failure leaves `devfd == -1`, and every failure after acquisition releases the descriptor. tcsetattr receives `RawSettings` exactly when every check before it passed |
| `PosixSerial.PosixSerialPort.Read` | src/PosixSerialPort.cpp:175-214 | closed: -1 and the buffer untouched. Open: the result is `ReadCall`'s, only `buffer[0..|data|)` is written and holds the received bytes, and every wait is armed with `SelectTimeout(timeout)` |
| `PosixSerial.PosixSerialPort.CopyInto` | src/PosixSerialPort.cpp:206 | the bytes `::read` returns are copied at the given offset and nothing else in the buffer changes |
| `PosixSerial.PosixSerialPort.Write` | src/PosixSerialPort.cpp:216-223 | -1 on a closed port; otherwise the first `len` bytes go to `::write` and its result is returned unchanged |
| `PosixSerial.PosixSerialPort.Get` | src/PosixSerialPort.cpp:225-237 | -1 on a closed port or when the one-byte read does not return 1; otherwise the byte, in 0..255 |
| `PosixSerial.PosixSerialPort.Put` | src/PosixSerialPort.cpp:239-246 | writes the single byte `c mod 256` and returns `Write`'s result |
| `PosixSerial.PosixSerialPort.SetTimeout` | src/PosixSerialPort.cpp:257-262 | stores the timeout unchanged (no validation) and returns true; the descriptor is untouched |

## Left out

- System calls: `::open`, `tcgetattr`, `cfsetispeed`, `cfsetospeed`, `tcsetattr`, `select`, `::read`, `::write` and `::close` are not modelled. Their results are parameters, and what the port passes to them is returned in ghost out-parameters.
- Concrete `termios` bit values and `B*` speed codes come from system headers and are abstract constants here. The header is not part of this model, and neither is `SerialPort.h`. The two enums carry an `Other…` constructor for any value their switch does not name, which makes the `default:` branches reachable.
- A `select` call that returns a positive count is split by the script into "descriptor not set", "`::read` failed" and "`::read` delivered a chunk". `::read` never returns more than it was asked for, so a longer chunk is cut to the bytes still missing. Once the script is exhausted the line counts as silent, so the next `select` times out.
- Read: the model's loop always ends, because the event script is finite and an exhausted script counts as a timeout. The code's loop (src/PosixSerialPort.cpp:186-211) has no iteration bound. If `select` keeps reporting readiness while `::read` returns 0 (end of file after a hang-up), the code re-arms the wait forever. It does the same if `select` returns a positive count without the descriptor's bit set. The model cannot express a call that never returns. `AccumulatesAcrossWaits` with empty chunks shows that such iterations add no bytes and only re-arm the wait.
- Timing: how long `select` actually waits and how long `write` may block are not modelled; only the `timeval` that is armed is.
- `flush` only sleeps for one millisecond and has no stateable behaviour.
- The destructor releases the descriptor like `close`; nothing about it is proved beyond `Close`.
- Reopening an open port does not release the previous descriptor (src/PosixSerialPort.cpp:42). The model keeps this and proves no leak-freedom for reopen.
- Write: a negative `len`, which `::write` would receive as a huge unsigned count, is excluded by the precondition; callers pass byte counts.
- Integer widths: the values handled (`_timeout`, descriptors, counts up to `len`) stay within `int` in every expression the code evaluates, so they are modelled as unbounded integers. The one narrowing conversion, `int` to `uint8_t` in `put`, is written out as `c mod 256`.
- Concurrency: the object is single-threaded and the model is too.
