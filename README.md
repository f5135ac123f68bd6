# Serial port handle (flow-native, POSIX)

A Dafny model of the serial port handle of `flow-native/src/platform/posix/flow.c`.
The handle is `struct serial_config`. It owns three descriptors: the port's descriptor and the two ends of a pipe.
The pipe carries no data; it is only a cancellation signal for a blocking read.

The five operations are modelled as procedures over an abstract OS resource table (`Posix.Os`):
- `serial_open`
- `serial_close`
- `serial_read`
- `serial_cancel_read`
- `serial_write`

The table records:
- the open descriptors
- which of them refer to the device
- which have `O_NONBLOCK` set
- who holds the device's exclusive lock
- how many bytes are buffered in each pipe
- the applied line settings
- the device's input and output queues

Each system call is one method of `Os`. Whether the kernel reports a failure comes from an oracle argument; what the call does on success follows from the table. Some outcomes come from the table itself:
- `flock` also fails when the lock is already held through another descriptor or by another process.
- `select` reports the cancel pipe readable exactly when a byte is buffered in it.
- `read` delivers what the device has received, up to the requested size.

Modules:
- `Errors`: the E_* result kinds, the errno classification of `open`, and `FirstFailure`. An operation that performs its steps in order and returns at the first failure stops at that index.
- `Termios`: the baud, character-size and parity tables, and the raw-mode settings serial_open composes. The settings are given as the `RawMode` predicate.
- `OpenSpec`: the twelve steps of serial_open in source order, and the verdict "the first failing step decides".
- `SerialSpec`: read, cancel and write as functions on what one handle sees (cancel-pipe byte count, device input, device output). Also sequences of such calls, and the release order of serial_close.
- `Serial`: the five operations as methods over `Os`, each proved against the functions of `OpenSpec` and `SerialSpec`. `AcquirePort`, `LineSettings`, `ApplyLine`, `CancelPipe` and `ConfigurePort` are consecutive parts of serial_open's body.

Where the code and the handle's design description differ, the model follows the code:
- The design says invalid settings are rejected before any OS resource is touched. The code opens and locks the device first, and only then checks the baud rate, the character size and the parity. A busy port with a bad baud rate therefore reports Busy (`OpenSpec.LockFailureIsBusy`).
- The design says an Interrupted read consumes the cancellation token. The code never reads the pipe, so the byte stays buffered. Every later read whose `select` returns is Interrupted too, until the handle is closed (`SerialSpec.CancelPersists`).

## Model

| member | source | states |
|---|---|---|
| `Errors.OpenErrorKind` | flow-native/src/platform/posix/flow.c:53-59 | a failed open reports AccessDenied iff errno is EACCES, NoSuchPort iff ENOENT, IoError for every other errno |
| `Errors.FirstFailure` | flow-native/src/platform/posix/flow.c:42-179 | the index returned is the first failing step: every earlier step succeeded and this one failed, or no step failed |
| `Termios.SpeedOf` | flow-native/src/platform/posix/flow.c:77-101 | a speed constant is found iff the baud rate is one of the eighteen standard rates, and it stands for that rate |
| `Termios.SpeedOfRate` | flow-native/src/platform/posix/flow.c:78-96 | the speed table is a bijection: every speed constant's rate is standard and maps back to that constant |
| `Termios.CharSizeFlag` | flow-native/src/platform/posix/flow.c:110-119 | a CSn flag is found iff the character size is 5, 6, 7 or 8, and it selects that many data bits |
| `Termios.CharBitsInjective` | flow-native/src/platform/posix/flow.c:111-114 | distinct CSn flags select distinct character sizes |
| `Termios.ParityFlags` | flow-native/src/platform/posix/flow.c:127-135 | parity is accepted iff it is NONE, ODD or EVEN; PARENB is added iff parity is not NONE, PARODD iff it is ODD, and nothing else |
| `Termios.RawModeCharSize` | flow-native/src/platform/posix/flow.c:74-119 | the applied control flags hold exactly one CSn flag, the one of the requested size |
| `Termios.RawModeUnique` | flow-native/src/platform/posix/flow.c:71-135 | the arguments determine the applied settings completely |
| `Posix.Os.Open` | flow-native/src/platform/posix/flow.c:51 | open either fails with the oracle's errno and changes nothing, or returns a fresh non-blocking descriptor on the device |
| `Posix.Os.LockExclusive` | flow-native/src/platform/posix/flow.c:61 | the non-blocking exclusive lock succeeds iff the oracle allows it and no other descriptor or process holds the lock |
| `Posix.Os.Unlock` | flow-native/src/platform/posix/flow.c:192 | LOCK_UN releases the lock held through the descriptor unless the call fails |
| `Posix.Os.Close` | flow-native/src/platform/posix/flow.c:183-199 | close releases the descriptor and any lock held through it, even when it reports an error |
| `Posix.Os.Flush` | flow-native/src/platform/posix/flow.c:137 | a successful tcflush discards every byte the device received and had not delivered |
| `Posix.Os.SetAttr` | flow-native/src/platform/posix/flow.c:143 | a successful tcsetattr makes the given settings the device's settings |
| `Posix.Os.Pipe` | flow-native/src/platform/posix/flow.c:150 | pipe creates two fresh connected descriptors with nothing buffered, or changes nothing |
| `Posix.Os.SetNonBlocking` | flow-native/src/platform/posix/flow.c:156 | fcntl F_SETFL O_NONBLOCK marks the descriptor non-blocking unless it fails |
| `Posix.Os.Select` | flow-native/src/platform/posix/flow.c:210-218 | select returns the watched descriptors that are readable: pipes with a byte buffered and, when the kernel says so, the port |
| `Posix.Os.Read` | flow-native/src/platform/posix/flow.c:227 | a device read delivers the first min(size, available) received bytes into the buffer and removes them from the input queue |
| `Posix.Os.WritePort` | flow-native/src/platform/posix/flow.c:257 | a device write appends the accepted prefix of the data to the output |
| `Posix.Os.WritePipe` | flow-native/src/platform/posix/flow.c:247 | a pipe write adds its bytes to the count buffered at the pipe's read end |
| `OpenSpec.StopClosedForm` | flow-native/src/platform/posix/flow.c:51-171 | the first failing step of serial_open, taking the steps in source order |
| `OpenSpec.AcquireFailureVerdict` | flow-native/src/platform/posix/flow.c:53-65 | when open or flock fails, that failure's kind is the result, and the device's queues and settings are untouched |
| `OpenSpec.SettingsFailureVerdict` | flow-native/src/platform/posix/flow.c:97-135 | a rejected baud, character size or parity gives InvalidSettings and a failed cfsetspeed gives IoError, before the flush |
| `OpenSpec.LineVerdict` | flow-native/src/platform/posix/flow.c:137-147 | with valid settings, a failed tcflush or tcsetattr gives IoError; the flush and the settings are applied exactly when their calls succeed |
| `OpenSpec.PipeVerdict` | flow-native/src/platform/posix/flow.c:149-178 | once the settings are applied, serial_open succeeds iff pipe, both fcntl calls and malloc succeed, and otherwise reports IoError |
| `OpenSpec.OpenFailureMapping` | flow-native/src/platform/posix/flow.c:51-59 | a failing open decides the result: EACCES gives AccessDenied, ENOENT gives NoSuchPort, anything else IoError |
| `OpenSpec.LockFailureIsBusy` | flow-native/src/platform/posix/flow.c:61-65 | once the device is open, a lock that cannot be taken gives Busy whatever the settings arguments |
| `OpenSpec.LockedPortNeverOpens` | flow-native/src/platform/posix/flow.c:61-65 | a port already locked is never opened, never reports InvalidSettings, and no step after flock runs |
| `OpenSpec.InvalidSettingsExactly` | flow-native/src/platform/posix/flow.c:78-135 | InvalidSettings iff open and lock succeeded and then the baud is not standard, or cfsetspeed succeeded and the character size or parity is unsupported |
| `OpenSpec.OpenSucceedsExactly` | flow-native/src/platform/posix/flow.c:42-179 | serial_open succeeds iff the lock is free, all three settings are supported and no call fails |
| `OpenSpec.LateFailuresAreIoErrors` | flow-native/src/platform/posix/flow.c:137-171 | every failure after the settings checks is reported as IoError |
| `SerialSpec.ReadStep` | flow-native/src/platform/posix/flow.c:205-240 | select failure gives IoError; a buffered cancel byte gives Interrupted without touching the device; otherwise one read; the result is 1 <= r <= size bytes taken off the input, or IoError; the pipe count never changes |
| `SerialSpec.CancelStep` | flow-native/src/platform/posix/flow.c:242-253 | cancel adds exactly one byte to the pipe and returns 0, or IoError with nothing changed |
| `SerialSpec.WriteStep` | flow-native/src/platform/posix/flow.c:255-263 | one device write; the count the kernel accepts, at most the size and possibly short or zero, is returned and exactly that prefix of the data appended to the output; a failure gives IoError and changes nothing |
| `SerialSpec.PendingCountsCancels` | flow-native/src/platform/posix/flow.c:224-225 | after any sequence of calls the pipe holds its initial bytes plus one per successful cancel: no call drains it |
| `SerialSpec.InterruptedExactly` | flow-native/src/platform/posix/flow.c:218-225 | in a sequence of calls, a read is Interrupted iff its select returns and a cancel byte is pending, from the start or from an earlier successful cancel |
| `SerialSpec.CancelPersists` | flow-native/src/platform/posix/flow.c:224-225 | with a cancel byte pending, every later read whose select returns is Interrupted and no later read consumes device input |
| `SerialSpec.CancelThenReads` | flow-native/src/platform/posix/flow.c:242-253 | after a successful cancel with no read in progress, every later read whose select returns is Interrupted |
| `SerialSpec.CloseStopsAtFirstFailure` | flow-native/src/platform/posix/flow.c:181-203 | close reports IoError iff a step fails; the pipe write end is always released; each later resource is released iff all earlier steps succeeded |
| `SerialSpec.CloseOkReleasesAll` | flow-native/src/platform/posix/flow.c:196-202 | close returns success only after releasing both pipe ends, the lock and the port |
| `Serial.AcquirePort` | flow-native/src/platform/posix/flow.c:51-65 | open then lock; on either failure nothing is held (the descriptor is closed again) and the errno or Busy kind is reported |
| `Serial.LineSettings` | flow-native/src/platform/posix/flow.c:67-135 | the composed termios is raw mode for the arguments iff all checks pass; otherwise InvalidSettings, or IoError for cfsetspeed |
| `Serial.ApplyLine` | flow-native/src/platform/posix/flow.c:137-147 | flush then apply; on failure the port is closed and its lock released |
| `Serial.CancelPipe` | flow-native/src/platform/posix/flow.c:149-178 | pipe, both fcntl calls and malloc; on failure port and pipe ends are all closed; on success the handle is live with an empty non-blocking pipe |
| `Serial.ConfigurePort` | flow-native/src/platform/posix/flow.c:67-178 | the steps of serial_open after the lock; every failure leaves nothing held |
| `Serial.SerialOpen` | flow-native/src/platform/posix/flow.c:42-179 | the result is the verdict of the first failing step; on failure the descriptors and the lock are as before; on success exactly three fresh descriptors are added, the lock is held through the port and raw-mode settings are applied to a flushed device |
| `Serial.SerialOpenWhileLive` | flow-native/src/platform/posix/flow.c:42-68 | opening a device whose lock a live handle holds fails with the open error or Busy, never InvalidSettings, and that handle stays live with its pipe count and device queues unchanged |
| `Serial.SerialClose` | flow-native/src/platform/posix/flow.c:181-203 | the result is the close verdict; the handle's descriptors and lock are released exactly as the close stages say; nothing else changes |
| `Serial.SerialRead` | flow-native/src/platform/posix/flow.c:205-240 | the new input queue and the result are those of ReadStep, and the bytes returned are the first ones the device had received |
| `Serial.SerialCancelRead` | flow-native/src/platform/posix/flow.c:242-253 | the handle's pipe count and the result are those of CancelStep; other pipes are unchanged |
| `Serial.SerialWrite` | flow-native/src/platform/posix/flow.c:255-263 | the device output and the result are those of WriteStep |

## Left out

- Debug logging (`debug`, `print_debug`, `serial_debug`): it only affects what is printed to stderr.
- Real termios, `select`, `flock` and pipe semantics. Each call is a step whose failure comes from an oracle argument. B* speeds and CS*/PAR* bits are symbols, not numbers; c_cc is not modelled.
- The nfds computation for `select`: the model's select takes the set of watched descriptors directly.
- Cross-thread interruption of a blocked `select`: reads and cancels are modelled as calls made one after another on the shared pipe count. A read with nothing ready whose select "returns" stands for select's unexpected result.
- A pipe read end becoming readable because its write end was closed: while a handle is live its write end is open.
- Memory allocation: `malloc` is a step that may fail, and `free` in serial_close is not modelled. The allocation at flow.c:164 uses `sizeof(s)`, the size of a pointer, rather than `sizeof(struct serial_config)`. That is fewer bytes than the three descriptors the code then stores, a probable defect. The model does not represent memory layout and does not capture it.
- The model has one serial device: `port_name` only reaches open's outcome through the oracle.
- Contents of the caller's buffers beyond the returned count, and truncation of a read or write count that does not fit in an `int`.
- The numeric values of PARITY_* and E_*: flow.h is not part of this model. PARITY_NONE, PARITY_ODD and PARITY_EVEN are taken as 0, 1 and 2; only their distinctness matters. E_* kinds are a datatype.
- errno is modelled for `open` only. The other calls' errno feeds only the debug output.
- `Posix.Os.Close`: follows Linux, where a descriptor is released even when close reports an error. A system that keeps the descriptor would leave open's rollback closes (whose results the code ignores) able to leak.
- `SerialSpec.CancelPersists`: states "every later read is Interrupted" only for reads whose select returns. The code checks select's failure first, so a failing select gives IoError even with a cancel pending.
- `ch_jodersky_flow_UnsafeSerial.h`: generated JNI declarations with no logic.
