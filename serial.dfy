/**
 * The serial port handle operations: serial_open, serial_close,
 * serial_read, serial_cancel_read and serial_write as procedures over the
 * OS resource table, each proved against the functions of OpenSpec and
 * SerialSpec.
 */
module Serial {

  import opened Wrappers
  import opened Errors
  import opened Termios
  import opened Posix
  import opened OpenSpec
  import opened SerialSpec

  /** An open handle: its three descriptors are open and distinct, it holds the lock, its pipe is connected. */
  ghost predicate Live(os: Os, h: SerialConfig)
    reads os
  {
    h.portFd in os.ports
    && h.pipeReadFd in os.fds && h.pipeWriteFd in os.fds
    && h.pipeReadFd != h.pipeWriteFd
    && os.lock == HeldBy(h.portFd)
    && h.pipeWriteFd in os.writeTo && os.writeTo[h.pipeWriteFd] == h.pipeReadFd
  }

  /** What the I/O operations of handle h see of the OS. */
  ghost function View(os: Os, h: SerialConfig): PortView
    reads os
    requires os.Valid() && Live(os, h)
  {
    PortView(os.pending[h.pipeReadFd], os.input, os.output)
  }

  /** `m` keeps every entry of `old`. */
  ghost predicate Extends<K, V>(old_: map<K, V>, m: map<K, V>)
  {
    forall k :: k in old_ ==> k in m && m[k] == old_[k]
  }

  /**
   * The line-settings part of serial_open: the baud rate is looked up, the
   * speed set with cfsetspeed (whose failure `speedFails` reports), then
   * the character size, stop bits and parity are or-ed into the control
   * flags. The caller closes the port when this fails.
   */
  method LineSettings(baud: int, charSize: int, twoStopBits: bool, parity: int, speedFails: bool)
    returns (r: Result<Termios>)
    ensures r.Ok? <==> baud in StandardBauds && !speedFails && charSize in {5, 6, 7, 8}
                       && parity in {PARITY_NONE, PARITY_ODD, PARITY_EVEN}
    ensures r.Err? ==> r.kind == if baud in StandardBauds && speedFails then IoError else InvalidSettings
    ensures r.Ok? ==> RawMode(r.value, baud, charSize, twoStopBits, parity)
  {
    var iflag, oflag, lflag, cflag := 0, 0, 0, {CREAD};

    var bd := SpeedOf(baud);
    if bd.None? {
      return Err(InvalidSettings);
    }
    // cfsetspeed(&newtio, bd)
    if speedFails {
      return Err(IoError);
    }
    var speed := bd.value;

    var cs := CharSizeFlag(charSize);
    if cs.None? {
      return Err(InvalidSettings);
    }
    cflag := cflag + {cs.value};

    if twoStopBits {
      cflag := cflag + {CSTOPB};
    }

    var pf := ParityFlags(parity);
    if pf.None? {
      return Err(InvalidSettings);
    }
    cflag := cflag + pf.value;

    var newtio := Termios(iflag, oflag, lflag, cflag, speed);
    forall f | f in CharSizeFlags
      ensures f in newtio.cflag <==> CharBits(f) == charSize
    {
      CharBitsInjective(f, cs.value);
    }
    return Ok(newtio);
  }

  /**
   * The cancel-pipe part of serial_open, entered with the port open,
   * locked and configured: creates the pipe, makes both ends non-blocking
   * and allocates the handle; on any failure closes the port and whatever
   * pipe ends exist.
   */
  method CancelPipe(os: Os, fd: Fd, o: OpenOracle) returns (r: Result<SerialConfig>)
    requires os.Valid() && fd in os.ports && os.lock == HeldBy(fd)
    modifies os`fds, os`ports, os`nonBlocking, os`lock, os`next, os`writeTo, os`pending
    ensures os.Valid()
    ensures r.Ok? <==> !o.pipeFails && !o.readEndFails && !o.writeEndFails && !o.allocFails
    ensures r.Err? ==> r.kind == IoError && os.fds == old(os.fds) - {fd} && os.ports == old(os.ports) - {fd}
                       && os.nonBlocking == old(os.nonBlocking) - {fd} && os.lock == Unlocked
    ensures r.Ok? ==>
      var h := r.value;
      h.portFd == fd && Live(os, h)
      && old(os.next) <= h.pipeReadFd && old(os.next) <= h.pipeWriteFd
      && os.fds == old(os.fds) + {h.pipeReadFd, h.pipeWriteFd} && os.ports == old(os.ports)
      && os.nonBlocking == old(os.nonBlocking) + {h.pipeReadFd, h.pipeWriteFd}
      && os.pending[h.pipeReadFd] == 0
    ensures Extends(old(os.pending), os.pending) && Extends(old(os.writeTo), os.writeTo)
  {
    var pr, rd, wr := os.Pipe(o.pipeFails);
    if pr < 0 {
      var ignored := os.Close(fd, false);
      return Err(IoError);
    }

    var nr := os.SetNonBlocking(rd, o.readEndFails);
    if nr >= 0 {
      nr := os.SetNonBlocking(wr, o.writeEndFails);
    }
    if nr < 0 {
      var ignored := os.Close(fd, false);
      ignored := os.Close(rd, false);
      ignored := os.Close(wr, false);
      return Err(IoError);
    }

    // malloc of the handle
    if o.allocFails {
      var ignored := os.Close(fd, false);
      ignored := os.Close(rd, false);
      ignored := os.Close(wr, false);
      return Err(IoError);
    }

    return Ok(SerialConfig(fd, rd, wr));
  }

  /**
   * The first part of serial_open: opens the device and takes its
   * exclusive lock without waiting, closing the descriptor if the lock
   * cannot be taken.
   */
  method AcquirePort(os: Os, portName: string, o: OpenOracle) returns (fd: Fd, r: Option<ErrorKind>)
    requires os.Valid()
    modifies os`fds, os`ports, os`nonBlocking, os`next, os`lock
    ensures os.Valid()
    ensures r == if o.openFailure.Some? then Some(OpenErrorKind(o.openFailure.value))
                 else if old(os.lock) != Unlocked || o.lockFails then Some(Busy)
                 else None
    ensures r.Some? ==> os.fds == old(os.fds) && os.ports == old(os.ports)
                        && os.nonBlocking == old(os.nonBlocking) && os.lock == old(os.lock)
    ensures r.None? ==> fd == old(os.next) && os.fds == old(os.fds) + {fd} && os.ports == old(os.ports) + {fd}
                        && os.nonBlocking == old(os.nonBlocking) + {fd} && os.lock == HeldBy(fd)
  {
    var err;
    fd, err := os.Open(portName, o.openFailure);
    if fd < 0 {
      return fd, Some(OpenErrorKind(err.value));
    }

    var lr := os.LockExclusive(fd, o.lockFails);
    if lr < 0 {
      var ignored := os.Close(fd, false);
      return fd, Some(Busy);
    }
    return fd, None;
  }

  /**
   * The middle part of serial_open: flushes the device queues and applies
   * the settings, closing the port if either call fails.
   */
  method ApplyLine(os: Os, fd: Fd, t: Termios, o: OpenOracle) returns (ok: bool)
    requires os.Valid() && fd in os.ports && os.lock == HeldBy(fd)
    modifies os`fds, os`ports, os`nonBlocking, os`lock, os`input, os`settings
    ensures os.Valid()
    ensures ok <==> !o.flushFails && !o.applyFails
    ensures os.input == if o.flushFails then old(os.input) else []
    ensures os.settings == if o.flushFails || o.applyFails then old(os.settings) else Some(t)
    ensures !ok ==> os.fds == old(os.fds) - {fd} && os.ports == old(os.ports) - {fd}
                    && os.nonBlocking == old(os.nonBlocking) - {fd} && os.lock == Unlocked
    ensures ok ==> os.fds == old(os.fds) && os.ports == old(os.ports)
                   && os.nonBlocking == old(os.nonBlocking) && os.lock == old(os.lock)
  {
    var fr := os.Flush(fd, o.flushFails);
    if fr < 0 {
      var ignored := os.Close(fd, false);
      return false;
    }

    var sr := os.SetAttr(fd, t, o.applyFails);
    if sr < 0 {
      var ignored := os.Close(fd, false);
      return false;
    }
    return true;
  }

  /**
   * The part of serial_open after the port is open and locked: settings,
   * flush, tcsetattr and the cancel pipe. Every failure closes the port
   * and whatever pipe ends exist.
   */
  method ConfigurePort(os: Os, fd: Fd, baud: int, charSize: int, twoStopBits: bool, parity: int,
                       o: OpenOracle)
    returns (r: Result<SerialConfig>)
    requires os.Valid() && fd in os.ports && os.lock == HeldBy(fd)
    modifies os
    ensures os.Valid()
    ensures var valid := baud in StandardBauds && !o.speedFails && charSize in {5, 6, 7, 8}
                         && parity in {PARITY_NONE, PARITY_ODD, PARITY_EVEN};
      (!valid ==> r == Err(if baud in StandardBauds && o.speedFails then IoError else InvalidSettings))
      && (valid ==> (r.Ok? <==> !o.flushFails && !o.applyFails && !o.pipeFails && !o.readEndFails
                                && !o.writeEndFails && !o.allocFails))
      && (valid && r.Err? ==> r.kind == IoError)
      && os.input == (if valid && !o.flushFails then [] else old(os.input))
      && (valid && !o.flushFails && !o.applyFails ==>
            os.settings.Some? && RawMode(os.settings.value, baud, charSize, twoStopBits, parity))
      && (!(valid && !o.flushFails && !o.applyFails) ==> os.settings == old(os.settings))
    ensures r.Err? ==> os.fds == old(os.fds) - {fd} && os.ports == old(os.ports) - {fd}
                       && os.nonBlocking == old(os.nonBlocking) - {fd} && os.lock == Unlocked
    ensures r.Ok? ==>
      var h := r.value;
      h.portFd == fd && Live(os, h)
      && old(os.next) <= h.pipeReadFd && old(os.next) <= h.pipeWriteFd
      && os.fds == old(os.fds) + {h.pipeReadFd, h.pipeWriteFd} && os.ports == old(os.ports)
      && os.nonBlocking == old(os.nonBlocking) + {h.pipeReadFd, h.pipeWriteFd}
      && os.pending[h.pipeReadFd] == 0
    ensures Extends(old(os.pending), os.pending) && Extends(old(os.writeTo), os.writeTo)
    ensures os.output == old(os.output)
  {
    var line := LineSettings(baud, charSize, twoStopBits, parity, o.speedFails);
    if line.Err? {
      var ignored := os.Close(fd, false);
      return Err(line.kind);
    }

    var applied := ApplyLine(os, fd, line.value, o);
    if !applied {
      return Err(IoError);
    }

    r := CancelPipe(os, fd, o);
  }

  /**
   * serial_open. The device is opened and locked before the arguments
   * are checked; every failure after open(2) closes what was acquired
   * (the return value of those closes is ignored).
   */
  method SerialOpen(os: Os, portName: string, baud: int, charSize: int, twoStopBits: bool, parity: int,
                    o: OpenOracle)
    returns (r: Result<SerialConfig>)
    requires os.Valid()
    modifies os
    ensures os.Valid()
    ensures var a, locked := OpenArgs(baud, charSize, twoStopBits, parity), old(os.lock) != Unlocked;
      r.Error() == OpenVerdict(a, o, locked)
      && os.input == (if Passed(FlushQueues, a, o, locked) then [] else old(os.input))
      && (Passed(ApplySettings, a, o, locked) ==>
            os.settings.Some? && RawMode(os.settings.value, baud, charSize, twoStopBits, parity))
      && (!Passed(ApplySettings, a, o, locked) ==> os.settings == old(os.settings))
    ensures r.Err? ==> os.fds == old(os.fds) && os.ports == old(os.ports)
                       && os.nonBlocking == old(os.nonBlocking) && os.lock == old(os.lock)
    ensures r.Ok? ==>
      var h := r.value;
      Live(os, h)
      && old(os.next) <= h.portFd && old(os.next) <= h.pipeReadFd && old(os.next) <= h.pipeWriteFd
      && h.portFd != h.pipeReadFd && h.portFd != h.pipeWriteFd
      && os.fds == old(os.fds) + {h.portFd, h.pipeReadFd, h.pipeWriteFd}
      && os.ports == old(os.ports) + {h.portFd}
      && os.nonBlocking == old(os.nonBlocking) + {h.portFd, h.pipeReadFd, h.pipeWriteFd}
      && os.pending[h.pipeReadFd] == 0
    ensures Extends(old(os.pending), os.pending) && Extends(old(os.writeTo), os.writeTo)
    ensures os.output == old(os.output)
  {
    ghost var a, locked := OpenArgs(baud, charSize, twoStopBits, parity), os.lock != Unlocked;

    var fd, acquired := AcquirePort(os, portName, o);
    if acquired.Some? {
      AcquireFailureVerdict(a, o, locked);
      return Err(acquired.value);
    }

    ghost var valid := baud in StandardBauds && !o.speedFails && charSize in {5, 6, 7, 8}
                 && parity in {PARITY_NONE, PARITY_ODD, PARITY_EVEN};
    if !valid {
      SettingsFailureVerdict(a, o, locked);
    } else if o.flushFails || o.applyFails {
      LineVerdict(a, o, locked);
    } else {
      LineVerdict(a, o, locked);
      PipeVerdict(a, o, locked);
    }
    r := ConfigurePort(os, fd, baud, charSize, twoStopBits, parity, o);
  }

  /**
   * serial_open of a device while handle h holds its lock: the call fails
   * with the open error or Busy, never with InvalidSettings, and h stays
   * live with nothing it sees changed.
   */
  method SerialOpenWhileLive(os: Os, h: SerialConfig, portName: string, baud: int, charSize: int,
                             twoStopBits: bool, parity: int, o: OpenOracle)
    returns (r: Result<SerialConfig>)
    requires os.Valid() && Live(os, h)
    modifies os
    ensures os.Valid() && Live(os, h)
    ensures r.Err? && r.kind != InvalidSettings
    ensures o.openFailure.None? ==> r == Err(Busy)
    ensures View(os, h) == old(View(os, h))
  {
    ghost var a := OpenArgs(baud, charSize, twoStopBits, parity);
    LockedPortNeverOpens(a, o);
    if o.openFailure.None? {
      LockFailureIsBusy(a, o, true);
    }
    r := SerialOpen(os, portName, baud, charSize, twoStopBits, parity, o);
  }

  /**
   * serial_close: closes the pipe write end, the pipe read end, unlocks
   * and closes the port, returning IoError at the first failure.
   */
  method SerialClose(os: Os, h: SerialConfig, o: CloseOracle) returns (r: Result<()>)
    requires os.Valid() && Live(os, h)
    modifies os`fds, os`ports, os`nonBlocking, os`lock
    ensures os.Valid()
    ensures r == CloseResult(o)
    ensures h.pipeWriteFd in os.fds <==> PipeWriteEnd !in Released(o)
    ensures h.pipeReadFd in os.fds <==> PipeReadEnd !in Released(o)
    ensures h.portFd in os.fds <==> PortFd !in Released(o)
    ensures h.portFd in os.ports <==> PortFd !in Released(o)
    ensures os.lock == if PortLock in Released(o) then Unlocked else old(os.lock)
    ensures var mine := {h.portFd, h.pipeReadFd, h.pipeWriteFd};
      os.fds - mine == old(os.fds) - mine && os.ports - mine == old(os.ports) - mine
      && os.nonBlocking - mine == old(os.nonBlocking) - mine
  {
    CloseStopsAtFirstFailure(o);
    var fs := CloseFailures(o);
    var c := os.Close(h.pipeWriteFd, o.writeEndFails);
    if c < 0 {
      return Err(IoError);
    }
    c := os.Close(h.pipeReadFd, o.readEndFails);
    if c < 0 {
      return Err(IoError);
    }
    c := os.Unlock(h.portFd, o.unlockFails);
    if c < 0 {
      return Err(IoError);
    }
    c := os.Close(h.portFd, o.portFails);
    if c < 0 {
      return Err(IoError);
    }
    // free(serial)
    r := Ok(());
  }

  /**
   * serial_read: waits on the port and the cancel pipe; a readable pipe
   * gives Interrupted, a readable port one read of at most `size` bytes.
   */
  method SerialRead(os: Os, h: SerialConfig, buffer: array<byte>, size: nat, o: ReadOracle)
    returns (r: Result<nat>)
    requires os.Valid() && Live(os, h) && size <= buffer.Length
    modifies os`input, buffer
    ensures os.Valid() && Live(os, h)
    ensures (View(os, h), r) == ReadStep(old(View(os, h)), size, o)
    ensures r.Ok? ==> buffer[..r.value] == old(os.input)[..r.value]
  {
    var port, pipe := h.portFd, h.pipeReadFd;
    var n, ready := os.Select({port, pipe}, o.select);
    if n < 0 {
      return Err(IoError);
    }
    if pipe in ready {
      return Err(Interrupted);
    } else if port in ready {
      var got := os.Read(port, buffer, size, o.readFails);
      if got <= 0 {
        return Err(IoError);
      }
      return Ok(got);
    } else {
      return Err(IoError);
    }
  }

  /** serial_cancel_read: writes one byte into the cancel pipe. */
  method SerialCancelRead(os: Os, h: SerialConfig, fails: bool) returns (r: Result<nat>)
    requires os.Valid() && Live(os, h)
    modifies os`pending
    ensures os.Valid() && Live(os, h)
    ensures (View(os, h), r) == CancelStep(old(View(os, h)), fails)
    ensures forall f :: f in old(os.pending) && f != h.pipeReadFd ==> f in os.pending && os.pending[f] == old(os.pending)[f]
    ensures os.pending.Keys == old(os.pending).Keys
  {
    // the byte written is the first byte of DATA_CANCEL
    var c := os.WritePipe(h.pipeWriteFd, 1, fails);
    if c < 0 {
      return Err(IoError);
    }
    return Ok(0);
  }

  /** serial_write: one write of `size` bytes of `data` to the port. */
  method SerialWrite(os: Os, h: SerialConfig, data: array<byte>, size: nat, o: WriteOutcome)
    returns (r: Result<nat>)
    requires os.Valid() && Live(os, h) && size <= data.Length
    modifies os`output
    ensures os.Valid() && Live(os, h)
    ensures (View(os, h), r) == WriteStep(old(View(os, h)), data[..size], o)
  {
    var w := os.WritePort(h.portFd, data, size, o);
    if w < 0 {
      return Err(IoError);
    }
    assert data[..size][..w] == data[..w];
    return Ok(w);
  }
}
