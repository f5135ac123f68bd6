/**
 * An abstract OS resource table for the one serial device the handle uses,
 * and the system calls serial_open, serial_close, serial_read,
 * serial_cancel_read and serial_write make on it. Each call takes an oracle
 * argument that decides whether the kernel reports a failure; what the call
 * does on success follows from the table.
 */
module Posix {

  import opened Wrappers
  import opened Errors
  import opened Termios

  type Fd = int

  newtype byte = b: int | 0 <= b < 256

  /** Who holds the device's exclusive advisory lock (flock LOCK_EX). */
  datatype LockOwner = Unlocked | HeldBy(fd: Fd) | HeldElsewhere

  /** What select(2) reports about the device: failure, or a return telling whether the port is readable. */
  datatype SelectOutcome = SelectFails | SelectReturns(portReady: bool)

  /** What write(2) on the device does: fail, or accept up to `count` bytes. */
  datatype WriteOutcome = WriteFails | WriteAccepts(count: nat)

  class Os {
    var fds: set<Fd>            // descriptors this process holds open
    var ports: set<Fd>          // the open descriptors that refer to the serial device
    var nonBlocking: set<Fd>    // the open descriptors with O_NONBLOCK set
    var next: Fd                // every descriptor ever handed out is below this
    var lock: LockOwner         // the device's exclusive advisory lock
    var writeTo: map<Fd, Fd>    // pipe write end -> its read end
    var pending: map<Fd, nat>   // pipe read end -> bytes written and not yet read
    var settings: Option<Termios>  // line settings last applied to the device
    var input: seq<byte>        // bytes the device has received and not yet delivered
    var output: seq<byte>       // bytes handed to the device by write(2)

    ghost predicate Valid()
      reads this
    {
      0 <= next
      && (forall f :: f in fds ==> 0 <= f < next)
      && ports <= fds && nonBlocking <= fds
      && (lock.HeldBy? ==> lock.fd in ports)
      && (forall f :: f in pending ==> f < next)
      && (forall w :: w in writeTo ==> w < next && writeTo[w] in pending)
      && ports !! pending.Keys && ports !! writeTo.Keys
    }

    /** A process with no descriptors, in front of a device that may already be locked by another process. */
    constructor (received: seq<byte>, lockedElsewhere: bool)
      ensures Valid()
      ensures fds == {} && pending == map[] && writeTo == map[] && settings == None
      ensures input == received && output == []
      ensures lock == if lockedElsewhere then HeldElsewhere else Unlocked
    {
      fds, ports, nonBlocking, next := {}, {}, {}, 0;
      lock := if lockedElsewhere then HeldElsewhere else Unlocked;
      writeTo, pending := map[], map[];
      settings, input, output := None, received, [];
    }

    /** open(2) of the device with O_RDWR | O_NOCTTY | O_NONBLOCK; `failure` is the errno the kernel reports, if any. */
    method Open(name: string, failure: Option<Errno>) returns (fd: int, err: Option<Errno>)
      requires Valid()
      modifies this`fds, this`ports, this`nonBlocking, this`next
      ensures Valid()
      ensures err == failure
      ensures failure.Some? ==> fd == -1 && fds == old(fds) && ports == old(ports)
                                && nonBlocking == old(nonBlocking) && next == old(next)
      ensures failure.None? ==> fd == old(next) && next == old(next) + 1 && fds == old(fds) + {fd}
                                && ports == old(ports) + {fd} && nonBlocking == old(nonBlocking) + {fd}
    {
      err := failure;
      if failure.Some? {
        fd := -1;
      } else {
        fd := next;
        next := next + 1;
        fds, ports, nonBlocking := fds + {fd}, ports + {fd}, nonBlocking + {fd};
      }
    }

    /** flock(fd, LOCK_EX | LOCK_NB): fails without waiting when the lock is held through another descriptor. */
    method LockExclusive(fd: Fd, fails: bool) returns (r: int)
      requires Valid() && fd in ports
      modifies this`lock
      ensures Valid()
      ensures r == 0 || r == -1
      ensures r == 0 <==> !fails && old(lock) in {Unlocked, HeldBy(fd)}
      ensures lock == if r == 0 then HeldBy(fd) else old(lock)
    {
      if fails || !(lock == Unlocked || lock == HeldBy(fd)) {
        r := -1;
      } else {
        lock := HeldBy(fd);
        r := 0;
      }
    }

    /** flock(fd, LOCK_UN). */
    method Unlock(fd: Fd, fails: bool) returns (r: int)
      requires Valid() && fd in ports
      modifies this`lock
      ensures Valid()
      ensures r == (if fails then -1 else 0)
      ensures lock == if r == 0 && old(lock) == HeldBy(fd) then Unlocked else old(lock)
    {
      if fails {
        r := -1;
      } else {
        r := 0;
        if lock == HeldBy(fd) {
          lock := Unlocked;
        }
      }
    }

    /**
     * close(2). As on Linux, the descriptor is released even when close
     * reports an error; closing the descriptor that holds the lock releases it.
     */
    method Close(fd: Fd, fails: bool) returns (r: int)
      requires Valid()
      modifies this`fds, this`ports, this`nonBlocking, this`lock
      ensures Valid()
      ensures r == (if fails || fd !in old(fds) then -1 else 0)
      ensures fds == old(fds) - {fd} && ports == old(ports) - {fd} && nonBlocking == old(nonBlocking) - {fd}
      ensures lock == if old(lock) == HeldBy(fd) then Unlocked else old(lock)
    {
      r := if fails || fd !in fds then -1 else 0;
      fds, ports, nonBlocking := fds - {fd}, ports - {fd}, nonBlocking - {fd};
      if lock == HeldBy(fd) {
        lock := Unlocked;
      }
    }

    /** tcflush(fd, TCIOFLUSH): discards the bytes the device has received and not yet delivered. */
    method Flush(fd: Fd, fails: bool) returns (r: int)
      requires Valid() && fd in ports
      modifies this`input
      ensures Valid()
      ensures r == (if fails then -1 else 0)
      ensures input == if r == 0 then [] else old(input)
    {
      if fails {
        r := -1;
      } else {
        input := [];
        r := 0;
      }
    }

    /** tcsetattr(fd, TCSANOW, &t). */
    method SetAttr(fd: Fd, t: Termios, fails: bool) returns (r: int)
      requires Valid() && fd in ports
      modifies this`settings
      ensures Valid()
      ensures r == (if fails then -1 else 0)
      ensures settings == if r == 0 then Some(t) else old(settings)
    {
      if fails {
        r := -1;
      } else {
        settings := Some(t);
        r := 0;
      }
    }

    /** pipe(2): two fresh descriptors, a read end and a write end, with nothing buffered. */
    method Pipe(fails: bool) returns (r: int, rd: Fd, wr: Fd)
      requires Valid()
      modifies this`fds, this`next, this`writeTo, this`pending
      ensures Valid()
      ensures r == (if fails then -1 else 0)
      ensures fails ==> fds == old(fds) && next == old(next) && writeTo == old(writeTo) && pending == old(pending)
      ensures !fails ==> rd == old(next) && wr == old(next) + 1 && next == old(next) + 2
                         && fds == old(fds) + {rd, wr}
                         && writeTo == old(writeTo)[wr := rd] && pending == old(pending)[rd := 0]
    {
      if fails {
        r, rd, wr := -1, -1, -1;
      } else {
        rd, wr := next, next + 1;
        next := next + 2;
        fds := fds + {rd, wr};
        writeTo, pending := writeTo[wr := rd], pending[rd := 0];
        r := 0;
      }
    }

    /** fcntl(fd, F_SETFL, O_NONBLOCK). */
    method SetNonBlocking(fd: Fd, fails: bool) returns (r: int)
      requires Valid() && fd in fds
      modifies this`nonBlocking
      ensures Valid()
      ensures r == (if fails then -1 else 0)
      ensures nonBlocking == if r == 0 then old(nonBlocking) + {fd} else old(nonBlocking)
    {
      if fails {
        r := -1;
      } else {
        nonBlocking := nonBlocking + {fd};
        r := 0;
      }
    }

    /**
     * select(2) for readability with no timeout. A pipe read end is readable
     * when bytes are buffered in it; whether the device is readable is the
     * kernel's report.
     */
    method Select(watch: set<Fd>, outcome: SelectOutcome) returns (n: int, ready: set<Fd>)
      ensures outcome.SelectFails? ==> n == -1 && ready == {}
      ensures outcome.SelectReturns? ==>
        ready == (set f | f in watch && f in fds
                    && ((f in pending && pending[f] > 0) || (f in ports && outcome.portReady)))
        && n == |ready|
    {
      if outcome.SelectFails? {
        n, ready := -1, {};
      } else {
        ready := set f | f in watch && f in fds
                   && ((f in pending && pending[f] > 0) || (f in ports && outcome.portReady));
        n := |ready|;
      }
    }

    /** read(2) of at most `size` bytes from the device into `buffer`; it delivers what is there, up to `size`. */
    method Read(fd: Fd, buffer: array<byte>, size: nat, fails: bool) returns (r: int)
      requires Valid() && fd in ports && size <= buffer.Length
      modifies this`input, buffer
      ensures Valid()
      ensures fails ==> r == -1 && input == old(input)
      ensures !fails ==> r == Min(size, |old(input)|) && input == old(input)[r..]
                         && buffer[..r] == old(input)[..r]
    {
      if fails {
        r := -1;
      } else {
        var n := Min(size, |input|);
        forall i | 0 <= i < n {
          buffer[i] := input[i];
        }
        input := input[n..];
        r := n;
      }
    }

    /** write(2) of `size` bytes of `data` to the device; the device may accept fewer. */
    method WritePort(fd: Fd, data: array<byte>, size: nat, outcome: WriteOutcome) returns (r: int)
      requires Valid() && fd in ports && size <= data.Length
      modifies this`output
      ensures Valid()
      ensures outcome.WriteFails? ==> r == -1 && output == old(output)
      ensures outcome.WriteAccepts? ==> r == Min(outcome.count, size) && output == old(output) + data[..r]
    {
      if outcome.WriteFails? {
        r := -1;
      } else {
        var n := Min(outcome.count, size);
        output := output + data[..n];
        r := n;
      }
    }

    /** write(2) of `count` bytes to a pipe write end: they are buffered in its read end. */
    method WritePipe(fd: Fd, count: nat, fails: bool) returns (r: int)
      requires Valid() && fd in writeTo
      modifies this`pending
      ensures Valid()
      ensures r == (if fails || fd !in fds then -1 else count)
      ensures pending == if r < 0 then old(pending)
                         else old(pending)[writeTo[fd] := old(pending)[writeTo[fd]] + count]
    {
      if fails || fd !in fds {
        r := -1;
      } else {
        var rd := writeTo[fd];
        pending := pending[rd := pending[rd] + count];
        r := count;
      }
    }
  }
}
