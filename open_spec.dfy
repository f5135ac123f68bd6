/**
 * What serial_open reports, stated as "the first failing step decides":
 * the steps in the order the source performs them, when each one fails,
 * and the error kind each failure is reported as.
 */
module OpenSpec {

  import opened Wrappers
  import opened Errors
  import opened Termios

  /** The caller's line-settings arguments of serial_open. */
  datatype OpenArgs = OpenArgs(baud: int, charSize: int, twoStopBits: bool, parity: int)

  /** The kernel's and the allocator's answers to the calls serial_open makes. */
  datatype OpenOracle = OpenOracle(
    openFailure: Option<Errno>,  // errno of open(2), if it fails
    lockFails: bool,             // flock fails even though no one else holds the lock
    speedFails: bool,            // cfsetspeed
    flushFails: bool,            // tcflush
    applyFails: bool,            // tcsetattr
    pipeFails: bool,             // pipe
    readEndFails: bool,          // fcntl on the read end
    writeEndFails: bool,         // fcntl on the write end
    allocFails: bool)            // malloc of the handle

  datatype OpenStep =
    | OpenDevice | LockPort | CheckBaud | SetSpeed | CheckCharSize | CheckParity
    | FlushQueues | ApplySettings | CreatePipe | ReadEndNonBlocking | WriteEndNonBlocking | AllocHandle

  /** The order in which serial_open performs its steps. */
  const OpenSteps: seq<OpenStep> :=
    [OpenDevice, LockPort, CheckBaud, SetSpeed, CheckCharSize, CheckParity,
     FlushQueues, ApplySettings, CreatePipe, ReadEndNonBlocking, WriteEndNonBlocking, AllocHandle]

  /** The position of a step in OpenSteps. */
  function Order(s: OpenStep): (i: nat)
    ensures i < |OpenSteps| && OpenSteps[i] == s
  {
    match s
    case OpenDevice => 0
    case LockPort => 1
    case CheckBaud => 2
    case SetSpeed => 3
    case CheckCharSize => 4
    case CheckParity => 5
    case FlushQueues => 6
    case ApplySettings => 7
    case CreatePipe => 8
    case ReadEndNonBlocking => 9
    case WriteEndNonBlocking => 10
    case AllocHandle => 11
  }

  /** Whether a step fails; `locked` says the device lock is already held when serial_open starts. */
  predicate StepFails(s: OpenStep, a: OpenArgs, o: OpenOracle, locked: bool)
  {
    match s
    case OpenDevice => o.openFailure.Some?
    case LockPort => locked || o.lockFails
    case CheckBaud => a.baud !in StandardBauds
    case SetSpeed => o.speedFails
    case CheckCharSize => a.charSize !in {5, 6, 7, 8}
    case CheckParity => a.parity !in {PARITY_NONE, PARITY_ODD, PARITY_EVEN}
    case FlushQueues => o.flushFails
    case ApplySettings => o.applyFails
    case CreatePipe => o.pipeFails
    case ReadEndNonBlocking => o.readEndFails
    case WriteEndNonBlocking => o.writeEndFails
    case AllocHandle => o.allocFails
  }

  /** The error kind serial_open returns when a step fails. */
  function StepError(s: OpenStep, o: OpenOracle): ErrorKind
  {
    match s
    case OpenDevice => if o.openFailure.Some? then OpenErrorKind(o.openFailure.value) else IoError
    case LockPort => Busy
    case CheckBaud => InvalidSettings
    case CheckCharSize => InvalidSettings
    case CheckParity => InvalidSettings
    case _ => IoError
  }

  function OpenFailures(a: OpenArgs, o: OpenOracle, locked: bool): (fs: seq<bool>)
    ensures |fs| == |OpenSteps|
    ensures forall i :: 0 <= i < |OpenSteps| ==> fs[i] == StepFails(OpenSteps[i], a, o, locked)
  {
    seq(|OpenSteps|, i requires 0 <= i < |OpenSteps| => StepFails(OpenSteps[i], a, o, locked))
  }

  /** The index of the step at which serial_open stops; |OpenSteps| when it succeeds. */
  function Stop(a: OpenArgs, o: OpenOracle, locked: bool): nat
  {
    FirstFailure(OpenFailures(a, o, locked))
  }

  /** Whether serial_open got past step `s`. */
  predicate Passed(s: OpenStep, a: OpenArgs, o: OpenOracle, locked: bool)
  {
    Order(s) < Stop(a, o, locked)
  }

  /** The error serial_open reports, or None when it succeeds: the error of its first failing step. */
  function OpenVerdict(a: OpenArgs, o: OpenOracle, locked: bool): Option<ErrorKind>
  {
    var k := Stop(a, o, locked);
    if k == |OpenSteps| then None else Some(StepError(OpenSteps[k], o))
  }

  /** The step at which serial_open stops, written out as the chain of tests the source makes. */
  lemma StopClosedForm(a: OpenArgs, o: OpenOracle, locked: bool)
    ensures Stop(a, o, locked) ==
      if o.openFailure.Some? then 0
      else if locked || o.lockFails then 1
      else if a.baud !in StandardBauds then 2
      else if o.speedFails then 3
      else if a.charSize !in {5, 6, 7, 8} then 4
      else if a.parity !in {PARITY_NONE, PARITY_ODD, PARITY_EVEN} then 5
      else if o.flushFails then 6
      else if o.applyFails then 7
      else if o.pipeFails then 8
      else if o.readEndFails then 9
      else if o.writeEndFails then 10
      else if o.allocFails then 11
      else 12
  {
    var fs := OpenFailures(a, o, locked);
    if o.openFailure.Some? { FirstFailureUnique(fs, 0); }
    else if locked || o.lockFails { FirstFailureUnique(fs, 1); }
    else if a.baud !in StandardBauds { FirstFailureUnique(fs, 2); }
    else if o.speedFails { FirstFailureUnique(fs, 3); }
    else if a.charSize !in {5, 6, 7, 8} { FirstFailureUnique(fs, 4); }
    else if a.parity !in {PARITY_NONE, PARITY_ODD, PARITY_EVEN} { FirstFailureUnique(fs, 5); }
    else if o.flushFails { FirstFailureUnique(fs, 6); }
    else if o.applyFails { FirstFailureUnique(fs, 7); }
    else if o.pipeFails { FirstFailureUnique(fs, 8); }
    else if o.readEndFails { FirstFailureUnique(fs, 9); }
    else if o.writeEndFails { FirstFailureUnique(fs, 10); }
    else if o.allocFails { FirstFailureUnique(fs, 11); }
    else { FirstFailureUnique(fs, 12); }
  }

  /** serial_open stops at open(2) or flock: nothing of the device's settings or queues has been touched. */
  lemma AcquireFailureVerdict(a: OpenArgs, o: OpenOracle, locked: bool)
    requires o.openFailure.Some? || locked || o.lockFails
    ensures OpenVerdict(a, o, locked) ==
      Some(if o.openFailure.Some? then OpenErrorKind(o.openFailure.value) else Busy)
    ensures !Passed(FlushQueues, a, o, locked) && !Passed(ApplySettings, a, o, locked)
  {
    StopClosedForm(a, o, locked);
  }

  /** serial_open stops at the settings checks or cfsetspeed, before the flush. */
  lemma SettingsFailureVerdict(a: OpenArgs, o: OpenOracle, locked: bool)
    requires o.openFailure.None? && !locked && !o.lockFails
    requires !(a.baud in StandardBauds && !o.speedFails && a.charSize in {5, 6, 7, 8}
               && a.parity in {PARITY_NONE, PARITY_ODD, PARITY_EVEN})
    ensures OpenVerdict(a, o, locked) ==
      Some(if a.baud in StandardBauds && o.speedFails then IoError else InvalidSettings)
    ensures !Passed(FlushQueues, a, o, locked) && !Passed(ApplySettings, a, o, locked)
  {
    StopClosedForm(a, o, locked);
  }

  /** Past the settings checks, serial_open reaches tcflush and tcsetattr. */
  lemma LineVerdict(a: OpenArgs, o: OpenOracle, locked: bool)
    requires o.openFailure.None? && !locked && !o.lockFails
    requires a.baud in StandardBauds && !o.speedFails && a.charSize in {5, 6, 7, 8}
    requires a.parity in {PARITY_NONE, PARITY_ODD, PARITY_EVEN}
    ensures (o.flushFails || o.applyFails) ==> OpenVerdict(a, o, locked) == Some(IoError)
    ensures Passed(FlushQueues, a, o, locked) <==> !o.flushFails
    ensures Passed(ApplySettings, a, o, locked) <==> !o.flushFails && !o.applyFails
  {
    StopClosedForm(a, o, locked);
  }

  /** Once the settings are applied, only the pipe, its flags and the allocation remain. */
  lemma PipeVerdict(a: OpenArgs, o: OpenOracle, locked: bool)
    requires o.openFailure.None? && !locked && !o.lockFails
    requires a.baud in StandardBauds && !o.speedFails && a.charSize in {5, 6, 7, 8}
    requires a.parity in {PARITY_NONE, PARITY_ODD, PARITY_EVEN}
    requires !o.flushFails && !o.applyFails
    ensures OpenVerdict(a, o, locked) ==
      if o.pipeFails || o.readEndFails || o.writeEndFails || o.allocFails then Some(IoError) else None
  {
    StopClosedForm(a, o, locked);
  }

  /** A failing open(2) decides the result: EACCES, ENOENT, anything else. */
  lemma OpenFailureMapping(a: OpenArgs, o: OpenOracle, locked: bool)
    requires o.openFailure.Some?
    ensures OpenVerdict(a, o, locked) == Some(OpenErrorKind(o.openFailure.value))
    ensures o.openFailure == Some(EACCES) ==> OpenVerdict(a, o, locked) == Some(AccessDenied)
    ensures o.openFailure == Some(ENOENT) ==> OpenVerdict(a, o, locked) == Some(NoSuchPort)
    ensures o.openFailure.value.OtherErrno? ==> OpenVerdict(a, o, locked) == Some(IoError)
  {
    FirstFailureUnique(OpenFailures(a, o, locked), 0);
  }

  /**
   * Once the device is open, a lock that cannot be taken decides the result,
   * whatever the settings: a busy port with a bad baud rate reports Busy.
   */
  lemma LockFailureIsBusy(a: OpenArgs, o: OpenOracle, locked: bool)
    requires o.openFailure.None?
    requires locked || o.lockFails
    ensures OpenVerdict(a, o, locked) == Some(Busy)
  {
    FirstFailureUnique(OpenFailures(a, o, locked), 1);
  }

  /** A port whose lock is already held is never opened, and nothing past the lock is attempted. */
  lemma LockedPortNeverOpens(a: OpenArgs, o: OpenOracle)
    ensures OpenVerdict(a, o, true).Some?
    ensures OpenVerdict(a, o, true) != Some(InvalidSettings)
    ensures Stop(a, o, true) <= Order(LockPort)
  {
    var fs := OpenFailures(a, o, true);
    if o.openFailure.Some? {
      FirstFailureUnique(fs, 0);
    } else {
      FirstFailureUnique(fs, 1);
    }
  }

  /**
   * InvalidSettings is reported exactly when the device was opened and
   * locked and then the baud rate is not standard, or, cfsetspeed having
   * succeeded, the character size or the parity is not supported.
   */
  lemma InvalidSettingsExactly(a: OpenArgs, o: OpenOracle, locked: bool)
    ensures OpenVerdict(a, o, locked) == Some(InvalidSettings) <==>
      o.openFailure.None? && !locked && !o.lockFails
      && (a.baud !in StandardBauds
          || (!o.speedFails && (a.charSize !in {5, 6, 7, 8}
                                || a.parity !in {PARITY_NONE, PARITY_ODD, PARITY_EVEN})))
  {
    StopClosedForm(a, o, locked);
  }

  /** serial_open succeeds exactly when every step succeeds: valid settings, a free lock, and no call failing. */
  lemma OpenSucceedsExactly(a: OpenArgs, o: OpenOracle, locked: bool)
    ensures OpenVerdict(a, o, locked).None? <==>
      o.openFailure.None? && !locked && !o.lockFails
      && a.baud in StandardBauds && a.charSize in {5, 6, 7, 8}
      && a.parity in {PARITY_NONE, PARITY_ODD, PARITY_EVEN}
      && !o.speedFails && !o.flushFails && !o.applyFails && !o.pipeFails
      && !o.readEndFails && !o.writeEndFails && !o.allocFails
  {
    StopClosedForm(a, o, locked);
  }

  /** Failures of the calls after the settings checks are all reported as IoError. */
  lemma LateFailuresAreIoErrors(a: OpenArgs, o: OpenOracle, locked: bool)
    requires Passed(CheckParity, a, o, locked)
    requires OpenVerdict(a, o, locked).Some?
    ensures OpenVerdict(a, o, locked) == Some(IoError)
  {
  }
}
