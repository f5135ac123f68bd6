/**
 * The line settings serial_open composes: the speed table behind the
 * `switch (baud)`, the character-size and parity tables, and the termios
 * record whose control flags are built with `|=`. Flags are a set of
 * symbolic bits rather than their numeric values.
 */
module Termios {

  import opened Wrappers

  /** The B* speed constants of the classical POSIX speed table. */
  datatype Speed =
    | B50 | B75 | B110 | B134 | B150 | B200 | B300 | B600 | B1200 | B1800
    | B2400 | B4800 | B9600 | B19200 | B38400 | B57600 | B115200 | B230400

  /** The baud rate each speed constant stands for. */
  function Rate(s: Speed): nat
  {
    match s
    case B50 => 50
    case B75 => 75
    case B110 => 110
    case B134 => 134
    case B150 => 150
    case B200 => 200
    case B300 => 300
    case B600 => 600
    case B1200 => 1200
    case B1800 => 1800
    case B2400 => 2400
    case B4800 => 4800
    case B9600 => 9600
    case B19200 => 19200
    case B38400 => 38400
    case B57600 => 57600
    case B115200 => 115200
    case B230400 => 230400
  }

  /** The eighteen baud rates serial_open accepts. */
  const StandardBauds: set<int> :=
    {50, 75, 110, 134, 150, 200, 300, 600, 1200, 1800, 2400, 4800, 9600, 19200, 38400, 57600, 115200, 230400}

  /** The `switch (baud)` of serial_open: a speed constant for a standard rate, nothing otherwise. */
  function SpeedOf(baud: int): (r: Option<Speed>)
    ensures r.Some? <==> baud in StandardBauds
    ensures r.Some? ==> Rate(r.value) == baud
  {
    if baud == 50 then Some(B50)
    else if baud == 75 then Some(B75)
    else if baud == 110 then Some(B110)
    else if baud == 134 then Some(B134)
    else if baud == 150 then Some(B150)
    else if baud == 200 then Some(B200)
    else if baud == 300 then Some(B300)
    else if baud == 600 then Some(B600)
    else if baud == 1200 then Some(B1200)
    else if baud == 1800 then Some(B1800)
    else if baud == 2400 then Some(B2400)
    else if baud == 4800 then Some(B4800)
    else if baud == 9600 then Some(B9600)
    else if baud == 19200 then Some(B19200)
    else if baud == 38400 then Some(B38400)
    else if baud == 57600 then Some(B57600)
    else if baud == 115200 then Some(B115200)
    else if baud == 230400 then Some(B230400)
    else None
  }

  /** The speed table is a bijection between the speed constants and the standard rates. */
  lemma SpeedOfRate(s: Speed)
    ensures Rate(s) in StandardBauds
    ensures SpeedOf(Rate(s)) == Some(s)
  {
  }

  /** The control-mode bits serial_open sets. */
  datatype CFlag = CREAD | CS5 | CS6 | CS7 | CS8 | CSTOPB | PARENB | PARODD

  const CharSizeFlags: set<CFlag> := {CS5, CS6, CS7, CS8}

  /** The number of data bits a CSn flag selects. */
  function CharBits(f: CFlag): nat
    requires f in CharSizeFlags
  {
    match f
    case CS5 => 5
    case CS6 => 6
    case CS7 => 7
    case CS8 => 8
  }

  /** The `switch (char_size)` of serial_open. */
  function CharSizeFlag(charSize: int): (r: Option<CFlag>)
    ensures r.Some? <==> charSize in {5, 6, 7, 8}
    ensures r.Some? ==> r.value in CharSizeFlags && CharBits(r.value) == charSize
  {
    if charSize == 5 then Some(CS5)
    else if charSize == 6 then Some(CS6)
    else if charSize == 7 then Some(CS7)
    else if charSize == 8 then Some(CS8)
    else None
  }

  /** Distinct CSn flags select distinct character sizes. */
  lemma CharBitsInjective(f: CFlag, g: CFlag)
    requires f in CharSizeFlags && g in CharSizeFlags
    ensures CharBits(f) == CharBits(g) <==> f == g
  {
  }

  /** The parity codes of the C interface (defined in flow.h, which is not part of this model). */
  const PARITY_NONE: int := 0
  const PARITY_ODD: int := 1
  const PARITY_EVEN: int := 2

  /** The `switch (parity)` of serial_open: the bits that parity code adds to the control flags. */
  function ParityFlags(parity: int): (r: Option<set<CFlag>>)
    ensures r.Some? <==> parity in {PARITY_NONE, PARITY_ODD, PARITY_EVEN}
    ensures r.Some? ==> r.value <= {PARENB, PARODD}
    ensures r.Some? ==> (PARENB in r.value <==> parity != PARITY_NONE)
    ensures r.Some? ==> (PARODD in r.value <==> parity == PARITY_ODD)
  {
    if parity == PARITY_NONE then Some({})
    else if parity == PARITY_ODD then Some({PARENB, PARODD})
    else if parity == PARITY_EVEN then Some({PARENB})
    else None
  }

  /** The fields of `struct termios` that serial_open sets. */
  datatype Termios = Termios(iflag: int, oflag: int, lflag: int, cflag: set<CFlag>, speed: Speed)

  /**
   * The raw mode serial_open promises for the given arguments: no input,
   * output or local processing, receiver enabled, the requested speed,
   * exactly the CSn flag of the character size, CSTOPB for two stop bits,
   * PARENB for any parity and PARODD for odd parity, and no other bit.
   */
  ghost predicate RawMode(t: Termios, baud: int, charSize: int, twoStopBits: bool, parity: int)
  {
    t.iflag == 0 && t.oflag == 0 && t.lflag == 0
    && Rate(t.speed) == baud
    && CREAD in t.cflag
    && (forall f :: f in CharSizeFlags ==> (f in t.cflag <==> CharBits(f) == charSize))
    && (CSTOPB in t.cflag <==> twoStopBits)
    && (PARENB in t.cflag <==> parity != PARITY_NONE)
    && (PARODD in t.cflag <==> parity == PARITY_ODD)
  }

  /** Raw mode for a valid character size holds exactly one CSn flag, the one of that size. */
  lemma RawModeCharSize(t: Termios, baud: int, charSize: int, twoStopBits: bool, parity: int)
    requires RawMode(t, baud, charSize, twoStopBits, parity)
    requires CharSizeFlag(charSize).Some?
    ensures t.cflag * CharSizeFlags == {CharSizeFlag(charSize).value}
  {
    var cs := CharSizeFlag(charSize).value;
    forall f | f in CharSizeFlags
      ensures f in t.cflag <==> f == cs
    {
      CharBitsInjective(f, cs);
    }
  }

  /** The arguments determine the applied settings completely. */
  lemma RawModeUnique(t: Termios, u: Termios, baud: int, charSize: int, twoStopBits: bool, parity: int)
    requires RawMode(t, baud, charSize, twoStopBits, parity)
    requires RawMode(u, baud, charSize, twoStopBits, parity)
    ensures t == u
  {
    SpeedOfRate(t.speed);
    SpeedOfRate(u.speed);
    forall f: CFlag
      ensures f in t.cflag <==> f in u.cflag
    {
      match f
      case CS5 =>
      case CS6 =>
      case CS7 =>
      case CS8 =>
      case _ =>
    }
  }
}
