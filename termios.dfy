/**
 * The POSIX terminal attribute record (`struct termios`) as the serial port sees it.
 *
 * Each of the four mode words is a set of abstract bits. The bits the port sets or clears
 * are named after their POSIX macros; every other bit a baseline record may carry is an
 * `Other…` value, so "nothing else changes" is a statement about set membership. The
 * concrete bit values and `B*` speed codes come from system headers and are not modelled.
 */
module Termios {
  import opened Results

  /** Bits of `c_cflag`. The character-size field CSIZE is two bits wide. */
  datatype ControlBit =
    | CLOCAL | CREAD | SizeBit0 | SizeBit1 | CSTOPB | PARENB | PARODD | CRTSCTS
    | OtherControl(bit: nat)

  /** Bits of `c_iflag`. */
  datatype InputBit =
    | INPCK | ISTRIP | IXON | IXOFF | IXANY | BRKINT | ICRNL
    | OtherInput(bit: nat)

  /** Bits of `c_lflag`. */
  datatype LocalBit = ICANON | ECHO | ECHOE | ISIG | OtherLocal(bit: nat)

  /** Bits of `c_oflag`. */
  datatype OutputBit = OPOST | OtherOutput(bit: nat)

  /** Indices of the control-character array `c_cc`. */
  datatype ControlChar = VMIN | VTIME | OtherChar(index: nat)

  /** The `speed_t` codes: the eight the port selects, and any code a baseline may hold. */
  datatype Speed =
    | B9600 | B19200 | B38400 | B57600 | B115200 | B230400 | B460800 | B921600
    | OtherSpeed(code: nat)
  {
    predicate Standard() { !OtherSpeed? }
  }

  /** A `struct termios`: four mode words, the control characters and the two line speeds. */
  datatype Attributes = Attributes(
    cflag: set<ControlBit>,
    iflag: set<InputBit>,
    lflag: set<LocalBit>,
    oflag: set<OutputBit>,
    cc: map<ControlChar, bv8>,
    ispeed: Speed,
    ospeed: Speed)

  /** The character-size mask and the two widths the port accepts (CS7 lies inside CS8's bits). */
  const CSIZE: set<ControlBit> := {SizeBit0, SizeBit1}
  const CS7: set<ControlBit> := {SizeBit1}
  const CS8: set<ControlBit> := {SizeBit0, SizeBit1}

  /** The baud rates the port accepts. */
  const SupportedBauds: set<int> := {9600, 19200, 38400, 57600, 115200, 230400, 460800, 921600}

  /** The nominal rate, in bits per second, that a standard speed code stands for. */
  function Rate(s: Speed): (baud: int)
    requires s.Standard()
    ensures baud in SupportedBauds
  {
    match s
    case B9600 => 9600
    case B19200 => 19200
    case B38400 => 38400
    case B57600 => 57600
    case B115200 => 115200
    case B230400 => 230400
    case B460800 => 460800
    case B921600 => 921600
  }

  /** The speed code for a requested baud rate, or None when the rate is not supported. */
  function BaudSpeed(baud: int): (r: Option<Speed>)
    ensures r.Some? <==> baud in SupportedBauds
    ensures r.Some? ==> r.value.Standard() && Rate(r.value) == baud
  {
    match baud
    case 9600 => Some(B9600)
    case 19200 => Some(B19200)
    case 38400 => Some(B38400)
    case 57600 => Some(B57600)
    case 115200 => Some(B115200)
    case 230400 => Some(B230400)
    case 460800 => Some(B460800)
    case 921600 => Some(B921600)
    case _ => None
  }

  /** Every standard speed code is selected by exactly its own rate, so distinct rates get distinct codes. */
  lemma BaudSpeedRoundTrip(s: Speed)
    requires s.Standard()
    ensures BaudSpeed(Rate(s)) == Some(s)
    ensures forall baud :: BaudSpeed(baud) == Some(s) ==> baud == Rate(s)
  {
  }
}
