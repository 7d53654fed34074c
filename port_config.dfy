/**
 * What `open` asks of the line and what it makes of the baseline attributes.
 *
 * RawSettings is the declarative reference for the attribute edits that `open` performs
 * step by step; OpenOutcome says which check decides the result, in the order `open`
 * makes them, given scripted results of the system calls involved.
 */
module PortConfig {
  import opened Results
  import opened Termios

  /** SerialPort::Parity. `OtherParity` stands for any value the switch in `open` does not name. */
  datatype Parity = ParityNone | ParityOdd | ParityEven | OtherParity(code: int)
  {
    predicate Handled() { !OtherParity? }
  }

  /** SerialPort::StopBit. `OtherStopBit` stands for any value the switch in `open` does not name. */
  datatype StopBit = StopBitOne | StopBitTwo | OtherStopBit(code: int)
  {
    predicate Handled() { !OtherStopBit? }
  }

  /** The `c_cflag` bits `open` sets or clears; every other control bit keeps its baseline value. */
  const ControlTouched: set<ControlBit> := CSIZE + {CLOCAL, CREAD, PARENB, PARODD, CSTOPB, CRTSCTS}
  /** The `c_iflag` bits `open` sets or clears. */
  const InputTouched: set<InputBit> := {INPCK, ISTRIP, IXON, IXOFF, IXANY, BRKINT, ICRNL}
  /** The `c_lflag` bits `open` clears. */
  const LocalTouched: set<LocalBit> := {ICANON, ECHO, ECHOE, ISIG}
  /** The `c_oflag` bits `open` clears. */
  const OutputTouched: set<OutputBit> := {OPOST}

  /** The parity bits of `c_cflag` a parity mode asks for. */
  function ParityControl(parity: Parity): set<ControlBit>
  {
    match parity
    case ParityOdd => {PARENB, PARODD}
    case ParityEven => {PARENB}
    case _ => {}
  }

  /** The character-size bits for 8 or 7 data bits. */
  function SizeBits(data: int): set<ControlBit>
    requires data == 7 || data == 8
  {
    if data == 8 then CS8 else CS7
  }

  /** The stop-bit bits of `c_cflag` a stop-bit setting asks for. */
  function StopControl(stop: StopBit): set<ControlBit>
  {
    if stop == StopBitTwo then {CSTOPB} else {}
  }

  /** Input parity checking and stripping are on for any parity mode but None. */
  function ParityInput(parity: Parity): set<InputBit>
  {
    if parity == ParityNone then {} else {INPCK, ISTRIP}
  }

  /**
   * The attributes `open` makes of a record whose speeds are already set: every touched
   * bit cleared and the requested ones set again, raw input and output, no flow control,
   * VMIN = VTIME = 0.
   */
  function RawSettings(base: Attributes, data: int, parity: Parity, stop: StopBit): (r: Attributes)
    requires data == 7 || data == 8
    requires parity.Handled() && stop.Handled()
    // the character-size field holds exactly the requested width
    ensures r.cflag * CSIZE == (if data == 8 then CS8 else CS7)
    // parity
    ensures PARENB in r.cflag <==> parity != ParityNone
    ensures PARODD in r.cflag <==> parity == ParityOdd
    ensures INPCK in r.iflag <==> parity != ParityNone
    ensures ISTRIP in r.iflag <==> parity != ParityNone
    // stop bits
    ensures CSTOPB in r.cflag <==> stop == StopBitTwo
    // forced on, whatever the baseline
    ensures CLOCAL in r.cflag && CREAD in r.cflag
    // forced off, whatever the baseline
    ensures CRTSCTS !in r.cflag
    ensures IXON !in r.iflag && IXOFF !in r.iflag && IXANY !in r.iflag
    ensures BRKINT !in r.iflag && ICRNL !in r.iflag
    ensures ICANON !in r.lflag && ECHO !in r.lflag && ECHOE !in r.lflag && ISIG !in r.lflag
    ensures OPOST !in r.oflag
    // the driver never waits on its own
    ensures VMIN in r.cc && r.cc[VMIN] == 0 && VTIME in r.cc && r.cc[VTIME] == 0
    ensures r.ispeed == base.ispeed && r.ospeed == base.ospeed
  {
    Attributes(
      cflag := base.cflag + {CLOCAL, CREAD} - CSIZE + SizeBits(data)
               - {PARENB, PARODD} + ParityControl(parity)
               - {CSTOPB} + StopControl(stop)
               - {CRTSCTS},
      iflag := base.iflag - {INPCK, ISTRIP} + ParityInput(parity) - {IXON, IXOFF, IXANY} - {BRKINT, ICRNL},
      lflag := base.lflag - LocalTouched,
      oflag := base.oflag - OutputTouched,
      cc := base.cc[VMIN := 0][VTIME := 0],
      ispeed := base.ispeed,
      ospeed := base.ospeed)
  }

  /** Only `|=` and `&= ~` of the touched bits are applied: every other bit and control character keeps its baseline value. */
  lemma RawSettingsKeepsOtherBits(base: Attributes, data: int, parity: Parity, stop: StopBit)
    requires data == 7 || data == 8
    requires parity.Handled() && stop.Handled()
    ensures var r := RawSettings(base, data, parity, stop);
      && (forall b :: b !in ControlTouched ==> (b in r.cflag <==> b in base.cflag))
      && (forall b :: b !in InputTouched ==> (b in r.iflag <==> b in base.iflag))
      && (forall b :: b !in LocalTouched ==> (b in r.lflag <==> b in base.lflag))
      && (forall b :: b !in OutputTouched ==> (b in r.oflag <==> b in base.oflag))
      && (forall c :: c != VMIN && c != VTIME ==>
            (c in r.cc <==> c in base.cc) && (c in base.cc ==> r.cc[c] == base.cc[c]))
  {
  }

  /**
   * The attribute edits of `open` after the speeds are set, one `|=` or `&= ~` at a time:
   * None when the data width, parity or stop bit is not one the switches accept.
   */
  method SetLineOptions(options: Attributes, data: int, parity: Parity, stop: StopBit) returns (r: Option<Attributes>)
    ensures r.Some? <==> (data == 7 || data == 8) && parity.Handled() && stop.Handled()
    ensures r.Some? ==> r.value == RawSettings(options, data, parity, stop)
  {
    var o := options;
    o := o.(cflag := o.cflag + {CLOCAL, CREAD});

    if data == 8 {
      o := o.(cflag := o.cflag - CSIZE);
      o := o.(cflag := o.cflag + CS8);
    } else if data == 7 {
      o := o.(cflag := o.cflag - CSIZE);
      o := o.(cflag := o.cflag + CS7);
    } else {
      return None;
    }
    ghost var sized := options.cflag + {CLOCAL, CREAD} - CSIZE + SizeBits(data);
    assert o == options.(cflag := sized);

    match parity {
      case ParityNone =>
        o := o.(cflag := o.cflag - {PARENB});
        o := o.(cflag := o.cflag - {PARODD});
        o := o.(iflag := o.iflag - {INPCK, ISTRIP});
      case ParityOdd =>
        o := o.(cflag := o.cflag + {PARENB});
        o := o.(cflag := o.cflag + {PARODD});
        o := o.(iflag := o.iflag + {INPCK, ISTRIP});
      case ParityEven =>
        o := o.(cflag := o.cflag + {PARENB});
        o := o.(cflag := o.cflag - {PARODD});
        o := o.(iflag := o.iflag + {INPCK, ISTRIP});
      case OtherParity(_) =>
        return None;
    }
    ghost var parityBits := sized - {PARENB, PARODD} + ParityControl(parity);
    assert o.cflag == parityBits;
    assert o.iflag == options.iflag - {INPCK, ISTRIP} + ParityInput(parity);
    assert o.(cflag := options.cflag, iflag := options.iflag) == options;

    match stop {
      case StopBitOne =>
        o := o.(cflag := o.cflag - {CSTOPB});
      case StopBitTwo =>
        o := o.(cflag := o.cflag + {CSTOPB});
      case OtherStopBit(_) =>
        return None;
    }
    assert o.cflag == parityBits - {CSTOPB} + StopControl(stop);

    // no hardware flow control
    o := o.(cflag := o.cflag - {CRTSCTS});
    // no software flow control
    o := o.(iflag := o.iflag - {IXON, IXOFF, IXANY});
    // raw input
    o := o.(iflag := o.iflag - {BRKINT, ICRNL});
    o := o.(lflag := o.lflag - {ICANON, ECHO, ECHOE, ISIG});
    // raw output
    o := o.(oflag := o.oflag - {OPOST});
    // no wait in the driver
    o := o.(cc := o.cc[VMIN := 0]);
    o := o.(cc := o.cc[VTIME := 0]);
    r := Some(o);
  }

  /**
   * Scripted results of the system calls `open` makes: the descriptor ::open returns, the
   * record tcgetattr reads (None when it fails), whether cfsetispeed, cfsetospeed and
   * tcsetattr succeed.
   */
  datatype OpenOracle = OpenOracle(
    fd: int,
    attributes: Option<Attributes>,
    inputSpeedSet: bool,
    outputSpeedSet: bool,
    attributesSet: bool)

  /** Why `open` returned false. */
  datatype OpenFailure =
    | AcquireFailed
    | GetAttributesFailed
    | UnsupportedBaud
    | SetSpeedFailed
    | UnsupportedDataBits
    | UnsupportedParity
    | UnsupportedStopBit
    | SetAttributesFailed

  /** True when `open` reaches tcsetattr, i.e. every check before it passes. */
  predicate ReachesSetAttributes(baud: int, data: int, parity: Parity, stop: StopBit, os: OpenOracle)
  {
    os.fd != -1 && os.attributes.Some? && baud in SupportedBauds
    && os.inputSpeedSet && os.outputSpeedSet
    && (data == 7 || data == 8) && parity.Handled() && stop.Handled()
  }

  /** The outcome of `open`: the attributes applied to the line, or the first check that failed. */
  function OpenOutcome(baud: int, data: int, parity: Parity, stop: StopBit, os: OpenOracle): (r: Result<Attributes, OpenFailure>)
    ensures r.Success? <==> ReachesSetAttributes(baud, data, parity, stop, os) && os.attributesSet
    ensures r.Success? ==>
      var speed := BaudSpeed(baud).value;
      r.value.ispeed == speed && r.value.ospeed == speed
      && r.value == RawSettings(os.attributes.value.(ispeed := speed, ospeed := speed), data, parity, stop)
    ensures r == Failure(AcquireFailed) <==> os.fd == -1
    ensures r == Failure(UnsupportedBaud) ==> baud !in SupportedBauds
    ensures r == Failure(UnsupportedDataBits) ==> data != 7 && data != 8
    ensures r == Failure(UnsupportedParity) ==> !parity.Handled()
    ensures r == Failure(UnsupportedStopBit) ==> !stop.Handled()
    ensures r == Failure(SetAttributesFailed) <==> ReachesSetAttributes(baud, data, parity, stop, os) && !os.attributesSet
  {
    if os.fd == -1 then Failure(AcquireFailed)
    else if os.attributes.None? then Failure(GetAttributesFailed)
    else match BaudSpeed(baud)
      case None => Failure(UnsupportedBaud)
      case Some(speed) =>
        if !os.inputSpeedSet || !os.outputSpeedSet then Failure(SetSpeedFailed)
        else if data != 7 && data != 8 then Failure(UnsupportedDataBits)
        else if !parity.Handled() then Failure(UnsupportedParity)
        else if !stop.Handled() then Failure(UnsupportedStopBit)
        else if !os.attributesSet then Failure(SetAttributesFailed)
        else Success(RawSettings(os.attributes.value.(ispeed := speed, ospeed := speed), data, parity, stop))
  }

  /** Whatever the system calls do, a baud rate, data width, parity or stop bit outside the accepted ones never opens the port. */
  lemma UnsupportedRequestNeverOpens(baud: int, data: int, parity: Parity, stop: StopBit, os: OpenOracle)
    requires baud !in SupportedBauds || (data != 7 && data != 8) || !parity.Handled() || !stop.Handled()
    ensures OpenOutcome(baud, data, parity, stop, os).Failure?
  {
  }
}
