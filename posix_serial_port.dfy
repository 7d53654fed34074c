/**
 * The serial port over a POSIX character device. The object owns one descriptor
 * (`devfd`, -1 when closed) and the read timeout in milliseconds. System calls are
 * replaced by scripted results passed in by the caller; what the port hands to the
 * system (the path, the attributes, the descriptor it releases, the waits it arms, the
 * bytes it writes) is returned in ghost out-parameters.
 */
module PosixSerial {
  import opened Results
  import opened Termios
  import opened PortConfig
  import opened BoundedRead

  class PosixSerialPort {
    /** The device name below /dev. */
    const name: string
    /** Whether the device sits behind USB; kept for callers, not consulted here. */
    const isUsb: bool
    /** The open descriptor, or -1 when the port is closed. */
    var devfd: int
    /** How long each wait of `Read` lasts, in milliseconds. */
    var timeout: int

    /** A new port is closed and does not wait. */
    constructor (name: string, isUsb: bool)
      ensures this.name == name && this.isUsb == isUsb
      ensures devfd == -1 && timeout == 0
    {
      this.name := name;
      this.isUsb := isUsb;
      devfd := -1;
      timeout := 0;
    }

    /**
     * Releases the descriptor if there is one and marks the port closed. On a closed port
     * it releases nothing, so calling it again is a no-op.
     */
    method Close() returns (ghost released: Option<int>)
      modifies this
      ensures devfd == -1 && timeout == old(timeout)
      ensures released == if old(devfd) >= 0 then Some(old(devfd)) else None
    {
      released := None;
      if devfd >= 0 {
        released := Some(devfd);  // ::close(_devfd)
      }
      devfd := -1;
    }

    /**
     * Acquires "/dev/" + name and configures it: speed, 7 or 8 data bits, parity, stop
     * bits, no flow control, raw input and output, VMIN = VTIME = 0. Every failure after
     * the descriptor is acquired goes through Close. A descriptor already held is
     * overwritten, not released.
     */
    method Open(baud: int, data: int, parity: Parity, stop: StopBit, os: OpenOracle)
      returns (ok: bool, ghost path: string, ghost applied: Option<Attributes>, ghost released: Option<int>)
      modifies this
      ensures path == "/dev/" + name
      ensures timeout == old(timeout)
      ensures ok <==> OpenOutcome(baud, data, parity, stop, os).Success?
      ensures ok ==> devfd == os.fd
      ensures !ok ==> devfd == -1
      ensures applied.Some? <==> ReachesSetAttributes(baud, data, parity, stop, os)
      ensures applied.Some? ==>
        var speed := BaudSpeed(baud).value;
        applied.value == RawSettings(os.attributes.value.(ispeed := speed, ospeed := speed), data, parity, stop)
      ensures released == if !ok && os.fd >= 0 then Some(os.fd) else None
    {
      var dev := "/dev/";
      dev := dev + name;
      path := dev;
      applied, released := None, None;

      devfd := os.fd;  // ::open(dev, O_RDWR | O_NOCTTY | O_NDELAY)
      if devfd == -1 {
        return false, path, applied, released;
      }

      if os.attributes.None? {  // tcgetattr
        released := Close();
        return false, path, applied, released;
      }
      var options := os.attributes.value;

      var speed := BaudSpeed(baud);
      if speed.None? {
        released := Close();
        return false, path, applied, released;
      }

      if !os.inputSpeedSet {  // cfsetispeed
        released := Close();
        return false, path, applied, released;
      }
      options := options.(ispeed := speed.value);
      if !os.outputSpeedSet {  // cfsetospeed
        released := Close();
        return false, path, applied, released;
      }
      options := options.(ospeed := speed.value);

      var raw := SetLineOptions(options, data, parity, stop);
      if raw.None? {
        released := Close();
        return false, path, applied, released;
      }

      applied := raw;  // tcsetattr(_devfd, TCSANOW, &options)
      if !os.attributesSet {
        released := Close();
        return false, path, applied, released;
      }
      ok := true;
    }

    /**
     * Fills `buffer` until `len` bytes have arrived (returns `len`), a wait times out
     * (returns the count so far) or select or ::read fails (returns -1). Each chunk lands
     * right after the bytes already read; nothing past them is written. On a closed port
     * it returns -1 and leaves the buffer alone.
     */
    method Read(buffer: array<bv8>, len: int, events: seq<Event>) returns (n: int, ghost armed: seq<TimeVal>)
      requires len <= buffer.Length
      modifies buffer
      ensures devfd == -1 ==> n == -1 && armed == [] && buffer[..] == old(buffer[..])
      ensures devfd != -1 ==>
        var r := ReadCall(events, len);
        n == r.code && |r.data| <= buffer.Length
        && (forall k :: 0 <= k < |r.data| ==> buffer[k] == r.data[k])
        && (forall k :: |r.data| <= k < buffer.Length ==> buffer[k] == old(buffer[k]))
        && |armed| == r.selects
        && forall k :: 0 <= k < |armed| ==> armed[k] == SelectTimeout(timeout)
    {
      armed := [];
      if devfd == -1 {
        return -1, armed;
      }
      var numread := 0;
      var i := 0;
      ghost var got: seq<bv8> := [];
      ghost var result := ReadCall(events, len);
      while numread < len
        invariant 0 <= i <= |events|
        invariant numread == |got| <= Want(len) <= buffer.Length
        invariant forall k :: 0 <= k < numread ==> buffer[k] == got[k]
        invariant forall k :: numread <= k < buffer.Length ==> buffer[k] == old(buffer[k])
        invariant forall k :: 0 <= k < |armed| ==> armed[k] == SelectTimeout(timeout)
        invariant Waited(ReadLoop(events, i, len, got), |armed|) == result
        decreases |events| - i
      {
        var tv := SelectTimeout(timeout);  // re-armed on every iteration
        armed := armed + [tv];
        if i == |events| {
          // the line stays silent: select times out
          assert result == ReadOutcome(numread, got, |armed|);
          return numread, armed;
        }
        var event := events[i];
        ghost var rest := ReadLoop(events, i, len, got);
        i := i + 1;
        match event {
          case SelectFailed =>
            assert result == ReadOutcome(-1, got, |armed|);
            return -1, armed;
          case SelectTimedOut =>
            assert result == ReadOutcome(numread, got, |armed|);
            return numread, armed;
          case ReadyNotSet =>
            assert rest == Waited(ReadLoop(events, i, len, got), 1);
          case ReadFailed =>
            assert result == ReadOutcome(-1, got, |armed|);
            return -1, armed;
          case Received(chunk) =>
            var piece := Take(chunk, len - numread);
            assert rest == Waited(ReadLoop(events, i, len, got + piece), 1);
            CopyInto(buffer, numread, piece);  // ::read(_devfd, buffer + numread, len - numread)
            forall k | 0 <= k < numread + |piece|
              ensures buffer[k] == (got + piece)[k]
            {
              if k >= numread { assert (got + piece)[k] == piece[k - numread]; }
            }
            got := got + piece;
            numread := numread + |piece|;
        }
      }
      assert result == ReadOutcome(numread, got, |armed|);
      n := numread;
    }

    /** What ::read does with the bytes it returns: copies them into `buffer` from offset `at` on. */
    static method CopyInto(buffer: array<bv8>, at: nat, piece: seq<bv8>)
      requires at + |piece| <= buffer.Length
      modifies buffer
      ensures forall k :: 0 <= k < at ==> buffer[k] == old(buffer[k])
      ensures forall k :: at <= k < at + |piece| ==> buffer[k] == piece[k - at]
      ensures forall k :: at + |piece| <= k < buffer.Length ==> buffer[k] == old(buffer[k])
    {
      forall k | 0 <= k < |piece| {
        buffer[at + k] := piece[k];
      }
    }

    /** Hands the first `len` bytes of `buffer` to ::write and returns its result; -1 on a closed port. */
    method Write(buffer: seq<bv8>, len: int, written: int) returns (n: int, ghost sent: seq<bv8>)
      requires 0 <= len <= |buffer|
      ensures devfd == -1 ==> n == -1
      ensures devfd != -1 ==> n == written
      ensures sent == if devfd == -1 then [] else buffer[..len]
    {
      if devfd == -1 {
        return -1, [];
      }
      n, sent := written, buffer[..len];  // ::write(_devfd, buffer, len)
    }

    /**
     * Reads one byte with `Read`: its value 0..255, or -1 on a closed port or when the
     * read does not return exactly 1 (a timeout included).
     */
    method Get(events: seq<Event>) returns (b: int)
      ensures b == -1 || 0 <= b < 256
      ensures devfd == -1 ==> b == -1
      ensures devfd != -1 ==> b == ByteReply(ReadCall(events, 1))
    {
      if devfd == -1 {
        return -1;
      }
      var byte := new bv8[1];
      var n;
      ghost var armed;
      n, armed := Read(byte, 1, events);
      if n != 1 {
        return -1;
      }
      b := byte[0] as int;
    }

    /** Writes the single byte `c mod 256` and returns what `Write` returns. */
    method Put(c: int, written: int) returns (n: int, ghost sent: seq<bv8>)
      ensures devfd == -1 ==> n == -1
      ensures devfd != -1 ==> n == written
      ensures sent == if devfd == -1 then [] else [(c % 256) as bv8]
    {
      var byte := (c % 256) as bv8;  // conversion to uint8_t keeps the low eight bits
      n, sent := Write([byte], 1, written);
    }

    /** Sets the wait used by every later `Read`; always succeeds. */
    method SetTimeout(millisecs: int) returns (ok: bool)
      modifies this
      ensures timeout == millisecs && devfd == old(devfd)
      ensures ok
    {
      timeout := millisecs;
      ok := true;
    }
  }
}
