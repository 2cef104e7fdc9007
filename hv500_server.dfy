/**
 * The HV500-16 high-voltage supply: a serial device server that identifies the device, reads a
 * channel's voltage and sets a channel's voltage within +-300 V. Voltages are integer millivolts.
 */
module Hv500 {
  import opened Wrappers
  import opened Text
  import opened Decimal
  import opened LabradRegistry
  import opened SerialDevice

  const ServerName := "hv500_server"
  const RegKey := "HV500_HV264"
  /** TIMEOUT, 0.1 s. */
  const TimeoutMs: nat := 100
  const Baudrate: nat := 9600
  /** VLIM, in volts. */
  const VLim: int := 300
  const VLimMillivolts: int := VLim * 1000
  /** The +500 V offset of the wire encoding, in millivolts. */
  const OffsetMillivolts: int := 500000

  /** The class attributes of HV500Server as the serial base server reads them. */
  function Hv500Config(node: string): Config
  {
    Config(Some(ServerName), Some(RegKey), Some(node), Some(TimeoutMs), true, Some(Baudrate))
  }

  /** channel_to_str: str(channel), with a "0" in front when that is a single character. */
  function ChannelToStr(channel: int): (r: string)
    ensures |r| >= 2
    ensures 0 <= channel < 10 ==> r == ['0', DigitChar(channel)]
    ensures channel >= 10 ==> r == NatToStr(channel)
    ensures channel < 0 ==> r == "-" + NatToStr(-channel)
  {
    var s := IntToStr(channel);
    if |s| > 1 then s else "0" + s
  }

  /** voltage_to_kw: (v + 500) / 1000 with six decimals, i.e. mv + 500000 millionths. */
  function VoltageToKw(mv: int): (r: string)
    ensures |r| >= 8 && r[|r| - 7] == '.'
    ensures r[0] == '-' <==> mv < -OffsetMillivolts
  {
    var u := mv + OffsetMillivolts;
    Fixed6LeadingDigit(if u < 0 then -u else u);
    if u < 0 then "-" + Fixed6(-u) else Fixed6(u)
  }

  /** Reads an encoded setpoint back into millivolts. */
  function KwToMillivolts(s: string): Option<int>
  {
    if |s| > 0 && s[0] == '-' then
      match ParseFixed6(s[1..])
      case None => None
      case Some(u) => Some(0 - u - OffsetMillivolts)
    else
      match ParseFixed6(s)
      case None => None
      case Some(u) => Some(u - OffsetMillivolts)
  }

  /** set_voltage's bound check: strictly above VLIM or strictly below -VLIM is refused. */
  predicate InBounds(mv: int): (b: bool)
    ensures b <==> -VLimMillivolts <= mv <= VLimMillivolts
    ensures b ==> 200000 <= mv + OffsetMillivolts <= 800000
  {
    !(mv > VLimMillivolts || mv < -VLimMillivolts)
  }

  const IdentifyCommand := "IDN\r"

  /** The query written by get_voltage. */
  function QueryCommand(idn: string, channel: int): (r: string)
    ensures |r| == |idn| + |ChannelToStr(channel)| + 3
    ensures r[..|idn|] == idn && r[|idn|..|idn| + 2] == " Q" && r[|r| - 1] == '\r'
    ensures r[|idn| + 2..|r| - 1] == ChannelToStr(channel)
    ensures 0 <= channel <= 99 ==> |r| == |idn| + 5
  {
    var ch := ChannelToStr(channel);
    QueryLayout(idn, ch);
    if 0 <= channel <= 99 then ChannelToStrTwoDigits(channel); idn + (" Q" + ch + "\r")
    else idn + (" Q" + ch + "\r")
  }

  /** The command written by set_voltage. */
  function SetCommand(idn: string, channel: int, mv: int): (r: string)
    ensures |r| == |idn| + |ChannelToStr(channel)| + |VoltageToKw(mv)| + 5
    ensures r[..|idn| + 3] == idn + " CH" && r[|r| - 1] == '\r'
    ensures 0 <= channel <= 99 && InBounds(mv) ==> |r| == |idn| + 15
  {
    var ch, enc := ChannelToStr(channel), VoltageToKw(mv);
    CommandLayout(idn, ch, enc);
    if 0 <= channel <= 99 && InBounds(mv) then
      ChannelToStrTwoDigits(channel);
      AcceptedVoltageEncoding(mv);
      idn + " CH" + (ch + " " + enc + "\r")
    else idn + " CH" + (ch + " " + enc + "\r")
  }

  /** Where the channel sits in "<idn> Q<ch>\r". */
  lemma QueryLayout(idn: string, ch: string)
    ensures var r := idn + (" Q" + ch + "\r");
            |r| == |idn| + |ch| + 3 && r[..|idn|] == idn && r[|idn|..|idn| + 2] == " Q" &&
            r[|r| - 1] == '\r' && r[|idn| + 2..|r| - 1] == ch
  {
    var tail := " Q" + ch + "\r";
    var r := idn + tail;
    assert r[..|idn|] == idn && r[|idn|..] == tail;
    assert r[|idn| + 2..|r| - 1] == tail[2..|tail| - 1] == ch;
  }

  /** Where the channel and the setpoint sit in "<idn> CH<ch> <enc>\r". */
  lemma CommandLayout(idn: string, ch: string, enc: string)
    ensures var line, n := idn + " CH" + (ch + " " + enc + "\r"), |idn|;
            |line| == n + |ch| + |enc| + 5 && line[..n + 3] == idn + " CH" && line[|line| - 1] == '\r' &&
            line[n + 3..n + 3 + |ch|] == ch && line[n + 3 + |ch|] == ' ' && line[n + 4 + |ch|..|line| - 1] == enc
  {
    var head, tail := idn + " CH", ch + " " + enc + "\r";
    var line, n := head + tail, |idn|;
    assert line[..n + 3] == head;
    assert line[n + 3..] == tail;
    assert line[n + 3 + |ch|..] == " " + enc + "\r";
  }

  /** Reads a set command for device `idn` back into its channel and millivolts. */
  function ParseSetCommand(idn: string, line: string): Option<(nat, int)>
  {
    var n := |idn|;
    if |line| >= n + 7 && line[..n + 3] == idn + " CH" && AllDigits(line[n + 3..n + 5]) &&
       line[n + 5] == ' ' && line[|line| - 1] == '\r'
    then
      match KwToMillivolts(line[n + 6..|line| - 1])
      case None => None
      case Some(mv) => Some((StrToNat(line[n + 3..n + 5]), mv))
    else None
  }

  // ----- Channel encoding -----

  /** Channels 0 to 99 are two digits, zero-padded, and read back as the channel. */
  lemma ChannelToStrTwoDigits(channel: int)
    requires 0 <= channel <= 99
    ensures var s := ChannelToStr(channel);
            |s| == 2 && s == [DigitChar(channel / 10), DigitChar(channel % 10)] &&
            AllDigits(s) && StrToNat(s) == channel
  {
    var s := ChannelToStr(channel);
    if channel >= 10 {
      assert NatToStr(channel) == NatToStr(channel / 10) + [DigitChar(channel % 10)];
    } else {
      assert s == "0" + [DigitChar(channel)];
    }
    assert s[..1] == [DigitChar(channel / 10)];
    assert s[..1][..0] == [];
    assert StrToNat(s[..1]) == channel / 10;
  }

  /** From 10 on, and for negative channels, str(channel) is used as it is: 100 gives "100". */
  lemma ChannelToStrUnpadded(channel: int)
    requires channel >= 10 || channel < 0
    ensures channel >= 10 ==> ChannelToStr(channel) == NatToStr(channel) &&
                              StrToNat(ChannelToStr(channel)) == channel
    ensures channel < 0 ==> ChannelToStr(channel) == "-" + NatToStr(-channel)
  {
    if channel >= 10 {
      NatToStrLength(channel, 1);
      NatToStrRoundTrip(channel);
    }
  }

  lemma ChannelToStrExamples()
    ensures ChannelToStr(1) == "01" && ChannelToStr(9) == "09" && ChannelToStr(16) == "16"
    ensures ChannelToStr(100) == "100"
  {
    ChannelToStrTwoDigits(16);
    ChannelToStrUnpadded(100);
    assert NatToStr(100) == NatToStr(10) + "0";
  }

  // ----- Voltage encoding -----

  /** Every millivolt setpoint's encoding reads back as that setpoint. */
  lemma VoltageToKwRoundTrip(mv: int)
    ensures KwToMillivolts(VoltageToKw(mv)) == Some(mv)
  {
    if mv + OffsetMillivolts < 0 {
      ReadNegativeKw(mv);
    } else {
      ReadKw(mv);
    }
  }

  /** A setpoint at or above -500 V renders unsigned and reads back. */
  lemma ReadKw(mv: int)
    requires mv + OffsetMillivolts >= 0
    ensures KwToMillivolts(Fixed6(mv + OffsetMillivolts)) == Some(mv)
  {
    Fixed6RoundTrip(mv + OffsetMillivolts);
    Fixed6LeadingDigit(mv + OffsetMillivolts);
  }

  /** A setpoint below -500 V renders behind a minus sign and reads back. */
  lemma ReadNegativeKw(mv: int)
    requires mv + OffsetMillivolts < 0
    ensures KwToMillivolts("-" + Fixed6(-(mv + OffsetMillivolts))) == Some(mv)
  {
    Fixed6RoundTrip(-(mv + OffsetMillivolts));
    ReadSigned(Fixed6(-(mv + OffsetMillivolts)), -(mv + OffsetMillivolts), mv);
  }

  /** A minus sign in front of a readable rendering negates its millionths. */
  lemma ReadSigned(f: string, u: nat, mv: int)
    requires ParseFixed6(f) == Some(u) && mv == 0 - u - OffsetMillivolts
    ensures KwToMillivolts("-" + f) == Some(mv)
  {
    assert ("-" + f)[1..] == f;
  }

  /** The rendering starts with a digit of the whole part, never a sign. */
  lemma Fixed6LeadingDigit(u: nat)
    ensures IsDigit(Fixed6(u)[0])
  {
    var whole := NatToStr(u / Million);
    assert Fixed6(u) == whole + "." + ZeroPad(u % Million, 6);
    assert Fixed6(u)[0] == whole[0];
  }

  /** An accepted setpoint encodes as "0." and six digits, worth 0.2 to 0.8 (millionths 200000 to 800000). */
  lemma AcceptedVoltageEncoding(mv: int)
    requires InBounds(mv)
    ensures VoltageToKw(mv) == "0." + ZeroPad(mv + OffsetMillivolts, 6)
    ensures |VoltageToKw(mv)| == 8
    ensures var u := ParseFixed6(VoltageToKw(mv));
            u == Some(mv + OffsetMillivolts) && 200000 <= u.value <= 800000
  {
    var u := mv + OffsetMillivolts;
    assert u / Million == 0 && u % Million == u;
    assert NatToStr(0) == "0";
    Fixed6RoundTrip(u);
    assert Pow10(6) == Million;
    ZeroPadFacts(u, 6);
  }

  /** The numerals of the lowest, middle and highest accepted encodings. */
  lemma NatToStrSamples()
    ensures NatToStr(200000) == "200000" && NatToStr(500000) == "500000" && NatToStr(800000) == "800000"
  {
    assert Pow10(5) == 100000;
    assert Zeros(5) == "00000";
    NatToStrShift(2, 5);
    NatToStrShift(5, 5);
    NatToStrShift(8, 5);
  }

  /** (v+500)/1000 to six places for 0 V, -300 V and +300 V. */
  lemma VoltageToKwExamples()
    ensures VoltageToKw(0) == "0.500000"
    ensures VoltageToKw(-300000) == "0.200000"
    ensures VoltageToKw(300000) == "0.800000"
  {
    NatToStrSamples();
    SixDigitEncoding(0);
    SixDigitEncoding(-300000);
    SixDigitEncoding(300000);
  }

  /** From 0.1 to 0.999999, the encoding is "0." and the numeral of the millionths. */
  lemma SixDigitEncoding(mv: int)
    requires InBounds(mv) && |NatToStr(mv + OffsetMillivolts)| == 6
    ensures VoltageToKw(mv) == "0." + NatToStr(mv + OffsetMillivolts)
  {
    AcceptedVoltageEncoding(mv);
  }

  // ----- Wire commands -----

  /** A set command for channels 0 to 99 has a fixed layout and reads back as its channel and setpoint. */
  lemma SetCommandRoundTrip(idn: string, channel: int, mv: int)
    requires 0 <= channel <= 99
    ensures ParseSetCommand(idn, SetCommand(idn, channel, mv)) == Some((channel, mv))
  {
    var ch, enc := ChannelToStr(channel), VoltageToKw(mv);
    ChannelToStrTwoDigits(channel);
    VoltageToKwRoundTrip(mv);
    ParseCommandOf(idn, ch, enc, mv);
  }

  /** A command laid out from a two-digit field and a readable setpoint parses back to both. */
  lemma ParseCommandOf(idn: string, ch: string, enc: string, mv: int)
    requires |ch| == 2 && AllDigits(ch) && |enc| >= 1 && KwToMillivolts(enc) == Some(mv)
    ensures ParseSetCommand(idn, idn + " CH" + (ch + " " + enc + "\r")) == Some((StrToNat(ch), mv))
  {
    CommandLayout(idn, ch, enc);
    ParseSetCommandParts(idn, idn + " CH" + (ch + " " + enc + "\r"), mv);
  }

  /** The checks ParseSetCommand makes, stated one by one. */
  lemma ParseSetCommandParts(idn: string, line: string, mv: int)
    requires |line| >= |idn| + 7 && line[..|idn| + 3] == idn + " CH"
    requires AllDigits(line[|idn| + 3..|idn| + 5]) && line[|idn| + 5] == ' ' && line[|line| - 1] == '\r'
    requires KwToMillivolts(line[|idn| + 6..|line| - 1]) == Some(mv)
    ensures ParseSetCommand(idn, line) == Some((StrToNat(line[|idn| + 3..|idn| + 5]), mv))
  {
  }

  /** The HV500's registry key yields the device identity prefix used in every command. */
  lemma Hv500Identity()
    ensures TakeLast(RegKey, 5) == "HV264"
  {
  }

  /** The HV500 server fails to start only when its port cannot be found in the registry. */
  lemma Hv500StartupFailsOnlyOnPortLookup(node: string, dirs: map<seq<string>, Directory>, dirCode: int,
                                          net: Network, before: Option<Connection>)
    requires PortsPath in dirs ==> WellFormed(dirs[PortsPath])
    requires node != ""
    ensures var r := InitServerOutcome(Hv500Config(node), dirs, dirCode, net, before);
            var lookup := PortLookup(dirs, Some(RegKey), Some(ServerName), dirCode);
            (r.Fail? <==> lookup.Failure?) && (r.Fail? ==> r.error == lookup.error)
  {
    StartupFailsOnlyOnPortLookup(Hv500Config(node), dirs, dirCode, net, before);
  }

  // ----- The server -----

  datatype HvError =
    | ValueError(message: string)     // setpoint out of bounds, or an empty reply to parse
    | NotConnected                    // self.ser is None, so self.ser.write raises
    | NoIdentity                      // self.IDN was never set: initServer did not finish
    | ReadTimeout                     // no reply line arrived
    | StartupFailed(cause: SerialError)

  const OutOfBounds := "Voltage setpoint out of bounds."
  const EmptyReading := "could not convert string to float: ''"

  /** One read_line from the reply queue. */
  predicate ReadsOne(before: seq<string>, after: seq<string>, line: Result<string, HvError>)
  {
    (before == [] ==> line == Failure(ReadTimeout) && after == []) &&
    (before != [] ==> line == Success(before[0]) && after == before[1..])
  }

  /** The text float() is given: the reply without its final character. */
  function ReadingText(reply: string): Result<string, HvError>
  {
    if reply == [] then Failure(ValueError(EmptyReading)) else Success(reply[..|reply| - 1])
  }

  class Hv500Server {
    /** The serial base part of the server: registry lookup and the connection `ser`. */
    const device: SerialDeviceServer
    /** self.IDN, None until initServer sets it. */
    var IDN: Option<string>
    /** self.listeners, None until initServer creates it. */
    var listeners: Option<set<int>>
    /** Every string written through the connection, in order. */
    var written: seq<string>
    /** The lines the device will send back, in order. */
    var replies: seq<string>

    constructor (node: string, reg: Registry, replies: seq<string>)
      ensures fresh(device) && device.cfg == Hv500Config(node) && device.reg == reg
      ensures device.port == None && device.ser == None
      ensures IDN == None && listeners == None && written == [] && this.replies == replies
    {
      device := new SerialDeviceServer(Hv500Config(node), reg, None);
      IDN, listeners, written := None, None, [];
      this.replies := replies;
    }

    /** initServer: the serial base startup, then an empty listener set and the IDN from the registry key. */
    method InitServer(net: Network) returns (r: Outcome<HvError>)
      requires device.reg.Valid()
      modifies this, device, device.reg
      ensures device.reg.Valid()
      ensures written == old(written) && replies == old(replies)
      ensures var base := InitServerOutcome(device.cfg, device.reg.dirs, device.reg.missingDirCode, net,
                                            old(device.ser));
              r == if base.Pass? then Pass else Fail(StartupFailed(base.error))
      ensures r.Pass? ==> IDN == Some(TakeLast(device.cfg.regKey.value, 5)) && listeners == Some({})
      ensures r.Fail? ==> IDN == old(IDN) && listeners == old(listeners)
      ensures r.Pass? ==> device.port.Some?
      ensures !Configured(device.cfg) ==>
                device.port == old(device.port) && device.ser == old(device.ser) &&
                device.reg.cwd == old(device.reg.cwd)
      ensures Configured(device.cfg) ==>
                var lookup := PortLookup(device.reg.dirs, device.cfg.regKey, device.cfg.name,
                                         device.reg.missingDirCode);
                device.reg.cwd == (if LeavesCursorInPorts(lookup) then PortsPath else old(device.reg.cwd)) &&
                (lookup.Failure? ==> device.port == old(device.port) && device.ser == old(device.ser)) &&
                (lookup.Success? ==> device.port == Some(lookup.value) &&
                                     device.ser == StartupConnect(device.cfg, net, lookup.value, old(device.ser)).1)
    {
      var base := device.InitServer(net);
      if base.Fail? {
        return Fail(StartupFailed(base.error));
      }
      listeners := Some({});
      IDN := Some(TakeLast(device.cfg.regKey.value, 5));
      r := Pass;
    }

    /** get_ID: write "IDN\r" and return the reply line as it is. */
    method GetId() returns (r: Result<string, HvError>)
      modifies this`written, this`replies
      ensures device.ser.None? ==> r == Failure(NotConnected) && written == old(written) && replies == old(replies)
      ensures device.ser.Some? ==> written == old(written) + [IdentifyCommand] && ReadsOne(old(replies), replies, r)
    {
      if device.ser.None? {
        return Failure(NotConnected);
      }
      written := written + [IdentifyCommand];
      if replies == [] {
        return Failure(ReadTimeout);
      }
      r := Success(replies[0]);
      replies := replies[1..];
    }

    /** get_voltage: write "<IDN> Q<ch>\r"; the reading is the reply without its last character. */
    method GetVoltage(channel: int) returns (r: Result<string, HvError>)
      modifies this`written, this`replies
      ensures device.ser.None? || IDN.None? ==> written == old(written) && replies == old(replies)
      ensures device.ser.None? ==> r == Failure(NotConnected)
      ensures device.ser.Some? && IDN.None? ==> r == Failure(NoIdentity)
      ensures device.ser.Some? && IDN.Some? ==>
                written == old(written) + [QueryCommand(IDN.value, channel)] &&
                (old(replies) == [] ==> r == Failure(ReadTimeout) && replies == []) &&
                (old(replies) != [] ==> r == ReadingText(old(replies)[0]) && replies == old(replies)[1..])
    {
      if device.ser.None? {
        return Failure(NotConnected);
      }
      if IDN.None? {
        return Failure(NoIdentity);
      }
      written := written + [QueryCommand(IDN.value, channel)];
      if replies == [] {
        return Failure(ReadTimeout);
      }
      r := ReadingText(replies[0]);
      replies := replies[1..];
    }

    /** set_voltage: refuse setpoints beyond +-300 V before anything is written; else write one set command. */
    method SetVoltage(channel: int, mv: int) returns (r: Outcome<HvError>)
      modifies this`written
      ensures !InBounds(mv) ==> r == Fail(ValueError(OutOfBounds)) && written == old(written)
      ensures InBounds(mv) && device.ser.None? ==> r == Fail(NotConnected) && written == old(written)
      ensures InBounds(mv) && device.ser.Some? && IDN.None? ==> r == Fail(NoIdentity) && written == old(written)
      ensures InBounds(mv) && device.ser.Some? && IDN.Some? ==>
                r == Pass && written == old(written) + [SetCommand(IDN.value, channel, mv)]
    {
      if mv > VLimMillivolts || mv < -VLimMillivolts {
        return Fail(ValueError(OutOfBounds));
      }
      if device.ser.None? {
        return Fail(NotConnected);
      }
      if IDN.None? {
        return Fail(NoIdentity);
      }
      written := written + [SetCommand(IDN.value, channel, mv)];
      r := Pass;
    }
  }
}
