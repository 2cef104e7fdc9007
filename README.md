# Thorium device-control base servers in Dafny

This project models the sequential logic under the thorium LabRAD device servers:

- **Serial device base server** (`SerialDeviceServer`). It finds its port in the LabRAD
  registry's `['', 'Ports']` directory. It finds the serial server that runs on its node. It
  holds at most one serial connection (`ser`). Server-connected events re-open that connection,
  and server-disconnected events drop it.
- **TCP base server** (`TCPServer`). `get_address` looks up an exact key in Ports.
  `readline` gathers received chunks until the terminator appears.
- **VISA base server** (`VisaServer`). `initServer` picks the first configured link whose address
  the bus enumerates. `getPortFromReg` uses the serial server's search-key rule, and
  `loadConfigInfo` builds `usb_links`.
- **HV500 server** (`HV500Server`). It encodes the wire protocol of the HV500-16 supply: the
  channel field, the voltage field, the ±300 V bound, and the identify, query and set commands.

The collaborators are small abstract models:

- The registry is a class holding a directory map and a mutable cursor (`LabradRegistry.Registry`).
  A `cd` to a missing directory fails with the registry's error code. The servers expect that code
  to be 17.
- The manager's server list is a sequence of servers in listing order (`SerialDevice.Network`).
- A serial connection is a record. The HV500 server's traffic is a write log plus a queue of reply lines.
- A TCP socket is a queue of received chunks.
- A VISA bus is its enumerated resources (or none, when enumeration fails) plus the set of resources that open.

Voltages are integer millivolts. The wire value `(v + 500) / 1000` with six decimals is then exactly
`mV + 500000` millionths, so the encoding has no rounding.

Modules: `Wrappers` (Option, Result, Outcome); `Text` (Python truthiness, ASCII `lower`,
slices, `in` on strings); `Seqs` (the first-match comprehension); `Decimal` (`str` on integers,
zero padding, six-decimal fixed point); `LabradRegistry`; `SerialDevice`; `Tcp`; `Visa`; `Hv500`.

Three places where the code does not do what its own docstrings say. The model follows the code:

- The `get_voltage` docstring asks for a channel between 1 and 16 (`control/servers/hv500_server.py:73`),
  but no check follows (`hv500_server.py:78-81`). Any integer channel is encoded and sent.
- The serial `getPortFromReg` restores the registry cursor only at `serial_device_server.py:194`
  and `:197`. The missing-name exit (`:187`) and the no-match exit (`:192`) raise exceptions that
  are not a registry `Error`, so the handler at `:196-201` never runs for them and the cursor
  stays in Ports.
- The VISA `getPortFromReg` docstring promises PortRegError 0 and 1 (`visa_server.py:55-58`).
  The code raises plain `Exception`s (`:71`, `:76`), and its handler then reads `e.code`, which
  they lack, so they surface as an `AttributeError`. For registry code 17 it builds an exception
  without raising it (`:83`), so the method returns None.

## Model

| member | source | states |
|---|---|---|
| SerialDevice.RaisedCodesHaveText | control/servers/base_servers/serial_device_server.py:24-43 | every PortRegError code the port lookup raises and every SerialConnectionError code findSerial raises has a message in that class's errorDict |
| LabradRegistry.Registry.Pwd | control/servers/base_servers/serial_device_server.py:179 | `reg.cd()` with no argument reports the current directory and moves nothing |
| LabradRegistry.Registry.Cd | control/servers/base_servers/serial_device_server.py:180 | `reg.cd(path)` moves the cursor to an existing directory; a missing one fails with the registry's code and leaves the cursor where it was |
| LabradRegistry.Registry.Dir | control/servers/base_servers/serial_device_server.py:181 | `reg.dir()` gives the sub-directories and the key listing of the current directory |
| LabradRegistry.Registry.Get | control/servers/base_servers/serial_device_server.py:193 | `reg.get(key)` of a listed key gives its stored value |
| Text.ContainsIffOccurs | control/servers/base_servers/serial_device_server.py:188 | Python's `sub in s` holds exactly when `sub` occurs in `s` at some position |
| Text.Contains | control/servers/base_servers/serial_device_server.py:188 | the empty string is in every string, and a string found is never longer than the one searched |
| Text.LowerStr | control/servers/base_servers/serial_device_server.py:185 | `lower()` keeps the length and lowers each character |
| Text.Take | control/servers/base_servers/serial_device_server.py:185 | `name[:4]` is the first four characters, or the whole name when it is shorter |
| Text.TakeLast | control/servers/hv500_server.py:55 | `s[-n:]` is the last n characters, or all of `s` when it is shorter |
| Seqs.Filter | control/servers/base_servers/serial_device_server.py:188 | the filtered list holds only elements satisfying the test, and holds every element that does |
| Seqs.FilterHeadIsFirst | control/servers/base_servers/serial_device_server.py:188-190 | the filtered list is non-empty iff some element passes, and its head is the element at the first passing position |
| Seqs.FirstIndex | control/servers/base_servers/serial_device_server.py:262 | the index found passes the test and no earlier one does; no index means no element passes |
| Seqs.FirstMatch | control/servers/base_servers/serial_device_server.py:262 | `[...][0]` is the element at the first passing position, and the IndexError case is exactly "none passes" |
| LabradRegistry.FirstKeyContaining | control/servers/base_servers/serial_device_server.py:188-192 | the key chosen is listed, contains the substring, and no earlier listed key does; no key is chosen iff no listed key contains it |
| LabradRegistry.SearchKey | control/servers/base_servers/serial_device_server.py:183-187 | a truthy regKey is used as given; otherwise the name's first four characters lower-cased, never empty and at most four long; no key exactly when neither regKey nor name is set |
| SerialDevice.PortLookup | control/servers/base_servers/serial_device_server.py:179-201 | a port found is the stored value of some key listed in Ports; every failure is PortRegError 0 or 1, the missing-name SerialDeviceError, or a registry error other than code 17 |
| SerialDevice.PortLookupFirstKey | control/servers/base_servers/serial_device_server.py:188-195 | with Ports present and a search key, the lookup succeeds iff some listed key contains it; the port is the value of the first such key; otherwise PortRegError 1 |
| SerialDevice.PortLookupMissingPorts | control/servers/base_servers/serial_device_server.py:196-201 | a missing Ports directory is PortRegError 0 for registry code 17, and the registry error itself for any other code |
| SerialDevice.PortLookupDefaultKey | control/servers/base_servers/serial_device_server.py:183-187 | with no key, the search substring is the name's first four letters lower-cased ("HV500 server" finds key "hv500_a") |
| SerialDevice.PortLookupExamples | control/servers/base_servers/serial_device_server.py:188-195 | with keys "HV500_HV264" and "OTHER_KEY", the search key "HV500" gives the first key's port |
| SerialDevice.PortLookupFailureExamples | control/servers/base_servers/serial_device_server.py:183-201 | an empty Ports is PortRegError 1; a missing Ports with code 17 is PortRegError 0; no key and no name is SerialDeviceError |
| SerialDevice.SerialDeviceServer.GetPortFromReg | control/servers/base_servers/serial_device_server.py:177-201 | returns or raises exactly what the registry lookup gives; the cursor is restored, except after the missing-name and no-match exits, which leave it in Ports |
| SerialDevice.MatchSerial | control/servers/base_servers/serial_device_server.py:277-279 | holds exactly when "serial" and the lower-cased node both occur in the lower-cased server name |
| SerialDevice.MatchSerialIgnoresCase | control/servers/base_servers/serial_device_server.py:277-279 | `_matchSerial` gives the same answer when either argument is lower-cased first |
| SerialDevice.MatchSerialExample | control/servers/base_servers/serial_device_server.py:277-279 | node "Lab1" matches server "lab1 Serial Server" |
| SerialDevice.ServerNames | control/servers/base_servers/serial_device_server.py:262 | `i[1]` of each listed (ID, name) pair, in listing order |
| SerialDevice.Listing | control/servers/base_servers/serial_device_server.py:260 | `manager.servers()` lists every known server's (ID, name) pair in listing order |
| SerialDevice.FindSerial | control/servers/base_servers/serial_device_server.py:260-264 | the name of the first listed server that `_matchSerial` accepts; SerialConnectionError 0 when none does |
| SerialDevice.Connect | control/servers/base_servers/serial_device_server.py:149-155 | a connection opened is to a listed server of that name, with its ID, that offers the port, with the timeout and baud rate given and not closed; a failure is the lookup error for that name or SerialConnectionError 1 |
| SerialDevice.SerialDeviceServer.InitSerial | control/servers/base_servers/serial_device_server.py:146-155 | opening a port the serial server offers sets `ser` with the timeout and baud rate given; a port it cannot open clears `ser` and raises SerialConnectionError 1 |
| SerialDevice.StartupConnect | control/servers/base_servers/serial_device_server.py:109-121 | a failure is the missing baudrate or a server lookup error, and leaves `ser` as it was; a new connection is open and on the resolved port |
| SerialDevice.StartupConnectsFirstSerialServer | control/servers/base_servers/serial_device_server.py:109-121 | startup never raises a connection error: with no matching serial server or an unopenable port it ends disconnected; otherwise it connects to the first matching server on the resolved port |
| SerialDevice.StartupFailsOnlyOnPortLookup | control/servers/base_servers/serial_device_server.py:106-121 | a configured server with a baud rate fails to start iff its port lookup fails, and then with the lookup's error |
| SerialDevice.StartupPassesWithBaudrate | control/servers/base_servers/serial_device_server.py:109-121 | with a baud rate defined the connection step never raises: codes 0 and 1 are swallowed, and a listed server is always found |
| SerialDevice.SerialDeviceServer.InitServer | control/servers/base_servers/serial_device_server.py:106-121 | missing regKey or serNode raises before any registry access; lookup errors propagate with the cursor as the lookup leaves it; otherwise `port` is set and the connection attempt swallows codes 0 and 1 and leaves `ser` unset |
| SerialDevice.SerialDeviceServer.CheckConnection | control/servers/base_servers/serial_device_server.py:281-283 | fails, with SerialConnectionError 2, exactly when there is no connection |
| SerialDevice.ShouldReconnect | control/servers/base_servers/serial_device_server.py:287-291 | re-opening is due only when disconnected with port and node set, and when the lower-cased name contains "serial" and the lower-cased node |
| SerialDevice.SerialDeviceServer.ServerConnected | control/servers/base_servers/serial_device_server.py:285-294 | re-opens only when disconnected, with port and node set and the new server's name matching the node; otherwise nothing changes |
| SerialDevice.SerialDeviceServer.ServerDisconnected | control/servers/base_servers/serial_device_server.py:296-300 | drops the connection only when it is held and its ID is the one that went away; otherwise nothing changes |
| SerialDevice.SerialDeviceServer.StopServer | control/servers/base_servers/serial_device_server.py:302-305 | a held connection is closed; without one nothing happens |
| Tcp.AddressLookupIsExact | control/servers/base_servers/tcp_server.py:57-58 | the key must be listed exactly: "HV500" does not find key "HV500_HV264", while "HV500_HV264" does |
| Tcp.AddressLookup | control/servers/base_servers/tcp_server.py:48-64 | succeeds iff Ports exists and lists the key exactly, giving that key's value; the missing-directory error comes exactly when Ports is missing |
| Tcp.TcpServer.GetAddress | control/servers/base_servers/tcp_server.py:48-64 | gives the value of exactly the key in Ports; a missing Ports or a missing key raises its own error; the cursor is back where it was on every exit |
| Tcp.ConcatAppend | control/servers/base_servers/tcp_server.py:89 | the text of two chunk runs joined is the text of the first followed by the text of the second |
| Tcp.LineEnd | control/servers/base_servers/tcp_server.py:88-89 | the number of chunks read is the smallest whose joined text contains the terminator; none when no prefix of the chunks contains it |
| Tcp.TcpServer.ReadLine | control/servers/base_servers/tcp_server.py:86-90 | with the terminator defaulting to "\n", returns the joined text of exactly the shortest chunk prefix that contains the terminator, and the later chunks stay queued; when none does, recv times out with the queue drained |
| Tcp.ReadLinePartition | control/servers/base_servers/tcp_server.py:86-90 | the line returned followed by what stays queued is everything received: no chunk is dropped or duplicated |
| Tcp.ReadLineSplitTerminator | control/servers/base_servers/tcp_server.py:88-89 | "12." then "5\n" reads as "12.5\n": a terminator split over chunks is found |
| Tcp.ReadLineEmptyTerminator | control/servers/base_servers/tcp_server.py:86-88 | an empty terminator returns "" with nothing received |
| Tcp.ReadLineOverreads | control/servers/base_servers/tcp_server.py:77-78 | text after the terminator in the same chunk is returned as well |
| Visa.SelectAddress | control/servers/base_servers/visa_server.py:19-23 | the address of the first link, in list order, whose address is enumerated; "" when there is none |
| Visa.VisaServer.InitServer | control/servers/base_servers/visa_server.py:9-31 | an enumeration error changes nothing; an empty enumeration leaves `address` unassigned; otherwise `address` is the first enumerated link's address and a resource is opened only for a found address, with that address |
| Visa.VisaPortLookup | control/servers/base_servers/visa_server.py:60-85 | returns no port exactly when Ports is missing and the registry code is 17; a port found is the value of some listed key; any other failure is the AttributeError or a registry error other than 17 |
| Visa.VisaPortLookupFirstKey | control/servers/base_servers/visa_server.py:67-79 | with Ports present and a search key, the lookup succeeds iff some listed key contains it, and gives the value of the first such key |
| Visa.VisaServer.GetPortFromReg | control/servers/base_servers/visa_server.py:60-85 | returns or raises exactly what the VISA lookup gives, and the cursor is restored on every exit |
| Visa.VisaServer.LoadConfigInfo | control/servers/base_servers/visa_server.py:35-40 | with no regKey it raises and changes nothing; otherwise the port is looked up, and `usb_links` becomes the single pair regKey → port |
| Decimal.NatToStrRoundTrip | control/servers/hv500_server.py:41 | `int(str(n)) == n` for every n ≥ 0 |
| Decimal.NatToStr | control/servers/hv500_server.py:41 | `str(n)` is a non-empty run of digits with no leading zero unless n is 0 |
| Decimal.IntToStr | control/servers/hv500_server.py:41 | `str(i)` starts with "-" exactly when i is negative, and the rest is digits |
| Decimal.NatToStrLength | control/servers/hv500_server.py:42 | `str(n)` has at most k digits iff n < 10^k |
| Decimal.ZeroPadFacts | control/servers/hv500_server.py:49 | zero-padding keeps the value, and gives exactly the width when the number fits |
| Decimal.Fixed6RoundTrip | control/servers/hv500_server.py:49 | `:.6f` on a count of millionths has six digits after the point and reads back as that count |
| Decimal.Fixed6 | control/servers/hv500_server.py:49 | `:.6f` is digits, a point seven characters from the end, and six digits after it |
| Hv500.ChannelToStr | control/servers/hv500_server.py:40-45 | channels 0 to 9 become "0" and the digit; 10 and up and negative channels are `str(channel)`; the field is at least two characters |
| Hv500.VoltageToKw | control/servers/hv500_server.py:47-49 | the field has its point seven characters from the end, and starts with "-" exactly when the setpoint is below −500 V |
| Hv500.InBounds | control/servers/hv500_server.py:92 | accepts exactly −300 V ≤ v ≤ 300 V, whose offset millionths lie between 200000 and 800000 |
| Hv500.QueryCommand | control/servers/hv500_server.py:79 | the query is IDN, " Q", the channel field and "\r", in that order; five characters past IDN for channels 0 to 99 |
| Hv500.SetCommand | control/servers/hv500_server.py:97 | the command starts with IDN + " CH" and ends with "\r"; fifteen characters past IDN for channels 0 to 99 and accepted setpoints |
| Hv500.ChannelToStrTwoDigits | control/servers/hv500_server.py:40-45 | channels 0 to 99 encode as two digits, tens then units, which read back as the channel |
| Hv500.ChannelToStrUnpadded | control/servers/hv500_server.py:40-45 | from 10 on, and for negative channels, `str(channel)` is used unpadded; there is no range check |
| Hv500.ChannelToStrExamples | control/servers/hv500_server.py:40-45 | 1 → "01", 9 → "09", 16 → "16", 100 → "100" |
| Hv500.VoltageToKwRoundTrip | control/servers/hv500_server.py:47-49 | every setpoint's wire text reads back as that setpoint |
| Hv500.AcceptedVoltageEncoding | control/servers/hv500_server.py:47-49 | a setpoint within ±300 V encodes as "0." plus six digits, and its value lies between 0.2 and 0.8 |
| Hv500.VoltageToKwExamples | control/servers/hv500_server.py:47-49 | 0 V → "0.500000", −300 V → "0.200000", 300 V → "0.800000" |
| Hv500.SetCommandRoundTrip | control/servers/hv500_server.py:95-97 | the set command for channels 0 to 99 reads back as its channel and setpoint |
| Hv500.Hv500Identity | control/servers/hv500_server.py:55 | the last five characters of "HV500_HV264" are "HV264" |
| Hv500.Hv500StartupFailsOnlyOnPortLookup | control/servers/hv500_server.py:51-55 | the HV500 server, on any named node, fails to start iff its registry port lookup fails |
| Hv500.Hv500Server.InitServer | control/servers/hv500_server.py:51-55 | the base startup runs first and its failure propagates with IDN and listeners untouched; `port`, `ser` and the registry cursor end as the base startup leaves them on every path; on success `port` is set, listeners is the empty set and IDN is the registry key's last five characters; nothing is written |
| Hv500.Hv500Server.GetId | control/servers/hv500_server.py:57-65 | writes "IDN\r" and returns the next reply line verbatim; without a connection it writes nothing |
| Hv500.Hv500Server.GetVoltage | control/servers/hv500_server.py:67-81 | writes IDN + " Q" + channel field + "\r" and returns the next reply without its last character; without a connection or an IDN it writes nothing |
| Hv500.Hv500Server.SetVoltage | control/servers/hv500_server.py:83-97 | a setpoint beyond ±300 V (strict bounds) raises ValueError before anything is written; otherwise exactly one command IDN + " CH" + channel field + " " + voltage field + "\r" is appended |

## Left out

- `selectPortFromReg` (serial_device_server.py:203-240): an interactive `input()` loop. Its lazy `map` never fills `keyDict`, so the loop can never return.
- `findSerial`'s fallback to `self.serNode` when called without a node: `initServer` always passes a non-empty node, and `serverConnected` calls `initSerial` directly.
- TCP `initServer`, `send` and `readall`: socket connect, send and timeout calls. `readall` makes a single `recv` and returns None whenever data does arrive.
- Tcp.TcpServer.ReadLine: the received chunks are a finite queue, and a dry queue is the `socket.timeout` that `settimeout` (tcp_server.py:33, 1.0 s by default at :26) gives a silent peer; the text gathered so far is lost, as in the source.
- Tcp.TcpServer.ReadLine: a peer that has closed the connection makes `recv` return empty bytes forever, so the loop at tcp_server.py:88-89 never ends. The model reports a timeout instead.
- Tcp.TcpServer.ReadLine: chunks are text. The `UnicodeDecodeError` that `.decode()` raises when a multi-byte character is split across two 4096-byte reads is not modelled.
- Text.LowerStr: lowers ASCII letters only; Python's `lower()` also folds other Unicode letters.
- Hv500.Hv500Server.GetVoltage: returns the text that `float()` is given, not the float; float parsing is left out, and an empty reply gives the ValueError `float('')` raises.
- Hv500 voltages are integer millivolts. Python's float arithmetic and the rounding of `:.6f` are left out, as are setpoints finer than 1 mV.
- Hv500.Hv500Server.InitServer: states IDN as the last five characters of the configured key. The server's constructor fixes that key to "HV500_HV264", and Hv500Identity gives "HV264".
- Hv500.Hv500Server.GetId: the reply queue stands for the serial server's `read_line`. An empty queue is a read timeout.
- SerialDevice.SerialDeviceServer.InitSerial: the timeout is in milliseconds, and a server missing from `client.servers` is a lookup error that leaves `ser` as it was. The LabRAD `Error` type is not modelled further.
- SerialDevice.SerialDeviceServer.StopServer: `ser.close()` is modelled as a `closed` flag on the connection record.
- The serial base class never defines `baudrate`. A subclass without it gets an AttributeError at `initServer` line 111, after the port lookup and `findSerial`. `Config.hasBaudrate` models this.
- The VISA `except` block's runtime quirks (visa_server.py:80-85) are modelled as the results they produce. No property beyond cursor restoration and first-key selection is proved about them.
- pyvisa's `ResourceManager`, `open_resource` and `VisaIOError` are modelled by the `Visa.Bus` record.
- Twisted deferreds (`inlineCallbacks`, `yield`) are modelled as plain sequential calls. `print` diagnostics, the node-info header and process start-up are left out.
- control/clients/hv500_client.py, a PyQt GUI with polling timers, is not part of this model.
- `listeners` is created empty by the HV500 `initServer`. Nothing in the modelled code adds to it.
