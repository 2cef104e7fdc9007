/**
 * The TCP base server: the device address comes from an exact key of the registry's Ports
 * directory, and lines are read by accumulating received chunks until the terminator appears.
 */
module Tcp {
  import opened Wrappers
  import opened Text
  import opened LabradRegistry

  datatype TcpError =
    | PortsDirectoryMissing    // "Cannot find 'Ports' directory in registry."
    | KeyMissing(key: string)  // "Cannot find key '<key>' in 'Ports' directory."
    | RecvTimeout              // recv timed out before the terminator arrived

  /** What get_address returns or raises: the value of exactly `key` in Ports. */
  function AddressLookup(dirs: map<seq<string>, Directory>, key: string): (r: Result<string, TcpError>)
    requires PortsPath in dirs ==> WellFormed(dirs[PortsPath])
    ensures r.Success? <==> PortsPath in dirs && key in dirs[PortsPath].keys
    ensures r.Success? ==> r.value == dirs[PortsPath].values[key]
    ensures r == Failure(PortsDirectoryMissing) <==> PortsPath !in dirs
  {
    if PortsPath !in dirs then Failure(PortsDirectoryMissing)
    else if key in dirs[PortsPath].keys then Success(dirs[PortsPath].values[key])
    else Failure(KeyMissing(key))
  }

  /** The key is matched exactly: a key that only contains it does not count, unlike the serial lookup. */
  lemma AddressLookupIsExact(dirCode: int)
    ensures var ports := Directory([], ["HV500_HV264"], map["HV500_HV264" := "10.0.0.5"]);
            AddressLookup(map[PortsPath := ports], "HV500") == Failure(KeyMissing("HV500")) &&
            AddressLookup(map[PortsPath := ports], "HV500_HV264") == Success("10.0.0.5")
  {
    var keys := ["HV500_HV264"];
    assert keys[0] != "HV500";
  }

  /** The text of the chunks, in arrival order. */
  function Concat(chunks: seq<string>): string
  {
    if chunks == [] then "" else Concat(chunks[..|chunks| - 1]) + chunks[|chunks| - 1]
  }

  /** Joining splits over any cut: nothing is lost or repeated between the two parts. */
  lemma {:induction false} ConcatAppend(a: seq<string>, b: seq<string>)
    ensures Concat(a + b) == Concat(a) + Concat(b)
    decreases |b|
  {
    if b == [] {
      assert a + b == a;
    } else {
      var c := a + b;
      assert c[..|c| - 1] == a + b[..|b| - 1];
      ConcatAppend(a, b[..|b| - 1]);
    }
  }

  lemma ConcatStep(chunks: seq<string>, n: nat)
    requires n < |chunks|
    ensures Concat(chunks[..n + 1]) == Concat(chunks[..n]) + chunks[n]
  {
    assert chunks[..n + 1][..n] == chunks[..n];
  }

  /**
   * The number of chunks readline consumes, searching from `from` on: the fewest whose text
   * contains the terminator, or none when no prefix of the chunks does.
   */
  function LineEnd(chunks: seq<string>, term: string, from: nat): (r: Option<nat>)
    requires from <= |chunks|
    ensures r.Some? ==> from <= r.value <= |chunks| && Contains(Concat(chunks[..r.value]), term)
    ensures r.Some? ==> forall j :: from <= j < r.value ==> !Contains(Concat(chunks[..j]), term)
    ensures r.None? ==> forall j :: from <= j <= |chunks| ==> !Contains(Concat(chunks[..j]), term)
    decreases |chunks| - from
  {
    if Contains(Concat(chunks[..from]), term) then Some(from)
    else if from == |chunks| then None
    else LineEnd(chunks, term, from + 1)
  }

  /** What readline returns followed by what stays queued is exactly everything received. */
  lemma ReadLinePartition(chunks: seq<string>, term: string)
    requires LineEnd(chunks, term, 0).Some?
    ensures var k := LineEnd(chunks, term, 0).value;
            Concat(chunks[..k]) + Concat(chunks[k..]) == Concat(chunks)
  {
    var k := LineEnd(chunks, term, 0).value;
    assert chunks[..k] + chunks[k..] == chunks;
    ConcatAppend(chunks[..k], chunks[k..]);
  }

  /** A terminator split over two chunks is still found: "12." then "5\n" reads as "12.5\n". */
  lemma ReadLineSplitTerminator()
    ensures LineEnd(["12.", "5\n"], "\n", 0) == Some(2)
    ensures Concat(["12.", "5\n"][..2]) == "12.5\n"
  {
    var chunks := ["12.", "5\n"];
    assert chunks[..0] == [] && chunks[..1] == ["12."] && chunks[..2] == chunks;
    assert Concat(chunks[..1]) == "12.";
    ContainsChar("", '\n');
    ContainsChar("12.", '\n');
    assert Concat(chunks) == "12.5\n";
    ContainsChar("12.5\n", '\n');
    assert "12.5\n"[4] == '\n';
  }

  /** An empty terminator is in every text: readline returns "" without receiving. */
  lemma ReadLineEmptyTerminator(chunks: seq<string>)
    ensures LineEnd(chunks, "", 0) == Some(0)
  {
    assert chunks[..0] == [];
  }

  /** Text after the terminator in the same chunk is returned as well. */
  lemma ReadLineOverreads()
    ensures LineEnd(["1\n2", "3\n"], "\n", 0) == Some(1)
    ensures Concat(["1\n2", "3\n"][..1]) == "1\n2"
  {
    var chunks := ["1\n2", "3\n"];
    assert chunks[..0] == [] && chunks[..1] == ["1\n2"];
    assert Concat(chunks[..1]) == "1\n2";
    assert "1\n2"[1..][..1] == "\n";
  }

  class TcpServer {
    /** self.client.registry. */
    const reg: Registry
    /** The chunks the peer has sent that recv has not yet returned, in arrival order. */
    var incoming: seq<string>

    constructor (reg: Registry, incoming: seq<string>)
      ensures this.reg == reg && this.incoming == incoming
    {
      this.reg := reg;
      this.incoming := incoming;
    }

    /**
     * get_address: the value of exactly `key` in Ports. The cursor is back where it was on
     * every exit; a missing Ports directory is reported before any key is read.
     */
    method GetAddress(key: string) returns (r: Result<string, TcpError>)
      requires reg.Valid()
      modifies reg
      ensures reg.Valid() && reg.cwd == old(reg.cwd)
      ensures r == AddressLookup(reg.dirs, key)
    {
      var saved := reg.Pwd();
      var moved := reg.Cd(PortsPath);
      if moved.Fail? {
        return Failure(PortsDirectoryMissing);
      }
      var subdirs, keys := reg.Dir();
      if key !in keys {
        var restored := reg.Cd(saved);
        return Failure(KeyMissing(key));
      }
      var address := reg.Get(key);
      var restored := reg.Cd(saved);
      return Success(address);
    }

    /**
     * readline: receive chunks until the terminator occurs anywhere in the text so far, and return
     * all of it. The chunks after the last one consumed stay queued; when the queue runs dry first,
     * recv times out and the text gathered so far is lost.
     */
    method ReadLine(termination: string := "\n") returns (r: Result<string, TcpError>)
      modifies this`incoming
      ensures match LineEnd(old(incoming), termination, 0)
              case Some(k) => r == Success(Concat(old(incoming)[..k])) && incoming == old(incoming)[k..]
              case None => r == Failure(RecvTimeout) && incoming == []
    {
      var line := "";
      ghost var taken: nat := 0;
      assert old(incoming)[..0] == [];
      while !Contains(line, termination)
        invariant taken <= |old(incoming)|
        invariant incoming == old(incoming)[taken..]
        invariant line == Concat(old(incoming)[..taken])
        invariant LineEnd(old(incoming), termination, 0) == LineEnd(old(incoming), termination, taken)
        decreases |incoming|
      {
        if incoming == [] {
          return Failure(RecvTimeout);
        }
        ConcatStep(old(incoming), taken);
        line := line + incoming[0];
        incoming := incoming[1..];
        taken := taken + 1;
      }
      r := Success(line);
    }
  }
}
