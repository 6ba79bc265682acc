/** The host side of the serial link (class `BMduinoCommunicator`): the
    callback registry, the per-line dispatch of `_process_message`, and the
    relay command. The port itself is reduced to a `connected` flag and an
    "is the port open" flag; what the board sends arrives one line at a time
    through `HandleLine`, and what the host sends is appended to `written`. */
module SerialCommunicator {
  import opened Values
  import opened Text
  import opened DataParser

  /** The eight event kinds a callback can be registered for. */
  const EventKinds: set<string> :=
    {"standby", "detect_user", "working_start", "working_status",
     "working_final", "working_error", "relay_ok", "raw_message"}

  /** The registry a new communicator starts with: every kind, no callbacks. */
  function EmptyRegistry(): (r: map<string, seq<nat>>)
    ensures r.Keys == EventKinds
    ensures forall k :: k in r ==> r[k] == []
  {
    map k | k in EventKinds :: []
  }

  /** The callback list a decoded message is delivered to. */
  function KindOf(m: Message): (k: string)
    ensures k in EventKinds && k != "raw_message"
  {
    match m
    case Standby(_, _, _, _) => "standby"
    case DetectUser(_) => "detect_user"
    case WorkingStart => "working_start"
    case WorkingStatus(_, _, _, _) => "working_status"
    case WorkingFinal(_, _, _, _, _) => "working_final"
    case WorkingError(_) => "working_error"
    case RelayOk(_) => "relay_ok"
  }

  /** The user field of a DETECT line, stripped: `USER<n>`, or else a bare
      number (a branch the `DETECT,USER` guard makes unreachable). */
  function DetectField(u: string): (r: Option<int>)
    ensures StartsWith(Strip(u), "USER") ==> r == ParseInt(Strip(u)[4..])
    ensures !StartsWith(Strip(u), "USER") ==> r == ParseInt(u)
  {
    ParseIntStrip(u);
    var v := Strip(u);
    if StartsWith(v, "USER") then ParseInt(v[4..]) else ParseInt(v)
  }

  /** A heart-rate or SpO2 field of a working-status line as the
      communicator reads it: never absent, an integer (0 included) when it
      parses, and 'MEASURING' otherwise. */
  function LiveVital(t: string): (r: Vital)
    ensures r != Absent
    ensures r == Measuring <==> ParseInt(t) == None
    ensures r.Reading? ==> ParseInt(t) == Some(r.n)
  {
    var v := Strip(t);
    ParseIntStrip(t);
    if v == "MEASURING" then Measuring
    else match ParseInt(v)
      case Some(n) => Reading(n)
      case None => Measuring
  }

  /** `_process_message` on an already stripped line: the message handed to
      the callbacks of its kind, or None when nothing is delivered (no tag,
      a guard that fails, or a `ValueError` caught by the outer handler).
      The standby and final branches run the same code as `parse_standby`
      and `parse_working_final`. */
  function Decode(line: string): (r: Option<Message>)
    ensures StartsWith(line, "STANDBY,") ==> r == ParseStandby(line)
    ensures line == "WORKING,START" ==> r == Some(WorkingStart)
  {
    if StartsWith(line, "STANDBY,") then ParseStandby(line)
    else if StartsWith(line, "DETECT,USER") then
      var parts := Fields(line);
      if |parts| >= 2 then
        match DetectField(parts[1])
        case Some(id) => Some(DetectUser(id))
        case None => None
      else None
    else if line == "WORKING,START" then Some(WorkingStart)
    else if StartsWith(line, "WORKING,FINAL,") then ParseWorkingFinal(line)
    else if StartsWith(line, "WORKING,NO_FINGER") || StartsWith(line, "WORKING,TIMEOUT") then
      Some(WorkingError(if Contains(line, "NO_FINGER") then NoFinger else Timeout))
    else if StartsWith(line, "WORKING,") then
      var parts := Fields(line);
      if |parts| == 5 && IsFloatToken(parts[1]) && IsFloatToken(parts[2]) then
        Some(WorkingStatus(parts[1], parts[2], LiveVital(parts[3]), LiveVital(parts[4])))
      else None
    else if StartsWith(line, "RELAY_OK,") then
      match ParseRelayOk(line)
      case Some(n) => Some(RelayOk(n))
      case None => None
    else None
  }

  /** The error prefixes are checked before the generic status branch,
      and the final and start lines before both. */
  lemma DecodeErrorFirst(line: string)
    requires StartsWith(line, "WORKING,NO_FINGER") || StartsWith(line, "WORKING,TIMEOUT")
    ensures Decode(line) == Some(WorkingError(if Contains(line, "NO_FINGER") then NoFinger else Timeout))
  {
    var p := if StartsWith(line, "WORKING,NO_FINGER") then "WORKING,NO_FINGER" else "WORKING,TIMEOUT";
    PrefixesDiffer(line, p, "STANDBY,", 0);
    PrefixesDiffer(line, p, "DETECT,USER", 0);
    PrefixesDiffer(line, p, "WORKING,FINAL,", 8);
    PrefixesDiffer(line, p, "WORKING,START", 8);
  }

  lemma DecodeStartAndFinal(line: string)
    ensures line == "WORKING,START" ==> Decode(line) == Some(WorkingStart)
    ensures StartsWith(line, "WORKING,FINAL,") ==> Decode(line) == ParseWorkingFinal(line)
  {
    if line == "WORKING,START" {
      PrefixesDiffer(line, line, "STANDBY,", 0);
      PrefixesDiffer(line, line, "DETECT,USER", 0);
    }
    if StartsWith(line, "WORKING,FINAL,") {
      PrefixesDiffer(line, "WORKING,FINAL,", "STANDBY,", 0);
      PrefixesDiffer(line, "WORKING,FINAL,", "DETECT,USER", 0);
      PrefixesDiffer(line, "WORKING,FINAL,", "WORKING,START", 8);
    }
  }

  /** A status line is delivered only with exactly five fields and two
      numeric temperatures; its vital fields are read by `LiveVital`. */
  lemma DecodeStatus(line: string)
    requires StartsWith(line, "WORKING,") && !StartsWith(line, "WORKING,FINAL,") && line != "WORKING,START"
    requires !StartsWith(line, "WORKING,NO_FINGER") && !StartsWith(line, "WORKING,TIMEOUT")
    ensures var parts := Fields(line);
      Decode(line) == if |parts| == 5 && IsFloatToken(parts[1]) && IsFloatToken(parts[2])
                      then Some(WorkingStatus(parts[1], parts[2], LiveVital(parts[3]), LiveVital(parts[4])))
                      else None
  {
    PrefixesDiffer(line, "WORKING,", "STANDBY,", 0);
    PrefixesDiffer(line, "WORKING,", "DETECT,USER", 0);
  }

  /** A live vital of "0" is the reading 0, not "no reading". */
  lemma LiveVitalZero()
    ensures LiveVital("0") == Reading(0)
  {
    StripClean("0");
    assert ParseInt("0") == Some(0) by {
      ParseIntToString(0);
    }
  }

  /** Under the `DETECT,USER` guard the user field always starts with USER,
      so the bare-number fallback of `_process_message` is never taken. */
  lemma DetectFallbackUnreachable(line: string)
    requires StartsWith(line, "DETECT,USER")
    ensures |Fields(line)| >= 2 && Fields(line)[0] == "DETECT"
    ensures StartsWith(Fields(line)[1], "USER")
    ensures StartsWith(Strip(Fields(line)[1]), "USER")
    ensures Strip(Fields(line)[1])[4..] == TrimEnd(Fields(line)[1][4..])
  {
    DetectFields(line);
    var u := Fields(line)[1];
    assert u == "USER" + u[4..];
    TrimEndAppend("USER", u[4..]);
  }

  /** A `DETECT,USER` line splits into DETECT and a field starting with USER. */
  lemma DetectFields(line: string)
    requires StartsWith(line, "DETECT,USER")
    ensures |Fields(line)| >= 2 && Fields(line)[0] == "DETECT"
    ensures StartsWith(Fields(line)[1], "USER")
  {
    var rest := line[7..];
    assert line == "DETECT" + [','] + rest;
    SplitFirst("DETECT", ',', rest);
    SplitHead(rest, ',', "USER");
  }

  /** A user line is delivered as the id after USER in field 1. */
  lemma DecodeDetect(line: string)
    requires StartsWith(line, "DETECT,USER")
    ensures |Fields(line)| >= 2 && StartsWith(Fields(line)[1], "USER")
    ensures Decode(line) == match ParseInt(Fields(line)[1][4..])
      case Some(id) => Some(DetectUser(id))
      case None => None
  {
    PrefixesDiffer(line, "DETECT,USER", "STANDBY,", 0);
    DetectFallbackUnreachable(line);
    ParseIntTrimEnd(Fields(line)[1][4..]);
  }

  /** A relay acknowledgement is delivered for every integer, relay 0 included. */
  lemma DecodeRelay(line: string)
    requires StartsWith(line, "RELAY_OK,")
    ensures Decode(line) == match ParseRelayOk(line)
      case Some(n) => Some(RelayOk(n))
      case None => None
  {
    PrefixesDiffer(line, "RELAY_OK,", "STANDBY,", 0);
    PrefixesDiffer(line, "RELAY_OK,", "DETECT,USER", 0);
    PrefixesDiffer(line, "RELAY_OK,", "WORKING,", 0);
    PrefixesDiffer(line, "RELAY_OK,", "WORKING,START", 0);
    PrefixesDiffer(line, "RELAY_OK,", "WORKING,FINAL,", 0);
    PrefixesDiffer(line, "RELAY_OK,", "WORKING,NO_FINGER", 0);
    PrefixesDiffer(line, "RELAY_OK,", "WORKING,TIMEOUT", 0);
  }

  /** A line with none of the tags is delivered to nobody but the raw callbacks. */
  lemma DecodeUnknown(line: string)
    requires !StartsWith(line, "STANDBY,") && !StartsWith(line, "DETECT,USER")
    requires !StartsWith(line, "WORKING,") && !StartsWith(line, "RELAY_OK,")
    ensures Decode(line) == None
  {
    PrefixOfPrefix(line, "WORKING,FINAL,", "WORKING,");
    PrefixOfPrefix(line, "WORKING,NO_FINGER", "WORKING,");
    PrefixOfPrefix(line, "WORKING,TIMEOUT", "WORKING,");
    PrefixOfPrefix(line, "WORKING,START", "WORKING,");
  }

  /** What a callback is called with: the raw line, or a decoded message. */
  datatype Argument = Line(text: string) | Event(message: Message)

  /** One callback invocation: which registered callback, with what. */
  datatype Delivery = Delivery(handler: nat, argument: Argument)

  /** Calling every callback of a list, in registration order. */
  function Fan(handlers: seq<nat>, a: Argument): (r: seq<Delivery>)
    ensures |r| == |handlers|
    ensures forall i :: 0 <= i < |r| ==> r[i] == Delivery(handlers[i], a)
  {
    seq(|handlers|, i requires 0 <= i < |handlers| => Delivery(handlers[i], a))
  }

  /** The invocations `_process_message` makes for a stripped line. */
  function Dispatched(registry: map<string, seq<nat>>, line: string): seq<Delivery>
    requires registry.Keys == EventKinds
  {
    match Decode(line)
    case Some(m) => Fan(registry[KindOf(m)], Event(m))
    case None => []
  }

  /** The invocations one received line causes in `_listen_loop`: nothing
      for a blank line; otherwise every raw_message callback with the
      stripped line, then the typed dispatch. */
  function Deliveries(registry: map<string, seq<nat>>, raw: string): seq<Delivery>
    requires registry.Keys == EventKinds
  {
    var line := Strip(raw);
    if line == [] then []
    else Fan(registry["raw_message"], Line(line)) + Dispatched(registry, line)
  }

  /** A non-blank line goes to the raw callbacks and then to the typed ones. */
  lemma DeliveriesNonBlank(registry: map<string, seq<nat>>, raw: string)
    requires registry.Keys == EventKinds && Strip(raw) != []
    ensures Deliveries(registry, raw)
      == Fan(registry["raw_message"], Line(Strip(raw))) + Dispatched(registry, Strip(raw))
  {
  }

  /** The command `control_relay` writes. */
  function RelayCommand(n: int): string
  {
    "RELAY," + IntToString(n) + "\n"
  }

  /** Every raw_message callback sees a non-blank line before any typed
      callback does, and each typed invocation goes to a callback registered
      for the message's kind; a blank line reaches nobody. */
  lemma DeliveriesOrder(registry: map<string, seq<nat>>, raw: string)
    requires registry.Keys == EventKinds
    ensures var d, line, rawCallbacks := Deliveries(registry, raw), Strip(raw), registry["raw_message"];
      && (line == [] ==> d == [])
      && (line != [] ==> (
           && |rawCallbacks| <= |d|
           && (forall i :: 0 <= i < |rawCallbacks| ==> d[i] == Delivery(rawCallbacks[i], Line(line)))
           && (forall i :: |rawCallbacks| <= i < |d| ==>
                 d[i].argument == Event(Decode(line).value) && d[i].handler in registry[KindOf(Decode(line).value)])))
  {
  }

  /** The relay command is the line "RELAY,<n>" and a newline. */
  lemma RelayCommandLine(n: int)
    ensures Strip(RelayCommand(n)) == "RELAY," + IntToString(n)
  {
    var body := "RELAY," + IntToString(n);
    IntToStringChars(n);
    assert RelayCommand(n) == body + ['\n'];
    StripSnocSpace(body, '\n');
    StripClean(body);
  }

  /** The relay command carries the relay number and reads back as it. */
  lemma RelayCommandRoundTrip(n: int)
    ensures var f := Fields(Strip(RelayCommand(n)));
      f == ["RELAY", IntToString(n)] && ParseInt(f[1]) == Some(n)
  {
    RelayCommandLine(n);
    assert "RELAY," + IntToString(n) == "RELAY" + "," + IntToString(n);
    IntToStringChars(n);
    TwoFields("RELAY", IntToString(n));
    ParseIntToString(n);
  }

  class Communicator {
    /** `callbacks`: the registered callbacks of each kind, as identifiers. */
    var callbacks: map<string, seq<nat>>
    var connected: bool
    /** `self.ser is not None and self.ser.is_open` */
    var portOpen: bool
    /** Every command written to the port, in order. */
    var written: seq<string>
    /** Every callback invocation made, in order. */
    var delivered: seq<Delivery>

    ghost predicate Valid()
      reads this
    {
      callbacks.Keys == EventKinds
    }

    constructor()
      ensures Valid()
      ensures callbacks == EmptyRegistry()
      ensures !connected && !portOpen && written == [] && delivered == []
    {
      callbacks := EmptyRegistry();
      connected := false;
      portOpen := false;
      written := [];
      delivered := [];
    }

    /** `is_connected`: the link is marked connected and the port is open,
        which is what `control_relay` needs before it writes. */
    predicate IsConnected()
      reads this
      ensures IsConnected() <==> connected && portOpen
    {
      connected && portOpen
    }

    /** `register_callback`: append to the list of a known kind; an unknown
        kind changes nothing. */
    method RegisterCallback(event: string, callback: nat)
      requires Valid()
      modifies this
      ensures Valid()
      ensures event in EventKinds ==>
        callbacks == old(callbacks)[event := old(callbacks)[event] + [callback]]
      ensures event !in EventKinds ==> callbacks == old(callbacks)
      ensures connected == old(connected) && portOpen == old(portOpen)
      ensures written == old(written) && delivered == old(delivered)
    {
      if event in callbacks {
        callbacks := callbacks[event := callbacks[event] + [callback]];
      }
    }

    /** `connect`, with the outcome of opening the port as a parameter. Any
        previously open port is closed first. */
    method Connect(opens: bool) returns (ok: bool)
      modifies this
      ensures ok == opens && connected == opens && portOpen == opens
      ensures IsConnected() == opens
      ensures callbacks == old(callbacks) && written == old(written) && delivered == old(delivered)
    {
      connected := opens;
      portOpen := opens;
      ok := opens;
    }

    /** `disconnect` (stopping the listener is not modelled). */
    method Disconnect()
      modifies this
      ensures !connected && !portOpen && !IsConnected()
      ensures callbacks == old(callbacks) && written == old(written) && delivered == old(delivered)
    {
      connected := false;
      portOpen := false;
    }

    /** `control_relay`: a relay outside 1..4 or a closed link writes nothing
        and fails; otherwise "RELAY,<n>\n" is written, and the result says
        whether the write went through (`writes` is its outcome). */
    method ControlRelay(n: int, writes: bool) returns (ok: bool)
      modifies this
      ensures ok <==> 1 <= n <= 4 && old(IsConnected()) && writes
      ensures written == old(written) + (if ok then [RelayCommand(n)] else [])
      ensures callbacks == old(callbacks) && delivered == old(delivered)
      ensures connected == old(connected) && portOpen == old(portOpen)
    {
      if n < 1 || n > 4 {
        return false;
      }
      if !connected || !portOpen {
        return false;
      }
      if writes {
        written := written + [RelayCommand(n)];
        ok := true;
      } else {
        ok := false;
      }
    }

    /** Call every callback of one kind with `a`, in registration order. */
    method Notify(kind: string, a: Argument)
      requires Valid() && kind in EventKinds
      modifies this
      ensures callbacks == old(callbacks) && written == old(written)
      ensures delivered == old(delivered) + Fan(old(callbacks)[kind], a)
      ensures connected == old(connected) && portOpen == old(portOpen)
    {
      var handlers := callbacks[kind];
      var i := 0;
      while i < |handlers|
        invariant 0 <= i <= |handlers|
        invariant delivered == old(delivered) + Fan(handlers[..i], a)
        invariant callbacks == old(callbacks) && written == old(written)
        invariant connected == old(connected) && portOpen == old(portOpen)
      {
        assert Fan(handlers[..i + 1], a) == Fan(handlers[..i], a) + [Delivery(handlers[i], a)];
        delivered := delivered + [Delivery(handlers[i], a)];
        i := i + 1;
      }
      assert handlers[..i] == handlers;
    }

    /** `_process_message` */
    method ProcessMessage(line: string)
      requires Valid()
      modifies this
      ensures delivered == old(delivered) + Dispatched(old(callbacks), line)
      ensures callbacks == old(callbacks) && written == old(written)
      ensures connected == old(connected) && portOpen == old(portOpen)
    {
      var m := Decode(line);
      if m.Some? {
        Notify(KindOf(m.value), Event(m.value));
      }
    }

    /** One pass of `_listen_loop` that has read `raw` from the port. */
    method HandleLine(raw: string)
      requires Valid()
      modifies this
      ensures delivered == old(delivered) + Deliveries(old(callbacks), raw)
      ensures callbacks == old(callbacks) && written == old(written)
      ensures connected == old(connected) && portOpen == old(portOpen)
    {
      var line := Strip(raw);
      if line != [] {
        ghost var before, raws := delivered, Fan(callbacks["raw_message"], Line(line));
        Notify("raw_message", Line(line));
        ProcessMessage(line);
        AppendAssoc(before, raws, Dispatched(old(callbacks), line));
        DeliveriesNonBlank(old(callbacks), raw);
      }
    }
  }
}
