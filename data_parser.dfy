/** The stateless decoder of the board's line protocol (class `DataParser`).
    Every parser is total: a line it cannot decode gives `None`. */
module DataParser {
  import opened Values
  import opened Text

  datatype ErrorKind = NoFinger | Timeout

  /** A heart-rate or SpO2 field of a working-status line: Python `None`,
      the string 'MEASURING', or an integer. */
  datatype Vital = Absent | Measuring | Reading(n: int)

  /** The dicts the decoders produce, one variant per 'mode'. Temperatures
      are kept as the token that `float()` accepted. */
  datatype Message =
    | Standby(objectTemp: string, ambientTemp: string, heartRate: Option<int>, spo2: Option<int>)
    | DetectUser(fingerprintId: int)
    | WorkingStart
    | WorkingStatus(objectTemp: string, ambientTemp: string, liveHeartRate: Vital, liveSpo2: Vital)
    | WorkingFinal(fingerprintId: int, objectTemp: string, ambientTemp: string, finalHeartRate: int, finalSpo2: int)
    | WorkingError(error: ErrorKind)
    | RelayOk(relayNum: int)

  /** `line.split(',')` */
  function Fields(line: string): seq<string>
  {
    Split(line, ',')
  }

  /** A standby heart-rate or SpO2 field: `int(t) if t != '0' else None`;
      the outer `None` is the `ValueError` of `int()`. */
  function StandbyVital(t: string): (r: Option<Option<int>>)
    ensures t == "0" ==> r == Some(None)
    ensures t != "0" ==> (r.Some? <==> ParseInt(t).Some?)
    ensures r.Some? && r.value.Some? ==> t != "0" && ParseInt(t) == Some(r.value.value)
  {
    if t == "0" then Some(None)
    else match ParseInt(t)
      case Some(n) => Some(Some(n))
      case None => None
  }

  /** `parse_standby`: at least five fields, two float temperatures, and
      heart rate / SpO2 that are "0" (meaning None) or integers. */
  function ParseStandby(line: string): (r: Option<Message>)
    ensures |Fields(line)| < 5 ==> r == None
    ensures r.Some? <==>
      && |Fields(line)| >= 5
      && IsFloatToken(Fields(line)[1]) && IsFloatToken(Fields(line)[2])
      && StandbyVital(Fields(line)[3]).Some? && StandbyVital(Fields(line)[4]).Some?
    ensures r.Some? ==> (
      && r.value.Standby?
      && r.value.objectTemp == Fields(line)[1] && r.value.ambientTemp == Fields(line)[2]
      && (r.value.heartRate.None? <==> Fields(line)[3] == "0")
      && (r.value.heartRate.Some? ==> ParseInt(Fields(line)[3]) == r.value.heartRate)
      && (r.value.spo2.None? <==> Fields(line)[4] == "0")
      && (r.value.spo2.Some? ==> ParseInt(Fields(line)[4]) == r.value.spo2))
  {
    var parts := Fields(line);
    if |parts| < 5 then None
    else if !IsFloatToken(parts[1]) || !IsFloatToken(parts[2]) then None
    else match (StandbyVital(parts[3]), StandbyVital(parts[4]))
      case (Some(hr), Some(spo2)) => Some(Standby(parts[1], parts[2], hr, spo2))
      case _ => None
  }

  /** `parse_working_start`: true exactly for the lines `parse_message`
      decodes as a start message. */
  function ParseWorkingStart(line: string): (r: bool)
    ensures r <==> ParseMessage(line) == Some(WorkingStart)
  {
    ParseMessageStart(line);
    Strip(line) == "WORKING,START"
  }

  /** A working-status heart-rate or SpO2 field: "0" is None, an integer is
      kept, and anything else (including 'MEASURING') is 'MEASURING'. */
  function WorkingVital(t: string): (r: Vital)
    ensures r == Absent <==> t == "0"
    ensures r == Measuring <==> t != "0" && ParseInt(t) == None
    ensures r.Reading? ==> ParseInt(t) == Some(r.n)
  {
    if t == "MEASURING" then Measuring
    else if t == "0" then Absent
    else match ParseInt(t)
      case Some(n) => Reading(n)
      case None => Measuring
  }

  /** `parse_working_status`: never fails because of the vital fields; only
      a short line or a bad temperature gives None. */
  function ParseWorkingStatus(line: string): (r: Option<Message>)
    ensures r.Some? <==>
      |Fields(line)| >= 5 && IsFloatToken(Fields(line)[1]) && IsFloatToken(Fields(line)[2])
    ensures r.Some? ==> (
      && r.value.WorkingStatus?
      && r.value.objectTemp == Fields(line)[1] && r.value.ambientTemp == Fields(line)[2]
      && r.value.liveHeartRate == WorkingVital(Fields(line)[3])
      && r.value.liveSpo2 == WorkingVital(Fields(line)[4]))
  {
    var parts := Fields(line);
    if |parts| < 5 then None
    else if !IsFloatToken(parts[1]) || !IsFloatToken(parts[2]) then None
    else Some(WorkingStatus(parts[1], parts[2], WorkingVital(parts[3]), WorkingVital(parts[4])))
  }

  /** `parse_working_final`: fields 2..6 are id, two temperatures, heart rate
      and SpO2; a short line or any unparsable field gives None. */
  function ParseWorkingFinal(line: string): (r: Option<Message>)
    ensures r.Some? <==>
      && |Fields(line)| >= 7
      && ParseInt(Fields(line)[2]).Some?
      && IsFloatToken(Fields(line)[3]) && IsFloatToken(Fields(line)[4])
      && ParseInt(Fields(line)[5]).Some? && ParseInt(Fields(line)[6]).Some?
    ensures r.Some? ==> (
      && r.value.WorkingFinal?
      && Some(r.value.fingerprintId) == ParseInt(Fields(line)[2])
      && r.value.objectTemp == Fields(line)[3] && r.value.ambientTemp == Fields(line)[4]
      && Some(r.value.finalHeartRate) == ParseInt(Fields(line)[5])
      && Some(r.value.finalSpo2) == ParseInt(Fields(line)[6]))
  {
    var parts := Fields(line);
    if |parts| < 7 then None
    else match (ParseInt(parts[2]), ParseInt(parts[5]), ParseInt(parts[6]))
      case (Some(id), Some(hr), Some(spo2)) =>
        if IsFloatToken(parts[3]) && IsFloatToken(parts[4])
        then Some(WorkingFinal(id, parts[3], parts[4], hr, spo2))
        else None
      case _ => None
  }

  /** `parse_working_error`: 'NO_FINGER' anywhere wins over 'TIMEOUT' anywhere. */
  function ParseWorkingError(line: string): (r: Option<ErrorKind>)
    ensures r == Some(NoFinger) <==> Contains(line, "NO_FINGER")
    ensures r == Some(Timeout) <==> !Contains(line, "NO_FINGER") && Contains(line, "TIMEOUT")
  {
    if Contains(line, "NO_FINGER") then Some(NoFinger)
    else if Contains(line, "TIMEOUT") then Some(Timeout)
    else None
  }

  /** `parse_relay_ok`: the integer in field 1. */
  function ParseRelayOk(line: string): (r: Option<int>)
    ensures |Fields(line)| < 2 ==> r == None
    ensures |Fields(line)| >= 2 ==> r == ParseInt(Fields(line)[1])
  {
    var parts := Fields(line);
    if |parts| >= 2 then ParseInt(parts[1]) else None
  }

  /** `parse_detect_user`: field 0 is exactly DETECT and field 1 is USER
      followed by an integer. */
  function ParseDetectUser(line: string): (r: Option<Message>)
    ensures r.Some? ==> r.value.DetectUser?
    ensures r.Some? <==>
      && |Fields(line)| >= 2 && Fields(line)[0] == "DETECT"
      && StartsWith(Fields(line)[1], "USER") && ParseInt(Fields(line)[1][4..]).Some?
    ensures r.Some? ==> ParseInt(Fields(line)[1][4..]) == Some(r.value.fingerprintId)
  {
    var parts := Fields(line);
    if |parts| >= 2 && parts[0] == "DETECT" && StartsWith(parts[1], "USER") then
      match ParseInt(parts[1][4..])
      case Some(id) => Some(DetectUser(id))
      case None => None
    else None
  }

  /** `parse_message`: strip, then try the tags in a fixed order. */
  function ParseMessage(line: string): (r: Option<Message>)
    ensures Strip(line) == "WORKING,START" ==> r == Some(WorkingStart)
    ensures StartsWith(Strip(line), "STANDBY,") ==> r == ParseStandby(Strip(line))
  {
    var l := Strip(line);
    if StartsWith(l, "STANDBY,") then ParseStandby(l)
    else if StartsWith(l, "DETECT,USER") then ParseDetectUser(l)
    else if l == "WORKING,START" then Some(WorkingStart)
    else if StartsWith(l, "WORKING,FINAL,") then ParseWorkingFinal(l)
    else if StartsWith(l, "WORKING,") then
      match ParseWorkingError(l)
      case Some(e) => Some(WorkingError(e))
      case None => ParseWorkingStatus(l)
    else if StartsWith(l, "RELAY_OK,") then
      match ParseRelayOk(l)
      case Some(n) => if n != 0 then Some(RelayOk(n)) else None
      case None => None
    else None
  }

  /** The tag order of `parse_message`: a standby, user or final message
      comes only from a line with that tag, and the bare START line is the
      only source of a start message. */
  lemma ParseMessageTags(line: string)
    ensures var l, r := Strip(line), ParseMessage(line);
      && (r.Some? && r.value.Standby? ==> StartsWith(l, "STANDBY,"))
      && (r.Some? && r.value.DetectUser? ==> StartsWith(l, "DETECT,USER"))
      && (r.Some? && r.value.WorkingFinal? ==> StartsWith(l, "WORKING,FINAL,"))
  {
    var l, r := Strip(line), ParseMessage(line);
    if StartsWith(l, "STANDBY,") {
      assert r == ParseStandby(l);
    } else if StartsWith(l, "DETECT,USER") {
      assert r == ParseDetectUser(l);
    } else if l == "WORKING,START" {
    } else if StartsWith(l, "WORKING,FINAL,") {
      assert r == ParseWorkingFinal(l);
    } else if StartsWith(l, "WORKING,") {
      assert r.Some? ==> r.value.WorkingError? || r.value.WorkingStatus?;
    }
  }

  lemma ParseMessageStart(line: string)
    ensures ParseMessage(line) == Some(WorkingStart) <==> Strip(line) == "WORKING,START"
  {
    var l := Strip(line);
    if l == "WORKING,START" {
      assert !StartsWith(l, "STANDBY,") && !StartsWith(l, "DETECT,USER") by {
        assert l[..8] == "WORKING,";
      }
    }
  }

  /** A `WORKING,` line that mentions NO_FINGER or TIMEOUT anywhere is an
      error, never a status; a status line mentions neither. */
  lemma ParseMessageWorking(line: string)
    ensures var l, r := Strip(line), ParseMessage(line);
      && (r.Some? && r.value.WorkingError? ==> (
            && StartsWith(l, "WORKING,") && !StartsWith(l, "WORKING,FINAL,")
            && (r.value.error == NoFinger <==> Contains(l, "NO_FINGER"))))
      && (r.Some? && r.value.WorkingStatus? ==> (
            && StartsWith(l, "WORKING,") && !StartsWith(l, "WORKING,FINAL,") && l != "WORKING,START"
            && !Contains(l, "NO_FINGER") && !Contains(l, "TIMEOUT")))
  {
  }

  /** A relay acknowledgement comes from a RELAY_OK line and never names
      relay 0; a line with none of the four tags decodes to nothing. */
  lemma ParseMessageRelayAndUnknown(line: string)
    ensures var l, r := Strip(line), ParseMessage(line);
      && (r.Some? && r.value.RelayOk? ==> StartsWith(l, "RELAY_OK,") && r.value.relayNum != 0)
      && ((!StartsWith(l, "STANDBY,") && !StartsWith(l, "DETECT,USER") && !StartsWith(l, "WORKING,")
           && !StartsWith(l, "RELAY_OK,")) ==> r == None)
  {
    var l, r := Strip(line), ParseMessage(line);
    if StartsWith(l, "STANDBY,") {
      assert r == ParseStandby(l);
    } else if StartsWith(l, "DETECT,USER") {
      assert r == ParseDetectUser(l);
    } else if l == "WORKING,START" {
      assert l[..8] == "WORKING,";
    } else if StartsWith(l, "WORKING,FINAL,") {
      assert r == ParseWorkingFinal(l);
      assert l[..8] == l[..14][..8] == "WORKING,";
    } else if StartsWith(l, "WORKING,") {
      assert r.Some? ==> r.value.WorkingError? || r.value.WorkingStatus?;
    }
  }

  /** Error precedence: on a `WORKING,` line other than START and FINAL, an
      error word anywhere yields the error even if the line is also a
      well-formed status. */
  lemma ErrorBeforeStatus(line: string)
    requires var l := Strip(line);
      StartsWith(l, "WORKING,") && !StartsWith(l, "WORKING,FINAL,") && l != "WORKING,START"
    requires Contains(Strip(line), "NO_FINGER") || Contains(Strip(line), "TIMEOUT")
    ensures ParseMessage(line).Some? && ParseMessage(line).value.WorkingError?
  {
    var l := Strip(line);
    assert !StartsWith(l, "STANDBY,") && !StartsWith(l, "DETECT,USER") by {
      assert l[..8] == "WORKING,";
    }
  }

  /** Which parser `parse_message` hands a stripped line to, by its tag. */
  lemma DispatchStandby(line: string)
    requires StartsWith(Strip(line), "STANDBY,")
    ensures ParseMessage(line) == ParseStandby(Strip(line))
  {
  }

  lemma DispatchDetect(line: string)
    requires StartsWith(Strip(line), "DETECT,USER")
    ensures ParseMessage(line) == ParseDetectUser(Strip(line))
  {
    PrefixesDiffer(Strip(line), "DETECT,USER", "STANDBY,", 0);
  }

  lemma DispatchFinal(line: string)
    requires StartsWith(Strip(line), "WORKING,FINAL,")
    ensures ParseMessage(line) == ParseWorkingFinal(Strip(line))
  {
    var l := Strip(line);
    PrefixesDiffer(l, "WORKING,FINAL,", "STANDBY,", 0);
    PrefixesDiffer(l, "WORKING,FINAL,", "DETECT,USER", 0);
    PrefixesDiffer(l, "WORKING,FINAL,", "WORKING,START", 8);
  }

  lemma DispatchWorking(line: string)
    requires var l := Strip(line);
      StartsWith(l, "WORKING,") && !StartsWith(l, "WORKING,FINAL,") && l != "WORKING,START"
    ensures ParseMessage(line) == match ParseWorkingError(Strip(line))
      case Some(e) => Some(WorkingError(e))
      case None => ParseWorkingStatus(Strip(line))
  {
    var l := Strip(line);
    PrefixesDiffer(l, "WORKING,", "STANDBY,", 0);
    PrefixesDiffer(l, "WORKING,", "DETECT,USER", 0);
  }

  lemma DispatchRelay(line: string)
    requires StartsWith(Strip(line), "RELAY_OK,")
    ensures ParseMessage(line) == match ParseRelayOk(Strip(line))
      case Some(n) => if n != 0 then Some(RelayOk(n)) else None
      case None => None
  {
    var l := Strip(line);
    PrefixesDiffer(l, "RELAY_OK,", "STANDBY,", 0);
    PrefixesDiffer(l, "RELAY_OK,", "DETECT,USER", 0);
    PrefixesDiffer(l, "RELAY_OK,", "WORKING,", 0);
    PrefixesDiffer(l, "RELAY_OK,", "WORKING,FINAL,", 0);
  }

  // The lines the board prints, as a reference encoder for the decoders.

  /** A temperature as the board prints it: a decimal with digits, a point
      and possibly a minus sign. */
  predicate Temperature(t: string)
  {
    && IsFloatToken(t)
    && forall k :: 0 <= k < |t| ==> IsDigit(t[k]) || t[k] == '.' || t[k] == '-'
  }

  /** A standby heart-rate or SpO2 field: "0" when there is no reading. */
  function StandbyToken(v: Option<int>): string
  {
    match v
    case None => "0"
    case Some(n) => IntToString(n)
  }

  /** A working-status heart-rate or SpO2 field. */
  function VitalToken(v: Vital): string
  {
    match v
    case Absent => "0"
    case Measuring => "MEASURING"
    case Reading(n) => IntToString(n)
  }

  function StandbyLine(objectTemp: string, ambientTemp: string, heartRate: Option<int>, spo2: Option<int>): string
  {
    Join(["STANDBY", objectTemp, ambientTemp, StandbyToken(heartRate), StandbyToken(spo2)], ',')
  }

  function StatusLine(objectTemp: string, ambientTemp: string, heartRate: Vital, spo2: Vital): string
  {
    Join(["WORKING", objectTemp, ambientTemp, VitalToken(heartRate), VitalToken(spo2)], ',')
  }

  function FinalLine(id: int, objectTemp: string, ambientTemp: string, heartRate: int, spo2: int): string
  {
    Join(["WORKING", "FINAL", IntToString(id), objectTemp, ambientTemp, IntToString(heartRate), IntToString(spo2)], ',')
  }

  function DetectLine(id: int): string
  {
    "DETECT,USER" + IntToString(id)
  }

  function RelayOkLine(n: int): string
  {
    "RELAY_OK," + IntToString(n)
  }

  function ErrorLine(e: ErrorKind): string
  {
    if e == NoFinger then "WORKING,NO_FINGER" else "WORKING,TIMEOUT"
  }

  /** The integer fields of the board's lines read back exactly. */
  lemma StandbyTokenRoundTrip(v: Option<int>)
    requires v != Some(0)
    ensures StandbyVital(StandbyToken(v)) == Some(v)
  {
    if v.Some? {
      ParseIntToString(v.value);
      IntToStringZero(v.value);
    }
  }

  lemma StandbyTokenChars(v: Option<int>)
    ensures var t := StandbyToken(v);
      |t| > 0 && !IsSpace(t[|t| - 1]) && ',' !in t
  {
    if v.Some? {
      IntToStringChars(v.value);
    }
  }

  lemma VitalTokenRoundTrip(v: Vital)
    requires v != Reading(0)
    ensures WorkingVital(VitalToken(v)) == v
  {
    if v.Reading? {
      var t := IntToString(v.n);
      ParseIntToString(v.n);
      IntToStringZero(v.n);
      IntToStringChars(v.n);
      assert t != "MEASURING" by {
        assert t[0] != "MEASURING"[0];
      }
    }
  }

  /** A vital field never holds the separator, an underscore or a 'T', so it
      can be neither mistaken for an error word nor split apart. */
  lemma VitalTokenChars(v: Vital)
    ensures var t := VitalToken(v);
      |t| > 0 && !IsSpace(t[|t| - 1]) && ',' !in t && '_' !in t && 'T' !in t
  {
    if v.Reading? {
      IntToStringChars(v.n);
    }
  }

  lemma ParseStandbyFields(line: string, objectTemp: string, ambientTemp: string, heartRate: Option<int>, spo2: Option<int>)
    requires Fields(line) == ["STANDBY", objectTemp, ambientTemp, StandbyToken(heartRate), StandbyToken(spo2)]
    requires IsFloatToken(objectTemp) && IsFloatToken(ambientTemp)
    requires heartRate != Some(0) && spo2 != Some(0)
    ensures ParseStandby(line) == Some(Standby(objectTemp, ambientTemp, heartRate, spo2))
  {
    StandbyTokenRoundTrip(heartRate);
    StandbyTokenRoundTrip(spo2);
  }

  /** A temperature has no separator and no blank at its ends. */
  lemma TemperatureChars(t: string)
    requires Temperature(t)
    ensures |t| > 0 && !IsSpace(t[0]) && !IsSpace(t[|t| - 1])
    ensures ',' !in t && '_' !in t && 'T' !in t
  {
  }

  /** The shape of a standby line: its fields, no edge blanks, and its tag. */
  lemma StandbyLineShape(objectTemp: string, ambientTemp: string, heartRate: Option<int>, spo2: Option<int>)
    requires Temperature(objectTemp) && Temperature(ambientTemp)
    requires heartRate != Some(0) && spo2 != Some(0)
    ensures var line := StandbyLine(objectTemp, ambientTemp, heartRate, spo2);
      && Fields(line) == ["STANDBY", objectTemp, ambientTemp, StandbyToken(heartRate), StandbyToken(spo2)]
      && Strip(line) == line
      && StartsWith(line, "STANDBY,")
  {
    StandbyTokenChars(heartRate);
    StandbyTokenChars(spo2);
    TemperatureChars(objectTemp);
    TemperatureChars(ambientTemp);
    FivePartsShape(["STANDBY", objectTemp, ambientTemp, StandbyToken(heartRate), StandbyToken(spo2)],
                   "STANDBY", objectTemp, ambientTemp, StandbyToken(heartRate), StandbyToken(spo2));
  }

  /** Decoding a standby line the board prints gives back its fields; a
      reading of 0 has no line of its own, since "0" means "no reading". */
  lemma StandbyRoundTrip(objectTemp: string, ambientTemp: string, heartRate: Option<int>, spo2: Option<int>)
    requires Temperature(objectTemp) && Temperature(ambientTemp)
    requires heartRate != Some(0) && spo2 != Some(0)
    ensures ParseMessage(StandbyLine(objectTemp, ambientTemp, heartRate, spo2))
         == Some(Standby(objectTemp, ambientTemp, heartRate, spo2))
  {
    var line := StandbyLine(objectTemp, ambientTemp, heartRate, spo2);
    StandbyLineShape(objectTemp, ambientTemp, heartRate, spo2);
    DispatchStandby(line);
    ParseStandbyFields(line, objectTemp, ambientTemp, heartRate, spo2);
  }

  lemma StatusLineShape(objectTemp: string, ambientTemp: string, heartRate: Vital, spo2: Vital)
    requires Temperature(objectTemp) && Temperature(ambientTemp)
    ensures var line := StatusLine(objectTemp, ambientTemp, heartRate, spo2);
      && Fields(line) == ["WORKING", objectTemp, ambientTemp, VitalToken(heartRate), VitalToken(spo2)]
      && Strip(line) == line
      && StartsWith(line, "WORKING,")
  {
    VitalTokenChars(heartRate);
    VitalTokenChars(spo2);
    TemperatureChars(objectTemp);
    TemperatureChars(ambientTemp);
    FivePartsShape(["WORKING", objectTemp, ambientTemp, VitalToken(heartRate), VitalToken(spo2)],
                   "WORKING", objectTemp, ambientTemp, VitalToken(heartRate), VitalToken(spo2));
  }

  /** A status line is neither the START nor a FINAL line, and holds no error word. */
  lemma StatusLineChars(objectTemp: string, ambientTemp: string, heartRate: Vital, spo2: Vital)
    requires Temperature(objectTemp) && Temperature(ambientTemp)
    ensures var line := StatusLine(objectTemp, ambientTemp, heartRate, spo2);
      |line| > 8 && line[8] == objectTemp[0] && '_' !in line && 'T' !in line
  {
    var parts := ["WORKING", objectTemp, ambientTemp, VitalToken(heartRate), VitalToken(spo2)];
    var line := Join(parts, ',');
    TemperatureChars(objectTemp);
    TemperatureChars(ambientTemp);
    assert line[8] == objectTemp[0] by {
      assert line == "WORKING" + [','] + Join(parts[1..], ',');
      JoinFirst(parts[1..], ',');
    }
    VitalTokenChars(heartRate);
    VitalTokenChars(spo2);
    JoinAvoids(parts, ',', '_');
    JoinAvoids(parts, ',', 'T');
  }

  /** A status line is not a START or FINAL line and holds no error word. */
  lemma StatusLineTag(objectTemp: string, ambientTemp: string, heartRate: Vital, spo2: Vital)
    requires Temperature(objectTemp) && Temperature(ambientTemp)
    ensures var line := StatusLine(objectTemp, ambientTemp, heartRate, spo2);
      && !StartsWith(line, "WORKING,FINAL,") && line != "WORKING,START"
      && !Contains(line, "NO_FINGER") && !Contains(line, "TIMEOUT")
  {
    var line := StatusLine(objectTemp, ambientTemp, heartRate, spo2);
    StatusLineChars(objectTemp, ambientTemp, heartRate, spo2);
    TemperatureChars(objectTemp);
    assert line[8] != 'F' && line[8] != 'S';
    NotContains(line, "NO_FINGER", 2);
    NotContains(line, "TIMEOUT", 0);
  }

  /** Decoding a working-status line the board prints gives back its fields. */
  lemma StatusRoundTrip(objectTemp: string, ambientTemp: string, heartRate: Vital, spo2: Vital)
    requires Temperature(objectTemp) && Temperature(ambientTemp)
    requires heartRate != Reading(0) && spo2 != Reading(0)
    ensures ParseMessage(StatusLine(objectTemp, ambientTemp, heartRate, spo2))
         == Some(WorkingStatus(objectTemp, ambientTemp, heartRate, spo2))
  {
    var line := StatusLine(objectTemp, ambientTemp, heartRate, spo2);
    StatusLineShape(objectTemp, ambientTemp, heartRate, spo2);
    StatusLineTag(objectTemp, ambientTemp, heartRate, spo2);
    DispatchWorking(line);
    VitalTokenRoundTrip(heartRate);
    VitalTokenRoundTrip(spo2);
  }

  lemma FinalLineShape(id: int, objectTemp: string, ambientTemp: string, heartRate: int, spo2: int)
    requires Temperature(objectTemp) && Temperature(ambientTemp)
    ensures var line := FinalLine(id, objectTemp, ambientTemp, heartRate, spo2);
      && Fields(line) == ["WORKING", "FINAL", IntToString(id), objectTemp, ambientTemp, IntToString(heartRate), IntToString(spo2)]
      && Strip(line) == line
  {
    var parts := ["WORKING", "FINAL", IntToString(id), objectTemp, ambientTemp, IntToString(heartRate), IntToString(spo2)];
    IntToStringChars(id);
    IntToStringChars(heartRate);
    IntToStringChars(spo2);
    TemperatureChars(objectTemp);
    TemperatureChars(ambientTemp);
    FinalPartsShape(parts, IntToString(id), objectTemp, ambientTemp, IntToString(heartRate), IntToString(spo2));
  }

  /** `JoinShape` for the five fields of a standby or status line. */
  lemma FivePartsShape(parts: seq<string>, tag: string, a: string, b: string, c: string, d: string)
    requires parts == [tag, a, b, c, d]
    requires |tag| > 0 && !IsSpace(tag[0])
    requires ',' !in tag && ',' !in a && ',' !in b && ',' !in c && ',' !in d
    requires |d| > 0 && !IsSpace(d[|d| - 1])
    ensures Split(Join(parts, ','), ',') == parts && Strip(Join(parts, ',')) == Join(parts, ',')
    ensures StartsWith(Join(parts, ','), tag + [','])
  {
    assert forall i :: 0 <= i < |parts| ==> ',' !in parts[i];
    JoinShape(parts, ',');
  }

  /** `JoinShape` for the seven fields of a final line. */
  lemma FinalPartsShape(parts: seq<string>, id: string, objectTemp: string, ambientTemp: string, heartRate: string, spo2: string)
    requires parts == ["WORKING", "FINAL", id, objectTemp, ambientTemp, heartRate, spo2]
    requires ',' !in id && ',' !in objectTemp && ',' !in ambientTemp && ',' !in heartRate && ',' !in spo2
    requires |spo2| > 0 && !IsSpace(spo2[|spo2| - 1])
    ensures Split(Join(parts, ','), ',') == parts && Strip(Join(parts, ',')) == Join(parts, ',')
  {
    assert forall i :: 0 <= i < |parts| ==> ',' !in parts[i];
    JoinShape(parts, ',');
  }

  lemma FinalLineTag(id: int, objectTemp: string, ambientTemp: string, heartRate: int, spo2: int)
    ensures StartsWith(FinalLine(id, objectTemp, ambientTemp, heartRate, spo2), "WORKING,FINAL,")
  {
    var parts := ["WORKING", "FINAL", IntToString(id), objectTemp, ambientTemp, IntToString(heartRate), IntToString(spo2)];
    assert Join(parts[1..], ',') == "FINAL" + [','] + Join(parts[2..], ',') by {
      assert parts[1..][1..] == parts[2..];
    }
  }

  /** Decoding a final line the board prints gives back its fields. */
  lemma FinalRoundTrip(id: int, objectTemp: string, ambientTemp: string, heartRate: int, spo2: int)
    requires Temperature(objectTemp) && Temperature(ambientTemp)
    ensures ParseMessage(FinalLine(id, objectTemp, ambientTemp, heartRate, spo2))
         == Some(WorkingFinal(id, objectTemp, ambientTemp, heartRate, spo2))
  {
    var line := FinalLine(id, objectTemp, ambientTemp, heartRate, spo2);
    FinalLineShape(id, objectTemp, ambientTemp, heartRate, spo2);
    FinalLineTag(id, objectTemp, ambientTemp, heartRate, spo2);
    DispatchFinal(line);
    FinalFieldsParse(line, id, objectTemp, ambientTemp, heartRate, spo2);
  }

  /** The fields of a final line the board prints parse back to its values. */
  lemma FinalFieldsParse(line: string, id: int, objectTemp: string, ambientTemp: string, heartRate: int, spo2: int)
    requires Temperature(objectTemp) && Temperature(ambientTemp)
    requires Fields(line) == ["WORKING", "FINAL", IntToString(id), objectTemp, ambientTemp, IntToString(heartRate), IntToString(spo2)]
    ensures ParseWorkingFinal(line) == Some(WorkingFinal(id, objectTemp, ambientTemp, heartRate, spo2))
  {
    ParseIntToString(id);
    ParseIntToString(heartRate);
    ParseIntToString(spo2);
  }

  /** The fields of a tagged line "TAG,rest" whose rest has no separator. */
  lemma TwoFields(tag: string, rest: string)
    requires ',' !in tag && ',' !in rest
    ensures Fields(tag + "," + rest) == [tag, rest]
  {
    assert tag + "," + rest == tag + [','] + rest;
    SplitFirst(tag, ',', rest);
    SplitNoSeparator(rest, ',');
  }

  /** A user line: field 1 is USER and digits with no blank at the end. */
  lemma DetectLineShape(x: string)
    requires ',' !in x && (x == [] || !IsSpace(x[|x| - 1]))
    ensures var line := "DETECT,USER" + x;
      && Fields(line) == ["DETECT", "USER" + x]
      && Strip(line) == line
      && StartsWith(line, "DETECT,USER")
  {
    var line := "DETECT,USER" + x;
    assert line == "DETECT" + "," + ("USER" + x);
    TwoFields("DETECT", "USER" + x);
    StripClean(line);
  }

  /** `DETECT,USER<n>` decodes to user n. */
  lemma DetectRoundTrip(id: int)
    ensures ParseMessage(DetectLine(id)) == Some(DetectUser(id))
  {
    var x := IntToString(id);
    IntToStringChars(id);
    DetectLineShape(x);
    DispatchDetect(DetectLine(id));
    assert ("USER" + x)[4..] == x;
    ParseIntToString(id);
  }

  /** A user line whose number does not parse (such as `DETECT,USERabc`) decodes to nothing. */
  lemma DetectNonInteger(x: string)
    requires ',' !in x && (x == [] || !IsSpace(x[|x| - 1]))
    requires ParseInt(x) == None
    ensures ParseMessage("DETECT,USER" + x) == None
  {
    DetectLineShape(x);
    DispatchDetect("DETECT,USER" + x);
    assert ("USER" + x)[4..] == x;
  }

  lemma DetectUserAbc()
    ensures ParseMessage("DETECT,USERabc") == None
  {
    assert ParseInt("abc") == None by {
      StripClean("abc");
      assert !IsDigit("abc"[0]);
    }
    DetectNonInteger("abc");
    assert "DETECT,USER" + "abc" == "DETECT,USERabc";
  }

  /** `RELAY_OK,<n>` decodes to relay n, except relay 0, which is dropped. */
  lemma RelayOkRoundTrip(n: int)
    ensures ParseMessage(RelayOkLine(n)) == if n != 0 then Some(RelayOk(n)) else None
  {
    var x := IntToString(n);
    var line := RelayOkLine(n);
    IntToStringChars(n);
    assert line == "RELAY_OK" + "," + x;
    TwoFields("RELAY_OK", x);
    StripClean(line);
    DispatchRelay(line);
    RelayFieldsParse(line, n);
  }

  /** The relay field of a RELAY_OK line the board prints parses back. */
  lemma RelayFieldsParse(line: string, n: int)
    requires Fields(line) == ["RELAY_OK", IntToString(n)]
    ensures ParseRelayOk(line) == Some(n)
  {
    ParseIntToString(n);
  }

  /** The error lines decode to their error, and the START line to a start. */
  lemma ErrorLineDecodes(e: ErrorKind)
    ensures ParseMessage(ErrorLine(e)) == Some(WorkingError(e))
  {
    if e == NoFinger {
      NoFingerLineDecodes(ErrorLine(e));
    } else {
      TimeoutLineDecodes(ErrorLine(e));
    }
  }

  lemma NoFingerLineDecodes(line: string)
    requires line == "WORKING,NO_FINGER"
    ensures ParseMessage(line) == Some(WorkingError(NoFinger))
  {
    StripClean(line);
    PrefixesDiffer(line, line, "WORKING,FINAL,", 8);
    ContainsAt(line, "NO_FINGER", 8);
    DispatchWorking(line);
  }

  lemma TimeoutLineDecodes(line: string)
    requires line == "WORKING,TIMEOUT"
    ensures ParseMessage(line) == Some(WorkingError(Timeout))
  {
    StripClean(line);
    PrefixesDiffer(line, line, "WORKING,FINAL,", 8);
    NotContains(line, "NO_FINGER", 2);
    ContainsAt(line, "TIMEOUT", 8);
    DispatchWorking(line);
  }

  lemma StartLineDecodes()
    ensures ParseMessage("WORKING,START") == Some(WorkingStart)
    ensures ParseWorkingStart("WORKING,START")
  {
    StripClean("WORKING,START");
    ParseMessageStart("WORKING,START");
  }
}
