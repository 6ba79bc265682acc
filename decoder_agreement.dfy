/** The two decoders of the board's lines, `DataParser.parse_message` and
    `BMduinoCommunicator._process_message`, compared on stripped lines: where
    they agree, and the inputs on which they differ. */
module DecoderAgreement {
  import opened Values
  import opened Text
  import opened DataParser
  import opened SerialCommunicator

  /** A status heart-rate or SpO2 field: the parser reads "0" as no reading,
      the communicator as the reading 0; on every other field they agree. */
  lemma VitalAgreement(t: string)
    ensures WorkingVital(t) == if t == "0" then Absent else LiveVital(t)
  {
    if t == "MEASURING" {
      StripClean(t);
    }
  }

  /** Outside the `WORKING,` status lines and the relay acknowledgements the
      two decoders deliver the same message for every stripped line. */
  lemma TaggedLinesAgree(line: string)
    requires Strip(line) == line
    requires
      || StartsWith(line, "STANDBY,") || StartsWith(line, "DETECT,USER")
      || line == "WORKING,START" || StartsWith(line, "WORKING,FINAL,")
      || StartsWith(line, "WORKING,NO_FINGER") || StartsWith(line, "WORKING,TIMEOUT")
      || (!StartsWith(line, "WORKING,") && !StartsWith(line, "RELAY_OK,"))
    ensures Decode(line) == ParseMessage(line)
  {
    if StartsWith(line, "STANDBY,") {
      DispatchStandby(line);
    } else if StartsWith(line, "DETECT,USER") {
      DispatchDetect(line);
      DecodeDetect(line);
      DetectFallbackUnreachable(line);
    } else if line == "WORKING,START" {
      DecodeStartAndFinal(line);
      ParseMessageStart(line);
    } else if StartsWith(line, "WORKING,FINAL,") {
      DecodeStartAndFinal(line);
      DispatchFinal(line);
    } else if StartsWith(line, "WORKING,NO_FINGER") || StartsWith(line, "WORKING,TIMEOUT") {
      ErrorPrefixAgree(line);
    } else {
      DecodeUnknown(line);
      ParseMessageRelayAndUnknown(line);
    }
  }

  /** Both decoders read a line with an error prefix as that error. */
  lemma ErrorPrefixAgree(line: string)
    requires Strip(line) == line
    requires StartsWith(line, "WORKING,NO_FINGER") || StartsWith(line, "WORKING,TIMEOUT")
    ensures Decode(line) == ParseMessage(line)
    ensures Decode(line) == Some(WorkingError(if Contains(line, "NO_FINGER") then NoFinger else Timeout))
  {
    DecodeErrorFirst(line);
    ErrorPrefixParses(line);
  }

  /** The parser's half of `ErrorPrefixAgree`. */
  lemma ErrorPrefixParses(line: string)
    requires Strip(line) == line
    requires StartsWith(line, "WORKING,NO_FINGER") || StartsWith(line, "WORKING,TIMEOUT")
    ensures ParseMessage(line) == Some(WorkingError(if Contains(line, "NO_FINGER") then NoFinger else Timeout))
  {
    var p := if StartsWith(line, "WORKING,NO_FINGER") then "WORKING,NO_FINGER" else "WORKING,TIMEOUT";
    PrefixOfPrefix(line, p, "WORKING,");
    PrefixesDiffer(line, p, "WORKING,FINAL,", 8);
    PrefixesDiffer(line, p, "WORKING,START", 8);
    if p == "WORKING,NO_FINGER" {
      ContainsInPrefix(line, p, "NO_FINGER", 8);
    } else {
      ContainsInPrefix(line, p, "TIMEOUT", 8);
    }
    DispatchWorking(line);
  }

  /** On a five-field status line without error words the decoders agree
      except that a "0" vital field is "no reading" for the parser and the
      reading 0 for the communicator. */
  lemma StatusLinesAgree(line: string)
    requires Strip(line) == line
    requires StartsWith(line, "WORKING,") && !StartsWith(line, "WORKING,FINAL,") && line != "WORKING,START"
    requires !Contains(line, "NO_FINGER") && !Contains(line, "TIMEOUT")
    requires |Fields(line)| == 5
    ensures Decode(line).Some? <==> ParseMessage(line).Some?
    ensures Decode(line).Some? ==> (
      && var d, p, f := Decode(line).value, ParseMessage(line).value, Fields(line);
      && d.WorkingStatus? && p.WorkingStatus?
      && d.objectTemp == p.objectTemp && d.ambientTemp == p.ambientTemp
      && p.liveHeartRate == (if f[3] == "0" then Absent else d.liveHeartRate)
      && p.liveSpo2 == (if f[4] == "0" then Absent else d.liveSpo2))
  {
    NoErrorPrefix(line);
    DecodeStatus(line);
    DispatchWorking(line);
    VitalAgreement(Fields(line)[3]);
    VitalAgreement(Fields(line)[4]);
  }

  /** A line without NO_FINGER or TIMEOUT has neither error prefix. */
  lemma NoErrorPrefix(line: string)
    requires !Contains(line, "NO_FINGER") && !Contains(line, "TIMEOUT")
    ensures !StartsWith(line, "WORKING,NO_FINGER") && !StartsWith(line, "WORKING,TIMEOUT")
  {
    if StartsWith(line, "WORKING,NO_FINGER") {
      ContainsInPrefix(line, "WORKING,NO_FINGER", "NO_FINGER", 8);
    }
    if StartsWith(line, "WORKING,TIMEOUT") {
      ContainsInPrefix(line, "WORKING,TIMEOUT", "TIMEOUT", 8);
    }
  }

  /** A status line with more than five fields is a status for the parser
      and is dropped by the communicator. */
  lemma LongStatusLine(line: string)
    requires Strip(line) == line
    requires StartsWith(line, "WORKING,") && !StartsWith(line, "WORKING,FINAL,") && line != "WORKING,START"
    requires !Contains(line, "NO_FINGER") && !Contains(line, "TIMEOUT")
    requires |Fields(line)| > 5 && IsFloatToken(Fields(line)[1]) && IsFloatToken(Fields(line)[2])
    ensures Decode(line) == None
    ensures ParseMessage(line).Some? && ParseMessage(line).value.WorkingStatus?
  {
    NoErrorPrefix(line);
    DecodeStatus(line);
    DispatchWorking(line);
  }

  /** The status line the board prints decodes in the communicator with
      "no reading" turned into the reading 0. */
  lemma StatusLineDecodes(objectTemp: string, ambientTemp: string, heartRate: Vital, spo2: Vital)
    requires Temperature(objectTemp) && Temperature(ambientTemp)
    requires heartRate != Reading(0) && spo2 != Reading(0)
    ensures var zero := (v: Vital) => if v == Absent then Reading(0) else v;
      Decode(StatusLine(objectTemp, ambientTemp, heartRate, spo2))
        == Some(WorkingStatus(objectTemp, ambientTemp, zero(heartRate), zero(spo2)))
  {
    var line := StatusLine(objectTemp, ambientTemp, heartRate, spo2);
    StatusLineShape(objectTemp, ambientTemp, heartRate, spo2);
    StatusLineTag(objectTemp, ambientTemp, heartRate, spo2);
    NoErrorPrefix(line);
    DecodeStatus(line);
    LiveVitalToken(heartRate);
    LiveVitalToken(spo2);
  }

  /** The communicator reads back a vital field the board prints, with "no
      reading" as the reading 0. */
  lemma LiveVitalToken(v: Vital)
    requires v != Reading(0)
    ensures LiveVital(VitalToken(v)) == if v == Absent then Reading(0) else v
  {
    VitalTokenRoundTrip(v);
    VitalAgreement(VitalToken(v));
    if v == Absent {
      LiveVitalZero();
    }
  }

  /** The status line carrying an error word in its heart-rate field. */
  function ErrorWordLine(objectTemp: string, ambientTemp: string, spo2: Vital): string
  {
    Join(["WORKING", objectTemp, ambientTemp, "NO_FINGER", VitalToken(spo2)], ',')
  }

  /** Its fields, its tag and the error word it holds. */
  lemma ErrorWordLineShape(objectTemp: string, ambientTemp: string, spo2: Vital)
    requires Temperature(objectTemp) && Temperature(ambientTemp)
    ensures var line := ErrorWordLine(objectTemp, ambientTemp, spo2);
      && Strip(line) == line
      && Fields(line) == ["WORKING", objectTemp, ambientTemp, "NO_FINGER", VitalToken(spo2)]
      && StartsWith(line, "WORKING,")
      && |line| > 8 && line[8] == objectTemp[0]
      && Contains(line, "NO_FINGER")
  {
    ErrorWordLineFields(objectTemp, ambientTemp, spo2);
    ErrorWordLineStart(objectTemp, ambientTemp, spo2);
    JoinContainsPart(["WORKING", objectTemp, ambientTemp, "NO_FINGER", VitalToken(spo2)], ',', 3);
  }

  /** The line splits back into its fields and has no blanks at its ends. */
  lemma ErrorWordLineFields(objectTemp: string, ambientTemp: string, spo2: Vital)
    requires Temperature(objectTemp) && Temperature(ambientTemp)
    ensures var line := ErrorWordLine(objectTemp, ambientTemp, spo2);
      && Strip(line) == line
      && Fields(line) == ["WORKING", objectTemp, ambientTemp, "NO_FINGER", VitalToken(spo2)]
      && StartsWith(line, "WORKING,")
  {
    VitalTokenChars(spo2);
    TemperatureChars(objectTemp);
    TemperatureChars(ambientTemp);
    FivePartsShape(["WORKING", objectTemp, ambientTemp, "NO_FINGER", VitalToken(spo2)],
                   "WORKING", objectTemp, ambientTemp, "NO_FINGER", VitalToken(spo2));
  }

  /** The line's ninth character opens the object temperature. */
  lemma ErrorWordLineStart(objectTemp: string, ambientTemp: string, spo2: Vital)
    requires Temperature(objectTemp)
    ensures var line := ErrorWordLine(objectTemp, ambientTemp, spo2);
      |line| > 8 && line[8] == objectTemp[0]
  {
    var parts := ["WORKING", objectTemp, ambientTemp, "NO_FINGER", VitalToken(spo2)];
    var line := Join(parts, ',');
    TemperatureChars(objectTemp);
    assert line == "WORKING" + [','] + Join(parts[1..], ',');
    JoinFirst(parts[1..], ',');
  }

  /** An error word inside a status line: the parser reports the error, the
      communicator delivers a status whose heart rate is 'MEASURING'. */
  lemma ErrorWordInStatusField(objectTemp: string, ambientTemp: string, spo2: Vital)
    requires Temperature(objectTemp) && Temperature(ambientTemp) && spo2 != Reading(0)
    ensures var line := ErrorWordLine(objectTemp, ambientTemp, spo2);
      && ParseMessage(line) == Some(WorkingError(NoFinger))
      && Decode(line) == Some(WorkingStatus(objectTemp, ambientTemp, Measuring, if spo2 == Absent then Reading(0) else spo2))
  {
    var line := ErrorWordLine(objectTemp, ambientTemp, spo2);
    ErrorWordLineShape(objectTemp, ambientTemp, spo2);
    ErrorWordLineTag(objectTemp, ambientTemp, spo2);
    ErrorWordParses(line);
    ErrorWordDecodes(line, objectTemp, ambientTemp, spo2);
  }

  /** The error-word line is a plain `WORKING,` line: not START, not FINAL,
      and without an error prefix. */
  lemma ErrorWordLineTag(objectTemp: string, ambientTemp: string, spo2: Vital)
    requires Temperature(objectTemp)
    requires var line := ErrorWordLine(objectTemp, ambientTemp, spo2);
      |line| > 8 && line[8] == objectTemp[0]
    ensures var line := ErrorWordLine(objectTemp, ambientTemp, spo2);
      && !StartsWith(line, "WORKING,FINAL,") && line != "WORKING,START"
      && !StartsWith(line, "WORKING,NO_FINGER") && !StartsWith(line, "WORKING,TIMEOUT")
  {
    var line := ErrorWordLine(objectTemp, ambientTemp, spo2);
    TemperatureChars(objectTemp);
    assert line[8] != 'F' && line[8] != 'S' && line[8] != 'N' && line[8] != 'T';
  }

  /** The parser's half of `ErrorWordInStatusField`. */
  lemma ErrorWordParses(line: string)
    requires Strip(line) == line
    requires StartsWith(line, "WORKING,") && !StartsWith(line, "WORKING,FINAL,") && line != "WORKING,START"
    requires Contains(line, "NO_FINGER")
    ensures ParseMessage(line) == Some(WorkingError(NoFinger))
  {
    DispatchWorking(line);
  }

  /** The communicator's half of `ErrorWordInStatusField`. */
  lemma ErrorWordDecodes(line: string, objectTemp: string, ambientTemp: string, spo2: Vital)
    requires Temperature(objectTemp) && Temperature(ambientTemp) && spo2 != Reading(0)
    requires Strip(line) == line
    requires Fields(line) == ["WORKING", objectTemp, ambientTemp, "NO_FINGER", VitalToken(spo2)]
    requires StartsWith(line, "WORKING,") && !StartsWith(line, "WORKING,FINAL,") && line != "WORKING,START"
    requires !StartsWith(line, "WORKING,NO_FINGER") && !StartsWith(line, "WORKING,TIMEOUT")
    ensures Decode(line) == Some(WorkingStatus(objectTemp, ambientTemp, Measuring, if spo2 == Absent then Reading(0) else spo2))
  {
    DecodeStatus(line);
    ErrorWordMeasuring();
    LiveVitalToken(spo2);
  }

  /** The communicator reads the error word in a vital field as 'MEASURING'. */
  lemma ErrorWordMeasuring()
    ensures LiveVital("NO_FINGER") == Measuring
  {
    StripClean("NO_FINGER");
    assert !IsDigit("NO_FINGER"[0]);
  }

  /** `RELAY_OK,0` reaches the relay_ok callbacks but parses to nothing. */
  lemma RelayZero()
    ensures Decode(RelayOkLine(0)) == Some(RelayOk(0))
    ensures ParseMessage(RelayOkLine(0)) == None
  {
    RelayOkRoundTrip(0);
    RelayZeroDecodes();
  }

  /** The communicator's half of `RelayZero`. */
  lemma RelayZeroDecodes()
    ensures Decode(RelayOkLine(0)) == Some(RelayOk(0))
  {
    var line := RelayOkLine(0);
    assert line == "RELAY_OK" + "," + "0";
    TwoFields("RELAY_OK", "0");
    DecodeRelay(line);
    ParseIntToString(0);
  }
}
