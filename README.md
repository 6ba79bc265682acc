# Hand-in-hand medication station: a verified model of its session core

The station has two halves:

- **The board.** A BMduino reads a fingerprint sensor, a MAX30102 pulse oximeter, a DHT11 humidity sensor and a GY-906 (MLX90614) infrared thermometer. It prints one text line per event on a serial link.
- **The host.** A Raspberry Pi decodes those lines, moves a workflow state machine through the steps of a visit, and opens the user's medication relay. The steps are: identified, vitals measured, medication taken, done.

This project models the core of both halves in Dafny and proves properties of the model:

- `DataParser`: the line decoder `DataParser.parse_message` and its parsers. Every parser is total, and a line it cannot read decodes to `None`.
- `SerialCommunicator`: the `BMduinoCommunicator` of the host, which has its own, slightly different decoder. The module covers the callback registry, the fan-out of every line to the raw and typed callbacks, and the relay command.
- `DecoderAgreement`: where the two decoders agree, and the lines on which they differ.
- `Workflow`: the `StateMachine`, with its current and previous state, the data slots, and the observers called on each real transition.
- `Users`: the `UserMapper` table from fingerprint ids to names and relay channels.
- `MainUi`: the transition policy of the main window. It covers how board events, the medication detector and the delay timers drive the state machine, and what each screen arms. It is given twice:
  - as functions on a value (`UiState`), with an invariant and whole-visit lemmas;
  - as a `Controller` class whose methods are proved to implement those functions.
- `Max30102`, `Dht11`, `Gy906`: the sensor drivers of the board.
  - MAX30102: register encodings, the 18-bit FIFO words, power control, the integer beat detector and the input checks of the SpO2 estimate.
  - DHT11: the start handshake, forty bits read MSB-first into five bytes, and the checksum.
  - GY-906: the 16-bit register words and the presence check.
- `Text` and `Values`: the Python string operations and dynamic values the host code relies on. These are helpers:
  - `strip`, `split`, `startswith`, `in`;
  - `int()` and `str()` of an integer;
  - truthiness, `dict.get`.

Some behaviours of the code that the model keeps and the lemmas make visible:

- `_do_working_error` returns to STANDBY without stopping the delay timer or the medication detector. An error during the two-second greeting is therefore followed by VITAL_SIGNS when the timer fires (`MainUi.ErrorKeepsDelay`).
- The fingerprint id remembered by `_do_detect_user` is never cleared. After a finished visit the next `WORKING,START` goes straight to FINGERPRINT_OK (`MainUi.DefaultVisit`).
- A measured user whose relay is unknown is still taken to MEDICATION. No relay is asked for there, but the detector starts. Only a falsy fingerprint id schedules the plain return to STANDBY.
- The communicator delivers `RELAY_OK,0` and reads a working-status vital field of `0` as the reading 0. The parser drops the first and reads the second as "no reading" (`DecoderAgreement.RelayZero`, `DecoderAgreement.VitalAgreement`).

## Model

| member | source | states |
|---|---|---|
| DataParser.StandbyVital | raspberrypi/code/data_parser.py:39-40 | "0" means no reading; any other field must be an integer, or the whole line fails |
| DataParser.ParseStandby | raspberrypi/code/data_parser.py:30-44 | a standby line decodes iff it has at least five fields, two float temperatures and two vital fields that are "0" or integers; the message keeps the temperature tokens and reads "0" as absent |
| DataParser.WorkingVital | raspberrypi/code/data_parser.py:80-98 | a status vital is absent exactly for "0", 'MEASURING' exactly when it is not an integer, and otherwise the integer it spells |
| DataParser.ParseWorkingStatus | raspberrypi/code/data_parser.py:75-109 | a status line decodes iff it has at least five fields and two float temperatures; the vital fields can never make it fail |
| DataParser.ParseWorkingFinal | raspberrypi/code/data_parser.py:124-139 | a final line decodes iff it has at least seven fields, an integer id, heart rate and SpO2, and two float temperatures; each field of the result is the one read from its position |
| DataParser.ParseWorkingError | raspberrypi/code/data_parser.py:154-158 | NO_FINGER anywhere in the line wins; TIMEOUT is reported only without NO_FINGER; otherwise no error |
| DataParser.ParseRelayOk | raspberrypi/code/data_parser.py:173-179 | the relay is the integer in field 1, and a line with fewer than two fields gives none |
| DataParser.ParseDetectUser | raspberrypi/code/data_parser.py:194-207 | a user line decodes iff field 0 is DETECT and field 1 is USER followed by an integer, which is the id |
| DataParser.ParseWorkingStart | raspberrypi/code/data_parser.py:47-59 | true exactly for the lines that `parse_message` decodes as a start message |
| DataParser.ParseMessage | raspberrypi/code/data_parser.py:210-240 | the stripped WORKING,START line is a start message, and a stripped STANDBY, line is decided by the standby parser |
| DataParser.ParseMessageTags | raspberrypi/code/data_parser.py:220-229 | a standby, user or final message comes only from a stripped line carrying that tag |
| DataParser.ParseMessageStart | raspberrypi/code/data_parser.py:226-227 | a start message comes exactly from the stripped line WORKING,START |
| DataParser.ParseMessageWorking | raspberrypi/code/data_parser.py:230-234 | an error comes from a plain WORKING, line and is NO_FINGER iff the line holds NO_FINGER; a status comes only from a WORKING, line holding neither error word |
| DataParser.ParseMessageRelayAndUnknown | raspberrypi/code/data_parser.py:235-240 | a relay acknowledgement comes from a RELAY_OK, line and never names relay 0; a line with none of the four tags decodes to nothing |
| DataParser.ErrorBeforeStatus | raspberrypi/code/data_parser.py:230-234 | on a plain WORKING, line an error word anywhere gives the error, even when the line is also a valid status |
| DataParser.DispatchStandby | raspberrypi/code/data_parser.py:220-223 | a stripped STANDBY, line is decided by the standby parser alone |
| DataParser.DispatchDetect | raspberrypi/code/data_parser.py:224-225 | a stripped DETECT,USER line is decided by the user parser alone |
| DataParser.DispatchFinal | raspberrypi/code/data_parser.py:228-229 | a stripped WORKING,FINAL, line is decided by the final parser alone |
| DataParser.DispatchWorking | raspberrypi/code/data_parser.py:230-234 | any other WORKING, line is an error if it holds an error word and a status otherwise |
| DataParser.DispatchRelay | raspberrypi/code/data_parser.py:235-238 | a stripped RELAY_OK, line gives the relay in field 1 unless it is 0 or not an integer |
| DataParser.StandbyTokenRoundTrip | raspberrypi/code/data_parser.py:39-40 | the board's vital field (a number, or "0" for none) reads back as the value printed |
| DataParser.VitalTokenRoundTrip | raspberrypi/code/data_parser.py:80-98 | a status vital field (a number, MEASURING, or "0") reads back as the value printed |
| DataParser.StandbyRoundTrip | raspberrypi/code/data_parser.py:22-44 | decoding a standby line built from the format STANDBY,object,ambient,heart rate,SpO2 gives back every field |
| DataParser.StatusLineTag | raspberrypi/code/data_parser.py:226-234 | a status line of the documented format is neither the START nor a FINAL line and holds no error word |
| DataParser.StatusRoundTrip | raspberrypi/code/data_parser.py:66-109 | decoding a status line of the documented format gives back every field |
| DataParser.FinalRoundTrip | raspberrypi/code/data_parser.py:116-139 | decoding a final line of the documented format gives back the id, both temperatures, heart rate and SpO2 |
| DataParser.DetectRoundTrip | raspberrypi/code/data_parser.py:186-207 | DETECT,USER followed by the number n decodes to user n |
| DataParser.DetectNonInteger | raspberrypi/code/data_parser.py:199-207 | a user line whose number does not parse decodes to nothing |
| DataParser.DetectUserAbc | raspberrypi/code/data_parser.py:199-207 | DETECT,USERabc decodes to nothing |
| DataParser.RelayOkRoundTrip | raspberrypi/code/data_parser.py:235-238 | RELAY_OK,n decodes to relay n, except relay 0, which is dropped |
| DataParser.ErrorLineDecodes | raspberrypi/code/data_parser.py:146-158 | the lines WORKING,NO_FINGER and WORKING,TIMEOUT decode to their error |
| DataParser.NoFingerLineDecodes | raspberrypi/code/data_parser.py:154-155 | WORKING,NO_FINGER decodes to the NO_FINGER error |
| DataParser.TimeoutLineDecodes | raspberrypi/code/data_parser.py:156-157 | WORKING,TIMEOUT decodes to the TIMEOUT error |
| DataParser.StartLineDecodes | raspberrypi/code/data_parser.py:226-227 | WORKING,START decodes to a start message |
| SerialCommunicator.EmptyRegistry | raspberrypi/code/serial_communicator.py:35-44 | a new communicator knows exactly the eight event kinds, each with no callbacks |
| SerialCommunicator.KindOf | raspberrypi/code/serial_communicator.py:182-353 | every decoded message goes to one of the seven typed kinds, never to raw_message |
| SerialCommunicator.DetectField | raspberrypi/code/serial_communicator.py:204-242 | a field starting with USER gives the integer after it; any other field gives the integer it spells, blanks around it ignored |
| SerialCommunicator.Decode | raspberrypi/code/serial_communicator.py:174-358 | a STANDBY, line decodes exactly as the parser decodes it, and the WORKING,START line is a start message |
| SerialCommunicator.LiveVital | raspberrypi/code/serial_communicator.py:304-321 | a vital field is never absent: it is the integer it spells (0 included) or else 'MEASURING' |
| SerialCommunicator.DecodeErrorFirst | raspberrypi/code/serial_communicator.py:282-294 | a line starting with either error prefix is that error, even though it also starts with WORKING, |
| SerialCommunicator.DecodeStartAndFinal | raspberrypi/code/serial_communicator.py:246-280 | the START line is a start, and a FINAL line is decoded exactly as the final parser does |
| SerialCommunicator.DecodeStatus | raspberrypi/code/serial_communicator.py:296-341 | any other WORKING, line is delivered only with exactly five fields and two float temperatures |
| SerialCommunicator.LiveVitalZero | raspberrypi/code/serial_communicator.py:308-309 | a vital field "0" is the reading 0 |
| SerialCommunicator.DetectFallbackUnreachable | raspberrypi/code/serial_communicator.py:198-244 | under the DETECT,USER guard field 1 always starts with USER, so the bare-number fallback is never taken |
| SerialCommunicator.DecodeDetect | raspberrypi/code/serial_communicator.py:198-223 | a user line is delivered as the integer after USER in field 1, or not at all |
| SerialCommunicator.DecodeRelay | raspberrypi/code/serial_communicator.py:344-353 | a RELAY_OK, line is delivered for every integer in field 1, relay 0 included |
| SerialCommunicator.DecodeUnknown | raspberrypi/code/serial_communicator.py:181-354 | a line with none of the tags reaches no typed callback |
| SerialCommunicator.Fan | raspberrypi/code/serial_communicator.py:192-196 | every registered callback is called once, in registration order, with the same argument |
| SerialCommunicator.DeliveriesNonBlank | raspberrypi/code/serial_communicator.py:145-158 | a non-blank line is given to the raw callbacks and then to the typed dispatch |
| SerialCommunicator.DeliveriesOrder | raspberrypi/code/serial_communicator.py:145-158 | a blank line reaches nobody; otherwise every raw callback sees the stripped line before any typed callback runs, and each typed call goes to a callback of the message's kind |
| SerialCommunicator.RelayCommandLine | raspberrypi/code/serial_communicator.py:379 | the relay command is the line RELAY,n ended by a newline |
| SerialCommunicator.RelayCommandRoundTrip | raspberrypi/code/serial_communicator.py:379 | the command splits into RELAY and the relay number, which reads back as n |
| SerialCommunicator.Communicator.constructor | raspberrypi/code/serial_communicator.py:20-48 | starts disconnected, with the empty registry and nothing written or delivered |
| SerialCommunicator.Communicator.IsConnected | raspberrypi/code/serial_communicator.py:387-389 | true iff the link is marked connected and the port is open; Connect makes it the outcome of opening, Disconnect makes it false, and ControlRelay writes only when it holds |
| SerialCommunicator.Communicator.RegisterCallback | raspberrypi/code/serial_communicator.py:50-62 | a callback of a known kind is appended to that kind's list; an unknown kind changes nothing |
| SerialCommunicator.Communicator.Connect | raspberrypi/code/serial_communicator.py:64-99 | connected and the result are both the outcome of opening the port |
| SerialCommunicator.Communicator.Disconnect | raspberrypi/code/serial_communicator.py:101-107 | the link is closed and nothing else changes |
| SerialCommunicator.Communicator.ControlRelay | raspberrypi/code/serial_communicator.py:360-385 | succeeds iff the relay is in 1..4, the link is open and the write goes through; exactly then RELAY,n and a newline is written |
| SerialCommunicator.Communicator.Notify | raspberrypi/code/serial_communicator.py:192-196 | the callbacks of one kind are called in registration order, and nothing else changes |
| SerialCommunicator.Communicator.ProcessMessage | raspberrypi/code/serial_communicator.py:174-358 | the callbacks called are those of the decoded message's kind, or none |
| SerialCommunicator.Communicator.HandleLine | raspberrypi/code/serial_communicator.py:143-158 | one received line causes exactly the raw calls followed by the typed calls |
| DecoderAgreement.VitalAgreement | raspberrypi/code/data_parser.py:80-98 | the two decoders read a status vital field alike, except "0", which the parser reads as no reading and the communicator as 0 |
| DecoderAgreement.TaggedLinesAgree | raspberrypi/code/serial_communicator.py:182-280 | on standby, user, start and final lines both decoders give the same message |
| DecoderAgreement.ErrorPrefixAgree | raspberrypi/code/serial_communicator.py:282-294 | both decoders read a line with an error prefix as that error |
| DecoderAgreement.StatusLinesAgree | raspberrypi/code/serial_communicator.py:296-341 | on a five-field status line without error words both decoders succeed together and agree on the temperatures |
| DecoderAgreement.LongStatusLine | raspberrypi/code/serial_communicator.py:301 | a status line with more than five fields is a status for the parser but is dropped by the communicator |
| DecoderAgreement.StatusLineDecodes | raspberrypi/code/serial_communicator.py:296-328 | the communicator reads back a status line of the documented format, with "no reading" turned into 0 |
| DecoderAgreement.LiveVitalToken | raspberrypi/code/serial_communicator.py:304-321 | the communicator reads back a vital field printed by the board, with "no reading" turned into 0 |
| DecoderAgreement.ErrorWordInStatusField | raspberrypi/code/serial_communicator.py:282-328 | a status line with NO_FINGER in its heart-rate field is an error for the parser and a measuring status for the communicator |
| DecoderAgreement.ErrorWordMeasuring | raspberrypi/code/serial_communicator.py:308-311 | the communicator reads the error word in a vital field as 'MEASURING' |
| DecoderAgreement.RelayZero | raspberrypi/code/serial_communicator.py:344-353 | RELAY_OK,0 reaches the relay_ok callbacks but parses to nothing |
| Workflow.Store | raspberrypi/program/state_machine.py:71-80 | falsy data changes nothing; truthy data goes to the slot of the target state (the whole dict for STANDBY, VITAL_SIGNS and VITAL_SIGNS_OK, its fingerprint_id and user_name for FINGERPRINT_OK), and no other slot changes |
| Workflow.Notices | raspberrypi/program/state_machine.py:85-89 | one call per observer, in registration order, each with the new state, the previous state and the data |
| Workflow.Set | raspberrypi/program/state_machine.py:56-89 | setting the current state changes nothing; otherwise the old state becomes the previous one, the data is stored as `Store` says, every observer is called once, and the previous state is never the current one |
| Workflow.ResetMachine | raspberrypi/program/state_machine.py:99-108 | back in STANDBY with every slot cleared; the observers are called only if the state was not STANDBY |
| Workflow.SetIdempotent | raspberrypi/program/state_machine.py:64-65 | repeating a transition does nothing, whatever data it carries |
| Workflow.ResetIdempotent | raspberrypi/program/state_machine.py:99-108 | a second reset does nothing |
| Workflow.RunNotices | raspberrypi/program/state_machine.py:56-89 | over any run of transitions each real one calls every observer once, and no observer is added or lost |
| Workflow.RunKeepsNotices | raspberrypi/program/state_machine.py:85-89 | a run only appends to the record of observer calls |
| Workflow.RunKeepsIdentity | raspberrypi/program/state_machine.py:74-76 | the fingerprint id and user name slots change only on a transition into FINGERPRINT_OK |
| Workflow.RunConsistent | raspberrypi/program/state_machine.py:64-68 | every state reached by a run keeps the previous state different from the current one |
| Workflow.StateMachine.constructor | raspberrypi/program/state_machine.py:30-45 | STANDBY, no previous state, empty slots, no observers |
| Workflow.StateMachine.RegisterStateChangeCallback | raspberrypi/program/state_machine.py:47-54 | the observer is appended after the earlier ones and nothing else changes |
| Workflow.StateMachine.SetState | raspberrypi/program/state_machine.py:56-89 | the object's new state is `Set` of its old state |
| Workflow.StateMachine.StoreData | raspberrypi/program/state_machine.py:71-80 | the slots become `Store` of the old slots, and nothing else changes |
| Workflow.StateMachine.GetState | raspberrypi/program/state_machine.py:91-93 | returns the current state |
| Workflow.StateMachine.GetPreviousState | raspberrypi/program/state_machine.py:95-97 | returns the previous state |
| Workflow.StateMachine.Reset | raspberrypi/program/state_machine.py:99-108 | the object's new state is `ResetMachine` of its old state |
| Users.FallbackName | raspberrypi/code/user_mapper.py:72-73 | the name is the user prefix, the id as Python prints it, and the number suffix |
| Users.FallbackNameInjective | raspberrypi/code/user_mapper.py:72-73 | two numeric ids get the same fallback name iff they are equal |
| Users.UserName | raspberrypi/code/user_mapper.py:60-73 | the listed name of a listed user, and the fallback name otherwise |
| Users.UserRelay | raspberrypi/code/user_mapper.py:75-88 | None for an unlisted user, the record's relay (or None) otherwise |
| Users.UserInfo | raspberrypi/code/user_mapper.py:90-105 | present iff the user is listed; then it is the user's record plus the id under fingerprint_id |
| Users.UserInfoRecord | raspberrypi/code/user_mapper.py:100-105 | removing the added id gives back the stored record |
| Users.DefaultUser | raspberrypi/code/user_mapper.py:50-57 | in the default table user i (1..4) is on relay i and is named as the fallback would name it |
| Users.DefaultRelays | raspberrypi/code/user_mapper.py:52-57 | every default user has an integer relay in 1..4, and no two share one |
| Users.LoadedUsers | raspberrypi/code/user_mapper.py:30-48 | the users entry of a parsed file (empty when absent); the default table when the file is missing, malformed or unreadable |
| Users.UserMapper.constructor | raspberrypi/code/user_mapper.py:19-28 | the table is what loading the configuration gives |
| Users.UserMapper.CreateDefaultConfig | raspberrypi/code/user_mapper.py:50-57 | the table becomes the default one |
| Users.UserMapper.GetUserName | raspberrypi/code/user_mapper.py:60-73 | returns `UserName` of the table |
| Users.UserMapper.GetUserRelay | raspberrypi/code/user_mapper.py:75-88 | returns `UserRelay` of the table |
| Users.UserMapper.GetUserInfo | raspberrypi/code/user_mapper.py:90-105 | returns `UserInfo` of the table |
| Users.UserMapper.GetAllUsers | raspberrypi/code/user_mapper.py:107-114 | returns the mapper's table (the sharing of records by the source's shallow copy is not modelled) |
| MainUi.ClampStep | raspberrypi/program/main_ui.py:40-42 | the step shown is always one of the four; a step in range is kept, and others go to the nearest end |
| MainUi.StepIndicator.constructor | raspberrypi/program/main_ui.py:28-36 | the indicator starts at step 0 |
| MainUi.StepIndicator.SetCurrentStep | raspberrypi/program/main_ui.py:40-43 | the step becomes the clamped argument |
| MainUi.StartInv | raspberrypi/program/main_ui.py:149-158 | the window as built satisfies the invariant |
| MainUi.Enter | raspberrypi/program/main_ui.py:561-579 | entering the current state changes nothing; only the MEDICATION screens touch the relay and the detector; the invariant is kept |
| MainUi.Show | raspberrypi/program/main_ui.py:561-763 | each screen keeps the remembered identity; only the MEDICATION screens touch the relay requests and the detector; only VITAL_SIGNS_OK schedules an uncancellable return; the invariant is kept |
| MainUi.DetectUser | raspberrypi/program/main_ui.py:400-420 | a falsy id changes nothing; a truthy one is remembered with its name, FINGERPRINT_OK is shown, and out of another state the identity is stored and the two-second delay to VITAL_SIGNS is armed |
| MainUi.WorkingStart | raspberrypi/program/main_ui.py:427-448 | from STANDBY or FINGERPRINT a remembered user goes to FINGERPRINT_OK; without one STANDBY goes to FINGERPRINT; every other state is left alone |
| MainUi.WorkingStatus | raspberrypi/program/main_ui.py:455-472 | from either fingerprint state the delay timer is stopped and VITAL_SIGNS entered at once; elsewhere nothing changes |
| MainUi.WorkingError | raspberrypi/program/main_ui.py:543-559 | back to STANDBY from anywhere, with the delay timer, its pending transition and the detector left as they were |
| MainUi.WorkingFinal | raspberrypi/program/main_ui.py:522-534 | VITAL_SIGNS_OK is entered from anywhere and the invariant is kept |
| MainUi.WorkingFinalRecord | raspberrypi/program/main_ui.py:522-534 | the final record with the user's name is kept; a truthy id arms MEDICATION with the user's relay after two seconds, a falsy one only schedules the return to STANDBY |
| MainUi.MedicationHandled | raspberrypi/program/main_ui.py:686-729 | the detector stops, COMPLETE is shown, and out of another state the three-second return to STANDBY is armed |
| MainUi.DelayHandled | raspberrypi/program/main_ui.py:766-771 | the pending transition, if any, is applied and the slot emptied |
| MainUi.DelayFired | raspberrypi/program/main_ui.py:149-151 | the single-shot timer stops, the pending transition is applied, and the invariant is kept |
| MainUi.StandbyShotFired | raspberrypi/program/main_ui.py:638 | one scheduled return to STANDBY fires and is used up |
| MainUi.ShowMedication | raspberrypi/program/main_ui.py:640-684 | entering MEDICATION passes the order's relay to `control_relay` iff it is truthy and not text (a non-zero integer or float), and starts the detector unless the relay is non-empty text |
| MainUi.Apply | raspberrypi/program/main_ui.py:358-771 | every event has an effect except a timer that is not running, and every effect keeps the invariant |
| MainUi.ReplayStep | raspberrypi/program/main_ui.py:358-771 | a sequence of events is the first event's effect followed by the rest |
| MainUi.ReplayInv | raspberrypi/program/main_ui.py:358-771 | every window state reached from a good one by any events is good |
| MainUi.ReplayKeepsIdentity | raspberrypi/program/main_ui.py:409-410 | the remembered fingerprint id changes only with a detect event |
| MainUi.ErrorKeepsDelay | raspberrypi/program/main_ui.py:543-559 | an error during the two-second greeting returns to STANDBY, but the delay still fires into VITAL_SIGNS |
| MainUi.DefaultVisit | raspberrypi/program/main_ui.py:400-771 | with the default table a visit of user 1 ends in STANDBY with relay 1 opened once, the detector stopped, and the identity kept for the next WORKING,START |
| MainUi.Visit | raspberrypi/program/main_ui.py:400-771 | the same whole visit for any table that puts user 1 on relay 1 |
| MainUi.VisitIdentified | raspberrypi/program/main_ui.py:400-472 | user detection, start and a status line bring the window to VITAL_SIGNS with no timer running |
| MainUi.VisitMeasured | raspberrypi/program/main_ui.py:522-684 | the final record and the two-second delay open relay 1 and start the detector |
| MainUi.VisitFinished | raspberrypi/program/main_ui.py:686-771 | the detection and the three-second delay bring the window back to STANDBY |
| MainUi.MedicationSeen | raspberrypi/program/main_ui.py:686-707 | the detector's report leads to COMPLETE with the return to STANDBY armed |
| MainUi.CompleteExpires | raspberrypi/program/main_ui.py:761-771 | the delay in COMPLETE returns to STANDBY, from where the next WORKING,START goes to FINGERPRINT_OK |
| MainUi.Controller.constructor | raspberrypi/program/main_ui.py:107-161 | the window is built around a fresh machine, registers its handler, and is in the start state |
| MainUi.Controller.StartTimer | raspberrypi/program/main_ui.py:607 | the delay timer runs with the given interval |
| MainUi.Controller.ChangeState | raspberrypi/program/main_ui.py:414-417 | the window's new state is `Enter` of its old state |
| MainUi.Controller.OnStateChanged | raspberrypi/program/main_ui.py:561-579 | the window's new state is `Show` of its old state |
| MainUi.Controller.ShowStandbyScreen | raspberrypi/program/main_ui.py:581-587 | step 0, and nothing else changes |
| MainUi.Controller.ShowFingerprintScreen | raspberrypi/program/main_ui.py:589-595 | step 0, and nothing else changes |
| MainUi.Controller.ShowFingerprintOkScreen | raspberrypi/program/main_ui.py:597-607 | step 1 and the two-second delay to VITAL_SIGNS; nothing when there is no data |
| MainUi.Controller.ShowVitalSignsScreen | raspberrypi/program/main_ui.py:609-618 | step 2, and nothing else changes |
| MainUi.Controller.ShowVitalSignsOkScreen | raspberrypi/program/main_ui.py:620-638 | a truthy id arms MEDICATION with the user's relay after two seconds; otherwise a return to STANDBY is scheduled |
| MainUi.Controller.ShowMedicationScreen | raspberrypi/program/main_ui.py:640-684 | step 3, the relay request for any truthy non-text relay, and the detector start, as `Show` says |
| MainUi.Controller.ShowMedicationOkScreen | raspberrypi/program/main_ui.py:731-737 | the detector stops and the window goes straight back to STANDBY |
| MainUi.Controller.ShowCompleteScreen | raspberrypi/program/main_ui.py:739-763 | step 0 and the three-second delay to STANDBY |
| MainUi.Controller.DoDetectUser | raspberrypi/program/main_ui.py:400-420 | the window's new state is `DetectUser` of its old state |
| MainUi.Controller.DoWorkingStart | raspberrypi/program/main_ui.py:427-448 | the window's new state is `WorkingStart` of its old state |
| MainUi.Controller.DoWorkingStatus | raspberrypi/program/main_ui.py:455-472 | the window's new state is `WorkingStatus` of its old state |
| MainUi.Controller.DoWorkingError | raspberrypi/program/main_ui.py:543-559 | the window's new state is `WorkingError` of its old state |
| MainUi.Controller.DoWorkingFinal | raspberrypi/program/main_ui.py:522-534 | the window's new state is `WorkingFinal` of its old state |
| MainUi.Controller.HandleMedicationDetected | raspberrypi/program/main_ui.py:686-707 | the window's new state is `MedicationHandled` of its old state |
| MainUi.Controller.HandleMedicationTimeout | raspberrypi/program/main_ui.py:709-729 | a timeout has the same effect as a detection |
| MainUi.Controller.HandleStateDelay | raspberrypi/program/main_ui.py:766-771 | the window's new state is `DelayFired` of its old state |
| MainUi.Controller.FireStandbyShot | raspberrypi/program/main_ui.py:638 | the window's new state is `StandbyShotFired` of its old state |
| Max30102.FifoConfig | Bmduino/code/MAX30102/MAX30102.h:88 | the low three bits of the sample average sit in bits 5-7, with 0x0F below them |
| Max30102.Spo2ConfigFields | Bmduino/code/MAX30102/MAX30102.h:95-113 | the rate, pulse width and ADC range each land in their own field and read back; a value without a code reads as the first table entry; bit 7 stays clear |
| Max30102.ComputeSpo2Config | Bmduino/code/MAX30102/MAX30102.h:95-113 | the byte built one table at a time is the SpO2 configuration |
| Max30102.ShutdownMode | Bmduino/code/MAX30102/MAX30102.h:141-145 | bit 7 is set and the other bits kept |
| Max30102.WakeUpMode | Bmduino/code/MAX30102/MAX30102.h:147-151 | bit 7 is cleared and the other bits kept |
| Max30102.ShutdownWakeUp | Bmduino/code/MAX30102/MAX30102.h:141-151 | waking up undoes a shutdown of a running mode, and shutting down again gives the same byte |
| Max30102.Word18Fields | Bmduino/code/MAX30102/MAX30102.h:182-185 | a sample is below 2^18; its low two bytes are the last two bytes sent and its top two bits the low bits of the first |
| Max30102.Word18 | Bmduino/code/MAX30102/MAX30102.h:182-185 | a FIFO sample is below 2^18 and its low byte is the last byte sent |
| Max30102.Word18RoundTrip | Bmduino/code/MAX30102/MAX30102.h:182-185 | every 18-bit sample is read back from the three bytes the sensor sends |
| Max30102.SetupResult | Bmduino/code/MAX30102/MAX30102.h:83-125 | after setup the mode is the LED mode (the reset is overwritten), both LEDs get the power level, the FIFO pointers are 0, and every other register is kept |
| Max30102.Max30105.constructor | Bmduino/code/MAX30102/MAX30102.h:61-65 | red and IR start at 0 |
| Max30102.Max30105.ReadRegister | Bmduino/code/MAX30102/MAX30102.h:153-159 | the register's value, or 0xFF when nothing answers |
| Max30102.Max30105.WriteRegister | Bmduino/code/MAX30102/MAX30102.h:161-166 | one write is recorded and the register takes the value |
| Max30102.Max30105.Begin | Bmduino/code/MAX30102/MAX30102.h:67-81 | the sensor is accepted iff PART_ID reads 0x15 |
| Max30102.Max30105.Setup | Bmduino/code/MAX30102/MAX30102.h:83-125 | the nine writes of setup in order, and the register file `SetupRegisters` describes |
| Max30102.Max30105.SoftReset | Bmduino/code/MAX30102/MAX30102.h:137-139 | MODE_CONFIG is written with 0x40 |
| Max30102.Max30105.Shutdown | Bmduino/code/MAX30102/MAX30102.h:141-145 | MODE_CONFIG is written back with the shutdown bit set |
| Max30102.Max30105.WakeUp | Bmduino/code/MAX30102/MAX30102.h:147-151 | MODE_CONFIG is written back with the shutdown bit clear |
| Max30102.Max30105.ReadFifo | Bmduino/code/MAX30102/MAX30102.h:168-193 | red is the sample in bytes 0-2 and IR the sample in bytes 3-5, with a missing byte read as 0xFF |
| Max30102.Max30105.GetIr | Bmduino/code/MAX30102/MAX30102.h:127-130 | a FIFO read, returning the IR sample |
| Max30102.Max30105.GetRed | Bmduino/code/MAX30102/MAX30102.h:132-135 | a FIFO read, returning the red sample |
| Max30102.FifoRoundTrip | Bmduino/code/MAX30102/MAX30102.h:168-193 | a sensor sending two clean samples is read as those samples |
| Max30102.Wrap32 | Bmduino/code/MAX30102/MAX30102.h:196-207 | a 32-bit signed result is the exact one when it fits and agrees with it modulo 2^32 |
| Max30102.CDiv | Bmduino/code/MAX30102/MAX30102.h:218 | C division rounds towards zero for negative values too |
| Max30102.WarmUpEndsEarly | Bmduino/code/MAX30102/MAX30102.h:213-222 | as written, a non-zero first sample becomes the threshold and the warm-up stops after one sample; the intended warm-up keeps summing |
| Max30102.BeatStepAsWritten | Bmduino/code/MAX30102/MAX30102.h:210-256 | as written: while the running sum is 0 and fewer than ten samples are seen, no beat and the count goes up; otherwise the count stays and the sample becomes the last one |
| Max30102.AsWrittenWarmUp | Bmduino/code/MAX30102/MAX30102.h:213-222 | as written, a call with the threshold still 0 reports no beat, counts the sample and makes it the threshold |
| Max30102.WarmUpAverages | Bmduino/code/MAX30102/MAX30102.h:213-222 | with the ten-sample warm-up no beat is reported and the threshold becomes the mean of the first ten readings |
| Max30102.BeatCondition | Bmduino/code/MAX30102/MAX30102.h:224-256 | once edge detection runs, a beat is reported exactly on a downward crossing while rising with amplitude over 1000, and the threshold then moves to the middle of peak and trough; it runs after ten samples in the corrected detector and, as written, as soon as the running sum is non-zero |
| Max30102.NoBeatInWarmUp | Bmduino/code/MAX30102/MAX30102.h:213-222 | no beat is reported during the warm-up, and each call counts one sample |
| Max30102.BeatDetector.constructor | Bmduino/code/MAX30102/MAX30102.h:196-207 | the statics start at zero, not rising |
| Max30102.BeatDetector.CheckForBeat | Bmduino/code/MAX30102/MAX30102.h:210-256 | with the corrected ten-sample warm-up (see Findings), the new statics and the result are one `BeatStep` of the old statics |
| Max30102.BeatDetector.RiseStep | Bmduino/code/MAX30102/MAX30102.h:229-234 | an upward crossing starts a rise at this sample, with the previous one as the trough |
| Max30102.BeatDetector.FallStep | Bmduino/code/MAX30102/MAX30102.h:236-244 | a downward crossing while rising ends the rise and is a beat when the amplitude exceeds 1000 |
| Max30102.BeatDetector.TrackStep | Bmduino/code/MAX30102/MAX30102.h:246-254 | the peak follows the samples up while rising and the trough follows them down otherwise |
| Max30102.NonZeroMean | Bmduino/code/MAX30102/MAX30102.h:278-292 | a buffer of non-zero 18-bit readings has a non-zero mean, so the estimate goes on |
| Max30102.ZeroBufferStops | Bmduino/code/MAX30102/MAX30102.h:290-292 | an all-zero IR buffer stops the estimate |
| Max30102.EstimateInputs | Bmduino/code/MAX30102/MAX30102.h:268-292 | all four outputs are cleared; the estimate goes on iff there are at least 25 samples and both 32-bit means are non-zero |
| Dht11.PackUnpack | Bmduino/code/DHT-11/DHT11.h:128-129 | bits are packed most significant first: unpacking gives them back in the order read |
| Dht11.UnpackPack | Bmduino/code/DHT-11/DHT11.h:128-129 | unpacking and packing again gives back the byte |
| Dht11.FirstTimeout | Bmduino/code/DHT-11/DHT11.h:115-139 | the first bit whose wait times out, every earlier bit being complete |
| Dht11.ByteRead | Bmduino/code/DHT-11/DHT11.h:112-142 | a non-zero byte means all eight bits completed; a timeout in any bit gives 0 |
| Dht11.ByteReadMeaning | Bmduino/code/DHT-11/DHT11.h:112-142 | a byte read is its sampled levels, most significant first, or 0 after a timeout, whatever was read before |
| Dht11.ByteRoundTrip | Bmduino/code/DHT-11/DHT11.h:112-142 | a cleanly sent byte is read back, and the read stops right after it |
| Dht11.Bytes | Bmduino/code/DHT-11/DHT11.h:105-107 | n byte reads give n bytes (five in `readData`) |
| Dht11.BytesRoundTrip | Bmduino/code/DHT-11/DHT11.h:105-107 | cleanly sent bytes are read back in order |
| Dht11.BytesPrefix | Bmduino/code/DHT-11/DHT11.h:105-107 | reading more bytes keeps the earlier ones |
| Dht11.FirstByteTimeout | Bmduino/code/DHT-11/DHT11.h:105-120 | a timeout during the first byte makes the humidity byte 0 |
| Dht11.ChecksumDetectsOneError | Bmduino/code/DHT-11/DHT11.h:57-60 | the 8-bit checksum rejects any frame with exactly one byte changed |
| Dht11.ReadResult | Bmduino/code/DHT-11/DHT11.h:49-67 | succeeds iff the handshake is answered and the checksum matches; then the outputs are whole plus tenths, and otherwise they are left alone |
| Dht11.ReadRoundTrip | Bmduino/code/DHT-11/DHT11.h:49-67 | a good frame sent cleanly after a good handshake is read as its humidity and temperature |
| Dht11.Sensor.constructor | Bmduino/code/DHT-11/DHT11.h:20-22 | the sensor remembers its pin |
| Dht11.Sensor.ReadByte | Bmduino/code/DHT-11/DHT11.h:112-142 | the byte and what is left of the line are `ByteRead` of the line |
| Dht11.Sensor.ReadData | Bmduino/code/DHT-11/DHT11.h:69-110 | fails and reads nothing iff the handshake fails; otherwise the five bytes are `Bytes` of the line |
| Dht11.Sensor.Read | Bmduino/code/DHT-11/DHT11.h:49-67 | the result and the outputs are `ReadResult` |
| Dht11.Sensor.ReadHumidity | Bmduino/code/DHT-11/DHT11.h:31-38 | the humidity read, or 0 when the read fails |
| Dht11.Sensor.ReadTemperature | Bmduino/code/DHT-11/DHT11.h:40-47 | the temperature read, or 0 when the read fails |
| Gy906.Read16 | Bmduino/code/GY-906/GY906.h:82-102 | 0 when the register is not acknowledged or fewer than three bytes arrive; otherwise the first byte is the low byte and the second the high byte |
| Gy906.Write16 | Bmduino/code/GY-906/GY906.h:104-110 | the register, then the low and the high byte of the word |
| Gy906.Write16Read16 | Bmduino/code/GY-906/GY906.h:82-110 | reading back the data bytes of a write, with any error code after them, gives the word |
| Gy906.ReadId | Bmduino/code/GY-906/GY906.h:65-69 | the low byte is the first word's; the high byte is the second word's low byte OR-ed with the first word's high byte |
| Gy906.Begin | Bmduino/code/GY-906/GY906.h:45-55 | the sensor is accepted iff the ID is neither all zeros nor all ones |
| Gy906.NoDeviceFails | Bmduino/code/GY-906/GY906.h:45-102 | with nothing acknowledging on the bus the sensor is rejected |
| Gy906.FloatingBusFails | Bmduino/code/GY-906/GY906.h:45-102 | a bus reading every byte as 0xFF gives ID 0xFFFF and the sensor is rejected |
| Gy906.ShortReadsFail | Bmduino/code/GY-906/GY906.h:45-102 | short replies to both ID reads reject the sensor |

## Left out

- Floating point. Temperatures stay the token text that `float()` accepted, and that grammar is simplified to an optional sign, digits and one point; exponents, `inf` and `nan` are not modelled. The DHT11 readings are exact reals, not rounded binary floats. `readTemp`, `readObjectTemp` and `readAmbientTemp` of the GY-906 are float arithmetic and are not modelled. Neither is the ratio and rate part of `maxim_heart_rate_and_oxygen_saturation` after its input checks (MAX30102.h:294-372).
- `int()` is modelled as surrounding blanks, an optional sign and ASCII digits. Underscores between digits and non-ASCII digits are not accepted by the model.
- Timing, the I2C and GPIO buses and the serial port. What a bus transaction returns, what the DHT11 does on its pin, whether a port opens and whether a write succeeds are all parameters. Not modelled:
  - the DHT11 `begin` (pin setup and a delay, always `true`);
  - the MLX90614 constructor (it stores the address);
  - the bus start in `MAX30105::begin`;
  - the delays.
- The device-side effect of the MAX30102 soft reset. Only the write is modelled.
- The statics `firstBeat`, `secondBeat`, `beatLast`, `lastTime` and `riseCount` are not modelled. `checkForBeat` never uses them.
- Max30102.Wrap32: signed 32-bit overflow in `checkForBeat` is undefined in C; the model takes it to wrap around.
- Threads, the listening loop, reconnection, `start_listening`/`stop_listening`, and the logging. `HandleLine` is one pass of the loop over a line already read.
- Callbacks are identifiers, and the model records the calls made to them. A callback that raises is caught by the source and the loop goes on; the model's callbacks never raise, which gives the same sequence of calls.
- Qt. These are not modelled:
  - labels, the camera frame, animations, the clock, `closeEvent`;
  - the display update of `_do_working_status` while in VITAL_SIGNS.
  The `_on_*` handlers post their `_do_*` function with a zero-delay timer; the model runs it directly. The delay timer and the three-second `singleShot` returns to STANDBY are explicit events, the latter counted by `standbyShots`.
- The medication detector is a flag. `start_detection`, `stop_detection` and its callbacks are events.
- The relay request of `_show_medication_screen` is recorded in `relayRequests` and not sent through a communicator object. Whether the write succeeds does not change the window's state.
- Users.LoadedUsers: the file contents are a parameter. A `users` entry that is not a JSON object is not modelled.
- Users.UserMapper.GetAllUsers: the source returns a shallow copy of the table, so the user records inside it are shared with the mapper and editing one edits the mapper's table. Dafny values do not alias, so that sharing is not modelled. `get_user_info` copies the record itself, so it shares nothing mutable as long as the record's values are scalars.
- The user table holds only `None`, integers, strings and floats. A JSON `true`/`false` or a nested list or object as a name or relay is not modelled.
- Users.PyStr shows a float id by the token it was read from, not by Python's float formatting.
- MainUi.WorkingFinal: its own contract states only the target state and the invariant. The record kept and what the screen arms are stated by `MainUi.WorkingFinalRecord`.

## Findings

| source | as written | input that shows it | evidently intended | confidence | as-written member | corrected member |
|---|---|---|---|---|---|---|
| Bmduino/code/MAX30102/MAX30102.h:214 | the warm-up runs only while `threshold == 0 && sampleCount < 10`, and `threshold` holds the running sum, so the first non-zero sample ends the warm-up | samples 10000 then 20000: after the second sample the threshold is still 10000 and the count still 1, and the second sample already goes through edge detection | the comment and the division at the tenth sample: average the first ten samples into the threshold, reporting no beat meanwhile | not executed | Max30102.WarmUpEndsEarly | Max30102.WarmUpAverages |
