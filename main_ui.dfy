/** The transition policy of the main window: how board events, timers and the
    medication detector move the workflow state machine, and what entering
    each state arms. Rendering is not modelled; the screen is reduced to the
    step indicator, the deferred transition, the detector and the relay
    requests. */
module MainUi {
  import opened Values
  import opened Workflow
  import opened Users
  import DataParser

  /** The step indicator shows four steps. */
  const StepCount := 4

  /** `set_current_step` clamps its argument into the steps shown. */
  function ClampStep(step: int): (r: int)
    ensures 0 <= r < StepCount
    ensures 0 <= step < StepCount ==> r == step
    ensures step < 0 ==> r == 0
    ensures step >= StepCount ==> r == StepCount - 1
  {
    if step < 0 then 0 else if step > StepCount - 1 then StepCount - 1 else step
  }

  class StepIndicator {
    var currentStep: int

    constructor()
      ensures currentStep == 0
    {
      currentStep := 0;
    }

    method SetCurrentStep(step: int)
      modifies this
      ensures currentStep == ClampStep(step)
    {
      currentStep := if step < 0 then 0 else if step > StepCount - 1 then StepCount - 1 else step;
    }
  }

  /** `pending_state`: a transition deferred to the delay timer. */
  datatype Pending = Pending(state: SystemState, data: Option<Payload>)

  /** Everything the transition policy reads or changes. `standbyShots`
      counts the uncancellable three-second returns to STANDBY still to fire;
      `relayRequests` are the values passed to `control_relay`, in order. */
  datatype UiState = UiState(
    machine: Machine,
    step: int,
    pending: Option<Pending>,
    timerActive: bool,
    interval: nat,
    standbyShots: nat,
    detectedId: Val,
    detectedName: Val,
    detecting: bool,
    relayRequests: seq<Val>)

  /** The window's state-change handler is the machine's only observer. */
  const UiCallback: nat := 0

  /** Right after the window is built. */
  function Start(): UiState
  {
    UiState(Initial().(callbacks := [UiCallback]), 0, None, false, 0, 0, Null, Null, false, [])
  }

  /** What every reachable window state satisfies: the machine is consistent
      and observed by the window alone, the indicator shows a real step, a
      running delay timer has a transition to apply, and that transition goes
      to a state whose screen arms nothing. */
  predicate Inv(v: UiState)
  {
    && Consistent(v.machine)
    && v.machine.callbacks == [UiCallback]
    && 0 <= v.step < StepCount
    && (v.timerActive ==> v.pending.Some?)
    && (v.pending.Some? ==> v.pending.value.state in {VitalSigns, Medication, Standby})
  }

  lemma StartInv()
    ensures Inv(Start())
  {
  }

  function Rank(s: SystemState): nat
  {
    if s == MedicationOk then 1 else 0
  }

  /** `state_machine.set_state(s, data)` with the window observing it. */
  function Enter(v: UiState, users: Table, s: SystemState, data: Option<Payload>): (r: UiState)
    ensures s == v.machine.current ==> r == v
    ensures s != MedicationOk ==> r.machine.current == s
    ensures r.detectedId == v.detectedId && r.detectedName == v.detectedName
    ensures s != Medication && s != MedicationOk ==> r.relayRequests == v.relayRequests && r.detecting == v.detecting
    ensures s != VitalSignsOk ==> r.standbyShots == v.standbyShots
    ensures Inv(v) ==> Inv(r)
    decreases Rank(s), 1
  {
    if s == v.machine.current then v
    else Show(v.(machine := Set(v.machine, s, data)), users, s, data)
  }

  /** `_on_state_changed` and the `_show_*_screen` it picks. A screen that
      reads its data raises when there is none; the machine catches it and
      the rest of that screen does not happen. */
  function Show(v: UiState, users: Table, s: SystemState, data: Option<Payload>): (r: UiState)
    ensures s != MedicationOk ==> r.machine == v.machine
    ensures r.detectedId == v.detectedId && r.detectedName == v.detectedName
    ensures s != Medication && s != MedicationOk ==> r.relayRequests == v.relayRequests && r.detecting == v.detecting
    ensures s != VitalSignsOk ==> r.standbyShots == v.standbyShots
    ensures Inv(v) ==> Inv(r)
    decreases Rank(s), 0
  {
    match s
    case Standby => v.(step := ClampStep(0))
    case Fingerprint => v.(step := ClampStep(0))
    case FingerprintOk =>
      if data.None? then v
      else v.(step := ClampStep(1), pending := Some(Pending(VitalSigns, None)), timerActive := true, interval := 2000)
    case VitalSigns => v.(step := ClampStep(2))
    case VitalSignsOk =>
      if data.None? then v
      else
        var id := Get(data.value, "fingerprint_id");
        if Truthy(id) then
          var order := map["relay_num" := UserRelay(users, id), "fingerprint_id" := id];
          v.(pending := Some(Pending(Medication, Some(order))), timerActive := true, interval := 2000)
        else v.(standbyShots := v.standbyShots + 1)
    case Medication =>
      if data.None? then v
      else
        var relay := Get(data.value, "relay_num");
        var v' := v.(step := ClampStep(3));
        if Truthy(relay) && relay.Str? then v'
        else if Truthy(relay) then v'.(relayRequests := v'.relayRequests + [relay], detecting := true)
        else v'.(detecting := true)
    case MedicationOk => Enter(v.(detecting := false), users, Standby, None)
    case Complete =>
      v.(step := ClampStep(0), pending := Some(Pending(Standby, None)), timerActive := true, interval := 3000)
  }

  /** `_do_detect_user`: a truthy id is remembered with its name and shown
      as FINGERPRINT_OK; a missing or zero id changes nothing. */
  function DetectUser(v: UiState, users: Table, id: Val): (r: UiState)
    ensures !Truthy(id) ==> r == v
    ensures Truthy(id) ==>
      && r.detectedId == id && r.detectedName == UserName(users, id)
      && r.machine.current == FingerprintOk
    ensures Truthy(id) && v.machine.current != FingerprintOk ==>
      && r.machine.slots.fingerprintId == id && r.machine.slots.userName == UserName(users, id)
      && r.pending == Some(Pending(VitalSigns, None)) && r.timerActive && r.interval == 2000 && r.step == 1
    ensures Inv(v) ==> Inv(r)
  {
    if Truthy(id) then
      var name := UserName(users, id);
      Enter(v.(detectedId := id, detectedName := name), users, FingerprintOk,
            Some(map["fingerprint_id" := id, "user_name" := name]))
    else v
  }

  /** `_do_working_start` */
  function WorkingStart(v: UiState, users: Table): (r: UiState)
    ensures v.machine.current == FingerprintOk ==> r == v
    ensures (v.machine.current == Standby || v.machine.current == Fingerprint) && Truthy(v.detectedId) ==>
      r.machine.current == FingerprintOk
    ensures v.machine.current == Standby && !Truthy(v.detectedId) ==> r.machine.current == Fingerprint
    ensures v.machine.current == Fingerprint && !Truthy(v.detectedId) ==> r == v
    ensures v.machine.current !in {Standby, Fingerprint, FingerprintOk} ==> r == v
    ensures Inv(v) ==> Inv(r)
  {
    var s := v.machine.current;
    if s == FingerprintOk then v
    else if s == Standby || s == Fingerprint then
      if Truthy(v.detectedId) then
        Enter(v, users, FingerprintOk, Some(map["fingerprint_id" := v.detectedId, "user_name" := v.detectedName]))
      else if s == Standby then Enter(v, users, Fingerprint, None)
      else v
    else v
  }

  /** `_do_working_status`, its transition only: from either fingerprint
      screen the delay timer is stopped (its pending transition stays in the
      slot) and VITAL_SIGNS is entered at once. */
  function WorkingStatus(v: UiState, users: Table): (r: UiState)
    ensures v.machine.current == Fingerprint || v.machine.current == FingerprintOk ==>
      && r.machine.current == VitalSigns && !r.timerActive && r.pending == v.pending
      && r.step == 2 && r.relayRequests == v.relayRequests && r.detecting == v.detecting
    ensures !(v.machine.current == Fingerprint || v.machine.current == FingerprintOk) ==> r == v
    ensures Inv(v) ==> Inv(r)
  {
    var s := v.machine.current;
    if s == Fingerprint || s == FingerprintOk then Enter(v.(timerActive := false), users, VitalSigns, None)
    else v
  }

  /** `_do_working_error`: back to STANDBY from anywhere. Neither the delay
      timer nor the detector is stopped. */
  function WorkingError(v: UiState, users: Table): (r: UiState)
    ensures r.machine.current == Standby
    ensures r.pending == v.pending && r.timerActive == v.timerActive && r.interval == v.interval
    ensures r.detecting == v.detecting && r.relayRequests == v.relayRequests
    ensures Inv(v) ==> Inv(r)
  {
    Enter(v, users, Standby, None)
  }

  /** `_do_working_final`: VITAL_SIGNS_OK from anywhere, carrying the board's
      record with the user's name added; its screen arms the medication step
      for a truthy id and a plain return to STANDBY otherwise. */
  function WorkingFinal(v: UiState, users: Table, data: Payload): (r: UiState)
    ensures r.machine.current == VitalSignsOk
    ensures Inv(v) ==> Inv(r)
  {
    var id := Get(data, "fingerprint_id");
    var record := map["fingerprint_id" := id, "user_name" := UserName(users, id)] + data;
    RecordId(record, id, data);
    Enter(v, users, VitalSignsOk, Some(record))
  }

  /** Out of another state, the final record with the user's name is kept,
      and a truthy id arms the medication step with the user's relay while a
      missing one only schedules the return to STANDBY. */
  lemma WorkingFinalRecord(v: UiState, users: Table, data: Payload)
    requires v.machine.current != VitalSignsOk
    ensures var r, id := WorkingFinal(v, users, data), Get(data, "fingerprint_id");
      && r.machine.slots.finalData == Some(map["fingerprint_id" := id, "user_name" := UserName(users, id)] + data)
      && (Truthy(id) ==>
            && r.pending == Some(Pending(Medication, Some(map["relay_num" := UserRelay(users, id), "fingerprint_id" := id])))
            && r.timerActive && r.interval == 2000 && r.standbyShots == v.standbyShots)
      && (!Truthy(id) ==>
            r.standbyShots == v.standbyShots + 1 && r.pending == v.pending && r.timerActive == v.timerActive)
  {
    var id := Get(data, "fingerprint_id");
    var record := map["fingerprint_id" := id, "user_name" := UserName(users, id)] + data;
    RecordId(record, id, data);
    assert WorkingFinal(v, users, data) == Show(v.(machine := Set(v.machine, VitalSignsOk, Some(record))), users, VitalSignsOk, Some(record));
  }

  /** The record shown keeps the board's fingerprint id. */
  lemma RecordId(record: Payload, id: Val, data: Payload)
    requires id == Get(data, "fingerprint_id") && "fingerprint_id" in record
    requires forall k :: k in data ==> k in record && record[k] == data[k]
    requires "fingerprint_id" !in data ==> record["fingerprint_id"] == id
    ensures Get(record, "fingerprint_id") == id
  {
  }

  /** `_handle_medication_detected` and `_handle_medication_timeout`: stop
      the detector and show COMPLETE, whose screen arms the return to
      STANDBY after three seconds. */
  function MedicationHandled(v: UiState, users: Table): (r: UiState)
    ensures !r.detecting && r.machine.current == Complete
    ensures v.machine.current != Complete ==>
      r.pending == Some(Pending(Standby, None)) && r.timerActive && r.interval == 3000 && r.step == 0
    ensures Inv(v) ==> Inv(r)
  {
    var known := Truthy(v.detectedId);
    Enter(v.(detecting := false), users, Complete,
          Some(map["fingerprint_id" := (if known then v.detectedId else Null),
                   "user_name" := (if known then v.detectedName else Null)]))
  }

  /** `_handle_state_delay`: apply the pending transition, if any, and
      empty the slot. */
  function DelayHandled(v: UiState, users: Table): (r: UiState)
    ensures v.pending.None? ==> r == v
    ensures v.pending.Some? ==> r.pending.None?
    ensures v.pending.Some? && v.pending.value.state != MedicationOk ==> r.machine.current == v.pending.value.state
    ensures Inv(v) && !v.timerActive ==> Inv(r) && !r.timerActive
  {
    if v.pending.Some? then
      Enter(v, users, v.pending.value.state, v.pending.value.data).(pending := None)
    else v
  }

  /** The single-shot delay timer fires: it is no longer active, then
      `_handle_state_delay` runs. */
  function DelayFired(v: UiState, users: Table): (r: UiState)
    requires v.timerActive
    ensures v.pending.None? ==> r == v.(timerActive := false)
    ensures v.pending.Some? ==> r.pending.None?
    ensures Inv(v) ==> Inv(r) && !r.timerActive && r.machine.current == v.pending.value.state
  {
    DelayHandled(v.(timerActive := false), users)
  }

  /** One of the three-second returns to STANDBY armed without an id fires. */
  function StandbyShotFired(v: UiState, users: Table): (r: UiState)
    requires v.standbyShots > 0
    ensures r.machine.current == Standby && r.standbyShots == v.standbyShots - 1
    ensures Inv(v) ==> Inv(r)
  {
    Enter(v.(standbyShots := v.standbyShots - 1), users, Standby, None)
  }

  /** Entering MEDICATION with an order passes its relay to `control_relay`
      whenever the relay is truthy and not text (a non-zero integer or a
      non-zero float alike), and starts the detector, unless the relay is a
      non-empty string, on which `control_relay` raises before detection
      starts. */
  lemma ShowMedication(v: UiState, users: Table, order: Payload)
    requires v.machine.current != Medication
    ensures var r := Enter(v, users, Medication, Some(order));
      var relay := Get(order, "relay_num");
      && r.machine.current == Medication && r.step == 3
      && (Truthy(relay) && !relay.Str? ==> r.relayRequests == v.relayRequests + [relay])
      && (!(Truthy(relay) && !relay.Str?) ==> r.relayRequests == v.relayRequests)
      && (relay.Str? && relay.s != "" ==> r.detecting == v.detecting)
      && (!(relay.Str? && relay.s != "") ==> r.detecting)
      && r.pending == v.pending && r.timerActive == v.timerActive
  {
    var v' := v.(machine := Set(v.machine, Medication, Some(order)));
    assert Enter(v, users, Medication, Some(order)) == Show(v', users, Medication, Some(order));
  }

  /** A board event, a detector callback or a timer. */
  datatype Event =
    | BoardDetectUser(id: Val)
    | BoardWorkingStart
    | BoardWorkingStatus
    | BoardWorkingFinal(data: Payload)
    | BoardWorkingError
    | MedicationDetected
    | MedicationTimeout
    | DelayTimer
    | StandbyTimer

  /** The effect of one event; a timer that is not running cannot fire. */
  function Apply(v: UiState, users: Table, e: Event): (r: Option<UiState>)
    ensures r.None? <==> (e == DelayTimer && !v.timerActive) || (e == StandbyTimer && v.standbyShots == 0)
    ensures r.Some? && Inv(v) ==> Inv(r.value)
  {
    match e
    case BoardDetectUser(id) => Some(DetectUser(v, users, id))
    case BoardWorkingStart => Some(WorkingStart(v, users))
    case BoardWorkingStatus => Some(WorkingStatus(v, users))
    case BoardWorkingFinal(data) => Some(WorkingFinal(v, users, data))
    case BoardWorkingError => Some(WorkingError(v, users))
    case MedicationDetected => Some(MedicationHandled(v, users))
    case MedicationTimeout => Some(MedicationHandled(v, users))
    case DelayTimer => if v.timerActive then Some(DelayFired(v, users)) else None
    case StandbyTimer => if v.standbyShots > 0 then Some(StandbyShotFired(v, users)) else None
  }

  function Replay(v: UiState, users: Table, es: seq<Event>): Option<UiState>
    decreases |es|
  {
    if es == [] then Some(v)
    else
      var r := Apply(v, users, es[0]);
      if r.None? then None else Replay(r.value, users, es[1..])
  }

  /** A replay is the first event's effect followed by the replay of the rest. */
  lemma ReplayStep(v: UiState, users: Table, es: seq<Event>)
    requires es != [] && Apply(v, users, es[0]).Some?
    ensures Replay(v, users, es) == Replay(Apply(v, users, es[0]).value, users, es[1..])
  {
  }

  /** Every window state reached from a good one by any events is good. */
  lemma {:induction false} ReplayInv(v: UiState, users: Table, es: seq<Event>)
    requires Inv(v)
    ensures Replay(v, users, es).Some? ==> Inv(Replay(v, users, es).value)
    decreases |es|
  {
    if es != [] && Apply(v, users, es[0]).Some? {
      ReplayInv(Apply(v, users, es[0]).value, users, es[1..]);
    }
  }

  /** The identity remembered by `_do_detect_user` is never cleared: only a
      later detect event with a truthy id replaces it. */
  lemma {:induction false} ReplayKeepsIdentity(v: UiState, users: Table, es: seq<Event>)
    requires forall i :: 0 <= i < |es| ==> !es[i].BoardDetectUser?
    ensures Replay(v, users, es).Some? ==> Replay(v, users, es).value.detectedId == v.detectedId
    decreases |es|
  {
    if es != [] && Apply(v, users, es[0]).Some? {
      ReplayKeepsIdentity(Apply(v, users, es[0]).value, users, es[1..]);
    }
  }

  /** A board error during the two-second identity screen returns to STANDBY
      but leaves the delay armed, so VITAL_SIGNS follows anyway. */
  lemma ErrorKeepsDelay(v: UiState, users: Table)
    requires Inv(v) && v.machine.current == FingerprintOk && v.timerActive
    requires v.pending == Some(Pending(VitalSigns, None))
    ensures WorkingError(v, users).machine.current == Standby
    ensures WorkingError(v, users).timerActive
    ensures DelayFired(WorkingError(v, users), users).machine.current == VitalSigns
  {
  }

  /** A whole visit of user 1 with the default table: identified, measured,
      relay 1 opened once, medication seen, back to STANDBY. The identity
      outlives the visit, so the next WORKING,START skips identification. */
  lemma DefaultVisit(final: Payload)
    requires "fingerprint_id" in final && final["fingerprint_id"] == Int(1)
    ensures var r := Replay(Start(), DefaultUsers(), VisitEvents(final));
      && r.Some? && r.value.machine.current == Standby
      && r.value.relayRequests == [Int(1)] && !r.value.detecting && !r.value.timerActive
      && r.value.standbyShots == 0 && r.value.detectedId == Int(1)
      && WorkingStart(r.value, DefaultUsers()).machine.current == FingerprintOk
  {
    DefaultUser(1);
    Visit(DefaultUsers(), final);
  }

  /** The board and detector events of one visit by user 1. */
  function VisitEvents(final: Payload): seq<Event>
  {
    [BoardDetectUser(Int(1)), BoardWorkingStart, BoardWorkingStatus, BoardWorkingFinal(final),
     DelayTimer, MedicationDetected, DelayTimer]
  }

  /** `DefaultVisit` for any table that puts user 1 on relay 1. */
  lemma Visit(users: Table, final: Payload)
    requires UserRelay(users, Int(1)) == Int(1)
    requires "fingerprint_id" in final && final["fingerprint_id"] == Int(1)
    ensures var r := Replay(Start(), users, VisitEvents(final));
      && r.Some? && r.value.machine.current == Standby
      && r.value.relayRequests == [Int(1)] && !r.value.detecting && !r.value.timerActive
      && r.value.standbyShots == 0 && r.value.detectedId == Int(1)
      && WorkingStart(r.value, users).machine.current == FingerprintOk
  {
    var es := VisitEvents(final);
    var v3 := VisitIdentified(users, es);
    var v5 := VisitMeasured(v3, users, final, es[3..]);
    assert es[3..][2..] == es[5..];
    var v7 := VisitFinished(v5, users, es[5..]);
  }

  /** The first three events of the visit: identified, then measuring. */
  lemma VisitIdentified(users: Table, es: seq<Event>) returns (v3: UiState)
    requires |es| >= 3
    requires es[0] == BoardDetectUser(Int(1)) && es[1] == BoardWorkingStart && es[2] == BoardWorkingStatus
    ensures Replay(Start(), users, es) == Replay(v3, users, es[3..])
    ensures Inv(v3) && v3.machine.current == VitalSigns && !v3.timerActive
    ensures v3.relayRequests == [] && !v3.detecting && v3.standbyShots == 0 && v3.detectedId == Int(1)
  {
    StartInv();
    var v1 := DetectUser(Start(), users, Int(1));
    assert WorkingStart(v1, users) == v1;
    v3 := WorkingStatus(v1, users);
    assert es[1..][1..] == es[2..] && es[2..][1..] == es[3..];
    ReplayStep(Start(), users, es);
    ReplayStep(v1, users, es[1..]);
    ReplayStep(v1, users, es[2..]);
  }

  /** The final record arrives, and after two seconds relay 1 is opened and
      the detector started. */
  lemma VisitMeasured(v3: UiState, users: Table, final: Payload, es: seq<Event>) returns (v5: UiState)
    requires UserRelay(users, Int(1)) == Int(1)
    requires "fingerprint_id" in final && final["fingerprint_id"] == Int(1)
    requires Inv(v3) && v3.machine.current == VitalSigns && !v3.timerActive
    requires v3.relayRequests == [] && !v3.detecting && v3.standbyShots == 0 && v3.detectedId == Int(1)
    requires |es| >= 2 && es[0] == BoardWorkingFinal(final) && es[1] == DelayTimer
    ensures Replay(v3, users, es) == Replay(v5, users, es[2..])
    ensures Inv(v5) && v5.machine.current == Medication && !v5.timerActive
    ensures v5.relayRequests == [Int(1)] && v5.detecting && v5.standbyShots == 0 && v5.detectedId == Int(1)
  {
    var v4 := WorkingFinal(v3, users, final);
    WorkingFinalRecord(v3, users, final);
    assert Get(final, "fingerprint_id") == Int(1);
    var order := map["relay_num" := Int(1), "fingerprint_id" := Int(1)];
    assert v4.pending == Some(Pending(Medication, Some(order)));
    v5 := DelayFired(v4, users);
    assert v5 == Enter(v4.(timerActive := false), users, Medication, Some(order)).(pending := None);
    ShowMedication(v4.(timerActive := false), users, order);
    assert es[1..][1..] == es[2..];
    ReplayStep(v3, users, es);
    ReplayStep(v4, users, es[1..]);
  }

  /** The medication is seen, and after three seconds the window is back in
      STANDBY, ready for the next WORKING,START. */
  lemma VisitFinished(v5: UiState, users: Table, es: seq<Event>) returns (v7: UiState)
    requires Inv(v5) && v5.machine.current == Medication && !v5.timerActive
    requires v5.relayRequests == [Int(1)] && v5.detecting && v5.standbyShots == 0 && v5.detectedId == Int(1)
    requires es == [MedicationDetected, DelayTimer]
    ensures Replay(v5, users, es) == Some(v7)
    ensures v7.machine.current == Standby
    ensures v7.relayRequests == [Int(1)] && !v7.detecting && !v7.timerActive
    ensures v7.standbyShots == 0 && v7.detectedId == Int(1)
    ensures WorkingStart(v7, users).machine.current == FingerprintOk
  {
    var v6 := MedicationSeen(v5, users);
    v7 := CompleteExpires(v6, users);
    assert es[1..][1..] == [];
    ReplayStep(v5, users, es);
    ReplayStep(v6, users, es[1..]);
  }

  /** The detector reports the medication: COMPLETE, with the return to
      STANDBY armed. */
  lemma MedicationSeen(v5: UiState, users: Table) returns (v6: UiState)
    requires Inv(v5) && v5.machine.current == Medication && !v5.timerActive
    requires v5.relayRequests == [Int(1)] && v5.detecting && v5.standbyShots == 0 && v5.detectedId == Int(1)
    ensures Apply(v5, users, MedicationDetected) == Some(v6)
    ensures Inv(v6) && v6.machine.current == Complete && v6.timerActive
    ensures v6.pending == Some(Pending(Standby, None))
    ensures v6.relayRequests == [Int(1)] && !v6.detecting && v6.standbyShots == 0 && v6.detectedId == Int(1)
  {
    v6 := MedicationHandled(v5, users);
  }

  /** The delay timer fires in COMPLETE: back to STANDBY, from where the next
      WORKING,START goes straight to FINGERPRINT_OK for the known user. */
  lemma CompleteExpires(v6: UiState, users: Table) returns (v7: UiState)
    requires Inv(v6) && v6.machine.current == Complete && v6.timerActive
    requires v6.pending == Some(Pending(Standby, None))
    requires v6.relayRequests == [Int(1)] && !v6.detecting && v6.standbyShots == 0 && v6.detectedId == Int(1)
    ensures Apply(v6, users, DelayTimer) == Some(v7)
    ensures v7.machine.current == Standby
    ensures v7.relayRequests == [Int(1)] && !v7.detecting && !v7.timerActive
    ensures v7.standbyShots == 0 && v7.detectedId == Int(1)
    ensures WorkingStart(v7, users).machine.current == FingerprintOk
  {
    v7 := DelayFired(v6, users);
    assert v7 == Enter(v6.(timerActive := false), users, Standby, None).(pending := None);
  }

  class Controller {
    const machine: StateMachine
    const indicator: StepIndicator
    const mapper: UserMapper
    var pending: Option<Pending>
    /** `state_delay_timer.isActive()` and the interval it was started with. */
    var timerActive: bool
    var interval: nat
    var standbyShots: nat
    var detectedId: Val
    var detectedName: Val
    /** The medication detector is running. */
    var detecting: bool
    var relayRequests: seq<Val>

    function Snapshot(): UiState
      reads this, machine, indicator
    {
      UiState(machine.Snapshot(), indicator.currentStep, pending, timerActive, interval,
              standbyShots, detectedId, detectedName, detecting, relayRequests)
    }

    ghost predicate Valid()
      reads this, machine, indicator
    {
      machine.Valid() && Inv(Snapshot())
    }

    /** The window is built around a fresh state machine and registers its
        state-change handler with it. */
    constructor(sm: StateMachine, users: UserMapper)
      requires sm.Valid() && sm.Snapshot() == Initial()
      modifies sm
      ensures machine == sm && mapper == users
      ensures Valid() && Snapshot() == Start()
    {
      machine := sm;
      mapper := users;
      indicator := new StepIndicator();
      pending := None;
      timerActive := false;
      interval := 0;
      standbyShots := 0;
      detectedId := Null;
      detectedName := Null;
      detecting := false;
      relayRequests := [];
      new;
      machine.RegisterStateChangeCallback(UiCallback);
    }

    method StartTimer(ms: nat)
      modifies this
      ensures timerActive && interval == ms
      ensures pending == old(pending) && standbyShots == old(standbyShots)
      ensures detectedId == old(detectedId) && detectedName == old(detectedName)
      ensures detecting == old(detecting) && relayRequests == old(relayRequests)
    {
      timerActive := true;
      interval := ms;
    }

    /** `state_machine.set_state(s, data)`; the machine calls back `OnStateChanged`. */
    method ChangeState(s: SystemState, data: Option<Payload>)
      requires Valid()
      modifies this, machine, indicator
      ensures Valid()
      ensures Snapshot() == Enter(old(Snapshot()), mapper.users, s, data)
      decreases Rank(s), 2
    {
      var before := machine.current;
      machine.SetState(s, data);
      if s != before {
        OnStateChanged(s, data);
      }
    }

    /** `_on_state_changed`: the screen of the new state. */
    method OnStateChanged(s: SystemState, data: Option<Payload>)
      requires Valid()
      modifies this, machine, indicator
      ensures Valid()
      ensures Snapshot() == Show(old(Snapshot()), mapper.users, s, data)
      decreases Rank(s), 1
    {
      match s
      case Standby => ShowStandbyScreen();
      case Fingerprint => ShowFingerprintScreen();
      case FingerprintOk => ShowFingerprintOkScreen(data);
      case VitalSigns => ShowVitalSignsScreen();
      case VitalSignsOk => ShowVitalSignsOkScreen(data);
      case Medication => ShowMedicationScreen(data);
      case MedicationOk => ShowMedicationOkScreen();
      case Complete => ShowCompleteScreen();
    }

    /** `_show_standby_screen` */
    method ShowStandbyScreen()
      requires Valid()
      modifies indicator
      ensures Valid()
      ensures Snapshot() == Show(old(Snapshot()), mapper.users, Standby, None)
    {
      indicator.SetCurrentStep(0);
    }

    /** `_show_fingerprint_screen` */
    method ShowFingerprintScreen()
      requires Valid()
      modifies indicator
      ensures Valid()
      ensures Snapshot() == Show(old(Snapshot()), mapper.users, Fingerprint, None)
    {
      indicator.SetCurrentStep(0);
    }

    /** `_show_fingerprint_ok_screen`: reading the greeting from absent data
        raises before anything changes. */
    method ShowFingerprintOkScreen(data: Option<Payload>)
      requires Valid()
      modifies this, indicator
      ensures Valid()
      ensures Snapshot() == Show(old(Snapshot()), mapper.users, FingerprintOk, data)
    {
      if data.Some? {
        indicator.SetCurrentStep(1);
        pending := Some(Pending(VitalSigns, None));
        StartTimer(2000);
      }
    }

    /** `_show_vital_signs_screen` */
    method ShowVitalSignsScreen()
      requires Valid()
      modifies indicator
      ensures Valid()
      ensures Snapshot() == Show(old(Snapshot()), mapper.users, VitalSigns, None)
    {
      indicator.SetCurrentStep(2);
    }

    /** `_show_vital_signs_ok_screen`: a truthy id arms the medication step
        with the user's relay; otherwise a return to STANDBY is scheduled
        that nothing cancels. */
    method ShowVitalSignsOkScreen(data: Option<Payload>)
      requires Valid()
      modifies this
      ensures Valid()
      ensures Snapshot() == Show(old(Snapshot()), mapper.users, VitalSignsOk, data)
    {
      if data.Some? {
        var id := Get(data.value, "fingerprint_id");
        if Truthy(id) {
          var relay := mapper.GetUserRelay(id);
          pending := Some(Pending(Medication, Some(map["relay_num" := relay, "fingerprint_id" := id])));
          StartTimer(2000);
        } else {
          standbyShots := standbyShots + 1;
        }
      }
    }

    /** `_show_medication_screen`: a relay given as text makes
        `control_relay` raise before the detector starts. */
    method ShowMedicationScreen(data: Option<Payload>)
      requires Valid()
      modifies this, indicator
      ensures Valid()
      ensures Snapshot() == Show(old(Snapshot()), mapper.users, Medication, data)
    {
      if data.Some? {
        indicator.SetCurrentStep(3);
        var relay := Get(data.value, "relay_num");
        if Truthy(relay) && relay.Str? {
          return;
        }
        if Truthy(relay) {
          relayRequests := relayRequests + [relay];
        }
        detecting := true;
      }
    }

    /** `_show_medication_ok_screen`: stop the detector and go straight back
        to STANDBY. */
    method ShowMedicationOkScreen()
      requires Valid()
      modifies this, machine, indicator
      ensures Valid()
      ensures Snapshot() == Show(old(Snapshot()), mapper.users, MedicationOk, None)
      decreases Rank(MedicationOk), 0
    {
      detecting := false;
      ChangeState(Standby, None);
    }

    /** `_show_complete_screen`, with the return to STANDBY that the
        COMPLETE state arms. */
    method ShowCompleteScreen()
      requires Valid()
      modifies this, indicator
      ensures Valid()
      ensures Snapshot() == Show(old(Snapshot()), mapper.users, Complete, None)
    {
      indicator.SetCurrentStep(0);
      pending := Some(Pending(Standby, None));
      StartTimer(3000);
    }

    /** `_do_detect_user` */
    method DoDetectUser(id: Val)
      requires Valid()
      modifies this, machine, indicator
      ensures Valid()
      ensures Snapshot() == DetectUser(old(Snapshot()), mapper.users, id)
    {
      if Truthy(id) {
        var name := mapper.GetUserName(id);
        detectedId := id;
        detectedName := name;
        ChangeState(FingerprintOk, Some(map["fingerprint_id" := id, "user_name" := name]));
      }
    }

    /** `_do_working_start` */
    method DoWorkingStart()
      requires Valid()
      modifies this, machine, indicator
      ensures Valid()
      ensures Snapshot() == WorkingStart(old(Snapshot()), mapper.users)
    {
      var s := machine.GetState();
      if s == FingerprintOk {
      } else if s == Standby || s == Fingerprint {
        if Truthy(detectedId) {
          ChangeState(FingerprintOk, Some(map["fingerprint_id" := detectedId, "user_name" := detectedName]));
        } else if s == Standby {
          ChangeState(Fingerprint, None);
        }
      }
    }

    /** `_do_working_status` */
    method DoWorkingStatus()
      requires Valid()
      modifies this, machine, indicator
      ensures Valid()
      ensures Snapshot() == WorkingStatus(old(Snapshot()), mapper.users)
    {
      var s := machine.GetState();
      if s == Fingerprint || s == FingerprintOk {
        if timerActive {
          timerActive := false;
        }
        ChangeState(VitalSigns, None);
      }
    }

    /** `_do_working_error`; the kind of error only picks the message shown. */
    method DoWorkingError(error: DataParser.ErrorKind)
      requires Valid()
      modifies this, machine, indicator
      ensures Valid()
      ensures Snapshot() == WorkingError(old(Snapshot()), mapper.users)
    {
      ChangeState(Standby, None);
    }

    /** `_do_working_final` */
    method DoWorkingFinal(data: Payload)
      requires Valid()
      modifies this, machine, indicator
      ensures Valid()
      ensures Snapshot() == WorkingFinal(old(Snapshot()), mapper.users, data)
    {
      var id := Get(data, "fingerprint_id");
      var name := mapper.GetUserName(id);
      ChangeState(VitalSignsOk, Some(map["fingerprint_id" := id, "user_name" := name] + data));
    }

    /** `_handle_medication_detected` */
    method HandleMedicationDetected()
      requires Valid()
      modifies this, machine, indicator
      ensures Valid()
      ensures Snapshot() == MedicationHandled(old(Snapshot()), mapper.users)
    {
      detecting := false;
      var id, name := Null, Null;
      if Truthy(detectedId) {
        id, name := detectedId, detectedName;
      }
      ChangeState(Complete, Some(map["fingerprint_id" := id, "user_name" := name]));
    }

    /** `_handle_medication_timeout`: the same steps as a detection. */
    method HandleMedicationTimeout()
      requires Valid()
      modifies this, machine, indicator
      ensures Valid()
      ensures Snapshot() == MedicationHandled(old(Snapshot()), mapper.users)
    {
      HandleMedicationDetected();
    }

    /** The delay timer fires (it is single-shot, so it stops) and runs
        `_handle_state_delay`. */
    method HandleStateDelay()
      requires Valid() && timerActive
      modifies this, machine, indicator
      ensures Valid()
      ensures Snapshot() == DelayFired(old(Snapshot()), mapper.users)
    {
      timerActive := false;
      if pending.Some? {
        var p := pending.value;
        ChangeState(p.state, p.data);
        pending := None;
      }
    }

    /** A three-second return to STANDBY armed by the VITAL_SIGNS_OK screen fires. */
    method FireStandbyShot()
      requires Valid() && standbyShots > 0
      modifies this, machine, indicator
      ensures Valid()
      ensures Snapshot() == StandbyShotFired(old(Snapshot()), mapper.users)
    {
      standbyShots := standbyShots - 1;
      ChangeState(Standby, None);
    }
  }
}
