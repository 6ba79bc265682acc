/** The workflow state machine of the host UI: the current and previous
    state, five data slots, and observers notified on every real transition. */
module Workflow {
  import opened Values

  datatype SystemState =
    | Standby
    | Fingerprint
    | FingerprintOk
    | VitalSigns
    | VitalSignsOk
    | Medication
    | MedicationOk
    | Complete

  /** `current_data`: `None` is `None`/`Null`. The identity slots hold what
      `data.get(...)` returned, so any value, `Null` included. */
  datatype Slots = Slots(
    standbyData: Option<Payload>,
    fingerprintId: Val,
    userName: Val,
    vitalSignsData: Option<Payload>,
    finalData: Option<Payload>)

  const NoData := Slots(None, Null, Null, None, None)

  /** One call of an observer: which callback, with `(new, previous, data)`. */
  datatype Notice = Notice(callback: nat, newState: SystemState, previousState: SystemState, data: Option<Payload>)

  /** The whole state of a `StateMachine` object. */
  datatype Machine = Machine(
    current: SystemState,
    previous: Option<SystemState>,
    slots: Slots,
    callbacks: seq<nat>,
    notified: seq<Notice>)

  /** A freshly constructed machine. */
  function Initial(): Machine
  {
    Machine(Standby, None, NoData, [], [])
  }

  /** The slots after a transition into `s` carrying `data`: only truthy data
      is stored, and only into the slot of the target state. */
  function Store(slots: Slots, s: SystemState, data: Option<Payload>): (r: Slots)
    ensures r.standbyData != slots.standbyData ==> s == Standby && TruthyPayload(data) && r.standbyData == data
    ensures (r.fingerprintId, r.userName) != (slots.fingerprintId, slots.userName) ==>
      && s == FingerprintOk && TruthyPayload(data)
      && r.fingerprintId == Get(data.value, "fingerprint_id") && r.userName == Get(data.value, "user_name")
    ensures r.vitalSignsData != slots.vitalSignsData ==> s == VitalSigns && TruthyPayload(data) && r.vitalSignsData == data
    ensures r.finalData != slots.finalData ==> s == VitalSignsOk && TruthyPayload(data) && r.finalData == data
    ensures !TruthyPayload(data) ==> r == slots
    ensures TruthyPayload(data) && s == Standby ==> r.standbyData == data
    ensures TruthyPayload(data) && s == FingerprintOk ==>
      r.fingerprintId == Get(data.value, "fingerprint_id") && r.userName == Get(data.value, "user_name")
    ensures TruthyPayload(data) && s == VitalSigns ==> r.vitalSignsData == data
    ensures TruthyPayload(data) && s == VitalSignsOk ==> r.finalData == data
  {
    if !TruthyPayload(data) then slots
    else match s
      case Standby => slots.(standbyData := data)
      case FingerprintOk =>
        slots.(fingerprintId := Get(data.value, "fingerprint_id"), userName := Get(data.value, "user_name"))
      case VitalSigns => slots.(vitalSignsData := data)
      case VitalSignsOk => slots.(finalData := data)
      case _ => slots
  }

  /** The calls made to the observers, one per callback, in registration order. */
  function Notices(callbacks: seq<nat>, s: SystemState, p: SystemState, data: Option<Payload>): (r: seq<Notice>)
    ensures |r| == |callbacks|
    ensures forall i :: 0 <= i < |r| ==> r[i] == Notice(callbacks[i], s, p, data)
  {
    seq(|callbacks|, i requires 0 <= i < |callbacks| => Notice(callbacks[i], s, p, data))
  }

  /** `set_state(s, data)`: nothing at all when `s` is the current state;
      otherwise the old state becomes the previous one, the data is stored and
      every observer is called once. */
  function Set(m: Machine, s: SystemState, data: Option<Payload>): (r: Machine)
    ensures s == m.current ==> r == m
    ensures s != m.current ==>
      && r.current == s && r.previous == Some(m.current) && r.callbacks == m.callbacks
      && r.notified == m.notified + Notices(m.callbacks, s, m.current, data)
      && r.slots == Store(m.slots, s, data)
    ensures r.current == s && (Consistent(m) ==> Consistent(r))
  {
    if s == m.current then m
    else m.(current := s, previous := Some(m.current), slots := Store(m.slots, s, data),
            notified := m.notified + Notices(m.callbacks, s, m.current, data))
  }

  /** `reset()`: a transition to STANDBY without data, then every slot cleared. */
  function ResetMachine(m: Machine): (r: Machine)
    ensures r.current == Standby && r.slots == NoData && r.callbacks == m.callbacks
    ensures m.current == Standby ==> r.previous == m.previous && r.notified == m.notified
    ensures m.current != Standby ==>
      r.previous == Some(m.current) && r.notified == m.notified + Notices(m.callbacks, Standby, m.current, None)
  {
    Set(m, Standby, None).(slots := NoData)
  }

  /** The previous state is never the current one. */
  predicate Consistent(m: Machine)
  {
    m.previous != Some(m.current)
  }

  /** Repeating `set_state` with the same target does nothing, whatever data
      the repetition carries. */
  lemma SetIdempotent(m: Machine, s: SystemState, d: Option<Payload>, d': Option<Payload>)
    ensures Set(Set(m, s, d), s, d') == Set(m, s, d)
  {
  }

  /** `reset` twice is `reset` once. */
  lemma ResetIdempotent(m: Machine)
    ensures ResetMachine(ResetMachine(m)) == ResetMachine(m)
  {
  }

  /** One `set_state` call in a sequence of them. */
  datatype Step = Step(target: SystemState, data: Option<Payload>)

  function Run(m: Machine, steps: seq<Step>): (r: Machine)
    decreases |steps|
  {
    if steps == [] then m else Run(Set(m, steps[0].target, steps[0].data), steps[1..])
  }

  /** Every step whose target differs from the state before it. */
  function Transitions(m: Machine, steps: seq<Step>): nat
    decreases |steps|
  {
    if steps == [] then 0
    else (if steps[0].target != m.current then 1 else 0)
         + Transitions(Set(m, steps[0].target, steps[0].data), steps[1..])
  }

  /** Over a run of `set_state` calls, each real transition calls every
      observer exactly once and no callback is added or lost. */
  lemma {:induction false} RunNotices(m: Machine, steps: seq<Step>)
    ensures Run(m, steps).callbacks == m.callbacks
    ensures |Run(m, steps).notified| == |m.notified| + Transitions(m, steps) * |m.callbacks|
    decreases |steps|
  {
    if steps != [] {
      var m' := Set(m, steps[0].target, steps[0].data);
      RunNotices(m', steps[1..]);
      var t, c := Transitions(m', steps[1..]), |m.callbacks|;
      if steps[0].target == m.current {
        assert m' == m && Transitions(m, steps) == t;
      } else {
        assert Transitions(m, steps) == 1 + t;
        assert |m'.notified| == |m.notified| + c;
        assert (1 + t) * c == c + t * c;
      }
    }
  }

  /** A run only appends to the record of observer calls. */
  lemma {:induction false} RunKeepsNotices(m: Machine, steps: seq<Step>)
    ensures |m.notified| <= |Run(m, steps).notified|
    ensures Run(m, steps).notified[..|m.notified|] == m.notified
    decreases |steps|
  {
    if steps != [] {
      var m' := Set(m, steps[0].target, steps[0].data);
      RunKeepsNotices(m', steps[1..]);
      var r := Run(m', steps[1..]);
      assert m'.notified[..|m.notified|] == m.notified;
      assert r.notified[..|m'.notified|][..|m.notified|] == r.notified[..|m.notified|];
    }
  }

  /** The identity slots change only on a transition into FINGERPRINT_OK. */
  lemma {:induction false} RunKeepsIdentity(m: Machine, steps: seq<Step>)
    requires forall i :: 0 <= i < |steps| ==> steps[i].target != FingerprintOk
    ensures Run(m, steps).slots.fingerprintId == m.slots.fingerprintId
    ensures Run(m, steps).slots.userName == m.slots.userName
    decreases |steps|
  {
    if steps != [] {
      RunKeepsIdentity(Set(m, steps[0].target, steps[0].data), steps[1..]);
    }
  }

  /** Every state reached by a run is consistent. */
  lemma {:induction false} RunConsistent(m: Machine, steps: seq<Step>)
    requires Consistent(m)
    ensures Consistent(Run(m, steps))
    decreases |steps|
  {
    if steps != [] {
      RunConsistent(Set(m, steps[0].target, steps[0].data), steps[1..]);
    }
  }

  class StateMachine {
    var current: SystemState
    var previous: Option<SystemState>
    /** `current_data` */
    var data: Slots
    /** `state_change_callbacks`, as callback identifiers. */
    var callbacks: seq<nat>
    /** Every observer call made, in order. */
    var notified: seq<Notice>

    function Snapshot(): Machine
      reads this
    {
      Machine(current, previous, data, callbacks, notified)
    }

    ghost predicate Valid()
      reads this
    {
      Consistent(Snapshot())
    }

    constructor()
      ensures Valid() && Snapshot() == Initial()
    {
      current := Standby;
      previous := None;
      data := NoData;
      callbacks := [];
      notified := [];
    }

    /** `register_state_change_callback`: appended after the earlier ones. */
    method RegisterStateChangeCallback(callback: nat)
      requires Valid()
      modifies this
      ensures Valid()
      ensures Snapshot() == old(Snapshot()).(callbacks := old(callbacks) + [callback])
    {
      callbacks := callbacks + [callback];
    }

    /** `set_state`: an observer that raises is caught and the loop goes on,
        so each observer is called exactly once. */
    method SetState(s: SystemState, d: Option<Payload>)
      requires Valid()
      modifies this
      ensures Valid()
      ensures Snapshot() == Set(old(Snapshot()), s, d)
    {
      if s == current {
        return;
      }
      previous := Some(current);
      current := s;
      StoreData(s, d);
      ghost var p, stored := old(current), data;
      var i := 0;
      while i < |callbacks|
        invariant 0 <= i <= |callbacks|
        invariant current == s && previous == Some(p)
        invariant data == stored && callbacks == old(callbacks)
        invariant notified == old(notified) + Notices(callbacks[..i], s, p, d)
      {
        ghost var done := Notices(callbacks[..i], s, p, d);
        assert Notices(callbacks[..i + 1], s, p, d) == done + [Notice(callbacks[i], s, p, d)];
        AppendAssoc(old(notified), done, [Notice(callbacks[i], s, p, d)]);
        notified := notified + [Notice(callbacks[i], current, previous.value, d)];
        i := i + 1;
      }
      assert callbacks[..i] == callbacks;
    }

    /** The data update of `set_state`: truthy data goes into the slot of
        the new state. */
    method StoreData(s: SystemState, d: Option<Payload>)
      modifies this
      ensures data == Store(old(data), s, d)
      ensures current == old(current) && previous == old(previous)
      ensures callbacks == old(callbacks) && notified == old(notified)
    {
      if TruthyPayload(d) {
        if s == Standby {
          data := data.(standbyData := d);
        } else if s == FingerprintOk {
          data := data.(fingerprintId := Get(d.value, "fingerprint_id"), userName := Get(d.value, "user_name"));
        } else if s == VitalSigns {
          data := data.(vitalSignsData := d);
        } else if s == VitalSignsOk {
          data := data.(finalData := d);
        }
      }
    }

    /** `get_state` */
    method GetState() returns (s: SystemState)
      ensures s == current
    {
      s := current;
    }

    /** `get_previous_state` */
    method GetPreviousState() returns (p: Option<SystemState>)
      ensures p == previous
    {
      p := previous;
    }

    /** `reset` */
    method Reset()
      requires Valid()
      modifies this
      ensures Valid()
      ensures Snapshot() == ResetMachine(old(Snapshot()))
    {
      SetState(Standby, None);
      data := NoData;
    }
  }
}
