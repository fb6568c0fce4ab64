/** The Kubernetes Node as the controller sees it: annotations and a list of taints, first as a value
    with the functions that say what each mutation means, then as the object that is mutated. */
module Nodes {
  import opened Options
  import opened Strings
  import opened Decimal
  import opened Health

  /** Annotation keys. The constructors stand for the distinct key strings the controller uses;
      `Foreign` for every other key. */
  datatype Key =
    | HealthState
    | HealthSource
    | HealthReason
    | HealthDevice
    | HealthObservedAt
    | RecoveryStartedAt
    | Managed
    | InjectedFault
    | InjectedFaultDevice
    | RecoveryConfirmed
    | Foreign(name: string)

  /** The keys only the controller writes. */
  const OWN_KEYS: set<Key> :=
    {HealthState, HealthSource, HealthReason, HealthDevice, HealthObservedAt, RecoveryStartedAt, Managed}

  /** The keys the annotation source reads, whose change wakes the controller up. */
  const WATCHED_KEYS: set<Key> := {InjectedFault, InjectedFaultDevice, RecoveryConfirmed}

  type Annotations = map<Key, string>

  datatype Taint = Taint(key: string, value: string, effect: string)

  const DEGRADED_TAINT: Taint := Taint("gpu-orch.dev/hardware-degraded", "true", "NoSchedule")

  datatype NodeView = NodeView(annotations: Annotations, taints: seq<Taint>)

  /** Reading a Go map: a missing key reads as the empty string. */
  function Read(a: Annotations, key: Key): string {
    if key in a then a[key] else ""
  }

  function IsManaged(a: Annotations): bool {
    Read(a, Managed) == "true"
  }

  /** The formatting of times in annotations. */
  datatype TimeFormat = TimeFormat(format: int -> string, parse: string -> Option<int>)

  /** `annotationTime` applied to a value: blank or malformed values read as none. */
  function ReadTime(tf: TimeFormat, value: string): Option<int> {
    var trimmed := TrimSpace(value);
    if trimmed == "" then None else tf.parse(trimmed)
  }

  function AnnotationTime(tf: TimeFormat, a: Annotations, key: Key): Option<int> {
    ReadTime(tf, Read(a, key))
  }

  /** A formatted time is read back as the same instant (RFC 3339, section 5.6). */
  ghost predicate RoundTrips(tf: TimeFormat) {
    forall t: int :: ReadTime(tf, tf.format(t)) == Some(t)
  }

  /** White space around a recorded time does not matter, and nothing else is a missing time. */
  lemma PaddedTimeReads(tf: TimeFormat, left: string, text: string, right: string)
    requires (forall c :: c in left ==> IsSpace(c)) && (forall c :: c in right ==> IsSpace(c))
    requires text != "" ==> !IsSpace(text[0]) && !IsSpace(text[|text| - 1])
    ensures ReadTime(tf, left + text + right) == if text == "" then None else tf.parse(text)
  {
    TrimOfPadded(left, text, right);
  }

  /** Such formats exist; printing the nanoseconds in decimal is one. */
  lemma DecimalTimesRoundTrip()
    ensures RoundTrips(TimeFormat(ShowInt, ReadInt))
  {
    var tf := TimeFormat(ShowInt, ReadInt);
    forall t: int
      ensures ReadTime(tf, tf.format(t)) == Some(t)
    {
      ReadShownInt(t);
      var text := ShowInt(t);
      assert text != "" && !IsSpace(text[0]) && !IsSpace(text[|text| - 1]);
    }
  }

  // Taints.

  function HasDegraded(taints: seq<Taint>): bool {
    DEGRADED_TAINT in taints
  }

  function WithDegraded(taints: seq<Taint>): seq<Taint> {
    if HasDegraded(taints) then taints else taints + [DEGRADED_TAINT]
  }

  /** The other taints, in their order. */
  function WithoutDegraded(taints: seq<Taint>): seq<Taint> {
    if taints == [] then []
    else
      var rest := WithoutDegraded(taints[..|taints| - 1]);
      var last := taints[|taints| - 1];
      if last == DEGRADED_TAINT then rest else rest + [last]
  }

  lemma TakeOneMore(taints: seq<Taint>, i: nat)
    requires i < |taints|
    ensures HasDegraded(taints[..i + 1]) == (HasDegraded(taints[..i]) || taints[i] == DEGRADED_TAINT)
    ensures WithoutDegraded(taints[..i + 1]) ==
      WithoutDegraded(taints[..i]) + (if taints[i] == DEGRADED_TAINT then [] else [taints[i]])
  {
    assert taints[..i + 1][..i] == taints[..i] && taints[..i + 1] == taints[..i] + [taints[i]];
  }

  lemma {:induction false} WithoutDegradedFilters(taints: seq<Taint>)
    ensures !HasDegraded(WithoutDegraded(taints))
    ensures !HasDegraded(taints) ==> WithoutDegraded(taints) == taints
    ensures forall t :: t != DEGRADED_TAINT ==> multiset(WithoutDegraded(taints))[t] == multiset(taints)[t]
  {
    if taints != [] {
      var rest, last := taints[..|taints| - 1], taints[|taints| - 1];
      WithoutDegradedFilters(rest);
      assert taints == rest + [last];
    }
  }

  /** Adding the taint leaves the others alone. */
  lemma WithoutDegradedOfAdded(taints: seq<Taint>)
    ensures WithoutDegraded(taints + [DEGRADED_TAINT]) == WithoutDegraded(taints)
  {
    var more := taints + [DEGRADED_TAINT];
    assert more[..|more| - 1] == taints;
  }

  // Annotations.

  /** `setAnnotation`: writing the value that is already read, even from a missing key, does nothing. */
  function Set(a: Annotations, key: Key, value: string): Annotations {
    if Read(a, key) == value then a else a[key := value]
  }

  lemma SetReads(a: Annotations, key: Key, value: string)
    ensures forall k :: Read(Set(a, key, value), k) == if k == key then value else Read(a, k)
    ensures forall k :: k != key ==> (k in Set(a, key, value) <==> k in a)
  {
  }

  /** `a` and `b` agree on every key outside `touched`. */
  ghost predicate AgreeOutside(a: Annotations, b: Annotations, touched: set<Key>) {
    forall k :: k !in touched ==> (k in a <==> k in b) && (k in a ==> a[k] == b[k])
  }

  /** Changing a key that was untouched so far cannot cancel an earlier change. */
  lemma ChangesDoNotCancel(start: Annotations, a: Annotations, b: Annotations, touched: set<Key>, key: Key)
    requires AgreeOutside(start, a, touched) && AgreeOutside(a, b, {key}) && key !in touched
    ensures AgreeOutside(start, b, touched + {key})
    ensures b != start <==> b != a || a != start
  {
    assert b == start ==> a == b;
  }

  /** The five annotations every pass writes. */
  function ObservationAnnotations(tf: TimeFormat, a: Annotations, state: State, o: Observation): Annotations {
    var a1 := Set(a, HealthState, Text(state));
    var a2 := Set(a1, HealthSource, o.source);
    var a3 := Set(a2, HealthReason, o.reason);
    var a4 := Set(a3, HealthDevice, o.device);
    Set(a4, HealthObservedAt, tf.format(o.observedAt))
  }

  /** What `applyHealthAnnotations` writes. */
  function HealthAnnotations(tf: TimeFormat, a: Annotations, d: Decision, o: Observation): Annotations {
    var a5 := ObservationAnnotations(tf, a, d.state, o);
    if d.recoveryStartedAt.Some? then Set(a5, RecoveryStartedAt, tf.format(d.recoveryStartedAt.value))
    else a5 - {RecoveryStartedAt}
  }

  /** The keys `applyHealthAnnotations` may touch. */
  const HEALTH_KEYS: set<Key> := OWN_KEYS - {Managed}

  lemma SetAgrees(start: Annotations, a: Annotations, key: Key, value: string)
    requires AgreeOutside(start, a, HEALTH_KEYS) && key in HEALTH_KEYS
    ensures AgreeOutside(start, Set(a, key, value), HEALTH_KEYS)
  {
  }

  lemma HealthAnnotationsAgree(tf: TimeFormat, a: Annotations, d: Decision, o: Observation)
    ensures AgreeOutside(a, HealthAnnotations(tf, a, d, o), HEALTH_KEYS)
  {
    SetAgrees(a, a, HealthState, Text(d.state));
    var a1 := Set(a, HealthState, Text(d.state));
    SetAgrees(a, a1, HealthSource, o.source);
    var a2 := Set(a1, HealthSource, o.source);
    SetAgrees(a, a2, HealthReason, o.reason);
    var a3 := Set(a2, HealthReason, o.reason);
    SetAgrees(a, a3, HealthDevice, o.device);
    var a4 := Set(a3, HealthDevice, o.device);
    SetAgrees(a, a4, HealthObservedAt, tf.format(o.observedAt));
    var a5 := Set(a4, HealthObservedAt, tf.format(o.observedAt));
    if d.recoveryStartedAt.Some? {
      SetAgrees(a, a5, RecoveryStartedAt, tf.format(d.recoveryStartedAt.value));
    }
  }

  lemma ObservationAnnotationsRead(tf: TimeFormat, a: Annotations, state: State, o: Observation)
    ensures var b := ObservationAnnotations(tf, a, state, o);
      Read(b, HealthState) == Text(state) && Read(b, HealthSource) == o.source &&
      Read(b, HealthReason) == o.reason && Read(b, HealthDevice) == o.device &&
      Read(b, HealthObservedAt) == tf.format(o.observedAt)
  {
    SetReads(a, HealthState, Text(state));
    var a1 := Set(a, HealthState, Text(state));
    SetReads(a1, HealthSource, o.source);
    var a2 := Set(a1, HealthSource, o.source);
    SetReads(a2, HealthReason, o.reason);
    var a3 := Set(a2, HealthReason, o.reason);
    SetReads(a3, HealthDevice, o.device);
    var a4 := Set(a3, HealthDevice, o.device);
    SetReads(a4, HealthObservedAt, tf.format(o.observedAt));
  }

  /** The annotations say exactly what `d` and `o` say. */
  ghost predicate Carries(tf: TimeFormat, a: Annotations, d: Decision, o: Observation) {
    Read(a, HealthState) == Text(d.state) && Read(a, HealthSource) == o.source &&
    Read(a, HealthReason) == o.reason && Read(a, HealthDevice) == o.device &&
    Read(a, HealthObservedAt) == tf.format(o.observedAt) &&
    Read(a, RecoveryStartedAt) ==
      (if d.recoveryStartedAt.Some? then tf.format(d.recoveryStartedAt.value) else "") &&
    (d.recoveryStartedAt.None? ==> RecoveryStartedAt !in a)
  }

  /** What is read from the annotations after the health annotations were applied. */
  lemma HealthAnnotationsRead(tf: TimeFormat, a: Annotations, d: Decision, o: Observation)
    ensures Carries(tf, HealthAnnotations(tf, a, d, o), d, o)
  {
    ObservationAnnotationsRead(tf, a, d.state, o);
    var a5 := ObservationAnnotations(tf, a, d.state, o);
    if d.recoveryStartedAt.Some? {
      SetReads(a5, RecoveryStartedAt, tf.format(d.recoveryStartedAt.value));
    }
  }

  /** Applying annotations that are there already changes nothing. */
  lemma HealthAnnotationsStable(tf: TimeFormat, a: Annotations, d: Decision, o: Observation)
    requires Carries(tf, a, d, o)
    ensures HealthAnnotations(tf, a, d, o) == a
  {
    assert ObservationAnnotations(tf, a, d.state, o) == a;
    assert d.recoveryStartedAt.None? ==> a - {RecoveryStartedAt} == a;
  }

  /** `isolateNode`. */
  function Isolate(n: NodeView): NodeView {
    if HasDegraded(n.taints) then n
    else NodeView(n.annotations[Managed := "true"], WithDegraded(n.taints))
  }

  /** `recoverNode`. */
  function Recover(n: NodeView): NodeView {
    if !IsManaged(n.annotations) then n
    else NodeView(n.annotations - {Managed}, WithoutDegraded(n.taints))
  }

  /** Recovery undoes isolation exactly when the node carries no ownership marker, or carries one that
      does not mean owned together with somebody else's taint. */
  lemma RecoverUndoesIsolateExactly(n: NodeView)
    ensures Recover(Isolate(n)) == n <==>
      Managed !in n.annotations ||
      (Taint("gpu-orch.dev/hardware-degraded", "true", "NoSchedule") in n.taints && n.annotations[Managed] != "true")
  {
    if !HasDegraded(n.taints) {
      WithoutDegradedOfAdded(n.taints);
      WithoutDegradedFilters(n.taints);
      var back := Recover(Isolate(n));
      assert back.taints == n.taints;
      assert Managed !in back.annotations;
      if Managed !in n.annotations {
        assert back.annotations == n.annotations;
      }
    } else if IsManaged(n.annotations) {
      assert Managed !in Recover(n).annotations;
    }
  }

  /** The object: an annotation map and a slice of a taint buffer, both mutated in place. */
  class Node {
    var annotations: Annotations
    var buffer: array<Taint>
    var count: nat

    ghost predicate Valid()
      reads this
    {
      count <= buffer.Length
    }

    ghost function View(): NodeView
      reads this, buffer
      requires Valid()
    {
      NodeView(annotations, buffer[..count])
    }

    constructor (view: NodeView)
      ensures Valid() && fresh(buffer) && View() == view
    {
      annotations := view.annotations;
      var n := |view.taints|;
      buffer := new Taint[n](i requires 0 <= i < n => view.taints[i]);
      count := n;
    }

    method Snapshot() returns (view: NodeView)
      requires Valid()
      ensures view == View()
    {
      view := NodeView(annotations, buffer[..count]);
    }

    /** `setAnnotation`. */
    method SetAnnotation(key: Key, value: string) returns (changed: bool)
      modifies this`annotations
      ensures annotations == Set(old(annotations), key, value)
      ensures changed <==> annotations != old(annotations)
    {
      if Read(annotations, key) == value {
        return false;
      }
      annotations := annotations[key := value];
      assert Read(annotations, key) != Read(old(annotations), key);
      return true;
    }

    /** `changed = setAnnotation(...) || changed`, for a key not written before in this pass. */
    method Also(ghost start: Annotations, ghost touched: set<Key>, already: bool, key: Key, value: string)
        returns (changed: bool)
      requires AgreeOutside(start, annotations, touched) && key !in touched
      requires already <==> annotations != start
      modifies this`annotations
      ensures annotations == Set(old(annotations), key, value)
      ensures AgreeOutside(start, annotations, touched + {key})
      ensures changed <==> annotations != start
    {
      var c := SetAnnotation(key, value);
      changed := c || already;
      ChangesDoNotCancel(start, old(annotations), annotations, touched, key);
    }

    /** The annotations written whatever the decision. */
    method ApplyObservation(tf: TimeFormat, state: State, o: Observation) returns (changed: bool)
      modifies this`annotations
      ensures annotations == ObservationAnnotations(tf, old(annotations), state, o)
      ensures AgreeOutside(old(annotations), annotations, HEALTH_KEYS - {RecoveryStartedAt})
      ensures changed <==> annotations != old(annotations)
    {
      ghost var a0 := annotations;
      changed := false;
      ghost var touched: set<Key> := {};
      changed := Also(a0, touched, changed, HealthState, Text(state));
      touched := touched + {HealthState};
      changed := Also(a0, touched, changed, HealthSource, o.source);
      touched := touched + {HealthSource};
      changed := Also(a0, touched, changed, HealthReason, o.reason);
      touched := touched + {HealthReason};
      changed := Also(a0, touched, changed, HealthDevice, o.device);
      touched := touched + {HealthDevice};
      changed := Also(a0, touched, changed, HealthObservedAt, tf.format(o.observedAt));
      assert touched + {HealthObservedAt} == HEALTH_KEYS - {RecoveryStartedAt};
    }

    /** `applyHealthAnnotations`. */
    method ApplyHealthAnnotations(tf: TimeFormat, d: Decision, o: Observation) returns (changed: bool)
      modifies this`annotations
      ensures annotations == HealthAnnotations(tf, old(annotations), d, o)
      ensures changed <==> annotations != old(annotations)
    {
      ghost var a0 := annotations;
      changed := ApplyObservation(tf, d.state, o);
      ghost var a5, touched := annotations, HEALTH_KEYS - {RecoveryStartedAt};
      if d.recoveryStartedAt.Some? {
        changed := Also(a0, touched, changed, RecoveryStartedAt, tf.format(d.recoveryStartedAt.value));
      } else if RecoveryStartedAt in annotations {
        annotations := annotations - {RecoveryStartedAt};
        changed := true;
        ChangesDoNotCancel(a0, a5, annotations, touched, RecoveryStartedAt);
      } else {
        assert annotations - {RecoveryStartedAt} == annotations;
      }
    }

    /** `ensureDegradedTaint`: look through the slice, then append, reusing spare capacity as Go's
        `append` does. */
    method EnsureDegradedTaint() returns (added: bool)
      requires Valid()
      modifies this`buffer, this`count, buffer
      ensures Valid() && (buffer == old(buffer) || fresh(buffer))
      ensures buffer[..count] == WithDegraded(old(buffer[..count]))
      ensures added <==> !HasDegraded(old(buffer[..count]))
    {
      var i := 0;
      while i < count
        invariant 0 <= i <= count && DEGRADED_TAINT !in buffer[..i]
      {
        if buffer[i] == DEGRADED_TAINT {
          assert buffer[..count][i] == DEGRADED_TAINT;
          return false;
        }
        i := i + 1;
      }
      if count == buffer.Length {
        var grown := new Taint[2 * count + 1](k requires 0 <= k < 2 * count + 1 reads this, buffer =>
          if k < count && k < buffer.Length then buffer[k] else DEGRADED_TAINT);
        assert grown[..count] == buffer[..count];
        buffer := grown;
      }
      buffer[count] := DEGRADED_TAINT;
      count := count + 1;
      return true;
    }

    /** `removeDegradedTaint`: compact the slice in its own backing array while iterating over it. */
    method RemoveDegradedTaint() returns (removed: bool)
      requires Valid()
      modifies this`count, buffer
      ensures Valid()
      ensures buffer[..count] == WithoutDegraded(old(buffer[..count]))
      ensures removed <==> HasDegraded(old(buffer[..count]))
    {
      ghost var was := buffer[..count];
      var kept, i := 0, 0;
      removed := false;
      while i < count
        invariant 0 <= kept <= i <= count
        invariant count == old(count)
        invariant forall k :: i <= k < count ==> buffer[k] == was[k]
        invariant buffer[..kept] == WithoutDegraded(was[..i])
        invariant removed <==> HasDegraded(was[..i])
      {
        var taint := buffer[i];
        TakeOneMore(was, i);
        if taint == DEGRADED_TAINT {
          removed := true;
        } else {
          buffer[kept] := taint;
          kept := kept + 1;
          assert buffer[..kept] == buffer[..kept - 1] + [taint];
        }
        i := i + 1;
      }
      assert was[..i] == was;
      count := kept;
    }

    /** `isolateNode`. */
    method IsolateNode() returns (added: bool)
      requires Valid()
      modifies this, buffer
      ensures Valid() && (buffer == old(buffer) || fresh(buffer))
      ensures View() == Isolate(old(View()))
      ensures added <==> !HasDegraded(old(buffer[..count]))
    {
      added := EnsureDegradedTaint();
      if added {
        annotations := annotations[Managed := "true"];
      }
    }

    /** `recoverNode`. */
    method RecoverNode() returns (changed: bool, removed: bool)
      requires Valid()
      modifies this, buffer
      ensures Valid() && buffer == old(buffer)
      ensures View() == Recover(old(View()))
      ensures changed <==> IsManaged(old(annotations))
      ensures removed <==> IsManaged(old(annotations)) && HasDegraded(old(buffer[..count]))
    {
      if !IsManaged(annotations) {
        return false, false;
      }
      removed := RemoveDegradedTaint();
      annotations := annotations - {Managed};
      changed := true;
    }
  }
}
