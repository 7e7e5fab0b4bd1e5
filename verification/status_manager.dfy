/** neurosky/_status_manager.py: the registry of movement identifiers
    (name, classifier target, next recording label) and the status subject.
    Identifiers are Python dictionaries shared by reference between the
    registry and its callers; a `Ref` says which object a caller holds. */
module StatusManager {
  import opened Wrappers
  import opened Channels
  import D = Decimal

  datatype Identifier = Identifier(name: string, target: int, labelIndex: nat)

  datatype Manager = Manager(identifiers: seq<Identifier>, status: Channel<string>)

  /** The object a caller passes: the registry's own entry at an index (the
      dictionary `add_identifier` returned), or a separate dictionary. */
  datatype Ref = Entry(index: nat) | Loose(identifier: Identifier)

  function Init(): (m: Manager)
    ensures m.identifiers == [] && m.status == Open()
  {
    Manager([], Open())
  }

  /** Targets are registration positions. */
  ghost predicate TargetsByOrder(m: Manager) {
    forall i :: 0 <= i < |m.identifiers| ==> m.identifiers[i].target == i
  }

  /** `add_identifier(name)`: the target is the number of identifiers already
      registered and the label index half the number of files in the data
      directory (`fileCount`, read from disk by the source). */
  function AddIdentifier(m: Manager, name: string, fileCount: nat): (r: (Manager, Identifier))
    ensures r.1 == Identifier(name, |m.identifiers|, fileCount / 2)
    ensures r.0.identifiers == m.identifiers + [r.1] && r.0.status == m.status
    ensures TargetsByOrder(m) ==> TargetsByOrder(r.0)
  {
    var id := Identifier(name, |m.identifiers|, fileCount / 2);
    (m.(identifiers := m.identifiers + [id]), id)
  }

  /** Registering in order gives pairwise distinct targets. */
  lemma DistinctTargets(m: Manager, i: int, j: int)
    requires TargetsByOrder(m)
    requires 0 <= i < |m.identifiers| && 0 <= j < |m.identifiers| && i != j
    ensures m.identifiers[i].target != m.identifiers[j].target
  {
  }

  /** The recording label `name_k`. */
  function Label(name: string, k: nat): string {
    name + "_" + D.NatToString(k)
  }

  /** The label index written in `s` after `name_`, if any. */
  function ParseLabel(name: string, s: string): (r: Option<nat>)
    ensures r.Some? ==> |s| > |name| + 1 && s[..|name| + 1] == name + "_"
  {
    if |s| > |name| + 1 && s[..|name| + 1] == name + "_" then D.ParseNat(s[|name| + 1..]) else None
  }

  /** A label reads back as its index, so one name never gets the same
      label for two indices. */
  lemma LabelRoundTrip(name: string, k: nat)
    ensures ParseLabel(name, Label(name, k)) == Some(k)
  {
    var s := Label(name, k);
    assert s[..|name| + 1] == name + "_";
    assert s[|name| + 1..] == D.NatToString(k);
    D.ParseNatToString(k);
  }

  lemma LabelsDistinct(name: string, j: nat, k: nat)
    requires j != k
    ensures Label(name, j) != Label(name, k)
  {
    LabelRoundTrip(name, j);
    LabelRoundTrip(name, k);
  }

  /** Whether some registered identifier carries `name`. */
  predicate IsRegistered(m: Manager, name: string) {
    exists i :: 0 <= i < |m.identifiers| && m.identifiers[i].name == name
  }

  /** The dictionary a reference denotes, if it exists. */
  function Deref(m: Manager, ref: Ref): Option<Identifier> {
    match ref
    case Entry(i) => if i < |m.identifiers| then Some(m.identifiers[i]) else None
    case Loose(id) => Some(id)
  }

  datatype NextOutcome = NextOutcome(manager: Manager, passed: Ref, text: Option<string>)

  /** `next_label(identifier)`: when some registered identifier has the same
      name, the dictionary passed in gets its label index bumped and the new
      label is returned; otherwise None and nothing changes. The bump lands
      in the registry exactly when the caller passed the registry's own
      entry. */
  function NextLabel(m: Manager, ref: Ref): (r: NextOutcome)
    ensures r.text.Some? <==> Deref(m, ref).Some? && IsRegistered(m, Deref(m, ref).value.name)
    ensures r.text.None? ==> r == NextOutcome(m, ref, None)
    ensures r.text.Some? ==>
      var before := Deref(m, ref).value;
      && Deref(r.manager, r.passed) == Some(before.(labelIndex := before.labelIndex + 1))
      && r.text.value == Label(before.name, before.labelIndex + 1)
    ensures |r.manager.identifiers| == |m.identifiers| && r.manager.status == m.status
    ensures forall i :: 0 <= i < |m.identifiers| ==>
      r.manager.identifiers[i].(labelIndex := m.identifiers[i].labelIndex) == m.identifiers[i]
    ensures ref.Loose? ==> r.manager == m
    ensures TargetsByOrder(m) ==> TargetsByOrder(r.manager)
  {
    match Deref(m, ref)
    case None => NextOutcome(m, ref, None)
    case Some(id) =>
      if !IsRegistered(m, id.name) then NextOutcome(m, ref, None)
      else
        var bumped := id.(labelIndex := id.labelIndex + 1);
        var text := Some(Label(id.name, bumped.labelIndex));
        match ref
        case Entry(i) => NextOutcome(m.(identifiers := m.identifiers[i := bumped]), ref, text)
        case Loose(_) => NextOutcome(m, Loose(bumped), text)
  }

  /** Two successive labels for a registered identifier differ and count up
      by one. */
  lemma NextLabelsCountUp(m: Manager, i: nat)
    requires i < |m.identifiers|
    ensures var r1 := NextLabel(m, Entry(i));
      var r2 := NextLabel(r1.manager, Entry(i));
      && r1.text == Some(Label(m.identifiers[i].name, m.identifiers[i].labelIndex + 1))
      && r2.text == Some(Label(m.identifiers[i].name, m.identifiers[i].labelIndex + 2))
      && r1.text != r2.text
  {
    var r1 := NextLabel(m, Entry(i));
    assert IsRegistered(r1.manager, m.identifiers[i].name) by {
      assert r1.manager.identifiers[i].name == m.identifiers[i].name;
    }
    LabelsDistinct(m.identifiers[i].name, m.identifiers[i].labelIndex + 1, m.identifiers[i].labelIndex + 2);
  }

  /** `update_status(s)`: publishes `s`; raises once the subject is disposed. */
  function UpdateStatus(m: Manager, s: string): (r: Option<Manager>)
    ensures r.Some? <==> !m.status.disposed
    ensures r.Some? ==> r.value.status.log == m.status.log + [s] && r.value.identifiers == m.identifiers
  {
    match Publish(m.status, s)
    case None => None
    case Some(c) => Some(m.(status := c))
  }

  /** One match in `predicted_identifier`: the name printed and the beep
      pitch (500 Hz for 'right_arm', 1000 Hz otherwise). */
  datatype Alert = Alert(name: string, pitch: nat)

  /** `predicted_identifier(prediction)`: an alert per registered identifier
      whose target equals the prediction, in registration order; the printed
      count is the number of alerts. */
  function Alerts(ids: seq<Identifier>, prediction: int): (r: seq<Alert>)
    ensures |r| <= |ids|
    decreases |ids|
  {
    if ids == [] then []
    else
      var rest := Alerts(ids[1..], prediction);
      if ids[0].target == prediction then
        [Alert(ids[0].name, if ids[0].name == "right_arm" then 500 else 1000)] + rest
      else rest
  }

  /** With targets numbered consecutively from `base`, a prediction matches
      exactly the identifier at its offset, or none at all. */
  lemma {:induction false} AlertsFromBase(ids: seq<Identifier>, base: int, prediction: int)
    requires forall i :: 0 <= i < |ids| ==> ids[i].target == base + i
    ensures |Alerts(ids, prediction)| == if base <= prediction < base + |ids| then 1 else 0
    ensures base <= prediction < base + |ids| ==> Alerts(ids, prediction)[0].name == ids[prediction - base].name
    decreases |ids|
  {
    if ids != [] {
      AlertsFromBase(ids[1..], base + 1, prediction);
    }
  }

  /** In a registry built by `add_identifier`, every prediction announces at
      most one identifier: the one registered at that position. */
  lemma AtMostOneMatch(m: Manager, prediction: int)
    requires TargetsByOrder(m)
    ensures |Alerts(m.identifiers, prediction)| == if 0 <= prediction < |m.identifiers| then 1 else 0
    ensures 0 <= prediction < |m.identifiers| ==>
      Alerts(m.identifiers, prediction)[0].name == m.identifiers[prediction].name
  {
    AlertsFromBase(m.identifiers, 0, prediction);
  }

  /** `close()`: disposes the status subject. */
  function Close(m: Manager): (r: Manager)
    ensures r.status.disposed && r.status.log == m.status.log && r.identifiers == m.identifiers
  {
    m.(status := Dispose(m.status))
  }
}
