/**
 Connector registry and its refusal-first mode ladder (bdpay/connectors/registry.py).

 Every mode write goes through `Apply`, which also appends one row to the append-only mode-change log.
 The credential vault is an input: `vault` is the set of credential refs that resolve at the call.
 */
module Registry {
  import opened Common
  import opened Ordering

  datatype Mode = MANUAL_LOCAL | SIMULATOR | SANDBOX | PRODUCTION | DISABLED

  datatype Certification = NEVER_RUN | PASSED | FAILED | STALE

  datatype Registration = Registration(mode: Mode, previous: Option<Mode>, enabled: bool,
                                       certification: Certification, version: string,
                                       refs: map<Mode, seq<string>>)

  datatype ModeChange = ModeChange(id: string, from: Mode, to: Mode, approval: Option<string>)

  datatype Catalogue = Catalogue(rows: map<string, Registration>, changes: seq<ModeChange>)

  datatype Call =
    | Register(id: string, mode: Mode, protocolKnown: bool, certification: Certification,
               version: string, refs: map<Mode, seq<string>>)
    | SetCertification(id: string, certification: Certification)
    | BumpVersion(id: string, version: string)
    | Promote(id: string, approval: Option<string>, vault: set<string>)
    | Demote(id: string, to: Mode)
    | Disable(id: string)
    | ReEnable(id: string, vault: set<string>)
    | Sweep(vault: set<string>)

  datatype Reply = Done | UnknownConnector | TransitionDenied | Conflict | InvalidProtocol

  const EMPTY := Catalogue(map[], [])

  // ------------------------------------------------------------------ the transition table

  function PromotionTarget(m: Mode): Option<Mode> {
    match m
    case MANUAL_LOCAL => Some(SIMULATOR)
    case SIMULATOR => Some(SANDBOX)
    case SANDBOX => Some(PRODUCTION)
    case _ => None
  }

  predicate Credentialed(m: Mode) {
    m == SANDBOX || m == PRODUCTION
  }

  predicate Resolves(r: Registration, m: Mode, vault: set<string>) {
    m in r.refs ==> forall i :: 0 <= i < |r.refs[m]| ==> r.refs[m][i] in vault
  }

  predicate Given(approval: Option<string>) {
    approval.Some? && approval.value != ""
  }

  // ------------------------------------------------------------------ one call

  function Apply(s: Catalogue, id: string, to: Mode, approval: Option<string>,
                 enabled: Option<bool>, previous: Option<Mode>): Catalogue
    requires id in s.rows
  {
    var r := s.rows[id];
    var r1 := r.(mode := to,
                 previous := if previous.Some? then previous else Some(r.mode),
                 enabled := if enabled.Some? then enabled.value else r.enabled);
    Catalogue(s.rows[id := r1], s.changes + [ModeChange(id, r.mode, to, approval)])
  }

  function SweepOne(s: Catalogue, id: string, vault: set<string>): Catalogue {
    if id in s.rows && Credentialed(s.rows[id].mode) && !Resolves(s.rows[id], s.rows[id].mode, vault)
    then Apply(s, id, DISABLED, None, Some(false), None) else s
  }

  function SweepAll(s: Catalogue, ids: seq<string>, vault: set<string>): Catalogue
    decreases |ids|
  {
    if ids == [] then s
    else SweepOne(SweepAll(s, ids[..|ids| - 1], vault), ids[|ids| - 1], vault)
  }

  function Answer(s: Catalogue, call: Call): Reply {
    match call
    case Register(id, _, protocolKnown, _, _, _) =>
      if !protocolKnown then InvalidProtocol else if id in s.rows then Conflict else Done
    case SetCertification(id, _) => if id in s.rows then Done else UnknownConnector
    case BumpVersion(id, _) => if id in s.rows then Done else UnknownConnector
    case Promote(id, approval, vault) =>
      if id !in s.rows then UnknownConnector
      else
        var r := s.rows[id];
        var target := PromotionTarget(r.mode);
        if target.None? || r.certification != PASSED then TransitionDenied
        else if Credentialed(target.value) && !Resolves(r, target.value, vault) then TransitionDenied
        else if target.value == PRODUCTION && !Given(approval) then TransitionDenied
        else Done
    case Demote(id, to) =>
      if id !in s.rows then UnknownConnector
      else if s.rows[id].mode != PRODUCTION || to == PRODUCTION || to == DISABLED then TransitionDenied
      else Done
    case Disable(id) =>
      if id !in s.rows then UnknownConnector
      else if s.rows[id].mode == DISABLED then TransitionDenied else Done
    case ReEnable(id, vault) =>
      if id !in s.rows then UnknownConnector
      else
        var r := s.rows[id];
        if r.mode != DISABLED || r.previous.None? || r.previous.value == DISABLED then TransitionDenied
        else if Credentialed(r.previous.value) && !Resolves(r, r.previous.value, vault) then TransitionDenied
        else Done
    case Sweep(_) => Done
  }

  function Step(s: Catalogue, call: Call): Catalogue {
    if Answer(s, call) != Done then s
    else
      match call
      case Register(id, mode, _, certification, version, refs) =>
        s.(rows := s.rows[id := Registration(mode, None, mode != DISABLED, certification, version, refs)])
      case SetCertification(id, certification) =>
        s.(rows := s.rows[id := s.rows[id].(certification := certification)])
      case BumpVersion(id, version) =>
        if version == s.rows[id].version then s
        else s.(rows := s.rows[id := s.rows[id].(version := version, certification := STALE)])
      case Promote(id, approval, _) =>
        Apply(s, id, PromotionTarget(s.rows[id].mode).value, approval, None, None)
      case Demote(id, to) => Apply(s, id, to, None, None, None)
      case Disable(id) => Apply(s, id, DISABLED, None, Some(false), None)
      case ReEnable(id, _) => Apply(s, id, s.rows[id].previous.value, None, Some(true), Some(DISABLED))
      case Sweep(vault) => SweepAll(s, SortedStrings(s.rows.Keys), vault)
  }

  function Run(calls: seq<Call>): Catalogue
    decreases |calls|
  {
    if calls == [] then EMPTY else Step(Run(calls[..|calls| - 1]), calls[|calls| - 1])
  }

  // ------------------------------------------------------------------ histories

  /** `list_for`: the log rows of one connector, oldest first. */
  function ListFor(changes: seq<ModeChange>, id: string): seq<ModeChange>
    decreases |changes|
  {
    if changes == [] then []
    else
      var rest := ListFor(changes[..|changes| - 1], id);
      if changes[|changes| - 1].id == id then rest + [changes[|changes| - 1]] else rest
  }

  lemma ListForAppend(changes: seq<ModeChange>, e: ModeChange, id: string)
    ensures ListFor(changes + [e], id) == if e.id == id then ListFor(changes, id) + [e] else ListFor(changes, id)
  {
    assert (changes + [e])[..|changes|] == changes;
  }

  lemma {:induction false} ListForStranger(changes: seq<ModeChange>, id: string)
    requires forall i :: 0 <= i < |changes| ==> changes[i].id != id
    ensures ListFor(changes, id) == []
    decreases |changes|
  {
    if changes != [] {
      ListForStranger(changes[..|changes| - 1], id);
    }
  }

  /** The mode each connector was registered in. */
  function Born(calls: seq<Call>): map<string, Mode>
    decreases |calls|
  {
    if calls == [] then map[]
    else
      var before := Born(calls[..|calls| - 1]);
      var call := calls[|calls| - 1];
      if call.Register? && Answer(Run(calls[..|calls| - 1]), call) == Done then before[call.id := call.mode] else before
  }

  /** Entry `i` of one connector's history is a rung up (with an approval id for PRODUCTION), a demotion out of
      PRODUCTION, a switch-off, or a switch-on that undoes the switch-off just before it. */
  ghost predicate LegalEntry(h: seq<ModeChange>, i: nat)
    requires i < |h|
  {
    || (h[i].to == DISABLED && h[i].from != DISABLED)
    || (PromotionTarget(h[i].from) == Some(h[i].to) && (h[i].to == PRODUCTION ==> Given(h[i].approval)))
    || (h[i].from == PRODUCTION && h[i].to != PRODUCTION && h[i].to != DISABLED)
    || (h[i].from == DISABLED && h[i].to != DISABLED && i > 0 && h[i - 1].from == h[i].to)
  }

  ghost predicate Chained(h: seq<ModeChange>, born: Mode, now: Mode) {
    && (h == [] ==> now == born)
    && (h != [] ==> h[0].from == born && h[|h| - 1].to == now)
    && (forall i :: 0 < i < |h| ==> h[i].from == h[i - 1].to)
    && (forall i :: 0 <= i < |h| ==> LegalEntry(h, i))
  }

  ghost predicate ApprovedForProduction(h: seq<ModeChange>) {
    exists i :: 0 <= i < |h| && h[i].from == SANDBOX && h[i].to == PRODUCTION && Given(h[i].approval)
  }

  /** In PRODUCTION, or switched off while in PRODUCTION (and so able to come back there). */
  predicate HoldsProduction(r: Registration) {
    r.mode == PRODUCTION || (r.mode == DISABLED && r.previous == Some(PRODUCTION))
  }

  ghost predicate RowOk(r: Registration, h: seq<ModeChange>, born: Mode) {
    && Chained(h, born, r.mode)
    && (r.enabled <==> r.mode != DISABLED)
    && (r.mode == DISABLED ==> r.previous == if h == [] then None else Some(h[|h| - 1].from))
    && (born == DISABLED ==> h == [])
    && (HoldsProduction(r) && born != PRODUCTION ==> ApprovedForProduction(h))
  }

  ghost predicate AllOk(s: Catalogue, born: map<string, Mode>) {
    && born.Keys == s.rows.Keys
    && (forall i :: 0 <= i < |s.changes| ==> s.changes[i].id in s.rows)
    && (forall id :: id in s.rows ==> RowOk(s.rows[id], ListFor(s.changes, id), born[id]))
  }

  lemma ExtendHistory(r: Registration, h: seq<ModeChange>, born: Mode, e: ModeChange, r1: Registration)
    requires RowOk(r, h, born)
    requires e.from == r.mode && e.to == r1.mode && LegalEntry(h + [e], |h|)
    requires r1.enabled <==> r1.mode != DISABLED
    requires r1.mode == DISABLED ==> r1.previous == Some(e.from)
    ensures RowOk(r1, h + [e], born)
  {
    var h1 := h + [e];
    forall i | 0 <= i < |h1| ensures LegalEntry(h1, i) {
      if i < |h| {
        assert LegalEntry(h, i);
      }
    }
    if ApprovedForProduction(h) {
      var i :| 0 <= i < |h| && h[i].from == SANDBOX && h[i].to == PRODUCTION && Given(h[i].approval);
      assert h1[i] == h[i];
    }
    assert h1[|h|] == e;
  }

  lemma ApplyKeepsOk(s: Catalogue, born: map<string, Mode>, id: string, to: Mode, approval: Option<string>,
                     enabled: Option<bool>, previous: Option<Mode>)
    requires AllOk(s, born) && id in s.rows
    requires var h := ListFor(s.changes, id);
             LegalEntry(h + [ModeChange(id, s.rows[id].mode, to, approval)], |h|)
    requires (if enabled.Some? then enabled.value else s.rows[id].enabled) <==> to != DISABLED
    requires to == DISABLED ==> previous.None?
    ensures AllOk(Apply(s, id, to, approval, enabled, previous), born)
  {
    forall x | x in s.rows {
      ApplyKeepsRow(s, born, id, to, approval, enabled, previous, x);
    }
  }

  lemma ApplyKeepsRow(s: Catalogue, born: map<string, Mode>, id: string, to: Mode, approval: Option<string>,
                      enabled: Option<bool>, previous: Option<Mode>, x: string)
    requires AllOk(s, born) && id in s.rows && x in s.rows
    requires var h := ListFor(s.changes, id);
             LegalEntry(h + [ModeChange(id, s.rows[id].mode, to, approval)], |h|)
    requires (if enabled.Some? then enabled.value else s.rows[id].enabled) <==> to != DISABLED
    requires to == DISABLED ==> previous.None?
    ensures var s1 := Apply(s, id, to, approval, enabled, previous);
            RowOk(s1.rows[x], ListFor(s1.changes, x), born[x])
  {
    var e := ModeChange(id, s.rows[id].mode, to, approval);
    var s1 := Apply(s, id, to, approval, enabled, previous);
    ListForAppend(s.changes, e, x);
    if x == id {
      ExtendHistory(s.rows[id], ListFor(s.changes, id), born[id], e, s1.rows[id]);
    }
  }

  lemma {:induction false} SweepKeepsOk(s: Catalogue, born: map<string, Mode>, ids: seq<string>, vault: set<string>)
    requires AllOk(s, born)
    ensures AllOk(SweepAll(s, ids, vault), born)
    decreases |ids|
  {
    if ids != [] {
      SweepKeepsOk(s, born, ids[..|ids| - 1], vault);
      var s1 := SweepAll(s, ids[..|ids| - 1], vault);
      var id := ids[|ids| - 1];
      if SweepOne(s1, id, vault) != s1 {
        ApplyKeepsOk(s1, born, id, DISABLED, None, Some(false), None);
      }
    }
  }

  lemma QuietUpdateKeepsOk(s: Catalogue, born: map<string, Mode>, id: string, r: Registration)
    requires AllOk(s, born) && id in s.rows
    requires r.mode == s.rows[id].mode && r.previous == s.rows[id].previous && r.enabled == s.rows[id].enabled
    ensures AllOk(s.(rows := s.rows[id := r]), born)
  {
  }

  lemma RegisterKeepsOk(s: Catalogue, born: map<string, Mode>, call: Call)
    requires AllOk(s, born) && call.Register? && Answer(s, call) == Done
    ensures AllOk(Step(s, call), born[call.id := call.mode])
  {
    ListForStranger(s.changes, call.id);
  }

  lemma ReEnableKeepsOk(s: Catalogue, born: map<string, Mode>, call: Call)
    requires AllOk(s, born) && call.ReEnable? && Answer(s, call) == Done
    ensures AllOk(Step(s, call), born)
  {
    assert RowOk(s.rows[call.id], ListFor(s.changes, call.id), born[call.id]);
    ApplyKeepsOk(s, born, call.id, s.rows[call.id].previous.value, None, Some(true), Some(DISABLED));
  }

  lemma MoveKeepsOk(s: Catalogue, born: map<string, Mode>, id: string, to: Mode, approval: Option<string>)
    requires AllOk(s, born) && id in s.rows && to != DISABLED
    requires (PromotionTarget(s.rows[id].mode) == Some(to) && (to == PRODUCTION ==> Given(approval))) ||
             (s.rows[id].mode == PRODUCTION && to != PRODUCTION)
    ensures AllOk(Apply(s, id, to, approval, None, None), born)
  {
    assert RowOk(s.rows[id], ListFor(s.changes, id), born[id]);
    ApplyKeepsOk(s, born, id, to, approval, None, None);
  }

  lemma StepKeepsOk(s: Catalogue, born: map<string, Mode>, call: Call)
    requires AllOk(s, born)
    ensures AllOk(Step(s, call),
                  if call.Register? && Answer(s, call) == Done then born[call.id := call.mode] else born)
  {
    if Answer(s, call) == Done {
      match call
      case Register(_, _, _, _, _, _) => RegisterKeepsOk(s, born, call);
      case SetCertification(id, _) => QuietUpdateKeepsOk(s, born, id, Step(s, call).rows[id]);
      case BumpVersion(id, version) => QuietUpdateKeepsOk(s, born, id, Step(s, call).rows[id]);
      case Promote(id, approval, _) => MoveKeepsOk(s, born, id, PromotionTarget(s.rows[id].mode).value, approval);
      case Demote(id, to) => MoveKeepsOk(s, born, id, to, None);
      case Disable(id) => ApplyKeepsOk(s, born, id, DISABLED, None, Some(false), None);
      case ReEnable(_, _) => ReEnableKeepsOk(s, born, call);
      case Sweep(vault) => SweepKeepsOk(s, born, SortedStrings(s.rows.Keys), vault);
    }
  }

  /** Over every run: each connector's log chains by legal entries from its registered mode to its current mode;
      a switch-on always restores the mode the matching switch-off left; enabled means not DISABLED; PRODUCTION is
      held only by a connector registered there or carrying an approved SANDBOX-to-PRODUCTION entry; and a
      connector registered DISABLED never moves. */
  lemma {:induction false} EveryRunKeepsTheLadder(calls: seq<Call>)
    ensures AllOk(Run(calls), Born(calls))
    decreases |calls|
  {
    if calls != [] {
      EveryRunKeepsTheLadder(calls[..|calls| - 1]);
      StepKeepsOk(Run(calls[..|calls| - 1]), Born(calls[..|calls| - 1]), calls[|calls| - 1]);
    }
  }

  lemma RegisteredDisabledStaysDisabled(calls: seq<Call>, id: string)
    requires id in Born(calls) && Born(calls)[id] == DISABLED
    ensures id in Run(calls).rows && Run(calls).rows[id].mode == DISABLED && !Run(calls).rows[id].enabled
    ensures ListFor(Run(calls).changes, id) == []
  {
    EveryRunKeepsTheLadder(calls);
    assert RowOk(Run(calls).rows[id], ListFor(Run(calls).changes, id), DISABLED);
  }

  // ------------------------------------------------------------------ the fail-closed sweep

  /** The sweep leaves no credentialed connector unresolved, and what it changes it only switches off:
      never a downgrade to another working mode. */
  lemma {:induction false} SweepFailsClosed(s: Catalogue, ids: seq<string>, vault: set<string>)
    ensures var t := SweepAll(s, ids, vault);
            && t.rows.Keys == s.rows.Keys
            && (forall id :: id in s.rows ==>
                  t.rows[id] == s.rows[id]
                  || (t.rows[id].mode == DISABLED && t.rows[id].previous == Some(s.rows[id].mode)
                      && Credentialed(s.rows[id].mode) && !Resolves(s.rows[id], s.rows[id].mode, vault)))
            && (forall id :: id in s.rows && id in ids && Credentialed(t.rows[id].mode) ==>
                  Resolves(t.rows[id], t.rows[id].mode, vault))
    decreases |ids|
  {
    if ids != [] {
      SweepFailsClosed(s, ids[..|ids| - 1], vault);
      assert ids == ids[..|ids| - 1] + [ids[|ids| - 1]];
    }
  }

  /** The ids a sweep over `ids` switches off, in visiting order. */
  function SweptIds(s: Catalogue, ids: seq<string>, vault: set<string>): seq<string>
    decreases |ids|
  {
    if ids == [] then []
    else
      var before := SweepAll(s, ids[..|ids| - 1], vault);
      var id := ids[|ids| - 1];
      var swept := SweptIds(s, ids[..|ids| - 1], vault);
      if id in before.rows && Credentialed(before.rows[id].mode) && !Resolves(before.rows[id], before.rows[id].mode, vault)
      then swept + [id] else swept
  }

  /** The returned ids are exactly the connectors whose row the sweep changed. */
  lemma {:induction false} SweptIdsAreTheChanged(s: Catalogue, ids: seq<string>, vault: set<string>, id: string)
    ensures SweepAll(s, ids, vault).rows.Keys == s.rows.Keys
    ensures id in SweptIds(s, ids, vault) <==> id in s.rows && SweepAll(s, ids, vault).rows[id] != s.rows[id]
    decreases |ids|
  {
    if ids != [] {
      SweptIdsAreTheChanged(s, ids[..|ids| - 1], vault, id);
      SweepFailsClosed(s, ids[..|ids| - 1], vault);
    }
  }

  lemma SweepLeavesOnlyResolved(s: Catalogue, vault: set<string>)
    ensures var t := Step(s, Sweep(vault));
            && t.rows.Keys == s.rows.Keys
            && forall id :: id in t.rows && Credentialed(t.rows[id].mode) ==> Resolves(t.rows[id], t.rows[id].mode, vault)
  {
    var ids := SortedStrings(s.rows.Keys);
    SweepFailsClosed(s, ids, vault);
    assert forall id :: id in s.rows ==> id in Elements(ids);
  }

  // ------------------------------------------------------------------ the registry object

  class ConnectorRegistry {
    var registrations: map<string, Registration>
    var changes: seq<ModeChange>

    constructor ()
      ensures Value() == EMPTY
    {
      registrations := map[];
      changes := [];
    }

    function Value(): Catalogue
      reads this
    {
      Catalogue(registrations, changes)
    }

    method ApplyMode(id: string, to: Mode, approval: Option<string>, enabled: Option<bool>, previous: Option<Mode>)
      requires id in registrations
      modifies this
      ensures Value() == Apply(old(Value()), id, to, approval, enabled, previous)
    {
      var registration := registrations[id];
      var from := registration.mode;
      var updated := registration.(mode := to);
      updated := updated.(previous := if previous.Some? then previous else Some(from));
      if enabled.Some? {
        updated := updated.(enabled := enabled.value);
      }
      registrations := registrations[id := updated];
      changes := changes + [ModeChange(id, from, to, approval)];
    }

    method DoRegister(id: string, mode: Mode, protocolKnown: bool, certification: Certification,
                      version: string, refs: map<Mode, seq<string>>) returns (reply: Reply)
      modifies this
      ensures reply == Answer(old(Value()), Register(id, mode, protocolKnown, certification, version, refs))
      ensures Value() == Step(old(Value()), Register(id, mode, protocolKnown, certification, version, refs))
    {
      if !protocolKnown {
        return InvalidProtocol;
      }
      if id in registrations {
        return Conflict;
      }
      registrations := registrations[id := Registration(mode, None, mode != DISABLED, certification, version, refs)];
      return Done;
    }

    method DoSetCertification(id: string, certification: Certification) returns (reply: Reply)
      modifies this
      ensures reply == Answer(old(Value()), SetCertification(id, certification))
      ensures Value() == Step(old(Value()), SetCertification(id, certification))
    {
      if id !in registrations {
        return UnknownConnector;
      }
      registrations := registrations[id := registrations[id].(certification := certification)];
      return Done;
    }

    method DoBumpVersion(id: string, version: string) returns (reply: Reply)
      modifies this
      ensures reply == Answer(old(Value()), BumpVersion(id, version))
      ensures Value() == Step(old(Value()), BumpVersion(id, version))
    {
      if id !in registrations {
        return UnknownConnector;
      }
      if version != registrations[id].version {
        registrations := registrations[id := registrations[id].(version := version, certification := STALE)];
      }
      return Done;
    }

    method DoPromote(id: string, approval: Option<string>, vault: set<string>) returns (reply: Reply)
      modifies this
      ensures reply == Answer(old(Value()), Promote(id, approval, vault))
      ensures Value() == Step(old(Value()), Promote(id, approval, vault))
    {
      if id !in registrations {
        return UnknownConnector;
      }
      var registration := registrations[id];
      var target := PromotionTarget(registration.mode);
      if target.None? {
        return TransitionDenied;
      }
      if registration.certification != PASSED {
        return TransitionDenied;
      }
      if Credentialed(target.value) && !Resolves(registration, target.value, vault) {
        return TransitionDenied;
      }
      if target.value == PRODUCTION && !Given(approval) {
        return TransitionDenied;
      }
      ApplyMode(id, target.value, approval, None, None);
      return Done;
    }

    method DoDemote(id: string, to: Mode) returns (reply: Reply)
      modifies this
      ensures reply == Answer(old(Value()), Demote(id, to))
      ensures Value() == Step(old(Value()), Demote(id, to))
    {
      if id !in registrations {
        return UnknownConnector;
      }
      if registrations[id].mode != PRODUCTION {
        return TransitionDenied;
      }
      if to !in {SANDBOX, SIMULATOR, MANUAL_LOCAL} {
        return TransitionDenied;
      }
      ApplyMode(id, to, None, None, None);
      return Done;
    }

    method DoDisable(id: string) returns (reply: Reply)
      modifies this
      ensures reply == Answer(old(Value()), Disable(id))
      ensures Value() == Step(old(Value()), Disable(id))
    {
      if id !in registrations {
        return UnknownConnector;
      }
      if registrations[id].mode == DISABLED {
        return TransitionDenied;
      }
      ApplyMode(id, DISABLED, None, Some(false), None);
      return Done;
    }

    method DoReEnable(id: string, vault: set<string>) returns (reply: Reply)
      modifies this
      ensures reply == Answer(old(Value()), ReEnable(id, vault))
      ensures Value() == Step(old(Value()), ReEnable(id, vault))
    {
      if id !in registrations {
        return UnknownConnector;
      }
      var registration := registrations[id];
      if registration.mode != DISABLED {
        return TransitionDenied;
      }
      var previous := registration.previous;
      if previous.None? || previous.value == DISABLED {
        return TransitionDenied;
      }
      if Credentialed(previous.value) && !Resolves(registration, previous.value, vault) {
        return TransitionDenied;
      }
      ApplyMode(id, previous.value, None, Some(true), Some(DISABLED));
      return Done;
    }

    /** Visits every connector in id order; returns those this sweep switched off. */
    method SweepCredentials(vault: set<string>) returns (disabled: seq<string>)
      modifies this
      ensures Value() == Step(old(Value()), Sweep(vault))
      ensures disabled == SweptIds(old(Value()), SortedStrings(old(registrations).Keys), vault)
    {
      disabled := [];
      ghost var s0 := Value();
      var ids := SortedStrings(registrations.Keys);
      for i := 0 to |ids|
        invariant Value() == SweepAll(s0, ids[..i], vault)
        invariant disabled == SweptIds(s0, ids[..i], vault)
        invariant registrations.Keys == s0.rows.Keys
      {
        TakeNext(ids, i);
        var id := ids[i];
        assert id in Elements(ids);
        var registration := registrations[id];
        if Credentialed(registration.mode) && !Resolves(registration, registration.mode, vault) {
          ApplyMode(id, DISABLED, None, Some(false), None);
          disabled := disabled + [id];
        }
      }
      TakeWhole(ids);
    }
  }
}
