/**
 The mode ladder of the connector registry over whole runs (bdpay/connectors/registry.py): exactly which calls move a connector,
 from what the calls before them have said about it and from its own mode-change log.
 */
module Ladder {
  import opened Common
  import opened Ordering
  import opened Registry

  // ------------------------------------------------------------------ what the calls have said

  /** What the calls so far have left on file for a connector. */
  datatype Profile = Profile(certification: Certification, version: string, refs: map<Mode, seq<string>>)

  /** The first acceptable registration files it; a verdict replaces the certification; a version other than the one on file makes
      it STALE. */
  function Profiled(calls: seq<Call>, id: string): Option<Profile>
    decreases |calls|
  {
    if calls == [] then None
    else Refiled(Profiled(calls[..|calls| - 1], id), calls[|calls| - 1], id)
  }

  function Refiled(before: Option<Profile>, call: Call, id: string): Option<Profile> {
    if before.None? then
      if call.Register? && call.id == id && call.protocolKnown
      then Some(Profile(call.certification, call.version, call.refs)) else None
    else if call.SetCertification? && call.id == id then Some(before.value.(certification := call.certification))
    else if call.BumpVersion? && call.id == id && call.version != before.value.version
    then Some(before.value.(certification := STALE, version := call.version))
    else before
  }

  function ProfileOf(r: Registration): Profile {
    Profile(r.certification, r.version, r.refs)
  }

  lemma {:induction false} SweepKeepsProfiles(s: Catalogue, ids: seq<string>, vault: set<string>, id: string)
    ensures var t := SweepAll(s, ids, vault);
            (id in t.rows <==> id in s.rows) && (id in s.rows ==> ProfileOf(t.rows[id]) == ProfileOf(s.rows[id]))
    decreases |ids|
  {
    if ids != [] {
      SweepKeepsProfiles(s, ids[..|ids| - 1], vault, id);
    }
  }

  /** The catalogue holds, for every connector, exactly what the calls have left on file. */
  lemma {:induction false} FiledIsWhatWasSaid(calls: seq<Call>, id: string)
    ensures id in Run(calls).rows <==> Profiled(calls, id).Some?
    ensures id in Run(calls).rows ==> Profiled(calls, id) == Some(ProfileOf(Run(calls).rows[id]))
    decreases |calls|
  {
    if calls != [] {
      FiledIsWhatWasSaid(calls[..|calls| - 1], id);
      StepFiles(Run(calls[..|calls| - 1]), calls[|calls| - 1], id);
    }
  }

  function OnFile(s: Catalogue, id: string): Option<Profile> {
    if id in s.rows then Some(ProfileOf(s.rows[id])) else None
  }

  lemma StepFiles(s: Catalogue, call: Call, id: string)
    ensures OnFile(Step(s, call), id) == Refiled(OnFile(s, id), call, id)
  {
    if call.Sweep? {
      SweepKeepsProfiles(s, SortedStrings(s.rows.Keys), call.vault, id);
    } else if call.Register? || call.SetCertification? || call.BumpVersion? {
      FilingFiles(s, call, id);
    } else {
      MovesKeepProfiles(s, call, id);
    }
  }

  lemma FilingFiles(s: Catalogue, call: Call, id: string)
    requires call.Register? || call.SetCertification? || call.BumpVersion?
    ensures OnFile(Step(s, call), id) == Refiled(OnFile(s, id), call, id)
  {
  }

  lemma MovesKeepProfiles(s: Catalogue, call: Call, id: string)
    requires call.Promote? || call.Demote? || call.Disable? || call.ReEnable?
    ensures OnFile(Step(s, call), id) == OnFile(s, id)
  {
  }

  lemma RunPush(calls: seq<Call>, call: Call)
    ensures Run(calls + [call]) == Step(Run(calls), call)
  {
    PushLast(calls, call);
  }

  // ------------------------------------------------------------------ exactly when a connector moves

  /** One rung of the ladder. */
  predicate RungUp(from: Mode, to: Mode) {
    (from == MANUAL_LOCAL && to == SIMULATOR) || (from == SIMULATOR && to == SANDBOX) || (from == SANDBOX && to == PRODUCTION)
  }

  /** Every credential reference on file for a credentialed mode is in the vault. */
  predicate Usable(p: Profile, m: Mode, vault: set<string>) {
    (m == SANDBOX || m == PRODUCTION) && m in p.refs ==> forall i :: 0 <= i < |p.refs[m]| ==> p.refs[m][i] in vault
  }

  /** What the guards of `promote` come to, said of the calls before it. */
  predicate MayClimb(calls: seq<Call>, id: string, to: Mode, approval: Option<string>, vault: set<string>) {
    && id in Run(calls).rows && RungUp(Run(calls).rows[id].mode, to)
    && Profiled(calls, id).Some? && Profiled(calls, id).value.certification == PASSED
    && Usable(Profiled(calls, id).value, to, vault)
    && (to == PRODUCTION ==> approval.Some? && approval.value != "")
  }

  /** The call has moved the connector, with one log entry. */
  predicate Moved(s: Catalogue, t: Catalogue, id: string, to: Mode, approval: Option<string>) {
    && id in s.rows && t.rows.Keys == s.rows.Keys && t.rows[id].mode == to && t.rows[id].enabled == (to != DISABLED)
    && t.changes == s.changes + [ModeChange(id, s.rows[id].mode, to, approval)]
    && forall other :: other in s.rows && other != id ==> t.rows[other] == s.rows[other]
  }

  lemma EnabledInRun(calls: seq<Call>, id: string)
    requires id in Run(calls).rows
    ensures var r := Run(calls).rows[id]; r.enabled <==> r.mode != DISABLED
  {
    EveryRunKeepsTheLadder(calls);
    assert RowOk(Run(calls).rows[id], ListFor(Run(calls).changes, id), Born(calls)[id]);
  }

  /** In every run `promote` moves a connector one rung up exactly when the latest registration, verdict or version change left it
      PASSED, the target's credentials are all in the vault, and PRODUCTION comes with an approval id; otherwise nothing changes. */
  lemma ClimbsExactly(calls: seq<Call>, id: string, approval: Option<string>, vault: set<string>)
    ensures var s, t := Run(calls), Run(calls + [Promote(id, approval, vault)]);
            && (forall to :: MayClimb(calls, id, to, approval, vault) ==> Moved(s, t, id, to, approval))
            && ((forall to :: !MayClimb(calls, id, to, approval, vault)) ==>
                  t == s && Answer(s, Promote(id, approval, vault)) == if id in s.rows then TransitionDenied else UnknownConnector)
  {
    var s := Run(calls);
    FiledIsWhatWasSaid(calls, id);
    RunPush(calls, Promote(id, approval, vault));
    if id in s.rows {
      EnabledInRun(calls, id);
      if PromotionTarget(s.rows[id].mode).Some? {
        var to := PromotionTarget(s.rows[id].mode).value;
        assert MayClimb(calls, id, to, approval, vault) <==> Answer(s, Promote(id, approval, vault)) == Done;
      }
    }
  }

  /** In every run `demote` moves a connector exactly from PRODUCTION to a working mode other than PRODUCTION. */
  lemma DemotedExactly(calls: seq<Call>, id: string, to: Mode)
    ensures var s, t := Run(calls), Run(calls + [Demote(id, to)]);
            if id in s.rows && s.rows[id].mode == PRODUCTION && (to == MANUAL_LOCAL || to == SIMULATOR || to == SANDBOX)
            then Moved(s, t, id, to, None) && Answer(s, Demote(id, to)) == Done
            else t == s && Answer(s, Demote(id, to)) == if id in s.rows then TransitionDenied else UnknownConnector
  {
    RunPush(calls, Demote(id, to));
    if id in Run(calls).rows {
      EnabledInRun(calls, id);
    }
    DemotesOnce(Run(calls), id, to);
  }

  lemma DemotesOnce(s: Catalogue, id: string, to: Mode)
    requires id in s.rows ==> (s.rows[id].enabled <==> s.rows[id].mode != DISABLED)
    ensures var t := Step(s, Demote(id, to));
            if id in s.rows && s.rows[id].mode == PRODUCTION && (to == MANUAL_LOCAL || to == SIMULATOR || to == SANDBOX)
            then Moved(s, t, id, to, None) && Answer(s, Demote(id, to)) == Done
            else t == s && Answer(s, Demote(id, to)) == if id in s.rows then TransitionDenied else UnknownConnector
  {
  }

  /** In every run `disable` moves a connector exactly when it is not DISABLED already. */
  lemma DisabledExactly(calls: seq<Call>, id: string)
    ensures var s, t := Run(calls), Run(calls + [Disable(id)]);
            if id in s.rows && s.rows[id].mode != DISABLED
            then Moved(s, t, id, DISABLED, None) && Answer(s, Disable(id)) == Done
            else t == s && Answer(s, Disable(id)) == if id in s.rows then TransitionDenied else UnknownConnector
  {
    RunPush(calls, Disable(id));
    DisablesOnce(Run(calls), id);
  }

  lemma DisablesOnce(s: Catalogue, id: string)
    ensures var t := Step(s, Disable(id));
            if id in s.rows && s.rows[id].mode != DISABLED
            then Moved(s, t, id, DISABLED, None) && Answer(s, Disable(id)) == Done
            else t == s && Answer(s, Disable(id)) == if id in s.rows then TransitionDenied else UnknownConnector
  {
  }

  /** In every run `re_enable` moves a DISABLED connector exactly when its log shows the switch-off and the mode it was in then is
      usable; it goes back to that mode. */
  lemma ReEnabledExactly(calls: seq<Call>, id: string, vault: set<string>)
    ensures var s, t := Run(calls), Run(calls + [ReEnable(id, vault)]);
            var h := ListFor(s.changes, id);
            if id in s.rows && s.rows[id].mode == DISABLED && h != [] && Profiled(calls, id).Some?
               && Usable(Profiled(calls, id).value, h[|h| - 1].from, vault)
            then Moved(s, t, id, h[|h| - 1].from, None) && Answer(s, ReEnable(id, vault)) == Done
            else t == s && Answer(s, ReEnable(id, vault)) == if id in s.rows then TransitionDenied else UnknownConnector
  {
    FiledIsWhatWasSaid(calls, id);
    RunPush(calls, ReEnable(id, vault));
    if id in Run(calls).rows && Run(calls).rows[id].mode == DISABLED {
      SwitchOffIsLogged(calls, id);
    }
  }

  /** The mode stored at a switch-off is the one its log entry shows. */
  lemma SwitchOffIsLogged(calls: seq<Call>, id: string)
    requires id in Run(calls).rows && Run(calls).rows[id].mode == DISABLED
    ensures var h := ListFor(Run(calls).changes, id);
            if h == [] then Run(calls).rows[id].previous == None
            else Run(calls).rows[id].previous == Some(h[|h| - 1].from) && h[|h| - 1].from != DISABLED
  {
    EveryRunKeepsTheLadder(calls);
    SwitchOffOf(Run(calls).rows[id], ListFor(Run(calls).changes, id), Born(calls)[id]);
  }

  lemma SwitchOffOf(r: Registration, h: seq<ModeChange>, born: Mode)
    requires RowOk(r, h, born) && r.mode == DISABLED
    ensures if h == [] then r.previous == None else r.previous == Some(h[|h| - 1].from) && h[|h| - 1].from != DISABLED
  {
    if h != [] {
      assert LegalEntry(h, |h| - 1);
    }
  }

  /** A registration is accepted exactly for a known protocol and a new id; it starts in its own mode, enabled unless that is
      DISABLED, with no log. */
  lemma RegisteredExactly(calls: seq<Call>, call: Call)
    requires call.Register?
    ensures var s, t := Run(calls), Run(calls + [call]);
            && Answer(s, call) == (if !call.protocolKnown then InvalidProtocol else if Profiled(calls, call.id).Some? then Conflict else Done)
            && t.changes == s.changes
            && (Answer(s, call) != Done ==> t == s)
            && (Answer(s, call) == Done ==> call.id in t.rows && t.rows[call.id].mode == call.mode
                                            && t.rows[call.id].enabled == (call.mode != DISABLED))
  {
    FiledIsWhatWasSaid(calls, call.id);
    RunPush(calls, call);
  }

  /** A verdict or a version is taken exactly for a connector on file, and moves nothing. */
  lemma FiledExactly(calls: seq<Call>, call: Call)
    requires call.SetCertification? || call.BumpVersion?
    ensures var s, t := Run(calls), Run(calls + [call]);
            && Answer(s, call) == (if Profiled(calls, call.id).Some? then Done else UnknownConnector)
            && t.changes == s.changes && t.rows.Keys == s.rows.Keys
            && forall id :: id in s.rows ==> t.rows[id].mode == s.rows[id].mode && t.rows[id].enabled == s.rows[id].enabled
  {
    FiledIsWhatWasSaid(calls, call.id);
    RunPush(calls, call);
  }

  // ------------------------------------------------------------------ the sweep

  /** In a credentialed mode with a reference that is not in the vault. */
  predicate Stranded(calls: seq<Call>, id: string, vault: set<string>) {
    id in Run(calls).rows && Profiled(calls, id).Some? && !Usable(Profiled(calls, id).value, Run(calls).rows[id].mode, vault)
  }

  lemma {:induction false} SweepLogs(s: Catalogue, ids: seq<string>, vault: set<string>, id: string)
    requires forall i, j :: 0 <= i < j < |ids| ==> ids[i] != ids[j]
    ensures var t := SweepAll(s, ids, vault);
            && t.rows.Keys == s.rows.Keys
            && (if id in ids && id in s.rows && Credentialed(s.rows[id].mode) && !Resolves(s.rows[id], s.rows[id].mode, vault)
                then t.rows[id].mode == DISABLED && !t.rows[id].enabled
                     && ListFor(t.changes, id) == ListFor(s.changes, id) + [ModeChange(id, s.rows[id].mode, DISABLED, None)]
                else ListFor(t.changes, id) == ListFor(s.changes, id) && (id in s.rows ==> t.rows[id] == s.rows[id]))
    decreases |ids|
  {
    if ids != [] {
      var p, x := ids[..|ids| - 1], ids[|ids| - 1];
      SweepLogs(s, p, vault, id);
      SweepLogs(s, p, vault, x);
      assert x !in p && ids == p + [x];
      SweepLogsOne(SweepAll(s, p, vault), x, vault, id);
    }
  }

  lemma SweepLogsOne(s: Catalogue, x: string, vault: set<string>, id: string)
    ensures var t := SweepOne(s, x, vault);
            && t.rows.Keys == s.rows.Keys
            && (if id == x && x in s.rows && Credentialed(s.rows[x].mode) && !Resolves(s.rows[x], s.rows[x].mode, vault)
                then t.rows[x].mode == DISABLED && !t.rows[x].enabled
                     && ListFor(t.changes, x) == ListFor(s.changes, x) + [ModeChange(x, s.rows[x].mode, DISABLED, None)]
                else ListFor(t.changes, id) == ListFor(s.changes, id) && (id in s.rows ==> t.rows[id] == s.rows[id]))
  {
    if x in s.rows {
      ListForAppend(s.changes, ModeChange(x, s.rows[x].mode, DISABLED, None), id);
    }
  }

  /** In every run a credential sweep switches off, with one log entry each, exactly the connectors in a credentialed mode with a
      reference missing from the vault, and leaves every other alone. */
  lemma SweptExactly(calls: seq<Call>, vault: set<string>, id: string)
    ensures var s, t := Run(calls), Run(calls + [Sweep(vault)]);
            && t.rows.Keys == s.rows.Keys
            && (if Stranded(calls, id, vault)
                then t.rows[id].mode == DISABLED && !t.rows[id].enabled
                     && ListFor(t.changes, id) == ListFor(s.changes, id) + [ModeChange(id, s.rows[id].mode, DISABLED, None)]
                else ListFor(t.changes, id) == ListFor(s.changes, id) && (id in s.rows ==> t.rows[id] == s.rows[id]))
  {
    var s := Run(calls);
    var ids := SortedStrings(s.rows.Keys);
    FiledIsWhatWasSaid(calls, id);
    RunPush(calls, Sweep(vault));
    AscendingDiffer(ids);
    SweepLogs(s, ids, vault, id);
    assert id in s.rows ==> id in Elements(ids);
  }

  lemma AscendingDiffer(ids: seq<string>)
    requires Ascending(StringLess, ids)
    ensures forall i, j :: 0 <= i < j < |ids| ==> ids[i] != ids[j]
  {
    forall i, j | 0 <= i < j < |ids| ensures ids[i] != ids[j] {
      StringLessIrreflexive(ids[i]);
    }
  }
}
