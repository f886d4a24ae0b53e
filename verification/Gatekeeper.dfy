/**
 Which calls reach a rail (bdpay/connectors/runner.py with registry.py and breaker.py).

 A `Step` is one atomic piece of the running system: a registry call, an adapter registration, the part of a runner
 call from the registry lookup to the adapter call (it never suspends), a completion that feeds the breaker, an
 operator reset or a state read. Any interleaving of concurrent runner calls is a sequence of such steps.
 */
module Gatekeeper {
  import opened Common
  import opened Breaker
  import Registry

  datatype Setup = Setup(configs: map<string, Config>, simulatorOnly: bool) {
    function ConfigOf(id: string): Config {
      if id in configs then configs[id] else DEFAULT_CONFIG
    }
  }

  /** An adapter call: the connector, the kind, and the mode its adapter was registered for. */
  datatype RailTouch = RailTouch(id: string, kind: Kind, mode: Registry.Mode)

  datatype System = System(catalogue: Registry.Catalogue, adapters: set<(string, Registry.Mode)>,
                           breakers: map<string, Record>) {
    function BreakerOf(id: string): Record {
      if id in breakers then breakers[id] else FRESH
    }
  }

  const BOOT := System(Registry.EMPTY, {}, map[])

  datatype Piece =
    | RegistryCall(call: Registry.Call)
    | AddAdapter(id: string, mode: Registry.Mode)
    | Enter(id: string, kind: Kind, now: int, readable: bool)
    | Complete(id: string, failure: bool, now: int, readable: bool)
    | ResetBreaker(id: string, now: int)
    | ReadState(id: string, now: int, readable: bool)

  /** Where a runner call stops before the adapter call, or the mode of the adapter it calls. */
  datatype Passage = Unregistered | Disabled | Isolated | CircuitOpen | NoAdapter | Through(mode: Registry.Mode)

  // ------------------------------------------------------------------ one piece

  /** The call got as far as asking the breaker. */
  predicate AsksBreaker(u: Setup, s: System, id: string) {
    && id in s.catalogue.rows
    && s.catalogue.rows[id].mode != Registry.DISABLED && s.catalogue.rows[id].enabled
    && (u.simulatorOnly ==> s.catalogue.rows[id].mode == Registry.SIMULATOR)
  }

  function Pass(u: Setup, s: System, id: string, kind: Kind, now: int, readable: bool): Passage {
    if id !in s.catalogue.rows then Unregistered
    else
      var r := s.catalogue.rows[id];
      if r.mode == Registry.DISABLED || !r.enabled then Disabled
      else if u.simulatorOnly && r.mode != Registry.SIMULATOR then Isolated
      else if !Admits(u.ConfigOf(id), s.BreakerOf(id), Admit(kind, now, readable)) then CircuitOpen
      else if (id, r.mode) !in s.adapters then NoAdapter
      else Through(r.mode)
  }

  /** The breaker call a piece makes on connector `id`, if any. */
  function BreakerCall(u: Setup, s: System, p: Piece, id: string): Option<Event> {
    match p
    case Enter(x, kind, now, readable) =>
      if x == id && AsksBreaker(u, s, id) then Some(Admit(kind, now, readable)) else None
    case Complete(x, failure, now, readable) => if x == id then Some(Observe(failure, now, readable)) else None
    case ResetBreaker(x, now) => if x == id then Some(Reset(now)) else None
    case ReadState(x, now, readable) => if x == id then Some(Peek(now, readable)) else None
    case _ => None
  }

  function Next(u: Setup, s: System, p: Piece): System {
    match p
    case RegistryCall(call) => s.(catalogue := Registry.Step(s.catalogue, call))
    case AddAdapter(id, mode) =>
      if u.simulatorOnly && mode != Registry.SIMULATOR then s else s.(adapters := s.adapters + {(id, mode)})
    case _ =>
      var e := BreakerCall(u, s, p, p.id);
      if e.None? then s
      else s.(breakers := s.breakers[p.id := Breaker.Step(u.ConfigOf(p.id), s.BreakerOf(p.id), e.value)])
  }

  /** A call's entry moves only its own connector's breaker, and only when it gets as far as asking it. */
  lemma EnterBreakers(u: Setup, s: System, id: string, kind: Kind, now: int, readable: bool)
    ensures var t := Next(u, s, Enter(id, kind, now, readable));
            forall x :: t.BreakerOf(x) ==
                        if x == id && AsksBreaker(u, s, id)
                        then Breaker.Step(u.ConfigOf(id), s.BreakerOf(id), Admit(kind, now, readable)) else s.BreakerOf(x)
  {
  }

  function After(u: Setup, ps: seq<Piece>): System
    decreases |ps|
  {
    if ps == [] then BOOT else Next(u, After(u, ps[..|ps| - 1]), ps[|ps| - 1])
  }

  /** The rail touch a piece makes, if any. */
  function TouchOf(u: Setup, s: System, p: Piece): Option<RailTouch> {
    if p.Enter? && Pass(u, s, p.id, p.kind, p.now, p.readable).Through?
    then Some(RailTouch(p.id, p.kind, Pass(u, s, p.id, p.kind, p.now, p.readable).mode)) else None
  }

  // ------------------------------------------------------------------ the breaker seen from a run

  /** The breaker calls one connector received during a run. */
  function EventsOf(u: Setup, ps: seq<Piece>, id: string): seq<Event>
    decreases |ps|
  {
    if ps == [] then []
    else
      var rest := EventsOf(u, ps[..|ps| - 1], id);
      var e := BreakerCall(u, After(u, ps[..|ps| - 1]), ps[|ps| - 1], id);
      if e.Some? then rest + [e.value] else rest
  }

  /** Each connector's breaker record is the fold of its own breaker calls, whatever runs beside it. */
  lemma {:induction false} BreakerIsItsOwnHistory(u: Setup, ps: seq<Piece>, id: string)
    ensures After(u, ps).BreakerOf(id) == Breaker.Run(u.ConfigOf(id), FRESH, EventsOf(u, ps, id))
    decreases |ps|
  {
    if ps != [] {
      var p := ps[..|ps| - 1];
      BreakerIsItsOwnHistory(u, p, id);
      var e := BreakerCall(u, After(u, p), ps[|ps| - 1], id);
      NextBreaker(u, After(u, p), ps[|ps| - 1], id);
      if e.Some? {
        RunPush(u.ConfigOf(id), FRESH, EventsOf(u, p, id), e.value);
      }
    }
  }

  lemma NextBreaker(u: Setup, s: System, p: Piece, id: string)
    ensures var e := BreakerCall(u, s, p, id);
            Next(u, s, p).BreakerOf(id) ==
            if e.Some? then Breaker.Step(u.ConfigOf(id), s.BreakerOf(id), e.value) else s.BreakerOf(id)
  {
  }

  /** Only simulator adapters exist in a simulator-only deployment. */
  lemma {:induction false} SimulatorOnlyAdapters(u: Setup, ps: seq<Piece>)
    requires u.simulatorOnly
    ensures forall a :: a in After(u, ps).adapters ==> a.1 == Registry.SIMULATOR
    decreases |ps|
  {
    if ps != [] {
      SimulatorOnlyAdapters(u, ps[..|ps| - 1]);
    }
  }

  /** The calls a run made on the registry, in order. */
  function RegistryCalls(ps: seq<Piece>): seq<Registry.Call>
    decreases |ps|
  {
    if ps == [] then []
    else
      var rest := RegistryCalls(ps[..|ps| - 1]);
      if ps[|ps| - 1].RegistryCall? then rest + [ps[|ps| - 1].call] else rest
  }

  lemma {:induction false} CatalogueIsItsOwnHistory(u: Setup, ps: seq<Piece>)
    ensures After(u, ps).catalogue == Registry.Run(RegistryCalls(ps))
    decreases |ps|
  {
    if ps != [] {
      var p := ps[..|ps| - 1];
      CatalogueIsItsOwnHistory(u, p);
      if ps[|ps| - 1].RegistryCall? {
        assert (RegistryCalls(p) + [ps[|ps| - 1].call])[..|RegistryCalls(p)|] == RegistryCalls(p);
      }
    }
  }

  // ------------------------------------------------------------------ what every touch satisfies

  /** Every rail touch of every run happens on an enabled connector, through the adapter of its active mode; a touch in
      PRODUCTION means the connector was registered there or its log holds an approved promotion; a simulator-only
      deployment touches simulators only; and new money moves only past a CLOSED breaker. */
  lemma EveryTouchIsAuthorised(u: Setup, ps: seq<Piece>, p: Piece)
    requires TouchOf(u, After(u, ps), p).Some?
    ensures var s := After(u, ps);
            var t := TouchOf(u, s, p).value;
            && t.id in s.catalogue.rows && s.catalogue.rows[t.id].enabled
            && t.mode == s.catalogue.rows[t.id].mode != Registry.DISABLED && (t.id, t.mode) in s.adapters
            && t.id in Registry.Born(RegistryCalls(ps))
            && (t.mode == Registry.PRODUCTION ==>
                  || Registry.Born(RegistryCalls(ps))[t.id] == Registry.PRODUCTION
                  || Registry.ApprovedForProduction(Registry.ListFor(s.catalogue.changes, t.id)))
            && (u.simulatorOnly ==> t.mode == Registry.SIMULATOR)
            && (!u.ConfigOf(t.id).informational && t.kind in {SUBMIT, REVERSE} ==> s.BreakerOf(t.id).phase == CLOSED)
  {
    var s := After(u, ps);
    CatalogueIsItsOwnHistory(u, ps);
    Registry.EveryRunKeepsTheLadder(RegistryCalls(ps));
    assert Registry.RowOk(s.catalogue.rows[p.id], Registry.ListFor(s.catalogue.changes, p.id),
                          Registry.Born(RegistryCalls(ps))[p.id]);
    if !u.ConfigOf(p.id).informational {
      MoneyOnlyWhenClosed(u.ConfigOf(p.id), s.BreakerOf(p.id), Admit(p.kind, p.now, p.readable));
    }
  }

  /** What a piece says to the breaker of a connector: a call that gets as far as asking it, an outcome, a reset or a reading. */
  lemma BreakerHears(u: Setup, ps: seq<Piece>, p: Piece, id: string)
    ensures var s, before, after := After(u, ps), EventsOf(u, ps, id), EventsOf(u, ps + [p], id);
            && (p.Enter? && p.id == id && On(s, id) && (u.simulatorOnly ==> s.catalogue.rows[id].mode == Registry.SIMULATOR) ==>
                  after == before + [Admit(p.kind, p.now, p.readable)])
            && (p.Complete? && p.id == id ==> after == before + [Observe(p.failure, p.now, p.readable)])
            && (p.ResetBreaker? && p.id == id ==> after == before + [Reset(p.now)])
            && (p.ReadState? && p.id == id ==> after == before + [Peek(p.now, p.readable)])
            && (p.RegistryCall? || p.AddAdapter? || p.id != id ==> after == before)
            && (p.Enter? && !(On(s, id) && (u.simulatorOnly ==> s.catalogue.rows[id].mode == Registry.SIMULATOR)) ==> after == before)
  {
    PushLast(ps, p);
    CatalogueIsItsOwnHistory(u, ps);
    Registry.EveryRunKeepsTheLadder(RegistryCalls(ps));
    var s := After(u, ps);
    if id in s.catalogue.rows {
      assert Registry.RowOk(s.catalogue.rows[id], Registry.ListFor(s.catalogue.changes, id), Registry.Born(RegistryCalls(ps))[id]);
    }
  }

  /** An adapter is there exactly when it was registered, in a mode that this deployment admits. */
  lemma {:induction false} AdaptersAreThoseRegistered(u: Setup, ps: seq<Piece>, id: string, mode: Registry.Mode)
    ensures (id, mode) in After(u, ps).adapters <==>
            AddAdapter(id, mode) in ps && (u.simulatorOnly ==> mode == Registry.SIMULATOR)
    decreases |ps|
  {
    if ps != [] {
      var p := ps[..|ps| - 1];
      AdaptersAreThoseRegistered(u, p, id, mode);
      AdapterAddedNow(u, After(u, p), ps[|ps| - 1], id, mode);
      LastOrBefore(ps, AddAdapter(id, mode));
    }
  }

  lemma AdapterAddedNow(u: Setup, s: System, p: Piece, id: string, mode: Registry.Mode)
    ensures (id, mode) in Next(u, s, p).adapters <==>
            (id, mode) in s.adapters || (p == AddAdapter(id, mode) && (u.simulatorOnly ==> mode == Registry.SIMULATOR))
  {
  }

  lemma LastOrBefore(ps: seq<Piece>, p: Piece)
    requires ps != []
    ensures p in ps <==> p in ps[..|ps| - 1] || p == ps[|ps| - 1]
  {
    CutLast(ps);
  }

  /** The connector has a row in the catalogue that is switched on. */
  predicate On(s: System, id: string) {
    id in s.catalogue.rows && s.catalogue.rows[id].mode != Registry.DISABLED
  }

  /** In every run a call is let through exactly when its connector is on, is a simulator where only simulators are allowed, may
      pass its breaker by the breaker's own history, and has an adapter for its mode; otherwise the first of these that fails is
      the answer. */
  lemma PassesExactly(u: Setup, ps: seq<Piece>, id: string, kind: Kind, now: int, readable: bool)
    ensures var s := After(u, ps);
            var answer := Pass(u, s, id, kind, now, readable);
            var alone := u.simulatorOnly && id in s.catalogue.rows && s.catalogue.rows[id].mode != Registry.SIMULATOR;
            var passes := Admissible(u.ConfigOf(id), EventsOf(u, ps, id), kind, now, readable);
            && (answer == Unregistered <==> id !in s.catalogue.rows)
            && (answer == Disabled <==> id in s.catalogue.rows && !On(s, id))
            && (answer == Isolated <==> On(s, id) && alone)
            && (answer == CircuitOpen <==> On(s, id) && !alone && !passes)
            && (answer == NoAdapter <==> On(s, id) && !alone && passes && (id, s.catalogue.rows[id].mode) !in s.adapters)
            && (answer.Through? <==> On(s, id) && !alone && passes && (id, s.catalogue.rows[id].mode) in s.adapters)
            && (answer.Through? ==> answer.mode == s.catalogue.rows[id].mode)
  {
    var s := After(u, ps);
    CatalogueIsItsOwnHistory(u, ps);
    Registry.EveryRunKeepsTheLadder(RegistryCalls(ps));
    BreakerIsItsOwnHistory(u, ps, id);
    AdmittedExactly(u.ConfigOf(id), EventsOf(u, ps, id), kind, now, readable);
    if id in s.catalogue.rows {
      assert Registry.RowOk(s.catalogue.rows[id], Registry.ListFor(s.catalogue.changes, id), Registry.Born(RegistryCalls(ps))[id]);
    }
  }

  /** The piece is no operator reset of `id` and asks its breaker nothing at or after `deadline`. */
  predicate Before(p: Piece, id: string, deadline: int) {
    !p.RegistryCall? && !p.AddAdapter? && p.id == id ==> !p.ResetBreaker? && p.now < deadline
  }

  /** OPEN always carries its opening time. */
  function OpenedAt(u: Setup, ps: seq<Piece>, id: string): int
    requires After(u, ps).BreakerOf(id).phase == OPEN
  {
    BreakerIsItsOwnHistory(u, ps, id);
    ReachableIsWellFormed(u.ConfigOf(id), EventsOf(u, ps, id));
    After(u, ps).BreakerOf(id).openedAt.value
  }

  lemma OpenStep(u: Setup, s: System, p: Piece, id: string)
    requires !u.ConfigOf(id).informational
    requires s.BreakerOf(id).phase == OPEN && s.BreakerOf(id).openedAt.Some?
    requires Before(p, id, s.BreakerOf(id).openedAt.value + u.ConfigOf(id).cooldown)
    ensures Next(u, s, p).BreakerOf(id) == s.BreakerOf(id)
    ensures TouchOf(u, s, p).None? || TouchOf(u, s, p).value.id != id
  {
  }

  /** From the moment a connector's breaker is OPEN until its cooldown elapses or an operator resets it, no run touches
      that connector's rail, however many other connectors and registry changes run beside it. */
  lemma {:induction false} OpenMeansNoTouch(u: Setup, ps: seq<Piece>, more: seq<Piece>, p: Piece, id: string)
    requires !u.ConfigOf(id).informational
    requires After(u, ps).BreakerOf(id).phase == OPEN
    requires forall i :: 0 <= i < |more| ==> Before(more[i], id, OpenedAt(u, ps, id) + u.ConfigOf(id).cooldown)
    requires Before(p, id, OpenedAt(u, ps, id) + u.ConfigOf(id).cooldown)
    ensures var s := After(u, ps + more);
            && s.BreakerOf(id) == After(u, ps).BreakerOf(id)
            && (TouchOf(u, s, p).None? || TouchOf(u, s, p).value.id != id)
    decreases |more|
  {
    var at := OpenedAt(u, ps, id);
    assert After(u, ps).BreakerOf(id).openedAt == Some(at) by {
      BreakerIsItsOwnHistory(u, ps, id);
      ReachableIsWellFormed(u.ConfigOf(id), EventsOf(u, ps, id));
    }
    if more == [] {
      assert ps + more == ps;
    } else {
      var m := more[..|more| - 1];
      OpenMeansNoTouch(u, ps, m, p, id);
      assert (ps + more)[..|ps + more| - 1] == ps + m;
      OpenStep(u, After(u, ps + m), more[|more| - 1], id);
    }
    OpenStep(u, After(u, ps + more), p, id);
  }

  /** Status touches of a connector since its breaker last became HALF_OPEN (0 otherwise). */
  function EpisodeTouches(u: Setup, ps: seq<Piece>, id: string): nat
    decreases |ps|
  {
    if ps == [] then 0
    else
      var before := ps[..|ps| - 1];
      var s := After(u, before);
      var t := TouchOf(u, s, ps[|ps| - 1]);
      if After(u, ps).BreakerOf(id).phase != HALF_OPEN then 0
      else (if s.BreakerOf(id).phase == HALF_OPEN then EpisodeTouches(u, before, id) else 0)
           + (if t.Some? && t.value.id == id && t.value.kind == QUERY_STATUS then 1 else 0)
  }

  lemma {:induction false} TouchesAreProbes(u: Setup, ps: seq<Piece>, id: string)
    ensures EpisodeTouches(u, ps, id) <= EpisodeProbes(u.ConfigOf(id), EventsOf(u, ps, id))
    decreases |ps|
  {
    if ps != [] {
      var p := ps[..|ps| - 1];
      TouchesAreProbes(u, p, id);
      BreakerIsItsOwnHistory(u, p, id);
      var s, last := After(u, p), ps[|ps| - 1];
      NextBreaker(u, s, last, id);
      TouchIsProbe(u, s, last, id);
      var e := BreakerCall(u, s, last, id);
      if e.Some? {
        EpisodeProbesPush(u.ConfigOf(id), EventsOf(u, p, id), e.value);
      }
    }
  }

  /** Every touch was admitted by the breaker as a call of the same kind. */
  lemma TouchIsProbe(u: Setup, s: System, p: Piece, id: string)
    ensures var t, e := TouchOf(u, s, p), BreakerCall(u, s, p, id);
            t.Some? && t.value.id == id ==>
              e.Some? && Admits(u.ConfigOf(id), s.BreakerOf(id), e.value) && e.value.kind == t.value.kind
  {
  }

  /** Each HALF_OPEN episode lets at most `quota` status queries reach the rail. */
  lemma HalfOpenTouchesAreRationed(u: Setup, ps: seq<Piece>, id: string)
    requires !u.ConfigOf(id).informational
    ensures EpisodeTouches(u, ps, id) <= u.ConfigOf(id).quota
  {
    TouchesAreProbes(u, ps, id);
    HalfOpenIsRationed(u.ConfigOf(id), EventsOf(u, ps, id), Reset(0));
  }

  // ------------------------------------------------------------------ the guard of the runner object

  class Guard {
    const registry: Registry.ConnectorRegistry
    const breaker: CircuitBreaker
    const simulatorOnly: bool
    var adapters: set<(string, Registry.Mode)>

    constructor (registry: Registry.ConnectorRegistry, breaker: CircuitBreaker, simulatorOnly: bool)
      ensures this.registry == registry && this.breaker == breaker && this.simulatorOnly == simulatorOnly
      ensures adapters == {}
    {
      this.registry := registry;
      this.breaker := breaker;
      this.simulatorOnly := simulatorOnly;
      this.adapters := {};
    }

    ghost function Plan(): Setup {
      Setup(breaker.configs, simulatorOnly)
    }

    ghost function Value(): System
      reads this, registry, breaker
    {
      System(registry.Value(), adapters, breaker.records)
    }

    /** Refused (false) for a non-simulator adapter in a simulator-only deployment. */
    method RegisterAdapter(id: string, mode: Registry.Mode) returns (ok: bool)
      modifies this
      ensures Value() == Next(Plan(), old(Value()), AddAdapter(id, mode))
      ensures ok <==> simulatorOnly ==> mode == Registry.SIMULATOR
    {
      if simulatorOnly && mode != Registry.SIMULATOR {
        return false;
      }
      adapters := adapters + {(id, mode)};
      return true;
    }

    /** Everything a runner call checks before it calls the adapter. */
    method EnterCall(id: string, kind: Kind, now: int, readable: bool) returns (passage: Passage)
      modifies breaker
      ensures passage == Pass(Plan(), old(Value()), id, kind, now, readable)
      ensures Value().catalogue == old(Value()).catalogue && Value().adapters == old(Value()).adapters
      ensures forall x :: Value().BreakerOf(x) == Next(Plan(), old(Value()), Enter(id, kind, now, readable)).BreakerOf(x)
    {
      ghost var before := Value();
      EnterBreakers(Plan(), before, id, kind, now, readable);
      if id !in registry.registrations {
        return Unregistered;
      }
      var registration := registry.registrations[id];
      if registration.mode == Registry.DISABLED || !registration.enabled {
        return Disabled;
      }
      if simulatorOnly && registration.mode != Registry.SIMULATOR {
        return Isolated;
      }
      assert AsksBreaker(Plan(), before, id);
      assert forall x :: before.BreakerOf(x) == breaker.Lookup(x);
      var admitted := breaker.DoAdmit(id, kind, now, readable);
      assert forall x :: Value().BreakerOf(x) == breaker.Lookup(x);
      if !admitted {
        return CircuitOpen;
      }
      if (id, registration.mode) !in adapters {
        return NoAdapter;
      }
      return Through(registration.mode);
    }
  }
}
