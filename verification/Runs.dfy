/** Whole runs: reads, writes, batches and growth in any order, against a plain map. */
module Runs {
  import opened Words
  import opened Tables
  import opened Caches
  import opened Doram
  import opened Invariants
  import opened Rebuilding
  import opened Refinement
  import opened Batching
  import opened Growing
  import opened Clocks
  import opened Collect
  import Accessing

  datatype Call = Read(x: nat) | Write(x: nat, v: nat) | Many(ops: seq<Op>) | Naturally(cfg: Config) | OnDemand(cfg: Config)

  ghost function Output(r: Outcome<(State, nat)>): Outcome<(State, seq<nat>)> {
    if r.Ok? then Ok((r.value.0, [r.value.1])) else r.PropagateFailure()
  }

  ghost function Silent(r: Outcome<State>): Outcome<(State, seq<nat>)> {
    if r.Ok? then Ok((r.value, [])) else r.PropagateFailure()
  }

  /** One call on the hierarchy. */
  ghost function Step(s: State, call: Call, o: Oracle): (r: Outcome<(State, seq<nat>)>)
    requires s.cache.Shaped()
    ensures r.Ok? ==> r.value.0.cache.Shaped()
  {
    match call
    case Read(x) => Output(Access(s, x, None, o))
    case Write(x, v) => Output(Access(s, x, Some(v), o))
    case Many(ops) => Batch(s, ops, o)
    case Naturally(cfg) => Silent(GrowNaturally(s, cfg, o))
    case OnDemand(cfg) => Silent(GrowOnDemand(s, cfg, o))
  }

  /** All calls in turn; a refused call leaves the state alone and answers `None`. */
  ghost function Run(s: State, calls: seq<Call>, o: Oracle): (r: Outcome<(State, seq<Option<seq<nat>>>)>)
    requires s.cache.Shaped()
    decreases |calls|
  {
    if calls == [] then Ok((s, []))
    else
      var step := Step(s, calls[0], o);
      if step.Crash? then Crash
      else
        var s1 := if step.Ok? then step.value.0 else s;
        var (s2, answers) :- Run(s1, calls[1..], o);
        Ok((s2, [if step.Ok? then Some(step.value.1) else None] + answers))
  }

  // ------------------------------------------------- a plain map and a clock

  /** What a hierarchy is to its callers: a map, and the clock that says when it is refused or fails. */
  datatype Spec = Spec(memory: Memory, clock: Clock)
  {
    predicate Valid() { clock.cfg.numLevels > 0 }
  }

  /** One call on the map.  Only empty batches and growing at the wrong time, by the wrong amount or from
      nothing are refused; only sorting 2^32 rows or an invalid configuration fails. */
  function SpecStep(sp: Spec, call: Call): (r: Outcome<(Spec, seq<nat>)>)
    requires sp.Valid()
    ensures r.Ok? ==> r.value.0.Valid()
  {
    var (m, c) := (sp.memory, sp.clock);
    match call
    case Read(x) => if SortFails(c) then Crash else Ok((Spec(After1(m, Op(x, None)), Tick(c)), [Get(m, x)]))
    case Write(x, v) => if SortFails(c) then Crash else Ok((Spec(After1(m, Op(x, Some(v))), Tick(c)), [Get(m, x)]))
    case Many(ops) =>
      if ops == [] then Refused
      else if !CanServe(c, |ops|) then Crash
      else Ok((Spec(After(m, ops), Ticks(c, |ops|)), Reads(m, ops)))
    case Naturally(cfg) =>
      if cfg.logN != c.cfg.logN + 1 then Refused
      else if !cfg.Valid() then Crash
      else if !AtBoundary(c) then Refused
      else Ok((Spec(m, Grown(c, cfg)), []))
    case OnDemand(cfg) =>
      if cfg.logN != c.cfg.logN + 1 then Refused
      else if !cfg.Valid() then Crash
      else if BlankAt(c) then Refused
      else if GrowFails(c) then Crash
      else Ok((Spec(m, Grown(c, cfg)), []))
  }

  function Grown(c: Clock, cfg: Config): Clock {
    Clock(cfg, cfg.stash, 0, true, c.hadInitial)
  }

  /** All calls in turn on the map. */
  function SpecRun(sp: Spec, calls: seq<Call>): (r: Outcome<(Spec, seq<Option<seq<nat>>>)>)
    requires sp.Valid()
    ensures r.Ok? ==> r.value.0.Valid()
    decreases |calls|
  {
    if calls == [] then Ok((sp, []))
    else
      var step := SpecStep(sp, calls[0]);
      if step.Crash? then Crash
      else
        var sp1 := if step.Ok? then step.value.0 else sp;
        var (sp2, answers) :- SpecRun(sp1, calls[1..]);
        Ok((sp2, [if step.Ok? then Some(step.value.1) else None] + answers))
  }

  /** What a caller must respect: the current address space, and distinct addresses within a batch. */
  ghost predicate Legal(c: Clock, call: Call) {
    match call
    case Read(x) => x < c.cfg.N()
    case Write(x, _) => x < c.cfg.N()
    case Many(ops) => InRange(ops, c.cfg.N()) && Distinct(Addrs(ops))
    case Naturally(_) => true
    case OnDemand(_) => true
  }

  /** Every call is legal when it is made, in the address space grown so far. */
  ghost predicate AllLegal(sp: Spec, calls: seq<Call>)
    requires sp.Valid()
    decreases |calls|
  {
    calls == [] ||
    (Legal(sp.clock, calls[0]) &&
     match SpecStep(sp, calls[0])
     case Ok(next) => AllLegal(next.0, calls[1..])
     case Refused => AllLegal(sp, calls[1..])
     case Crash => true)
  }

  /** A reachable state that represents the map and shows the clock. */
  ghost predicate Stands(s: State, sp: Spec) {
    Inv(s) && Represents(s, sp.memory) && |s.digits| == s.cfg.numLevels > 0 && ClockOf(s) == sp.clock
  }

  /** The same outcome, the same answer, and states that stand for each other. */
  ghost predicate SameStep(r: Outcome<(State, seq<nat>)>, q: Outcome<(Spec, seq<nat>)>) {
    match q
    case Ok(v) => r.Ok? && r.value.1 == v.1 && Stands(r.value.0, v.0)
    case Refused => r.Refused?
    case Crash => r.Crash?
  }

  // --------------------------------------------------------- one call at a time

  lemma StandsParts(s: State, sp: Spec)
    requires Stands(s, sp)
    ensures Inv(s) && Represents(s, sp.memory) && s.cache.Shaped() && sp.Valid() && s.cfg == sp.clock.cfg && s.cfg.Valid()
    ensures |s.levels| == |s.digits| == s.cfg.numLevels && ClockOf(s) == sp.clock
  {
    DigitBounds(s);
    Accessing.InvParts(s);
    hide Inv, Represents;
  }

  lemma ReadOrWriteOk(s: State, sp: Spec, x: nat, write: Option<nat>, o: Oracle)
    requires Stands(s, sp) && Good(o) && x < s.cfg.N()
    ensures s.cache.Shaped() && sp.Valid()
    ensures SameStep(Output(Access(s, x, write, o)),
                     if SortFails(sp.clock) then Crash else Ok((Spec(After1(sp.memory, Op(x, write)), Tick(sp.clock)), [Get(sp.memory, x)])))
  {
    StandsParts(s, sp);
    AccessTicks(s, sp.memory, x, write, o);
    hide Inv, Represents, Access, SortFails, Tick, Good;
  }

  /** Single accesses in turn: they succeed exactly if none of them has to sort 2^32 rows. */
  lemma {:induction false} EachOk(s: State, sp: Spec, ops: seq<Op>, o: Oracle)
    requires Stands(s, sp) && InRange(ops, s.cfg.N()) && Good(o)
    ensures s.cache.Shaped() && sp.Valid()
    ensures var r := AccessEach(s, ops, o);
      && (if CanServe(sp.clock, |ops|) then r.Ok? else r.Crash?)
      && (r.Ok? ==> r.value.1 == Reads(sp.memory, ops) && Stands(r.value.0, Spec(After(sp.memory, ops), Ticks(sp.clock, |ops|))))
    decreases |ops|
  {
    StandsParts(s, sp);
    hide Stands, Good, Access, Tick, SortFails;
    if ops != [] {
      InRangeSplit(ops, s.cfg.N());
      ReadOrWriteOk(s, sp, ops[0].addr, ops[0].write, o);
      if Access(s, ops[0].addr, ops[0].write, o).Ok? {
        var s1 := Access(s, ops[0].addr, ops[0].write, o).value.0;
        var sp1 := Spec(After1(sp.memory, ops[0]), Tick(sp.clock));
        StandsParts(s1, sp1);
        EachOk(s1, sp1, ops[1..], o);
      }
    }
  }

  /** No part of a batch is refused. */
  lemma {:induction false} NeverRefused(s: State, m: Memory, ops: seq<Op>, o: Oracle)
    requires Inv(s) && Represents(s, m) && InRange(ops, s.cfg.N()) && Distinct(Addrs(ops)) && Good(o)
    ensures s.cache.Shaped() && !BatchFrom(s, ops, o).Refused?
    decreases |ops|
  {
    hide *;
    Accessing.InvParts(s);
    RoomMade(s, m, o);
    RoomOutcome(s, m, o);
    if ops == [] {
      NoneAgree(s, o);
    } else if MakeRoom(s, o).Ok? {
      var s1 := MakeRoom(s, o).value;
      Accessing.InvParts(s1);
      var free := |s1.cache.addrs| - s1.cache.numStored;
      var k := if |ops| <= free then |ops| else free;
      DistinctSplit(ops, k, s.cfg.N());
      ChunkKeys(s1, m, ops[..k]);
      ChunkConfig(s1, ops[..k]);
      FromUnfold(s, ops, o, s1, k);
      var c := Chunk(s1, ops[..k]).value;
      NeverRefused(c.0, After(m, ops[..k]), ops[k..], o);
      PrefixedRefused(c.1, BatchFrom(c.0, ops[k..], o));
    } else {
      FromRoomless(s, ops, o);
    }
  }

  lemma PrefixedRefused(vs: seq<nat>, e: Outcome<(State, seq<nat>)>)
    ensures Prefixed(vs, e).Refused? <==> e.Refused?
  {
  }

  lemma FromRoomless(s: State, ops: seq<Op>, o: Oracle)
    requires s.cache.Shaped() && ops != [] && MakeRoom(s, o).Crash?
    ensures BatchFrom(s, ops, o).Crash?
  {
    hide MakeRoom, Chunk;
  }

  lemma ChunkConfig(s: State, ops: seq<Op>)
    requires s.cache.Shaped()
    ensures Chunk(s, ops).Ok? ==> Chunk(s, ops).value.0.cfg == s.cfg
  {
    hide LevelsMany;
  }

  lemma RoomOutcome(s: State, m: Memory, o: Oracle)
    requires Inv(s) && Represents(s, m) && Good(o)
    ensures s.cache.Shaped() && !MakeRoom(s, o).Refused?
  {
    Accessing.InvParts(s);
    if Full(s) { RebuildOutcome(s, m, o); }
    hide Inv, Represents, Rebuild;
  }

  lemma BatchOk(s: State, sp: Spec, ops: seq<Op>, o: Oracle)
    requires Stands(s, sp) && Good(o) && Legal(sp.clock, Many(ops))
    ensures s.cache.Shaped() && sp.Valid() && SameStep(Batch(s, ops, o), SpecStep(sp, Many(ops)))
  {
    StandsParts(s, sp);
    if ops != [] {
      BatchIsSequence(s, sp.memory, ops, o);
      EachOk(s, sp, ops, o);
      NeverRefused(s, sp.memory, ops, o);
      hide Inv, Represents, Good, BatchFrom, AccessEach, SameButKeys, InRange, Distinct, CanServe, Ticks;
      if AccessEach(s, ops, o).Ok? {
        var a, b := AccessEach(s, ops, o).value.0, BatchFrom(s, ops, o).value.0;
        SameSym(b, a);
        SameKeysKept(a, b, After(sp.memory, ops));
        SameClock(a, b);
      }
    }
  }

  lemma SameClock(a: State, b: State)
    requires SameButKeys(a, b) && |a.digits| == a.cfg.numLevels > 0
    ensures |b.digits| == b.cfg.numLevels && ClockOf(b) == ClockOf(a)
  {
  }

  lemma GrowStands(s: State, sp: Spec, cfg: Config, g: Outcome<State>)
    requires GrownTo(s, cfg, sp.memory, g) && sp.clock.hadInitial == s.hadInitial
    ensures g.Ok? && Stands(g.value, Spec(sp.memory, Grown(sp.clock, cfg)))
  {
    hide Inv, Represents;
  }

  lemma NaturallyOk(s: State, sp: Spec, cfg: Config, o: Oracle)
    requires Stands(s, sp) && Good(o)
    ensures s.cache.Shaped() && sp.Valid() && SameStep(Silent(GrowNaturally(s, cfg, o)), SpecStep(sp, Naturally(cfg)))
  {
    hide *;
    StandsParts(s, sp);
    ReadyIs(s);
    CollectedIs(s);
    var g := GrowNaturally(s, cfg, o);
    GrowNaturallyChecks(s, cfg, o);
    if cfg.Valid() { GrowNaturallyOk(s, cfg, sp.memory, o); }
    if cfg.Valid() && cfg.logN == s.cfg.logN + 1 && AtBoundary(sp.clock) { GrowStands(s, sp, cfg, g); }
    NaturallyStep(sp, cfg, g);
  }

  /** How growing at a boundary ends, in terms of the map and the clock. */
  lemma NaturallyStep(sp: Spec, cfg: Config, g: Outcome<State>)
    requires sp.Valid()
    requires cfg.logN != sp.clock.cfg.logN + 1 ==> g.Refused?
    requires cfg.logN == sp.clock.cfg.logN + 1 && !cfg.Valid() ==> g.Crash?
    requires cfg.logN == sp.clock.cfg.logN + 1 && cfg.Valid() && !AtBoundary(sp.clock) ==> g.Refused?
    requires cfg.logN == sp.clock.cfg.logN + 1 && cfg.Valid() && AtBoundary(sp.clock) ==> g.Ok? && Stands(g.value, Spec(sp.memory, Grown(sp.clock, cfg)))
    ensures SameStep(Silent(g), SpecStep(sp, Naturally(cfg)))
  {
    hide Stands, AtBoundary;
  }

  lemma OnDemandStep(sp: Spec, cfg: Config, g: Outcome<State>)
    requires sp.Valid()
    requires cfg.logN != sp.clock.cfg.logN + 1 ==> g.Refused?
    requires cfg.logN == sp.clock.cfg.logN + 1 && !cfg.Valid() ==> g.Crash?
    requires cfg.logN == sp.clock.cfg.logN + 1 && cfg.Valid() && BlankAt(sp.clock) ==> g.Refused?
    requires cfg.logN == sp.clock.cfg.logN + 1 && cfg.Valid() && !BlankAt(sp.clock) && GrowFails(sp.clock) ==> g.Crash?
    requires cfg.logN == sp.clock.cfg.logN + 1 && cfg.Valid() && !BlankAt(sp.clock) && !GrowFails(sp.clock) ==>
      g.Ok? && Stands(g.value, Spec(sp.memory, Grown(sp.clock, cfg)))
    ensures SameStep(Silent(g), SpecStep(sp, OnDemand(cfg)))
  {
    hide Stands, BlankAt, GrowFails;
  }

  lemma GrowNaturallyChecks(s: State, cfg: Config, o: Oracle)
    requires s.cache.Shaped() && StateShaped(s)
    ensures cfg.logN != s.cfg.logN + 1 ==> GrowNaturally(s, cfg, o).Refused?
    ensures cfg.logN == s.cfg.logN + 1 && !cfg.Valid() ==> GrowNaturally(s, cfg, o).Crash?
  {
    hide StateShaped, Collected, Finalize, FinishGrow;
  }

  lemma GrowOnDemandChecks(s: State, cfg: Config, o: Oracle)
    requires s.cache.Shaped() && StateShaped(s)
    ensures cfg.logN != s.cfg.logN + 1 ==> GrowOnDemand(s, cfg, o).Refused?
    ensures cfg.logN == s.cfg.logN + 1 && !cfg.Valid() ==> GrowOnDemand(s, cfg, o).Crash?
  {
    hide StateShaped, EverythingIn, Finalize, FinishGrow;
  }

  lemma OnDemandOk(s: State, sp: Spec, cfg: Config, o: Oracle)
    requires Stands(s, sp) && Good(o)
    ensures s.cache.Shaped() && sp.Valid() && SameStep(Silent(GrowOnDemand(s, cfg, o)), SpecStep(sp, OnDemand(cfg)))
  {
    hide *;
    StandsParts(s, sp);
    BlankIs(s);
    GrowFailsIs(s);
    var g := GrowOnDemand(s, cfg, o);
    GrowOnDemandChecks(s, cfg, o);
    if cfg.Valid() { GrowOnDemandOk(s, cfg, sp.memory, o); }
    if cfg.Valid() && cfg.logN == s.cfg.logN + 1 && !BlankAt(sp.clock) && !GrowFails(sp.clock) { GrowStands(s, sp, cfg, g); }
    OnDemandStep(sp, cfg, g);
  }

  /** Every legal call on a reachable state is a call on the map: it succeeds, is refused or fails exactly as
      the map and the clock say, with the same answer, and leaves states that stand for each other. */
  lemma StepOk(s: State, sp: Spec, call: Call, o: Oracle)
    requires Stands(s, sp) && Good(o) && Legal(sp.clock, call)
    ensures s.cache.Shaped() && sp.Valid() && SameStep(Step(s, call, o), SpecStep(sp, call))
  {
    hide Stands, Good, SortFails, Tick, Access, Batch, GrowNaturally, GrowOnDemand, SameStep;
    assert s.cfg == sp.clock.cfg by { StandsParts(s, sp); }
    match call {
      case Read(x) => ReadOrWriteOk(s, sp, x, None, o);
      case Write(x, v) => ReadOrWriteOk(s, sp, x, Some(v), o);
      case Many(ops) => BatchOk(s, sp, ops, o);
      case Naturally(cfg) => NaturallyOk(s, sp, cfg, o);
      case OnDemand(cfg) => OnDemandOk(s, sp, cfg, o);
    }
  }

  // ------------------------------------------------------------- whole runs

  /** A run of legal calls is the run of the map: the same answers, refusals and failure, throughout. */
  lemma {:induction false} RunOk(s: State, sp: Spec, calls: seq<Call>, o: Oracle)
    requires Stands(s, sp) && Good(o) && sp.Valid() && AllLegal(sp, calls)
    ensures s.cache.Shaped()
    ensures var r, q := Run(s, calls, o), SpecRun(sp, calls);
      if q.Ok? then r.Ok? && r.value.1 == q.value.1 && Stands(r.value.0, q.value.0) else q.Crash? && r.Crash?
    decreases |calls|
  {
    StandsParts(s, sp);
    hide Stands, Good, Legal, Step, SpecStep;
    if calls != [] {
      StepOk(s, sp, calls[0], o);
      var step, q := Step(s, calls[0], o), SpecStep(sp, calls[0]);
      if q.Ok? {
        RunOk(step.value.0, q.value.0, calls[1..], o);
      } else if q.Refused? {
        RunOk(s, sp, calls[1..], o);
      }
    }
  }

  function NewSpec(cfg: Config): Spec { Spec(map[], Clock(cfg, cfg.stash, 0, false, false)) }

  function FullSpec(cfg: Config, ys: seq<nat>): Spec { Spec(MemoryOf(ys), Clock(cfg, cfg.stash, 0, true, true)) }

  lemma NewStands(cfg: Config)
    requires cfg.Valid()
    ensures New(cfg).Ok? && Stands(New(cfg).value, NewSpec(cfg)) && NewSpec(cfg).Valid()
  {
    NewOk(cfg);
    hide Inv, Represents, New;
  }

  /** From a new hierarchy, any legal calls, growing on the way, run as on a map that starts with the default
      everywhere. */
  lemma NewRefinesMap(cfg: Config, calls: seq<Call>, o: Oracle)
    requires cfg.Valid() && Good(o) && NewSpec(cfg).Valid() && AllLegal(NewSpec(cfg), calls)
    ensures New(cfg).Ok?
    ensures var r, q := Run(New(cfg).value, calls, o), SpecRun(NewSpec(cfg), calls);
      if q.Ok? then r.Ok? && r.value.1 == q.value.1 && Stands(r.value.0, q.value.0) else q.Crash? && r.Crash?
  {
    hide Stands, Good, New, AllLegal, Run, SpecRun;
    NewStands(cfg);
    RunOk(New(cfg).value, NewSpec(cfg), calls, o);
  }

  /** From a hierarchy created with a value for every address, the map starts with those values. */
  lemma FullRefinesMap(cfg: Config, ys: seq<nat>, calls: seq<Call>, o: Oracle)
    requires cfg.Valid() && |ys| == cfg.N() && Good(o) && FullSpec(cfg, ys).Valid() && AllLegal(FullSpec(cfg, ys), calls)
    ensures NewWithBottom(cfg, ys, o).Ok?
    ensures var r, q := Run(NewWithBottom(cfg, ys, o).value, calls, o), SpecRun(FullSpec(cfg, ys), calls);
      if q.Ok? then r.Ok? && r.value.1 == q.value.1 && Stands(r.value.0, q.value.0) else q.Crash? && r.Crash?
  {
    FullStands(cfg, ys, o);
    hide Stands, Good, NewWithBottom, AllLegal, Run, SpecRun, FullSpec;
    RunOk(NewWithBottom(cfg, ys, o).value, FullSpec(cfg, ys), calls, o);
  }

  lemma FullStands(cfg: Config, ys: seq<nat>, o: Oracle)
    requires cfg.Valid() && |ys| == cfg.N() && Good(o)
    ensures NewWithBottom(cfg, ys, o).Ok? && Stands(NewWithBottom(cfg, ys, o).value, FullSpec(cfg, ys))
  {
    NewWithBottomOk(cfg, ys, o);
    hide Inv, Represents, NewWithBottom, Good;
  }

  // ---------------------------------------------------- runs that never fail

  /** Created full, or below 2^31 addresses. */
  predicate Tame(c: Clock) { c.hadInitial || c.cfg.logN <= 30 }

  predicate TameCall(c: Clock, call: Call) {
    match call
    case Read(_) => true
    case Write(_, _) => true
    case Many(_) => true
    case Naturally(cfg) => cfg.Valid() && (c.hadInitial || cfg.logN <= 30)
    case OnDemand(cfg) => cfg.Valid() && (c.hadInitial || cfg.logN <= 30)
  }

  lemma {:induction false} TameServes(c: Clock, n: nat)
    requires c.cfg.numLevels > 0 && Tame(c)
    ensures CanServe(c, n)
    decreases n
  {
    if n > 0 { TameServes(Tick(c), n - 1); }
    hide Tick, AtBoundary;
  }

  lemma TameStep(s: State, sp: Spec, call: Call)
    requires Stands(s, sp) && sp.Valid() && Tame(sp.clock) && TameCall(sp.clock, call)
    ensures !SpecStep(sp, call).Crash?
    ensures SpecStep(sp, call).Ok? ==> Tame(SpecStep(sp, call).value.0.clock) && SpecStep(sp, call).value.0.clock.hadInitial == sp.clock.hadInitial
  {
    TameServes(sp.clock, 1);
    StandsParts(s, sp);
    match call {
      case Read(_) =>
      case Write(_, _) =>
      case Many(ops) => TameServes(sp.clock, |ops|);
      case Naturally(cfg) =>
      case OnDemand(cfg) =>
        if cfg.logN == s.cfg.logN + 1 && !s.hadInitial {
          SmallGrows(s);
          GrowFailsIs(s);
        }
    }
    hide Inv, Represents, Stands, GrowOverflows, CollectedRows, AtBoundary, BlankAt, CanServe;
  }

  /** Legal calls on a hierarchy created full, or one that stays within 2^30 addresses, never fail. */
  lemma {:induction false} TameRun(s: State, sp: Spec, calls: seq<Call>, o: Oracle)
    requires Stands(s, sp) && Good(o) && sp.Valid() && AllLegal(sp, calls) && Tame(sp.clock)
    requires forall i {:trigger calls[i]} :: 0 <= i < |calls| ==> TameCall(sp.clock, calls[i])
    ensures s.cache.Shaped() && Run(s, calls, o).Ok? && SpecRun(sp, calls).Ok?
    decreases |calls|
  {
    StandsParts(s, sp);
    hide Stands, Good, Legal, Step, SpecStep, Tame;
    if calls != [] {
      StepOk(s, sp, calls[0], o);
      TameStep(s, sp, calls[0]);
      var step, q := Step(s, calls[0], o), SpecStep(sp, calls[0]);
      if q.Ok? {
        TameRun(step.value.0, q.value.0, calls[1..], o);
      } else {
        TameRun(s, sp, calls[1..], o);
      }
    }
  }

  // ------------------------------------------------------- there are oracles

  function Identity(n: nat): Perm {
    Perm(seq(n, i => i), seq(n, i => i))
  }

  /** Some oracle makes only possible choices, so the theorems are about something. */
  lemma GoodExists()
    ensures Good(Oracle((t: nat, p: Params) => Coin(t, Identity(p.Total()), seq(p.stashSize, k => k)), (t: nat, n: nat) => Identity(n)))
  {
    var o := Oracle((t: nat, p: Params) => Coin(t, Identity(p.Total()), seq(p.stashSize, k => k)), (t: nat, n: nat) => Identity(n));
    forall t: nat, p: Params | p.Valid() ensures ValidCoin(p, o.coin(t, p)) {
      assert IsPerm(Identity(p.Total()), p.Total());
    }
  }
}
