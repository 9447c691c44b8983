/** The platform budget: one ledger for all tenants, decisions taken from it and
    reservations made in it inside one transaction. */
module Budget {
  import opened Common

  const WARNING := 24_000
  const HARD_CAP := 30_000
  const INTEGER_MAX := 0x7FFF_FFFF_FFFF_FFFF

  /** A clock reading in UTC: the day it falls on and the instant in seconds. */
  datatype Moment = Moment(year: int, month: int, day: int, instant: int)

  /** What the gateway is told of the platform's month, and when it was added up. */
  datatype Telemetry = Telemetry(reserved: int, computedAt: Moment)

  datatype Entry = Entry(tenant: string, run: nat, amount: int, at: Moment, key: string)

  /** Which entries a total is taken over. */
  datatype Scope =
    | Everything
    | PlatformMonth(year: int, month: int)
    | TenantMonth(tenant: string, year: int, month: int)
    | TenantDay(tenant: string, year: int, month: int, day: int)

  predicate Within(e: Entry, s: Scope) {
    match s
    case Everything => true
    case PlatformMonth(y, m) => e.at.year == y && e.at.month == m
    case TenantMonth(t, y, m) => e.tenant == t && e.at.year == y && e.at.month == m
    case TenantDay(t, y, m, d) => e.tenant == t && e.at.year == y && e.at.month == m && e.at.day == d
  }

  function Total(ledger: seq<Entry>, s: Scope): int {
    if ledger == [] then 0
    else Total(ledger[..|ledger| - 1], s) + if Within(ledger[|ledger| - 1], s) then ledger[|ledger| - 1].amount else 0
  }

  function Count(ledger: seq<Entry>, s: Scope): nat {
    if ledger == [] then 0
    else Count(ledger[..|ledger| - 1], s) + if Within(ledger[|ledger| - 1], s) then 1 else 0
  }

  function MonthOf(at: Moment): Scope { PlatformMonth(at.year, at.month) }

  datatype Limits = Limits(daily: int, monthly: int, generations: int, runs: int, tokens: int, toolCalls: int)

  datatype Policy = Policy(limits: Limits, version: int)

  datatype Outcome = Recorded | RecordedWarning | BlockedBudget | BlockedTelemetry | BlockedHardCap | BlockedWarning

  predicate Accepted(o: Outcome) { o in {Recorded, RecordedWarning} }

  /** Everything hashed into the request digest, standing for it. */
  datatype Request = Request(policyVersion: int, toolCalls: int, cost: int, growth: bool, content: string)

  datatype AgentRun = AgentRun(tenant: string, request: Request, charged: Option<int>, outcome: Outcome, at: Moment)

  datatype Receipt = Receipt(request: Request, run: nat)

  datatype State = State(ledger: seq<Entry>, runs: seq<AgentRun>, receipts: map<(string, string), Receipt>, policies: map<string, Policy>)

  function Empty(): State { State([], [], map[], map[]) }

  function RunsOf(runs: seq<AgentRun>, tenant: string): nat {
    if runs == [] then 0 else RunsOf(runs[..|runs| - 1], tenant) + if runs[|runs| - 1].tenant == tenant then 1 else 0
  }

  function Keyed(ledger: seq<Entry>, tenant: string, key: string): Option<Entry> {
    if ledger == [] then None
    else
      var before := Keyed(ledger[..|ledger| - 1], tenant, key);
      var last := ledger[|ledger| - 1];
      if before.Some? then before else if last.tenant == tenant && last.key == key then Some(last) else None
  }

  predicate ValidLimits(l: Limits) {
    0 <= l.daily <= INTEGER_MAX && 0 <= l.monthly <= INTEGER_MAX && 0 <= l.generations <= INTEGER_MAX && 0 <= l.runs <= INTEGER_MAX
    && 1 <= l.tokens <= INTEGER_MAX && 1 <= l.toolCalls <= INTEGER_MAX
  }

  function SetPolicy(s: State, tenant: string, l: Limits): Tx<State, Policy> {
    var valid := ValidLimits(l);
    :- Need(valid, Conflict);
    var value := Policy(l, if tenant in s.policies then s.policies[tenant].version + 1 else 1);
    Commit(s.(policies := s.policies[tenant := value]), value)
  }

  /** `reserve_budget_entry`: the cap is checked again where the entry is written. */
  function Reserve(ledger: seq<Entry>, e: Entry): Tx<seq<Entry>, Entry> {
    var amount := 0 <= e.amount < HARD_CAP;
    :- Need(amount, Conflict);
    var prior := Keyed(ledger, e.tenant, e.key);
    if prior.Some? then
      :- Need(prior.value.run == e.run && prior.value.amount == e.amount && prior.value.at == e.at, Conflict);
      Commit(ledger, prior.value)
    else
      :- Need(Total(ledger, MonthOf(e.at)) + e.amount < HARD_CAP, Conflict);
      Commit(ledger + [e], e)
  }

  predicate TenantAllows(s: State, tenant: string, cost: int, now: Moment)
    requires tenant in s.policies
  {
    var l := s.policies[tenant].limits;
    var day := TenantDay(tenant, now.year, now.month, now.day);
    && Total(s.ledger, day) + cost <= l.daily
    && Total(s.ledger, TenantMonth(tenant, now.year, now.month)) + cost <= l.monthly
    && Count(s.ledger, day) < l.generations
    && RunsOf(s.runs, tenant) < l.runs
  }

  /** `platform_budget_snapshot`. */
  function Snapshot(ledger: seq<Entry>, now: Moment): Telemetry { Telemetry(Total(ledger, MonthOf(now)), now) }

  predicate Fresh(t: Telemetry, now: Moment) { t.reserved >= 0 && 0 <= now.instant - t.computedAt.instant <= 60 }

  function Judge(s: State, tenant: string, q: Request, now: Moment): Outcome
    requires tenant in s.policies
  {
    var own := if TenantAllows(s, tenant, q.cost, now) then Recorded else BlockedBudget;
    var telemetry := Snapshot(s.ledger, now);
    if !Fresh(telemetry, now) then BlockedTelemetry
    else
      var projected := telemetry.reserved + q.cost;
      if projected >= HARD_CAP then BlockedHardCap
      else if projected >= WARNING then
        if q.growth then BlockedWarning else if own == Recorded then RecordedWarning else own
      else own
  }

  predicate WellFormed(q: Request) { q.policyVersion >= 1 && q.toolCalls >= 0 && 0 <= q.cost <= INTEGER_MAX }

  /** `record_demo_agent_run`; the value is the row of the run. */
  function Record(s: State, tenant: string, q: Request, key: string, now: Moment): Tx<State, nat> {
    var wellFormed := WellFormed(q);
    :- Need(wellFormed, Conflict);
    if (tenant, key) in s.receipts then
      :- Need(s.receipts[(tenant, key)].request == q, Conflict);
      :- Need(s.receipts[(tenant, key)].run < |s.runs|, NotFound);
      Commit(s, s.receipts[(tenant, key)].run)
    else
      :- Need(Keyed(s.ledger, tenant, key).None?, Conflict);
      :- Need(tenant in s.policies, Conflict);
      var policy := s.policies[tenant];
      :- Need(policy.version == q.policyVersion && q.toolCalls <= policy.limits.toolCalls, Conflict);
      var outcome := Judge(s, tenant, q, now);
      var id := |s.runs|;
      var charged := if Accepted(outcome) then Some(q.cost) else None;
      var t := s.(runs := s.runs + [AgentRun(tenant, q, charged, outcome, now)],
                  receipts := s.receipts[(tenant, key) := Receipt(q, id)]);
      if Accepted(outcome) then
        var (ledger, _) :- Reserve(t.ledger, Entry(tenant, id, q.cost, now, key));
        Commit(t.(ledger := ledger), id)
      else Commit(t, id)
  }

  // --------------------------------------------------------------- the objects

  class BudgetRepository {
    var ledger: seq<Entry>
    var runs: seq<AgentRun>
    var receipts: map<(string, string), Receipt>
    var policies: map<string, Policy>

    function View(): State
      reads this
    {
      State(ledger, runs, receipts, policies)
    }

    constructor ()
      ensures View() == Empty()
    { ledger, runs, receipts, policies := [], [], map[], map[]; }

    method Sum(s: Scope) returns (total: int)
      ensures total == Total(ledger, s)
    {
      total := 0;
      for i := 0 to |ledger|
        invariant total == Total(ledger[..i], s)
      {
        assert ledger[..i + 1][..i] == ledger[..i];
        if Within(ledger[i], s) { total := total + ledger[i].amount; }
      }
      assert ledger[..|ledger|] == ledger;
    }

    method EntriesIn(s: Scope) returns (n: nat)
      ensures n == Count(ledger, s)
    {
      n := 0;
      for i := 0 to |ledger|
        invariant n == Count(ledger[..i], s)
      {
        assert ledger[..i + 1][..i] == ledger[..i];
        if Within(ledger[i], s) { n := n + 1; }
      }
      assert ledger[..|ledger|] == ledger;
    }

    method AgentRunsFor(tenant: string) returns (n: nat)
      ensures n == RunsOf(runs, tenant)
    {
      n := 0;
      for i := 0 to |runs|
        invariant n == RunsOf(runs[..i], tenant)
      {
        assert runs[..i + 1][..i] == runs[..i];
        if runs[i].tenant == tenant { n := n + 1; }
      }
      assert runs[..|runs|] == runs;
    }

    method FirstWithKey(tenant: string, key: string) returns (prior: Option<Entry>)
      ensures prior == Keyed(ledger, tenant, key)
    {
      prior := None;
      for i := 0 to |ledger|
        invariant prior == Keyed(ledger[..i], tenant, key)
      {
        assert ledger[..i + 1][..i] == ledger[..i];
        if prior.None? && ledger[i].tenant == tenant && ledger[i].key == key { prior := Some(ledger[i]); }
      }
      assert ledger[..|ledger|] == ledger;
    }

    method ReserveBudgetEntry(e: Entry) returns (r: Result<Entry>)
      modifies this`ledger
      ensures Ran(Reserve(old(ledger), e), old(ledger), ledger, r)
    {
      if e.amount < 0 || e.amount >= HARD_CAP { return Err(Conflict); }
      var prior := FirstWithKey(e.tenant, e.key);
      if prior.Some? {
        if prior.value.run != e.run || prior.value.amount != e.amount || prior.value.at != e.at { return Err(Conflict); }
        return Ok(prior.value);
      }
      var total := Sum(MonthOf(e.at));
      if total + e.amount >= HARD_CAP { return Err(Conflict); }
      ledger := ledger + [e];
      r := Ok(e);
    }

    method Decide(tenant: string, q: Request, now: Moment) returns (outcome: Outcome)
      requires tenant in policies
      ensures outcome == Judge(View(), tenant, q, now)
    {
      var limits := policies[tenant].limits;
      var daily := Sum(TenantDay(tenant, now.year, now.month, now.day));
      var monthly := Sum(TenantMonth(tenant, now.year, now.month));
      var generations := EntriesIn(TenantDay(tenant, now.year, now.month, now.day));
      var count := AgentRunsFor(tenant);
      outcome := Recorded;
      if daily + q.cost > limits.daily || monthly + q.cost > limits.monthly || generations >= limits.generations || count >= limits.runs {
        outcome := BlockedBudget;
      }
      var reserved := Sum(MonthOf(now));
      if reserved < 0 {
        outcome := BlockedTelemetry;
      } else if reserved + q.cost >= HARD_CAP {
        outcome := BlockedHardCap;
      } else if reserved + q.cost >= WARNING {
        if q.growth { outcome := BlockedWarning; } else if outcome == Recorded { outcome := RecordedWarning; }
      }
    }

    method RecordDemoAgentRun(tenant: string, q: Request, key: string, now: Moment) returns (r: Result<nat>)
      modifies this
      ensures Ran(Record(old(View()), tenant, q, key, now), old(View()), View(), r)
    {
      hide Judge, Reserve;
      if !WellFormed(q) { return Err(Conflict); }
      if (tenant, key) in receipts {
        if receipts[(tenant, key)].request != q { return Err(Conflict); }
        if receipts[(tenant, key)].run >= |runs| { return Err(NotFound); }
        return Ok(receipts[(tenant, key)].run);
      }
      var prior := FirstWithKey(tenant, key);
      if prior.Some? || tenant !in policies { return Err(Conflict); }
      if policies[tenant].version != q.policyVersion || q.toolCalls > policies[tenant].limits.toolCalls { return Err(Conflict); }
      var outcome := Decide(tenant, q, now);
      var snapshot, id := (runs, receipts), |runs|;
      runs := runs + [AgentRun(tenant, q, if Accepted(outcome) then Some(q.cost) else None, outcome, now)];
      receipts := receipts[(tenant, key) := Receipt(q, id)];
      if Accepted(outcome) {
        var reserved := ReserveBudgetEntry(Entry(tenant, id, q.cost, now, key));
        if reserved.Err? {
          runs, receipts := snapshot.0, snapshot.1;
          return Err(reserved.failure);
        }
      }
      r := Ok(id);
    }
  }

  // ------------------------------------------------------------------ every run

  datatype Step =
    | Configure(tenant: string, limits: Limits)
    | Perform(tenant: string, request: Request, key: string, now: Moment)
    | Direct(entry: Entry)   // an entry reserved without a run

  function Apply(s: State, step: Step): State {
    match step
    case Configure(tenant, l) => (match SetPolicy(s, tenant, l) case Commit(t, _) => t case Abort(_) => s)
    case Perform(tenant, q, key, now) => (match Record(s, tenant, q, key, now) case Commit(t, _) => t case Abort(_) => s)
    case Direct(e) => (match Reserve(s.ledger, e) case Commit(ledger, _) => s.(ledger := ledger) case Abort(_) => s)
  }

  function Run(s: State, steps: seq<Step>): State {
    if steps == [] then s else Apply(Run(s, steps[..|steps| - 1]), steps[|steps| - 1])
  }

  ghost predicate Sound(s: State) {
    && (forall i | 0 <= i < |s.ledger| :: 0 <= s.ledger[i].amount < HARD_CAP)
    && (forall y, m :: Total(s.ledger, PlatformMonth(y, m)) < HARD_CAP)
    && (forall k | k in s.receipts :: s.receipts[k].run < |s.runs| && s.runs[s.receipts[k].run].request == s.receipts[k].request
                                      && s.runs[s.receipts[k].run].tenant == k.0)
  }

  lemma {:induction false} TotalNonNegative(ledger: seq<Entry>, scope: Scope)
    requires forall i | 0 <= i < |ledger| :: 0 <= ledger[i].amount
    ensures 0 <= Total(ledger, scope)
  {
    if ledger != [] { TotalNonNegative(ledger[..|ledger| - 1], scope); }
  }

  lemma ReserveKeeps(s: State, e: Entry)
    requires Sound(s)
    ensures match Reserve(s.ledger, e)
            case Commit(ledger, _) => Sound(s.(ledger := ledger)) && (ledger == s.ledger || ledger == s.ledger + [e])
            case Abort(_) => true
  {
    var tx := Reserve(s.ledger, e);
    if tx.Commit? && tx.state != s.ledger {
      var after := tx.state;
      assert after[..|after| - 1] == s.ledger;
      forall y, m ensures Total(after, PlatformMonth(y, m)) < HARD_CAP {
        TotalNonNegative(s.ledger, PlatformMonth(y, m));
      }
    }
  }

  /** The decision and the reservation agree: what was accepted is always reserved. */
  lemma AcceptedIsReserved(s: State, tenant: string, q: Request, key: string, now: Moment, id: nat)
    requires Sound(s) && tenant in s.policies && 0 <= q.cost && Accepted(Judge(s, tenant, q, now)) && Keyed(s.ledger, tenant, key).None?
    ensures Reserve(s.ledger, Entry(tenant, id, q.cost, now, key))
            == Commit(s.ledger + [Entry(tenant, id, q.cost, now, key)], Entry(tenant, id, q.cost, now, key))
  {
    TotalNonNegative(s.ledger, MonthOf(now));
  }

  /** A replay changes nothing; a new run is stored with its receipt, and charged exactly when it is accepted. */
  ghost predicate RunRecorded(s: State, tenant: string, q: Request, key: string, now: Moment, t: State, id: nat) {
    if (tenant, key) in s.receipts then t == s && id == s.receipts[(tenant, key)].run
    else
      && tenant in s.policies && id == |s.runs|
      && (var outcome := Judge(s, tenant, q, now);
          && t.runs == s.runs + [AgentRun(tenant, q, if Accepted(outcome) then Some(q.cost) else None, outcome, now)]
          && t.ledger == s.ledger + (if Accepted(outcome) then [Entry(tenant, id, q.cost, now, key)] else []))
      && t.receipts == s.receipts[(tenant, key) := Receipt(q, id)] && t.policies == s.policies
  }

  /** Exactly which requests are recorded, and what that does to the state. */
  lemma NewRun(s: State, tenant: string, q: Request, key: string, now: Moment)
    requires Sound(s)
    ensures Record(s, tenant, q, key, now).Commit? <==>
              q.policyVersion >= 1 && q.toolCalls >= 0 && 0 <= q.cost < 0x8000_0000_0000_0000
              && if (tenant, key) in s.receipts then s.receipts[(tenant, key)].request == q
                 else Keyed(s.ledger, tenant, key).None? && tenant in s.policies && s.policies[tenant].version == q.policyVersion
                      && q.toolCalls <= s.policies[tenant].limits.toolCalls
    ensures Record(s, tenant, q, key, now).Commit? ==>
              RunRecorded(s, tenant, q, key, now, Record(s, tenant, q, key, now).state, Record(s, tenant, q, key, now).value)
  {
    hide Judge;
    if WellFormed(q) && (tenant, key) !in s.receipts && Keyed(s.ledger, tenant, key).None? && tenant in s.policies {
      if Accepted(Judge(s, tenant, q, now)) {
        AcceptedIsReserved(s, tenant, q, key, now, |s.runs|);
        hide Reserve;
        assert Reserve(s.ledger, Entry(tenant, |s.runs|, q.cost, now, key)).Commit?;
      }
    }
  }

  /** The decision in one line: within the tenant's own limits, below the hard
      cap, and, for growth work, below the warning line. Telemetry never blocks. */
  lemma AcceptanceExact(s: State, tenant: string, q: Request, now: Moment)
    requires Sound(s) && tenant in s.policies
    ensures var projected := Total(s.ledger, MonthOf(now)) + q.cost;
      Accepted(Judge(s, tenant, q, now)) <==>
        Fits(s, tenant, q.cost, now) && projected < 30_000 && (q.growth ==> projected < 24_000)
    ensures Judge(s, tenant, q, now) != BlockedTelemetry
  {
    hide Total, Count, RunsOf;
    TotalNonNegative(s.ledger, MonthOf(now));
  }

  /** The tenant's own four limits: what it may spend today and this month, how often today, and how many runs ever. */
  predicate Fits(s: State, tenant: string, cost: int, now: Moment)
    requires tenant in s.policies
  {
    var l := s.policies[tenant].limits;
    && Total(s.ledger, TenantDay(tenant, now.year, now.month, now.day)) + cost <= l.daily
    && Total(s.ledger, TenantMonth(tenant, now.year, now.month)) + cost <= l.monthly
    && Count(s.ledger, TenantDay(tenant, now.year, now.month, now.day)) + 1 <= l.generations
    && RunsOf(s.runs, tenant) + 1 <= l.runs
  }

  /** Every outcome has its own reason: the hard cap before everything else, then growth work
      over the warning line, then the tenant's limits; what is accepted over that line says so. */
  lemma OutcomeExact(s: State, tenant: string, q: Request, now: Moment)
    requires Sound(s) && tenant in s.policies
    ensures var projected := Total(s.ledger, MonthOf(now)) + q.cost;
      match Judge(s, tenant, q, now)
      case BlockedHardCap => projected >= 30_000
      case BlockedWarning => 24_000 <= projected < 30_000 && q.growth
      case BlockedBudget => projected < 30_000 && (q.growth ==> projected < 24_000) && !Fits(s, tenant, q.cost, now)
      case RecordedWarning => 24_000 <= projected < 30_000 && !q.growth && Fits(s, tenant, q.cost, now)
      case Recorded => projected < 24_000 && Fits(s, tenant, q.cost, now)
      case BlockedTelemetry => false
  {
    hide Total, Count, RunsOf;
    TotalNonNegative(s.ledger, MonthOf(now));
  }

  /** The counts are numbers of rows. */
  ghost function RowsWithin(ledger: seq<Entry>, s: Scope): set<nat> { set i: nat | i < |ledger| && Within(ledger[i], s) }

  ghost function RunsBy(runs: seq<AgentRun>, tenant: string): set<nat> { set i: nat | i < |runs| && runs[i].tenant == tenant }

  lemma {:induction false} CountIs(ledger: seq<Entry>, s: Scope)
    ensures Count(ledger, s) == |RowsWithin(ledger, s)|
  {
    hide Within, Total;
    if ledger == [] {
      assert RowsWithin(ledger, s) == {};
    } else {
      var n := |ledger| - 1;
      CountIs(ledger[..n], s);
      assert RowsWithin(ledger, s) == RowsWithin(ledger[..n], s) + if Within(ledger[n], s) then {n} else {};
    }
  }

  lemma {:induction false} RunsOfIs(runs: seq<AgentRun>, tenant: string)
    ensures RunsOf(runs, tenant) == |RunsBy(runs, tenant)|
  {
    if runs == [] {
      assert RunsBy(runs, tenant) == {};
    } else {
      var n := |runs| - 1;
      RunsOfIs(runs[..n], tenant);
      assert RunsBy(runs, tenant) == RunsBy(runs[..n], tenant) + if runs[n].tenant == tenant then {n} else {};
    }
  }

  /** The first entry a tenant made under a key. */
  ghost predicate FirstUnder(ledger: seq<Entry>, tenant: string, key: string, i: nat) {
    i < |ledger| && ledger[i].tenant == tenant && ledger[i].key == key
    && forall j | 0 <= j < i :: !(ledger[j].tenant == tenant && ledger[j].key == key)
  }

  lemma {:induction false} KeyedIs(ledger: seq<Entry>, tenant: string, key: string)
    ensures Keyed(ledger, tenant, key).None? <==> forall i | 0 <= i < |ledger| :: !(ledger[i].tenant == tenant && ledger[i].key == key)
    ensures Keyed(ledger, tenant, key).Some? ==> exists i: nat :: FirstUnder(ledger, tenant, key, i) && ledger[i] == Keyed(ledger, tenant, key).value
  {
    if ledger != [] {
      var before := ledger[..|ledger| - 1];
      KeyedIs(before, tenant, key);
      assert forall i | 0 <= i < |before| :: before[i] == ledger[i];
      if Keyed(before, tenant, key).Some? {
        var i: nat :| FirstUnder(before, tenant, key, i) && before[i] == Keyed(before, tenant, key).value;
        assert FirstUnder(ledger, tenant, key, i);
      } else if Keyed(ledger, tenant, key).Some? {
        assert FirstUnder(ledger, tenant, key, |ledger| - 1);
      }
    }
  }

  /** An entry is reserved exactly below the cap, alone and with its month; its key then stands
      for that very entry: the same again changes nothing, anything else conflicts. */
  lemma ReserveExact(ledger: seq<Entry>, e: Entry, again: Entry)
    requires Keyed(ledger, e.tenant, e.key).None? && again.tenant == e.tenant && again.key == e.key
    ensures var tx := Reserve(ledger, e);
      && (tx.Commit? <==> 0 <= e.amount < 30_000 && Total(ledger, PlatformMonth(e.at.year, e.at.month)) + e.amount < 30_000)
      && (tx.Commit? ==> tx.state == ledger + [e] && tx.value == e
                         && Reserve(tx.state, again) == if again == e then Commit(tx.state, e) else Abort(Conflict))
  {
    hide Total;
    assert (ledger + [e])[..|ledger|] == ledger;
  }

  /** A policy is taken with limits in range only, as the tenant's next version; a request
      that still names the version before is refused. */
  lemma PolicyExact(s: State, tenant: string, l: Limits, q: Request, key: string, now: Moment)
    ensures var tx := SetPolicy(s, tenant, l);
      && (tx.Commit? <==>
            && 0 <= l.daily < 0x8000_0000_0000_0000 && 0 <= l.monthly < 0x8000_0000_0000_0000
            && 0 <= l.generations < 0x8000_0000_0000_0000 && 0 <= l.runs < 0x8000_0000_0000_0000
            && 0 < l.tokens < 0x8000_0000_0000_0000 && 0 < l.toolCalls < 0x8000_0000_0000_0000)
      && (tx.Commit? ==>
            && tx.state == s.(policies := tx.state.policies) && tx.state.policies.Keys == s.policies.Keys + {tenant}
            && tx.state.policies[tenant].limits == l
            && tx.state.policies[tenant].version == (if tenant in s.policies then s.policies[tenant].version + 1 else 1)
            && (forall t | t in s.policies && t != tenant :: tx.state.policies[t] == s.policies[t])
            && ((tenant, key) !in s.receipts && q.policyVersion != tx.state.policies[tenant].version ==> Record(tx.state, tenant, q, key, now).Abort?))
  {
    hide Judge, Reserve;
  }

  lemma StepKeeps(s: State, step: Step)
    requires Sound(s)
    ensures Sound(Apply(s, step))
  {
    match step
    case Configure(_, _) =>
    case Direct(e) => ReserveKeeps(s, e);
    case Perform(tenant, q, key, now) =>
      var tx := Record(s, tenant, q, key, now);
      NewRun(s, tenant, q, key, now);
      hide Record;
      if tx.Commit? && (tenant, key) !in s.receipts {
        if Accepted(Judge(s, tenant, q, now)) {
          var e := Entry(tenant, |s.runs|, q.cost, now, key);
          AcceptedIsReserved(s, tenant, q, key, now, |s.runs|);
          assert Reserve(s.ledger, e).Commit?;
          ReserveKeeps(s, e);
          assert Sound(s.(ledger := s.ledger + [e]));
        } else {
          assert tx.state.ledger == s.ledger;
        }
      }
  }

  /** Over all tenants, interleavings and clock readings, no month reaches the hard cap. */
  lemma {:induction false} CapHolds(steps: seq<Step>)
    ensures Sound(Run(Empty(), steps))
    ensures forall y, m :: 0 <= Total(Run(Empty(), steps).ledger, PlatformMonth(y, m)) < HARD_CAP
  {
    if steps != [] {
      CapHolds(steps[..|steps| - 1]);
      StepKeeps(Run(Empty(), steps[..|steps| - 1]), steps[|steps| - 1]);
    }
    forall y, m ensures 0 <= Total(Run(Empty(), steps).ledger, PlatformMonth(y, m)) {
      TotalNonNegative(Run(Empty(), steps).ledger, PlatformMonth(y, m));
    }
  }

  function Charged(runs: seq<AgentRun>): int {
    if runs == [] then 0
    else Charged(runs[..|runs| - 1]) + if runs[|runs| - 1].charged.Some? then runs[|runs| - 1].charged.value else 0
  }

  /** What was reserved without a run. */
  function ReservedDirectly(s: State, steps: seq<Step>): int {
    if steps == [] then 0
    else
      var before := steps[..|steps| - 1];
      ReservedDirectly(s, before)
      + if steps[|steps| - 1].Direct? && Run(s, steps).ledger != Run(s, before).ledger then steps[|steps| - 1].entry.amount else 0
  }

  lemma {:induction false} LedgerIsCharges(steps: seq<Step>)
    ensures var s := Run(Empty(), steps); Total(s.ledger, Everything) == Charged(s.runs) + ReservedDirectly(Empty(), steps)
  {
    if steps != [] {
      var before := Run(Empty(), steps[..|steps| - 1]);
      LedgerIsCharges(steps[..|steps| - 1]);
      CapHolds(steps[..|steps| - 1]);
      StepBalances(before, steps[|steps| - 1]);
    }
  }

  lemma StepBalances(s: State, step: Step)
    requires Sound(s)
    ensures var t := Apply(s, step);
      Total(t.ledger, Everything) - Charged(t.runs)
      == Total(s.ledger, Everything) - Charged(s.runs) + if step.Direct? && t.ledger != s.ledger then step.entry.amount else 0
  {
    var t := Apply(s, step);
    match step
    case Configure(_, _) =>
    case Direct(e) =>
      ReserveKeeps(s, e);
      if t.ledger != s.ledger { assert t.ledger[..|t.ledger| - 1] == s.ledger; }
    case Perform(tenant, q, key, now) =>
      NewRun(s, tenant, q, key, now);
      hide Record;
      if t.runs != s.runs { assert t.runs[..|t.runs| - 1] == s.runs; }
      if t.ledger != s.ledger { assert t.ledger[..|t.ledger| - 1] == s.ledger; }
  }

  lemma StepExtends(s: State, step: Step)
    requires Sound(s)
    ensures var t := Apply(s, step);
      s.ledger <= t.ledger && s.runs <= t.runs && forall k | k in s.receipts :: k in t.receipts && t.receipts[k] == s.receipts[k]
  {
    match step
    case Configure(_, _) =>
    case Direct(e) => ReserveKeeps(s, e);
    case Perform(tenant, q, key, now) =>
      NewRun(s, tenant, q, key, now);
      hide Record;
  }

  lemma {:induction false} RunExtends(s: State, steps: seq<Step>)
    requires Sound(s)
    ensures var t := Run(s, steps);
      Sound(t) && s.ledger <= t.ledger && s.runs <= t.runs && forall k | k in s.receipts :: k in t.receipts && t.receipts[k] == s.receipts[k]
  {
    if steps != [] {
      RunExtends(s, steps[..|steps| - 1]);
      StepKeeps(Run(s, steps[..|steps| - 1]), steps[|steps| - 1]);
      StepExtends(Run(s, steps[..|steps| - 1]), steps[|steps| - 1]);
    }
  }

  /** Repeating a request under its key changes nothing and returns the same run,
      whatever happened in between; another request under that key is refused. */
  lemma ReplayChangesNothing(s: State, tenant: string, q: Request, key: string, now: Moment, steps: seq<Step>, other: Request, later: Moment)
    requires Sound(s) && Record(s, tenant, q, key, now).Commit?
    ensures var (first, t) := (Record(s, tenant, q, key, now), Run(Record(s, tenant, q, key, now).state, steps));
      && Record(t, tenant, q, key, later) == Commit(t, first.value)
      && (other != q ==> Record(t, tenant, other, key, later) == Abort(Conflict))
  {
    var first := Record(s, tenant, q, key, now);
    NewRun(s, tenant, q, key, now);
    StepKeeps(s, Perform(tenant, q, key, now));
    RunExtends(first.state, steps);
  }

  predicate Touches(step: Step, tenant: string) {
    (step.Configure? && step.tenant == tenant) || (step.Direct? && step.entry.tenant == tenant)
  }

  /** What an unchanged policy keeps a tenant's day and month below. */
  ghost predicate TenantBounded(s: State, t: State, tenant: string, y: int, m: int, d: int)
    requires tenant in s.policies
  {
    var (l, day, month) := (s.policies[tenant].limits, TenantDay(tenant, y, m, d), TenantMonth(tenant, y, m));
    && tenant in t.policies && t.policies[tenant] == s.policies[tenant]
    && Total(t.ledger, day) <= Max(Total(s.ledger, day), l.daily)
    && Total(t.ledger, month) <= Max(Total(s.ledger, month), l.monthly)
    && Count(t.ledger, day) <= Max(Count(s.ledger, day), l.generations)
  }

  lemma StepBounded(s: State, step: Step, tenant: string, y: int, m: int, d: int)
    requires Sound(s) && tenant in s.policies && !Touches(step, tenant)
    ensures TenantBounded(s, Apply(s, step), tenant, y, m, d)
  {
    var t := Apply(s, step);
    match step
    case Configure(_, _) =>
    case Direct(e) =>
      ReserveKeeps(s, e);
      if t.ledger != s.ledger { assert t.ledger[..|t.ledger| - 1] == s.ledger; }
    case Perform(payer, q, key, now) =>
      NewRun(s, payer, q, key, now);
      if t.ledger != s.ledger {
        AcceptanceExact(s, payer, q, now);
        assert t.ledger[..|t.ledger| - 1] == s.ledger;
      }
      hide Record, Judge;
  }

  /** A tenant whose policy stays as it is never exceeds its own limits by new runs, whatever others do. */
  lemma {:induction false} TenantWithinLimits(s: State, steps: seq<Step>, tenant: string, y: int, m: int, d: int)
    requires Sound(s) && tenant in s.policies
    requires forall i | 0 <= i < |steps| :: !Touches(steps[i], tenant)
    ensures TenantBounded(s, Run(s, steps), tenant, y, m, d)
  {
    if steps != [] {
      var shorter := steps[..|steps| - 1];
      TenantWithinLimits(s, shorter, tenant, y, m, d);
      RunExtends(s, shorter);
      StepBounded(Run(s, shorter), steps[|steps| - 1], tenant, y, m, d);
    }
  }

  /** Every entry belongs to the accepted run that was charged for it; growth work
      was reserved only while the month, itself included, stayed below the warning line. */
  ghost predicate GrowthBelowWarning(s: State) {
    forall i | 0 <= i < |s.ledger| :: EntryOk(s, i)
  }

  lemma {:induction false} GrowthStopsAtWarning(steps: seq<Step>)
    requires forall i | 0 <= i < |steps| :: !steps[i].Direct?
    ensures GrowthBelowWarning(Run(Empty(), steps))
  {
    if steps != [] {
      var shorter := steps[..|steps| - 1];
      GrowthStopsAtWarning(shorter);
      CapHolds(shorter);
      GrowthStep(Run(Empty(), shorter), steps[|steps| - 1]);
    }
  }

  lemma GrowthStep(s: State, step: Step)
    requires Sound(s) && GrowthBelowWarning(s) && !step.Direct?
    ensures GrowthBelowWarning(Apply(s, step))
  {
    hide Record, Judge, Sound, TenantAllows;
    var t := Apply(s, step);
    if step.Perform? {
      NewRun(s, step.tenant, step.request, step.key, step.now);
      if t.ledger != s.ledger {
        AcceptanceExact(s, step.tenant, step.request, step.now);
        var e := t.ledger[|t.ledger| - 1];
        assert t.ledger == s.ledger + [e];
        LastEntryTotal(s.ledger, e);
        assert EntryOk(t, |s.ledger|);
      }
    }
    hide Total;
    forall i | 0 <= i < |s.ledger| ensures EntryOk(t, i) { EntryStays(s, t, i); }
  }

  /** An entry of an accepted run, within the growth line where that applies. */
  ghost predicate EntryOk(s: State, i: nat)
    requires i < |s.ledger|
  {
    && s.ledger[i].run < |s.runs| && s.runs[s.ledger[i].run].charged == Some(s.ledger[i].amount)
    && (s.runs[s.ledger[i].run].request.growth ==> Total(s.ledger[..i + 1], MonthOf(s.ledger[i].at)) < WARNING)
  }

  lemma EntryStays(s: State, t: State, i: nat)
    requires i < |s.ledger| && s.ledger <= t.ledger && s.runs <= t.runs && EntryOk(s, i)
    ensures EntryOk(t, i)
  {
    assert t.ledger[..i + 1] == s.ledger[..i + 1];
  }

  lemma LastEntryTotal(ledger: seq<Entry>, e: Entry)
    ensures var all := ledger + [e];
      Total(all[..|ledger| + 1], MonthOf(e.at)) == Total(ledger, MonthOf(e.at)) + e.amount
  {
    var all := ledger + [e];
    assert all[..|ledger| + 1] == all && all[..|ledger|] == ledger;
  }
}
