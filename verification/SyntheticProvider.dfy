/** synthetic_provider.py: the durable effect ledger, independent of the service's own database. */
module SyntheticProvider {
  import opened Common
  import opened Domain

  /** The operation key: the digest of tenant and command (operation version 1). */
  datatype OpKey = OpKey(tenant: string, command: nat)

  datatype Kind = FoundSuccess | FoundFailure | Absent | Inconclusive

  datatype Mode = SuccessMode | Refusal | TimeoutBefore | TimeoutAfter | DelayedLookup | LookupUnavailable | StaleResponse

  datatype Row = Row(intent: Material, kind: Kind, hidden: nat)

  type Ledger = map<OpKey, Row>

  /** The provider reference is a hash of the operation key. */
  datatype Observation = Observation(kind: Kind, reference: Option<OpKey>, authoritative: bool)

  /** A call returns, times out, or refuses a key bound to another intent. */
  datatype Reply = Answer(observation: Observation) | Timeout | BindingConflict

  function Execute(ledger: Ledger, mode: Mode, key: OpKey, intent: Material): (Ledger, Reply) {
    if key in ledger && ledger[key].intent != intent then (ledger, BindingConflict)
    else if key !in ledger && mode == TimeoutBefore then (ledger, Timeout)
    else
      var after := if key in ledger then ledger else
        ledger[key := Row(intent, if mode == Refusal then FoundFailure else FoundSuccess,
                          if mode == DelayedLookup then 1 else 0)];
      if mode in {TimeoutAfter, DelayedLookup, LookupUnavailable} then (after, Timeout)
      else if mode == StaleResponse then (after, Answer(Observation(Inconclusive, None, false)))
      else (after, Answer(Observation(after[key].kind, Some(key), false)))
  }

  function Lookup(ledger: Ledger, mode: Mode, absence: bool, key: OpKey, intent: Material): (Ledger, Reply) {
    if key in ledger && ledger[key].intent != intent then (ledger, BindingConflict)
    else if mode in {LookupUnavailable, StaleResponse} then (ledger, Answer(Observation(Inconclusive, None, false)))
    else if key !in ledger then (ledger, Answer(Observation(Absent, None, absence)))
    else if ledger[key].hidden > 0 then
      (ledger[key := ledger[key].(hidden := ledger[key].hidden - 1)], Answer(Observation(Inconclusive, None, false)))
    else (ledger, Answer(Observation(ledger[key].kind, Some(key), false)))
  }

  /** What is recorded of a reply: a lost one counts as inconclusive. */
  function HeardFrom(reply: Reply): Observation {
    if reply.Answer? then reply.observation else Observation(Inconclusive, None, false)
  }

  /** What no call ever takes back: rows stay, with their intent and kind. */
  ghost predicate Keeps(before: Ledger, after: Ledger) {
    forall k | k in before :: k in after && after[k].intent == before[k].intent && after[k].kind == before[k].kind
  }

  /** An observation is truthful when a positive verdict rests on a row of that kind bound to the intent. */
  ghost predicate Truthful(ledger: Ledger, key: OpKey, intent: Material, o: Observation) {
    o.kind in {FoundSuccess, FoundFailure} ==> key in ledger && ledger[key].intent == intent && ledger[key].kind == o.kind
  }

  /** Every row is a definite outcome. */
  ghost predicate Definite(ledger: Ledger) {
    forall k | k in ledger :: ledger[k].kind in {FoundSuccess, FoundFailure}
  }

  /** Execution is idempotent per key and never reports absence; only a fresh key can gain a
      row, and gains it in every mode but one, a failure exactly when the provider refuses. */
  lemma ExecuteOnce(ledger: Ledger, mode: Mode, key: OpKey, intent: Material)
    requires Definite(ledger)
    ensures var (after, reply) := Execute(ledger, mode, key, intent);
      && Keeps(ledger, after) && Definite(after)
      && after.Keys <= ledger.Keys + {key}
      && (key in ledger ==> after == ledger)
      && (key !in ledger ==> (key in after <==> mode != TimeoutBefore))
      && (key in after && key !in ledger ==>
            after[key].intent == intent && (after[key].kind == FoundFailure <==> mode == Refusal) && after[key].hidden == if mode == DelayedLookup then 1 else 0)
      && (reply.BindingConflict? <==> key in ledger && ledger[key].intent != intent)
      && (reply.Answer? ==> reply.observation.kind != Absent && Truthful(after, key, intent, reply.observation))
      && (forall again :: Execute(after, again, key, intent).0 == after || key !in after)
  {}

  /** A lookup never creates an effect; absence is reported only while there is no row. */
  lemma LookupReadsOnly(ledger: Ledger, mode: Mode, absence: bool, key: OpKey, intent: Material)
    requires Definite(ledger)
    ensures var (after, reply) := Lookup(ledger, mode, absence, key, intent);
      && Keeps(ledger, after) && Definite(after) && after.Keys == ledger.Keys
      && (reply.BindingConflict? <==> key in ledger && ledger[key].intent != intent)
      && !reply.Timeout?
      && (reply.Answer? ==> Truthful(after, key, intent, reply.observation))
      && (reply.Answer? && reply.observation.kind == Absent ==> key !in ledger)
      && (reply.Answer? && reply.observation.authoritative ==> reply.observation.kind == Absent && absence)
  {}

  /** A lookup hides an existing effect at most `hidden` times: after that many
      lookups in a mode that answers, the true outcome is reported. */
  lemma {:induction false} HiddenRunsOut(ledger: Ledger, key: OpKey, intent: Material)
    requires key in ledger && ledger[key].intent == intent
    ensures Lookup(AfterLookups(ledger, key, intent, ledger[key].hidden), SuccessMode, false, key, intent).1
            == Answer(Observation(ledger[key].kind, Some(key), false))
    decreases ledger[key].hidden
  {
    if ledger[key].hidden > 0 {
      HiddenRunsOut(Lookup(ledger, SuccessMode, false, key, intent).0, key, intent);
    }
  }

  function AfterLookups(ledger: Ledger, key: OpKey, intent: Material, n: nat): Ledger
    decreases n
  {
    if n == 0 then ledger else AfterLookups(Lookup(ledger, SuccessMode, false, key, intent).0, key, intent, n - 1)
  }

  class DurableSyntheticProvider {
    const version := "synthetic-v1"
    /** The file that holds the ledger, resolved. */
    const path: string
    var ledger: Ledger
    var mode: Mode
    var authoritativeAbsence: bool

    constructor (path: string, mode: Mode, authoritativeAbsence: bool)
      ensures this.path == path && ledger == map[] && this.mode == mode && this.authoritativeAbsence == authoritativeAbsence
    {
      this.path, ledger := path, map[];
      this.mode := mode;
      this.authoritativeAbsence := authoritativeAbsence;
    }

    method ExecuteCall(key: OpKey, intent: Material) returns (reply: Reply)
      modifies this`ledger
      ensures (ledger, reply) == Execute(old(ledger), mode, key, intent)
    {
      if key in ledger {
        if ledger[key].intent != intent { return BindingConflict; }
      } else {
        if mode == TimeoutBefore { return Timeout; }
        var kind := if mode == Refusal then FoundFailure else FoundSuccess;
        ledger := ledger[key := Row(intent, kind, if mode == DelayedLookup then 1 else 0)];
      }
      if mode in {TimeoutAfter, DelayedLookup, LookupUnavailable} { return Timeout; }
      if mode == StaleResponse { return Answer(Observation(Inconclusive, None, false)); }
      reply := Answer(Observation(ledger[key].kind, Some(key), false));
    }

    method LookupCall(key: OpKey, intent: Material) returns (reply: Reply)
      modifies this`ledger
      ensures (ledger, reply) == Lookup(old(ledger), mode, authoritativeAbsence, key, intent)
    {
      if key in ledger && ledger[key].intent != intent { return BindingConflict; }
      if mode in {LookupUnavailable, StaleResponse} { return Answer(Observation(Inconclusive, None, false)); }
      if key !in ledger { return Answer(Observation(Absent, None, authoritativeAbsence)); }
      if ledger[key].hidden > 0 {
        ledger := ledger[key := ledger[key].(hidden := ledger[key].hidden - 1)];
        return Answer(Observation(Inconclusive, None, false));
      }
      reply := Answer(Observation(ledger[key].kind, Some(key), false));
    }
  }
}
