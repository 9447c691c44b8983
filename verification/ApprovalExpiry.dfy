/** approvals.py: the sweep that expires due approvals in bounded batches, and the
    approval machine it is one step of. */
module ApprovalExpiry {
  import opened Common
  import opened Domain
  import opened Text
  import opened ControlPlane
  import opened ExecutionSafety
  import opened PurchaseSafety
  import opened StoreService
  import E = ExactlyOnce

  const BATCH_MAX := 1000

  /** The random identifiers of the approvals, by row. */
  type Ids = nat -> string

  ghost predicate Distinct(ids: Ids) { forall c: nat, d: nat | ids(c) == ids(d) :: c == d }

  predicate IsDue(approvals: seq<Approval>, c: nat, now: int) {
    c < |approvals| && approvals[c].state == Pending && approvals[c].expiresAt <= now
  }

  /** The sweep's order: earliest expiry first, then by identifier. */
  predicate Sooner(ids: Ids, approvals: seq<Approval>, c: nat, d: nat)
    requires c < |approvals| && d < |approvals|
  {
    approvals[c].expiresAt < approvals[d].expiresAt || (approvals[c].expiresAt == approvals[d].expiresAt && Less(ids(c), ids(d)))
  }

  ghost predicate Ordered(ids: Ids, approvals: seq<Approval>, rows: seq<nat>) {
    && (forall i | 0 <= i < |rows| :: rows[i] < |approvals|)
    && (forall i, j | 0 <= i < j < |rows| :: Sooner(ids, approvals, rows[i], rows[j]))
  }

  /** A row put where the order wants it. */
  function Place(ids: Ids, approvals: seq<Approval>, c: nat, rows: seq<nat>): (placed: seq<nat>)
    requires c < |approvals| && forall i | 0 <= i < |rows| :: rows[i] < |approvals|
    ensures forall i | 0 <= i < |placed| :: placed[i] < |approvals|
  {
    if rows == [] || Sooner(ids, approvals, c, rows[0]) then [c] + rows else [rows[0]] + Place(ids, approvals, c, rows[1..])
  }

  function DueAmong(ids: Ids, approvals: seq<Approval>, now: int, n: nat): (rows: seq<nat>)
    requires n <= |approvals|
    ensures forall i | 0 <= i < |rows| :: rows[i] < |approvals|
  {
    if n == 0 then []
    else if IsDue(approvals, n - 1, now) then Place(ids, approvals, n - 1, DueAmong(ids, approvals, now, n - 1))
    else DueAmong(ids, approvals, now, n - 1)
  }

  function Due(ids: Ids, p: Plane, now: int): seq<nat> { DueAmong(ids, p.approvals, now, |p.approvals|) }

  function Batch(ids: Ids, p: Plane, now: int, limit: nat): seq<nat> {
    if |Due(ids, p, now)| <= limit then Due(ids, p, now) else Due(ids, p, now)[..limit]
  }

  /** The rows one after the other, in one transaction; the value lists those that were still due. */
  function SweepRows(p: Plane, rows: seq<nat>, now: int): Tx<Plane, seq<nat>> {
    if rows == [] then Commit(p, [])
    else
      var (q, expired) :- SweepRows(p, rows[..|rows| - 1], now);
      var c := rows[|rows| - 1];
      var (r, done) :- ExpireDue(q, c, now);
      Commit(r, if done then expired + [c] else expired)
  }

  function Sweep(ids: Ids, p: Plane, limit: int, now: int): Tx<Plane, seq<nat>> {
    var bounded := 1 <= limit <= BATCH_MAX;
    :- Need(bounded, Conflict);
    SweepRows(p, Batch(ids, p, now, limit), now)
  }

  // --------------------------------------------------------------- the object form

  /** The pending approvals that are due, in order. */
  method DueApprovals(ids: Ids, service: StoreControlPlane, now: int, limit: nat) returns (due: seq<nat>)
    ensures due == Batch(ids, service.View(), now, limit)
  {
    due := [];
    for i := 0 to |service.approvals|
      invariant due == DueAmong(ids, service.approvals, now, i)
    {
      if service.approvals[i].state == Pending && service.approvals[i].expiresAt <= now {
        due := Place(ids, service.approvals, i, due);
      }
    }
    if |due| > limit { due := due[..limit]; }
  }

  /** A failure on the way takes the whole batch back. */
  method ExpireDueApprovals(ids: Ids, service: StoreControlPlane, limit: int, now: int) returns (r: Result<seq<nat>>)
    modifies service
    ensures Ran(Sweep(ids, old(service.View()), limit, now), old(service.View()), service.View(), r)
  {
    hide ExpireDue;
    if limit < 1 || limit > BATCH_MAX { return Err(Conflict); }
    ghost var before := service.View();
    var snapshot := service.View();
    var due := DueApprovals(ids, service, now, limit);
    var expired := [];
    for i := 0 to |due|
      invariant SweepRows(before, due[..i], now) == Commit(service.View(), expired)
    {
      assert due[..i + 1][..i] == due[..i];
      var one := service.ExpireDue(due[i], now);
      if one.Err? {
        assert SweepRows(before, due[..i + 1], now) == Abort(one.failure);
        SweepStops(before, due, i + 1, now);
        service.Restore(snapshot);
        return Err(one.failure);
      }
      if one.value { expired := expired + [due[i]]; }
    }
    assert due[..|due|] == due;
    r := Ok(expired);
  }

  lemma {:induction false} SweepStops(p: Plane, rows: seq<nat>, n: nat, now: int)
    requires n <= |rows| && SweepRows(p, rows[..n], now).Abort?
    ensures SweepRows(p, rows, now) == SweepRows(p, rows[..n], now)
  {
    if n == |rows| {
      assert rows[..n] == rows;
    } else {
      assert rows[..|rows| - 1][..n] == rows[..n];
      SweepStops(p, rows[..|rows| - 1], n, now);
    }
  }

  // ------------------------------------------------------------ what a batch holds

  lemma SoonerTotal(ids: Ids, approvals: seq<Approval>, c: nat, d: nat)
    requires Distinct(ids) && c < |approvals| && d < |approvals| && c != d
    ensures Sooner(ids, approvals, c, d) || Sooner(ids, approvals, d, c)
  {
    LessTotal(ids(c), ids(d));
  }

  lemma SoonerChain(ids: Ids, approvals: seq<Approval>, c: nat, d: nat, e: nat)
    requires c < |approvals| && d < |approvals| && e < |approvals| && Sooner(ids, approvals, c, d) && Sooner(ids, approvals, d, e)
    ensures Sooner(ids, approvals, c, e)
  {
    if approvals[c].expiresAt == approvals[e].expiresAt { LessTransitive(ids(c), ids(d), ids(e)); }
  }

  lemma SoonerApart(ids: Ids, approvals: seq<Approval>, c: nat, d: nat)
    requires c < |approvals| && d < |approvals| && Sooner(ids, approvals, c, d)
    ensures c != d && !Sooner(ids, approvals, d, c)
  {
    LessIrreflexive(ids(c));
    if Sooner(ids, approvals, d, c) { SoonerChain(ids, approvals, c, d, c); }
  }

  lemma {:induction false} PlaceKeepsOrder(ids: Ids, approvals: seq<Approval>, c: nat, rows: seq<nat>)
    requires Distinct(ids)
    requires c < |approvals| && Ordered(ids, approvals, rows) && c !in rows
    ensures Ordered(ids, approvals, Place(ids, approvals, c, rows)) && |Place(ids, approvals, c, rows)| == |rows| + 1
    ensures forall d :: d in Place(ids, approvals, c, rows) <==> d == c || d in rows
  {
    hide Sooner, Distinct;
    if rows == [] {
    } else if Sooner(ids, approvals, c, rows[0]) {
      forall k | 0 <= k < |rows| ensures Sooner(ids, approvals, c, rows[k]) {
        if k > 0 { SoonerChain(ids, approvals, c, rows[0], rows[k]); }
      }
    } else {
      var rest := rows[1..];
      assert rows == [rows[0]] + rest && rows[0] in rows;
      SoonerTotal(ids, approvals, c, rows[0]);
      PlaceKeepsOrder(ids, approvals, c, rest);
      var placed := Place(ids, approvals, c, rest);
      forall k | 0 <= k < |placed| ensures Sooner(ids, approvals, rows[0], placed[k]) {
        assert placed[k] in placed;
        if placed[k] != c {
          var i :| 0 <= i < |rest| && rest[i] == placed[k];
          assert rows[i + 1] == placed[k];
        }
      }
    }
  }

  lemma EmptyOrdered(ids: Ids, approvals: seq<Approval>)
    ensures Ordered(ids, approvals, [])
  {}

  /** The due approvals, each once, earliest first. */
  lemma {:induction false} DueAmongIs(ids: Ids, approvals: seq<Approval>, now: int, n: nat)
    requires Distinct(ids)
    requires n <= |approvals|
    ensures Ordered(ids, approvals, DueAmong(ids, approvals, now, n))
    ensures forall c: nat :: c in DueAmong(ids, approvals, now, n) <==> c < n && IsDue(approvals, c, now)
  {
    hide Sooner, Distinct, Ordered, Place;
    EmptyOrdered(ids, approvals);
    if n > 0 {
      DueAmongIs(ids, approvals, now, n - 1);
      if IsDue(approvals, n - 1, now) { PlaceKeepsOrder(ids, approvals, n - 1, DueAmong(ids, approvals, now, n - 1)); }
    }
  }

  /** A batch holds the earliest due approvals, as many as the limit allows: whatever
      due approval it leaves out comes after all it holds. */
  lemma BatchExact(ids: Ids, p: Plane, now: int, limit: nat)
    requires Distinct(ids)
    ensures var batch := Batch(ids, p, now, limit);
      && Ordered(ids, p.approvals, batch) && (forall c | c in batch :: IsDue(p.approvals, c, now))
      && |batch| == (if |Due(ids, p, now)| <= limit then |Due(ids, p, now)| else limit)
      && (forall c: nat, d | IsDue(p.approvals, c, now) && c !in batch && d in batch :: Sooner(ids, p.approvals, d, c))
  {
    DueAmongIs(ids, p.approvals, now, |p.approvals|);
    var (due, batch) := (Due(ids, p, now), Batch(ids, p, now, limit));
    assert forall c | c in batch :: c in due;
    forall c: nat, d | IsDue(p.approvals, c, now) && c !in batch && d in batch ensures Sooner(ids, p.approvals, d, c) {
      assert c in due;
      var i, j :| 0 <= i < |due| && 0 <= j < |batch| && due[i] == c && batch[j] == d;
      assert forall k | 0 <= k < |batch| :: batch[k] == due[k] && due[k] in batch;
      assert i >= |batch| && due[j] == d;
    }
  }

  // ---------------------------------------------------------------- what a sweep does

  /** An approval and its command are always in the same state. */
  ghost predicate Together(p: Plane) {
    |p.approvals| == |p.commands| && forall c | 0 <= c < |p.approvals| :: p.approvals[c].state == p.commands[c].state
  }

  /** Exactly these rows are expired and announced, and nothing else is touched. */
  ghost predicate SweptTo(p: Plane, q: Plane, rows: seq<nat>) {
    && q == p.(commands := q.commands, approvals := q.approvals, outbox := q.outbox)
    && |q.commands| == |p.commands| && |q.approvals| == |p.approvals|
    && (forall c | 0 <= c < |p.commands| :: q.commands[c] == if c in rows then p.commands[c].(state := Expired) else p.commands[c])
    && (forall c | 0 <= c < |p.approvals| :: q.approvals[c] == if c in rows then p.approvals[c].(state := Expired) else p.approvals[c])
    && (forall k :: k in q.outbox <==> k in p.outbox || (k.ApprovalExpired? && k.command in rows))
  }

  lemma {:induction false} SweepRowsExact(p: Plane, rows: seq<nat>, now: int)
    requires Together(p) && Announced(p) && (forall c | c in rows :: IsDue(p.approvals, c, now))
    requires forall i, j | 0 <= i < j < |rows| :: rows[i] != rows[j]
    ensures SweepRows(p, rows, now).Commit? && SweepRows(p, rows, now).value == rows && SweptTo(p, SweepRows(p, rows, now).state, rows)
  {
    if rows != [] {
      var (before, c) := (rows[..|rows| - 1], rows[|rows| - 1]);
      assert rows == before + [c] && c !in before;
      SweepRowsExact(p, before, now);
      var q := SweepRows(p, before, now).state;
      assert c in rows;
      assert q.approvals[c] == p.approvals[c] && q.commands[c] == p.commands[c] && ApprovalExpired(c) !in q.outbox;
      assert forall d :: d in rows <==> d in before || d == c;
    }
  }

  lemma OrderedApart(ids: Ids, approvals: seq<Approval>, rows: seq<nat>)
    requires Ordered(ids, approvals, rows)
    ensures forall i, j | 0 <= i < j < |rows| :: rows[i] != rows[j]
  {
    forall i, j | 0 <= i < j < |rows| ensures rows[i] != rows[j] { SoonerApart(ids, approvals, rows[i], rows[j]); }
  }

  /** A sweep succeeds exactly when its limit is allowed, expires exactly its batch,
      and leaves exactly the rest of the due approvals, in order, to the next one. */
  lemma SweepExact(ids: Ids, p: Plane, limit: int, now: int)
    requires Distinct(ids)
    requires Together(p) && Announced(p)
    ensures Sweep(ids, p, limit, now).Commit? <==> 1 <= limit <= BATCH_MAX
    ensures Sweep(ids, p, limit, now).Commit? ==>
              && Sweep(ids, p, limit, now).value == Batch(ids, p, now, limit)
              && SweptTo(p, Sweep(ids, p, limit, now).state, Batch(ids, p, now, limit))
              && Due(ids, Sweep(ids, p, limit, now).state, now) == Due(ids, p, now)[|Batch(ids, p, now, limit)|..]
  {
    if 1 <= limit <= BATCH_MAX {
      var batch := Batch(ids, p, now, limit);
      BatchExact(ids, p, now, limit);
      OrderedApart(ids, p.approvals, batch);
      SweepRowsExact(p, batch, now);
      RestIsDue(ids, p, Sweep(ids, p, limit, now).state, now, |batch|);
    }
  }

  lemma RestIsDue(ids: Ids, p: Plane, q: Plane, now: int, n: nat)
    requires Distinct(ids)
    requires n <= |Due(ids, p, now)| && SweptTo(p, q, Due(ids, p, now)[..n])
    ensures Due(ids, q, now) == Due(ids, p, now)[n..]
  {
    var due := Due(ids, p, now);
    DueAmongIs(ids, p.approvals, now, |p.approvals|);
    DueAmongIs(ids, q.approvals, now, |q.approvals|);
    OrderedApart(ids, p.approvals, due);
    assert Ordered(ids, q.approvals, due[n..]) by {
      forall i, j | 0 <= i < j < |due[n..]| ensures Sooner(ids, q.approvals, due[n..][i], due[n..][j]) {
        assert Sooner(ids, p.approvals, due[n + i], due[n + j]);
      }
    }
    forall c: nat ensures c in Due(ids, q, now) <==> c in due[n..] {
      SplitMembers(due, n, c);
      assert IsDue(q.approvals, c, now) <==> IsDue(p.approvals, c, now) && c !in due[..n];
    }
    SameOrder(ids, q.approvals, Due(ids, q, now), due[n..]);
  }

  /** Two ordered lists of the same rows are the same list. */
  lemma {:induction false} SameOrder(ids: Ids, approvals: seq<Approval>, a: seq<nat>, b: seq<nat>)
    requires Ordered(ids, approvals, a) && Ordered(ids, approvals, b) && forall c: nat :: c in a <==> c in b
    ensures a == b
  {
    if a == [] {
      NothingIn(b);
    } else {
      assert a[0] in b;
      var k :| 0 <= k < |b| && b[k] == a[0];
      assert b[0] in b;
      HeadIsLeast(ids, approvals, a, b[0]);
      HeadIsLeast(ids, approvals, b, a[0]);
      if a[0] != b[0] { SoonerApart(ids, approvals, a[0], b[0]); }
      OrderedApart(ids, approvals, a);
      OrderedApart(ids, approvals, b);
      forall c: nat ensures c in a[1..] <==> c in b[1..] { RestOf(a, c); RestOf(b, c); }
      SameOrder(ids, approvals, a[1..], b[1..]);
    }
  }

  lemma NothingIn(b: seq<nat>)
    requires forall c: nat :: c !in b
    ensures b == []
  {
    var first := if b == [] then 0 else b[0];
    assert first !in b;
  }

  lemma HeadIsLeast(ids: Ids, approvals: seq<Approval>, a: seq<nat>, c: nat)
    requires Ordered(ids, approvals, a) && c in a
    ensures c == a[0] || Sooner(ids, approvals, a[0], c)
  {
    var i :| 0 <= i < |a| && a[i] == c;
    assert i > 0 ==> Sooner(ids, approvals, a[0], a[i]);
  }

  lemma SplitMembers(s: seq<nat>, n: nat, c: nat)
    requires n <= |s| && forall i, j | 0 <= i < j < |s| :: s[i] != s[j]
    ensures c in s[n..] <==> c in s && c !in s[..n]
  {
    assert s == s[..n] + s[n..];
  }

  lemma RestOf(a: seq<nat>, c: nat)
    requires a != [] && forall i, j | 0 <= i < j < |a| :: a[i] != a[j]
    ensures c in a[1..] <==> c in a && c != a[0]
  {
    assert a == [a[0]] + a[1..];
  }

  /** A sweep is a run of single expiries, so what holds of those holds of it. */
  lemma {:induction false} SweepIsExpiries(p: Plane, rows: seq<nat>, now: int)
    requires SweepRows(p, rows, now).Commit?
    ensures SweepRows(p, rows, now).state == PlaneRun(p, seq(|rows|, i requires 0 <= i < |rows| => E.ExpireStep(rows[i], now)))
  {
    var steps := seq(|rows|, i requires 0 <= i < |rows| => E.ExpireStep(rows[i], now));
    if rows != [] {
      var before := rows[..|rows| - 1];
      SweepIsExpiries(p, before, now);
      assert steps[..|steps| - 1] == seq(|before|, i requires 0 <= i < |before| => E.ExpireStep(before[i], now));
    }
  }

  function PlaneRun(p: Plane, steps: seq<E.Step>): Plane {
    if steps == [] then p else E.PlaneAfter(PlaneRun(p, steps[..|steps| - 1]), steps[|steps| - 1])
  }

  // ------------------------------------------------------------- the approval machine

  /** Any operation on the approval tables, or a sweep. */
  datatype Act = One(step: E.Step) | Sweeping(ids: Ids, limit: int, now: int)

  ghost predicate OnApprovals(act: Act) {
    match act case One(step) => E.PlaneStep(step) case Sweeping(ids, _, _) => Distinct(ids)
  }

  function Apply(p: Plane, act: Act): Plane {
    match act
    case One(step) => E.PlaneAfter(p, step)
    case Sweeping(ids, limit, now) => (match Sweep(ids, p, limit, now) case Commit(q, _) => q case Abort(_) => p)
  }

  function After(acts: seq<Act>): Plane {
    if acts == [] then EmptyPlane() else Apply(After(acts[..|acts| - 1]), acts[|acts| - 1])
  }

  /** How an approval may move: out of pending once, and from approved only to superseded. */
  predicate Later(s: DecisionState, t: DecisionState) { s == t || s == Pending || (s == Approved && t == Superseded) }

  ghost predicate Onward(p: Plane, q: Plane) {
    |p.approvals| <= |q.approvals| && forall c | 0 <= c < |p.approvals| :: Later(p.approvals[c].state, q.approvals[c].state)
  }

  ghost predicate Healthy(p: Plane) { PlaneSound(p) && Together(p) }

  lemma SoundIs(p: Plane)
    requires PlaneSound(p)
    ensures PlaneInv(p) && Announced(p)
  {}

  lemma Changed(p: Plane, c: nat, s: DecisionState, decider: Option<string>, outbox: set<OutKey>)
    requires Together(p) && c < |p.commands| && Later(p.approvals[c].state, s)
    ensures var q := SetState(p.(outbox := outbox), c, s, decider); Together(q) && Onward(p, q)
  {}

  lemma CreateTogether(p: Plane, ctx: Context, kind: ApprovalKind, target: string, payload: Payload, key: CommandKey, evidence: string, now: int)
    requires Together(p)
    ensures var tx := CreateCommand(p, ctx, kind, target, payload, key, evidence, now); tx.Commit? ==> Together(tx.state) && Onward(p, tx.state)
  {
    hide Require;
  }

  lemma StepTogether(p: Plane, step: E.Step)
    requires Together(p) && E.PlaneStep(step)
    ensures Together(E.PlaneAfter(p, step)) && Onward(p, E.PlaneAfter(p, step))
  {
    hide RequestApproval, Decide, Supersede, ExpireDue, Together, Onward;
    match step {
      case RequestStep(ctx, kind, target, payload, key, pv, tv, evidence, now) =>
        RequestTogether(p, ctx, kind, target, payload, key, pv, tv, evidence, now);
      case DecideStep(ctx, c, approve, now) => DecideTogether(p, ctx, c, approve, now);
      case SupersedeStep(ctx, c, payload, key, now) => SupersedeTogether(p, ctx, c, payload, key, now);
      case ExpireStep(c, now) => ExpireTogether(p, c, now);
      case _ => EnvironmentTogether(p, step);
    }
    Reflexive(p);
  }

  lemma Reflexive(p: Plane)
    ensures Onward(p, p)
  {}

  lemma EnvironmentTogether(p: Plane, step: E.Step)
    requires Together(p)
    ensures Together(E.Environment(p, step)) && Onward(p, E.Environment(p, step))
  {}

  lemma RequestTogether(p: Plane, ctx: Context, kind: ApprovalKind, target: string, payload: Payload, key: CommandKey,
                        policyVersion: int, targetVersion: int, evidence: string, now: int)
    requires Together(p)
    ensures var tx := RequestApproval(p, ctx, kind, target, payload, key, policyVersion, targetVersion, evidence, now);
      tx.Commit? ==> Together(tx.state) && Onward(p, tx.state)
  {
    hide CreateCommand, IntentUnchanged, IntentDigest;
    CreateTogether(p, ctx, kind, target, payload, key, evidence, now);
  }

  lemma DecideTogether(p: Plane, ctx: Context, c: nat, approve: bool, now: int)
    requires Together(p)
    ensures var tx := Decide(p, ctx, c, approve, now); tx.Commit? ==> Together(tx.state) && Onward(p, tx.state)
  {
    hide IntentUnchanged, Require, SetState, Together, Onward;
    if Decide(p, ctx, c, approve, now).Commit? {
      assert c < |p.commands| && c < |p.approvals| && p.approvals[c].state == Pending;
      if now >= p.approvals[c].expiresAt { Changed(p, c, Expired, p.approvals[c].decidedBy, p.outbox + {ApprovalExpired(c)}); }
      else { Changed(p, c, if approve then Approved else Rejected, Some(ctx.user), p.outbox + {ApprovalDecided(c)}); }
    }
  }

  lemma ExpireTogether(p: Plane, c: nat, now: int)
    requires Together(p)
    ensures var tx := ExpireDue(p, c, now); tx.Commit? ==> Together(tx.state) && Onward(p, tx.state)
  {
    hide SetState;
    var tx := ExpireDue(p, c, now);
    if tx.Commit? && tx.value { Changed(p, c, Expired, p.approvals[c].decidedBy, p.outbox + {ApprovalExpired(c)}); }
  }

  lemma SupersedeTogether(p: Plane, ctx: Context, c: nat, payload: Payload, key: CommandKey, now: int)
    requires Together(p)
    ensures var tx := Supersede(p, ctx, c, payload, key, now); tx.Commit? ==> Together(tx.state) && Onward(p, tx.state)
  {
    hide SetState, CreateCommand;
    if Supersede(p, ctx, c, payload, key, now).Commit? {
      assert p.(outbox := p.outbox) == p;
      Changed(p, c, Superseded, p.approvals[c].decidedBy, p.outbox);
      var q := SetState(p, c, Superseded, p.approvals[c].decidedBy);
      CreateTogether(q, ctx, p.commands[c].kind, p.commands[c].targetRef, payload, key, p.approvals[c].evidence, now);
    }
  }

  lemma SweepHealthy(ids: Ids, p: Plane, limit: int, now: int)
    requires Distinct(ids)
    requires Healthy(p)
    ensures Healthy(Apply(p, Sweeping(ids, limit, now))) && Onward(p, Apply(p, Sweeping(ids, limit, now)))
  {
    SoundIs(p);
    SweepExact(ids, p, limit, now);
    BatchExact(ids, p, now, if limit < 0 then 0 else limit);
    if Sweep(ids, p, limit, now).Commit? {
      SweepSound(p, Batch(ids, p, now, limit), now);
    }
  }

  lemma {:induction false} SweepSound(p: Plane, rows: seq<nat>, now: int)
    requires PlaneSound(p) && SweepRows(p, rows, now).Commit?
    ensures PlaneSound(SweepRows(p, rows, now).state)
  {
    hide PlaneSound, ExpireDue;
    if rows != [] {
      SweepSound(p, rows[..|rows| - 1], now);
      ExpireCalm(SweepRows(p, rows[..|rows| - 1], now).state, rows[|rows| - 1], now);
    }
  }

  lemma ActHealthy(p: Plane, act: Act)
    requires Healthy(p) && OnApprovals(act)
    ensures Healthy(Apply(p, act)) && Onward(p, Apply(p, act))
  {
    hide PlaneSound, Together, Onward, Sweep, E.PlaneAfter, Calm;
    match act {
      case One(step) => SoundIs(p); StepTogether(p, step); OthersCalm(p, step); CalmIs(p, E.PlaneAfter(p, step));
      case Sweeping(ids, limit, now) => SweepHealthy(ids, p, limit, now);
    }
  }

  lemma {:induction false} RunHealthy(acts: seq<Act>)
    requires forall i | 0 <= i < |acts| :: OnApprovals(acts[i])
    ensures Healthy(After(acts))
  {
    if acts != [] {
      hide Healthy, Apply;
      RunHealthy(acts[..|acts| - 1]);
      ActHealthy(After(acts[..|acts| - 1]), acts[|acts| - 1]);
    }
  }

  /** Over every run of the approval tables the sweeper never fails for an allowed limit. */
  lemma SweepNeverFails(acts: seq<Act>, ids: Ids, limit: int, now: int)
    requires (forall i | 0 <= i < |acts| :: OnApprovals(acts[i])) && 1 <= limit <= BATCH_MAX && Distinct(ids)
    ensures Sweep(ids, After(acts), limit, now).Commit?
  {
    hide Sweep, After;
    RunHealthy(acts);
    SoundIs(After(acts));
    SweepExact(ids, After(acts), limit, now);
  }

  /** A decision, an expiry or a replacement is final: whatever happens later, an
      approval never becomes pending again, and is never approved after it ended otherwise. */
  lemma {:induction false} OutcomeIsFinal(acts: seq<Act>, n: nat, c: nat)
    requires n <= |acts| && forall i | 0 <= i < |acts| :: OnApprovals(acts[i])
    requires c < |After(acts[..n]).approvals|
    ensures c < |After(acts).approvals| && Later(After(acts[..n]).approvals[c].state, After(acts).approvals[c].state)
  {
    hide Apply, Healthy;
    if n == |acts| {
      assert acts[..n] == acts;
    } else {
      var shorter := acts[..|acts| - 1];
      assert shorter[..n] == acts[..n];
      OutcomeIsFinal(shorter, n, c);
      RunHealthy(shorter);
      ActHealthy(After(shorter), acts[|acts| - 1]);
    }
  }
}
