/** service.py `_audit` and `verify_audit_chain`: a tenant's audit log as a hash chain.
    The digest is any function; where it matters that it separates its inputs, a
    lemma says so. */
module AuditChain {
  import opened Common

  /** Everything an event says: who did what to what, when, and how it ended. */
  datatype Entry = Entry(id: string, tenant: string, occurredAt: int, actor: string, action: string, target: string,
                         outcome: string, correlation: string, metadata: map<string, string>)

  /** The material that is hashed: the entry and the hash before it. */
  datatype Material<H> = Material(entry: Entry, previous: Option<H>)

  datatype Event<H> = Event(entry: Entry, previous: Option<H>, hash: H)

  /** Each event carries its predecessor's hash and the digest of its own material. */
  predicate Passes<H(==)>(log: seq<Event<H>>, digest: Material<H> -> H) {
    forall i | 0 <= i < |log| :: Linked(log, i, digest)
  }

  predicate Linked<H(==)>(log: seq<Event<H>>, i: nat, digest: Material<H> -> H)
    requires i < |log|
  {
    log[i].previous == Before(log, i) && log[i].hash == digest(Material(log[i].entry, Before(log, i)))
  }

  function Before<H>(log: seq<Event<H>>, i: nat): Option<H>
    requires i <= |log|
  {
    if i == 0 then None else Some(log[i - 1].hash)
  }

  ghost predicate Injective<H(!new)>(digest: Material<H> -> H) {
    forall a, b :: digest(a) == digest(b) ==> a == b
  }

  function Appended<H>(log: seq<Event<H>>, entry: Entry, digest: Material<H> -> H): seq<Event<H>> {
    var previous := Before(log, |log|);
    log + [Event(entry, previous, digest(Material(entry, previous)))]
  }

  function Built<H>(entries: seq<Entry>, digest: Material<H> -> H): seq<Event<H>> {
    if entries == [] then [] else Appended(Built(entries[..|entries| - 1], digest), entries[|entries| - 1], digest)
  }

  class AuditLog<H(==)> {
    const digest: Material<H> -> H
    var events: seq<Event<H>>
    ghost var entries: seq<Entry>

    ghost predicate Valid()
      reads this
    {
      events == Built(entries, digest)
    }

    constructor (digest: Material<H> -> H)
      ensures Valid() && events == [] && this.digest == digest
    {
      this.digest, events, entries := digest, [], [];
    }

    method Audit(entry: Entry)
      requires Valid()
      modifies this
      ensures Valid() && entries == old(entries) + [entry]
      ensures events == Appended(old(events), entry, digest)
    {
      var previous := if events == [] then None else Some(events[|events| - 1].hash);
      events := events + [Event(entry, previous, digest(Material(entry, previous)))];
      entries := entries + [entry];
      assert entries[..|entries| - 1] == old(entries);
    }

    /** The verification loop, event by event. */
    method VerifyAuditChain() returns (ok: bool)
      ensures ok <==> Passes(events, digest)
    {
      var previous: Option<H> := None;
      for i := 0 to |events|
        invariant previous == Before(events, i)
        invariant forall k | 0 <= k < i :: Linked(events, k, digest)
      {
        if events[i].previous != previous || events[i].hash != digest(Material(events[i].entry, previous)) {
          assert !Linked(events, i, digest);
          return false;
        }
        previous := Some(events[i].hash);
      }
      ok := true;
    }
  }

  lemma AppendPasses<H>(log: seq<Event<H>>, entry: Entry, digest: Material<H> -> H)
    requires Passes(log, digest)
    ensures Passes(Appended(log, entry, digest), digest)
  {
    var all := Appended(log, entry, digest);
    forall i | 0 <= i < |all| ensures Linked(all, i, digest) {
      if i < |log| {
        assert Linked(log, i, digest);
        assert Before(all, i) == Before(log, i);
      }
    }
  }

  /** Every log built by auditing passes its own verification. */
  lemma {:induction false} BuiltPasses<H>(entries: seq<Entry>, digest: Material<H> -> H)
    ensures Passes(Built(entries, digest), digest) && |Built(entries, digest)| == |entries|
    ensures forall i | 0 <= i < |entries| :: Built(entries, digest)[i].entry == entries[i]
  {
    if entries != [] {
      BuiltPasses(entries[..|entries| - 1], digest);
      AppendPasses(Built(entries[..|entries| - 1], digest), entries[|entries| - 1], digest);
    }
  }

  /** A prefix of a passing log passes: verification alone does not see a truncated tail. */
  lemma PrefixPasses<H>(log: seq<Event<H>>, n: nat, digest: Material<H> -> H)
    requires Passes(log, digest) && n <= |log|
    ensures Passes(log[..n], digest)
  {
    forall i | 0 <= i < n ensures Linked(log[..n], i, digest) {
      assert Linked(log, i, digest);
      assert Before(log[..n], i) == Before(log, i);
    }
  }

  /** The last hash determines the log: two passing logs that end in the same hash
      are the same log, of the same length. */
  lemma {:induction false} LastHashDeterminesLog<H(!new)>(a: seq<Event<H>>, b: seq<Event<H>>, digest: Material<H> -> H)
    requires Injective(digest) && Passes(a, digest) && Passes(b, digest)
    requires a != [] && b != [] && a[|a| - 1].hash == b[|b| - 1].hash
    ensures a == b
  {
    var (m, n) := (|a| - 1, |b| - 1);
    assert Linked(a, m, digest) && Linked(b, n, digest);
    assert digest(Material(a[m].entry, Before(a, m))) == digest(Material(b[n].entry, Before(b, n)));
    assert Material(a[m].entry, Before(a, m)) == Material(b[n].entry, Before(b, n));
    PrefixPasses(a, m, digest);
    PrefixPasses(b, n, digest);
    if m > 0 {
      LastHashDeterminesLog(a[..m], b[..n], digest);
    }
    assert a == a[..m] + [a[m]] && b == b[..n] + [b[n]];
  }

  /** Any change to an event's entry is seen, wherever it is. */
  lemma AlterationIsSeen<H(!new)>(log: seq<Event<H>>, i: nat, altered: Entry, digest: Material<H> -> H)
    requires Injective(digest) && Passes(log, digest) && i < |log| && altered != log[i].entry
    ensures !Passes(log[i := log[i].(entry := altered)], digest)
  {
    var changed := log[i := log[i].(entry := altered)];
    assert Linked(log, i, digest);
    assert Before(changed, i) == Before(log, i);
    assert Material(altered, Before(log, i)) != Material(log[i].entry, Before(log, i));
    assert !Linked(changed, i, digest);
  }
}
