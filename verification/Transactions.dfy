/** Nested units of work in the two repositories: snapshot and restore in memory,
    a depth counter with named savepoints in SQLite. Both are compared with one
    reference: a block that does not finish leaves the state it found. */
module Transactions {
  import opened Common

  /** One attribute of the in-memory repository: a dictionary, or a plain value. */
  datatype Cell = Dict(rows: map<string, int>) | Plain(items: seq<int>)

  type Database = map<string, Cell>

  /** A computation over a repository, with any nesting of blocks and handlers.
      `Raise` is an `Exception`; `Interrupt` is a `BaseException` that is not one. */
  datatype Program =
    | Write(update: Database -> Database)
    | Raise(error: int)
    | Interrupt
    | Then(first: Program, second: Program)
    | When(test: Database -> bool, yes: Program, no: Program)
    | Block(body: Program)
    | Try(attempt: Program, handler: Program)

  datatype Outcome = Done | Failed(error: int) | Interrupted

  /** The reference: blocks are all or nothing. */
  function Reference(p: Program, db: Database): (Database, Outcome) {
    match p
    case Write(f) => (f(db), Done)
    case Raise(e) => (db, Failed(e))
    case Interrupt => (db, Interrupted)
    case Then(a, b) =>
      var (mid, o) := Reference(a, db);
      if o.Done? then Reference(b, mid) else (mid, o)
    case When(test, a, b) => if test(db) then Reference(a, db) else Reference(b, db)
    case Block(b) =>
      var (after, o) := Reference(b, db);
      if o.Done? then (after, o) else (db, o)
    case Try(b, h) =>
      var (after, o) := Reference(b, db);
      if o.Failed? then Reference(h, after) else (after, o)
  }

  // ------------------------------------------------------------- repository.py

  /** The repository object never gains, loses or retypes an attribute. */
  ghost predicate SameShape(a: Database, b: Database) {
    a.Keys == b.Keys && forall n | n in a :: a[n].Dict? == b[n].Dict?
  }

  ghost predicate Tidy(p: Program) {
    match p
    case Write(f) => forall d :: SameShape(d, f(d))
    case Then(a, b) => Tidy(a) && Tidy(b)
    case When(_, a, b) => Tidy(a) && Tidy(b)
    case Block(b) => Tidy(b)
    case Try(b, h) => Tidy(b) && Tidy(h)
    case _ => true
  }

  class InMemoryRepository {
    var tables: Database

    constructor (tables: Database)
      ensures this.tables == tables
    { this.tables := tables; }

    /** One dictionary goes back: new keys are deleted, then missing or changed ones assigned. */
    method RestoreRows(name: string, previous: map<string, int>)
      requires name in tables && tables[name].Dict?
      modifies this
      ensures tables == old(tables)[name := Dict(previous)]
    {
      var extra := tables[name].rows.Keys;
      while extra != {}
        invariant tables.Keys == old(tables).Keys && tables == old(tables)[name := tables[name]] && tables[name].Dict?
        invariant extra <= tables[name].rows.Keys
        invariant forall k | k in tables[name].rows && k !in extra :: k in previous
        decreases |extra|
      {
        var key :| key in extra;
        if key !in previous {
          tables := tables[name := Dict(tables[name].rows - {key})];
        }
        extra := extra - {key};
      }
      var todo := previous.Keys;
      while todo != {}
        invariant tables.Keys == old(tables).Keys && tables == old(tables)[name := tables[name]] && tables[name].Dict?
        invariant todo <= previous.Keys && tables[name].rows.Keys <= previous.Keys
        invariant forall k | k in previous && k !in todo :: k in tables[name].rows && tables[name].rows[k] == previous[k]
        decreases |todo|
      {
        var key :| key in todo;
        if key !in tables[name].rows || tables[name].rows[key] != previous[key] {
          tables := tables[name := Dict(tables[name].rows[key := previous[key]])];
        }
        todo := todo - {key};
      }
      assert tables[name].rows == previous;
    }

    /** The rollback loop puts every attribute back. */
    method Restore(snapshot: Database)
      requires SameShape(snapshot, tables)
      modifies this
      ensures tables == snapshot
    {
      var names := snapshot.Keys;
      while names != {}
        invariant names <= snapshot.Keys && SameShape(snapshot, tables)
        invariant forall n | n in snapshot && n !in names :: tables[n] == snapshot[n]
        decreases |names|
      {
        var name :| name in names;
        if tables[name].Dict? {
          RestoreRows(name, snapshot[name].rows);
        } else {
          tables := tables[name := snapshot[name]];
        }
        names := names - {name};
      }
    }

    /** Whatever is raised, caught or let through, the in-memory form is the reference. */
    method Run(p: Program) returns (o: Outcome)
      requires Tidy(p)
      modifies this
      ensures (tables, o) == Reference(p, old(tables)) && SameShape(old(tables), tables)
      decreases p
    {
      match p
      case Write(f) => tables := f(tables); o := Done;
      case Raise(e) => o := Failed(e);
      case Interrupt => o := Interrupted;
      case Then(a, b) =>
        o := Run(a);
        if o.Done? { o := Run(b); }
      case When(test, a, b) =>
        if test(tables) { o := Run(a); } else { o := Run(b); }
      case Block(b) =>
        var snapshot := tables;
        o := Run(b);
        if !o.Done? { Restore(snapshot); }
      case Try(b, h) =>
        o := Run(b);
        if o.Failed? { o := Run(h); }
    }
  }

  // ------------------------------------------------------ sqlite_repository.py

  /** A savepoint `uow_{name}` and the state it protects; frame 0 is the BEGIN. */
  datatype Frame = Frame(name: nat, saved: Database)

  /** What a run leaves behind when interrupts are not caught by `except Exception`:
      the state, the outcome, and the states saved by the blocks left open. */
  function Leaving(p: Program, db: Database): (Database, Outcome, seq<Database>) {
    match p
    case Write(f) => (f(db), Done, [])
    case Raise(e) => (db, Failed(e), [])
    case Interrupt => (db, Interrupted, [])
    case Then(a, b) =>
      var (mid, o, left) := Leaving(a, db);
      if o.Done? then Leaving(b, mid) else (mid, o, left)
    case When(test, a, b) => if test(db) then Leaving(a, db) else Leaving(b, db)
    case Block(b) =>
      var (after, o, left) := Leaving(b, db);
      if o.Done? then (after, o, []) else if o.Failed? then (db, o, []) else (after, o, [db] + left)
    case Try(b, h) =>
      var (after, o, left) := Leaving(b, db);
      if o.Failed? then Leaving(h, after) else (after, o, left)
  }

  /** Without an interrupt nothing stays open and the result is the reference; with
      one, the oldest state left protected is exactly where the reference rolls back to. */
  lemma {:induction false} LeavingIsReference(p: Program, db: Database)
    ensures var (after, o, left) := Leaving(p, db);
      && o == Reference(p, db).1
      && (!o.Interrupted? ==> left == [] && after == Reference(p, db).0)
      && (o.Interrupted? ==> Reference(p, db).0 == if left == [] then after else left[0])
  {
    match p
    case Then(a, b) =>
      LeavingIsReference(a, db);
      LeavingIsReference(b, Leaving(a, db).0);
    case When(test, a, b) =>
      LeavingIsReference(a, db);
      LeavingIsReference(b, db);
    case Block(b) =>
      LeavingIsReference(b, db);
    case Try(b, h) =>
      LeavingIsReference(b, db);
      LeavingIsReference(h, Leaving(b, db).0);
    case _ =>
  }

  class SqliteRepository {
    var db: Database
    var stack: seq<Frame>
    var depth: nat

    /** The depth counter is the number of frames, and each frame carries its own number. */
    ghost predicate Open()
      reads this
    {
      depth == |stack| && forall i | 0 <= i < |stack| :: stack[i].name == i
    }

    /** What another connection sees, and what is left if this one goes away. */
    function Durable(): Database
      reads this
    {
      if stack == [] then db else stack[0].saved
    }

    constructor (db: Database)
      ensures this.db == db && stack == [] && depth == 0 && Open()
    { this.db, stack, depth := db, [], 0; }

    /** The engine looks a savepoint up by name, newest first. */
    method Find(name: nat) returns (found: Option<nat>)
      ensures found.Some? ==> found.value < |stack| && stack[found.value].name == name
      ensures found.Some? ==> forall i | found.value < i < |stack| :: stack[i].name != name
      ensures found.None? ==> forall i | 0 <= i < |stack| :: stack[i].name != name
    {
      var i: nat := |stack|;
      while i > 0
        invariant i <= |stack| && forall j | i <= j < |stack| :: stack[j].name != name
      {
        i := i - 1;
        if stack[i].name == name { return Some(i); }
      }
      found := None;
    }

    method Begin(savepoint: nat)
      requires Open() && savepoint == depth
      modifies this
      ensures Open() && db == old(db) && stack == old(stack) + [Frame(savepoint, db)] && depth == old(depth) + 1
    {
      stack := stack + [Frame(savepoint, db)];
      depth := depth + 1;
    }

    method RollbackTo(savepoint: nat)
      modifies this`db, this`stack
      ensures (forall i | 0 <= i < |old(stack)| :: old(stack)[i].name != savepoint) ==> db == old(db) && stack == old(stack)
      ensures forall i | 0 <= i < |old(stack)| && old(stack)[i].name == savepoint
                         && (forall j | i < j < |old(stack)| :: old(stack)[j].name != savepoint) ::
                db == old(stack)[i].saved && stack == old(stack)[..i + 1]
    {
      var found := Find(savepoint);
      if found.Some? { db, stack := stack[found.value].saved, stack[..found.value + 1]; }
    }

    method Release(savepoint: nat)
      modifies this`stack
      ensures (forall i | 0 <= i < |old(stack)| :: old(stack)[i].name != savepoint) ==> stack == old(stack)
      ensures forall i | 0 <= i < |old(stack)| && old(stack)[i].name == savepoint
                         && (forall j | i < j < |old(stack)| :: old(stack)[j].name != savepoint) ::
                stack == old(stack)[..i]
    {
      var found := Find(savepoint);
      if found.Some? { stack := stack[..found.value]; }
    }

    /** The end of a block that raised or finished: `savepoint` is the newest frame. */
    method Close(savepoint: nat, failed: bool)
      requires Open() && depth == savepoint + 1
      modifies this
      ensures Open() && stack == old(stack)[..savepoint] && depth == savepoint
      ensures db == if failed then old(stack)[savepoint].saved else old(db)
    {
      depth := depth - 1;
      assert stack[savepoint].name == savepoint;
      if depth == 0 {
        if failed { db := stack[0].saved; }
        stack := [];
      } else {
        if failed {
          RollbackTo(savepoint);
          assert stack == old(stack);
        }
        Release(savepoint);
      }
    }

    method Run(p: Program) returns (o: Outcome)
      requires Open()
      modifies this
      ensures Open()
      ensures var (after, outcome, left) := Leaving(p, old(db));
              && db == after && o == outcome
              && depth == old(depth) + |left| && |stack| == depth
              && stack[..old(depth)] == old(stack)
              && forall i | 0 <= i < |left| :: stack[old(depth) + i].saved == left[i]
      decreases p
    {
      match p
      case Write(f) => db := f(db); o := Done;
      case Raise(e) => o := Failed(e);
      case Interrupt => o := Interrupted;
      case Then(a, b) =>
        LeavingIsReference(a, db);
        o := Run(a);
        if o.Done? { o := Run(b); }
      case When(test, a, b) =>
        if test(db) { o := Run(a); } else { o := Run(b); }
      case Block(b) =>
        LeavingIsReference(b, db);
        var savepoint := depth;
        Begin(savepoint);
        o := Run(b);
        if !o.Interrupted? { Close(savepoint, o.Failed?); }
      case Try(b, h) =>
        LeavingIsReference(b, db);
        o := Run(b);
        if o.Failed? { o := Run(h); }
    }
  }

  // ------------------------------------------------- one connection, many units

  /** A connection: its state and the states its open frames protect. */
  datatype Connection = Connection(db: Database, open: seq<Database>)

  function Durable(c: Connection): Database { if c.open == [] then c.db else c.open[0] }

  function Served(c: Connection, p: Program): Connection {
    var (after, _, left) := Leaving(p, c.db);
    Connection(after, c.open + left)
  }

  function Session(c: Connection, ps: seq<Program>): Connection {
    if ps == [] then c else Served(Session(c, ps[..|ps| - 1]), ps[|ps| - 1])
  }

  function ReferenceSession(db: Database, ps: seq<Program>): Database {
    if ps == [] then db else Reference(ps[|ps| - 1], ReferenceSession(db, ps[..|ps| - 1])).0
  }

  /** The connection object serves a session as stated, and its depth counts the frames left open. */
  method Serve(repo: SqliteRepository, ps: seq<Program>)
    requires repo.Open() && repo.depth == 0
    modifies repo
    ensures repo.Open()
    ensures var c := Session(Connection(old(repo.db), []), ps);
            repo.db == c.db && repo.depth == |c.open| && repo.Durable() == Durable(c)
  {
    ghost var start := Connection(repo.db, []);
    for i := 0 to |ps|
      invariant repo.Open() && repo.db == Session(start, ps[..i]).db && repo.depth == |Session(start, ps[..i]).open|
      invariant forall k | 0 <= k < repo.depth :: repo.stack[k].saved == Session(start, ps[..i]).open[k]
    {
      assert ps[..i + 1][..i] == ps[..i];
      ghost var before := repo.stack;
      var _ := repo.Run(ps[i]);
      assert forall k | 0 <= k < |before| :: repo.stack[k] == before[k] by { assert before == repo.stack[..|before|]; }
    }
    assert ps[..|ps|] == ps;
  }

  /** A session in which no interrupt leaves a block is the reference, and commits everything. */
  lemma {:induction false} CleanSession(db: Database, ps: seq<Program>)
    requires forall i | 0 <= i < |ps| :: !Reference(ps[i], ReferenceSession(db, ps[..i])).1.Interrupted?
    ensures Session(Connection(db, []), ps) == Connection(ReferenceSession(db, ps), [])
  {
    if ps != [] {
      var shorter := ps[..|ps| - 1];
      assert forall i | 0 <= i < |shorter| :: shorter[..i] == ps[..i];
      CleanSession(db, shorter);
      LeavingIsReference(ps[|ps| - 1], ReferenceSession(db, shorter));
    }
  }

  /** An interrupt inside a block: the frames it left are still open, and what
      survives the loss of the connection is exactly the reference. */
  lemma InterruptedUnit(db: Database, p: Program)
    ensures Durable(Served(Connection(db, []), p)) == Reference(p, db).0
    ensures Served(Connection(db, []), p).open == [] ==> Served(Connection(db, []), p).db == Reference(p, db).0
  {
    LeavingIsReference(p, db);
  }

  /** A connection with a frame left open never commits anything again. */
  lemma {:induction false} NothingCommitsAgain(c: Connection, ps: seq<Program>)
    requires c.open != []
    ensures Session(c, ps).open != [] && Durable(Session(c, ps)) == Durable(c)
  {
    if ps != [] {
      NothingCommitsAgain(c, ps[..|ps| - 1]);
    }
  }

  /** The two forms part company exactly when an interrupt passes through a block:
      after such a unit the in-memory form has rolled back, the SQLite form has not. */
  lemma FormsDiffer()
    ensures var p := Block(Then(Write((d: Database) => d["t" := Plain([1])]), Interrupt));
      Reference(p, map[]) == (map[], Interrupted) && Served(Connection(map[], []), p) == Connection(map["t" := Plain([1])], [map[]])
  {}

  /** How many blocks an interrupt leaves on its way out. */
  function BlocksLeft(p: Program, db: Database): nat {
    match p
    case Then(a, b) => if Reference(a, db).1.Done? then BlocksLeft(b, Reference(a, db).0) else BlocksLeft(a, db)
    case When(test, a, b) => if test(db) then BlocksLeft(a, db) else BlocksLeft(b, db)
    case Block(b) => BlocksLeft(b, db) + if Reference(b, db).1.Interrupted? then 1 else 0
    case Try(b, h) => if Reference(b, db).1.Failed? then BlocksLeft(h, Reference(b, db).0) else BlocksLeft(b, db)
    case _ => 0
  }

  /** The depth counter is off by exactly the number of blocks an interrupt passed through. */
  lemma {:induction false} DepthExact(p: Program, db: Database)
    ensures |Leaving(p, db).2| == BlocksLeft(p, db)
    ensures BlocksLeft(p, db) > 0 ==> Reference(p, db).1.Interrupted?
  {
    LeavingIsReference(p, db);
    match p
    case Then(a, b) =>
      LeavingIsReference(a, db);
      DepthExact(a, db);
      DepthExact(b, Leaving(a, db).0);
    case When(test, a, b) =>
      DepthExact(a, db);
      DepthExact(b, db);
    case Block(b) =>
      LeavingIsReference(b, db);
      DepthExact(b, db);
    case Try(b, h) =>
      LeavingIsReference(b, db);
      DepthExact(b, db);
      DepthExact(h, Leaving(b, db).0);
    case _ =>
  }

  /** The exact condition: one unit on a clean connection is the reference, with
      nothing left open, if and only if no interrupt passes through a block. */
  lemma FormsAgreeExactly(db: Database, p: Program)
    ensures Served(Connection(db, []), p) == Connection(Reference(p, db).0, []) <==> BlocksLeft(p, db) == 0
  {
    DepthExact(p, db);
    LeavingIsReference(p, db);
  }
}
