/** The withdrawal store (withdrawal-store.ts): operations by id, ids by idempotency key, and a log of
    whole operations that is replayed on start. */
module WithdrawalStore {
  import opened Types

  type Key = nat
  type OpId = nat

  /** What a prepared operation fixes for good, and its status. */
  datatype Operation = Operation(id: OpId, key: Key, fingerprint: Hash, action: Hash, review: Hash, status: nat)

  datatype Index = Index(operations: map<OpId, Operation>, idsByKey: map<Key, OpId>)

  const Empty := Index(map[], map[])

  function Put(ix: Index, op: Operation): Index { Index(ix.operations[op.id := op], ix.idsByKey[op.key := op.id]) }

  function ByKey(ix: Index, key: Key): Option<Operation> {
    if key in ix.idsByKey && ix.idsByKey[key] in ix.operations then Some(ix.operations[ix.idsByKey[key]]) else None
  }

  function Replay(log: seq<Operation>): Index {
    if log == [] then Empty else Put(Replay(log[..|log| - 1]), log[|log| - 1])
  }

  class JsonlWithdrawalOperationStore {
    var log: seq<Operation>
    var operations: map<OpId, Operation>
    var idsByKey: map<Key, OpId>

    ghost function State(): Index
      reads this
    {
      Index(operations, idsByKey)
    }

    ghost predicate Valid()
      reads this
    {
      State() == Replay(log)
    }

    constructor (lines: seq<Operation>)
      ensures Valid() && log == lines
    {
      log := lines;
      operations, idsByKey := map[], map[];
      new;
      for i := 0 to |lines|
        invariant log == lines && State() == Replay(lines[..i])
      {
        assert lines[..i + 1][..i] == lines[..i];
        operations := operations[lines[i].id := lines[i]];
        idsByKey := idsByKey[lines[i].key := lines[i].id];
      }
      assert lines[..|lines|] == lines;
    }

    method Put(op: Operation)
      requires Valid()
      modifies this
      ensures Valid() && log == old(log) + [op]
    {
      log := log + [op];
      operations := operations[op.id := op];
      idsByKey := idsByKey[op.key := op.id];
      assert log[..|log| - 1] == old(log);
    }

    method GetByIdempotencyKey(key: Key) returns (r: Option<Operation>)
      ensures r == ByKey(State(), key)
    {
      if key !in idsByKey { return None; }
      r := if idsByKey[key] in operations then Some(operations[idsByKey[key]]) else None;
    }

    /** Between two calls of this, no third one runs: the promise tail admits one at a time. */
    method PutIfIdempotencyAbsent(op: Operation) returns (inserted: bool, kept: Operation)
      requires Valid()
      modifies this
      ensures Valid()
      ensures inserted <==> ByKey(old(State()), op.key).None?
      ensures if inserted then kept == op && log == old(log) + [op]
              else Some(kept) == ByKey(old(State()), op.key) && log == old(log)
    {
      var existing := GetByIdempotencyKey(op.key);
      if existing.Some? { return false, existing.value; }
      Put(op);
      return true, op;
    }
  }
}

/** Concurrent prepares with restarts (withdrawal.ts prepare, withdrawal-store.ts): one step is the code
    between two awaits, or a crash, also in the middle of an append. */
module IdempotentPrepare {
  import opened Types
  import opened LogFile
  import opened WithdrawalStore
  import Paths

  type Tid = nat

  /** A prepare that found nothing under its key, with the operation it would store. */
  datatype Pc = Building(op: Operation) | Lined(op: Operation) | Missing(op: Operation)

  datatype Reply = Prepared(key: Key, fingerprint: Hash, id: OpId, action: Hash, review: Hash) | Conflict(key: Key,
      fingerprint: Hash)

  /** The records the process has read and written since its start, their index, and the file. */
  datatype State = State(log: seq<Operation>, index: Index, disk: Reloaded<seq<Operation>>, tasks: map<Tid, Pc>,
      line: seq<Tid>, replies: set<Reply>, ids: set<OpId>)

  function Answer(key: Key, fingerprint: Hash, kept: Operation): Reply {
    if kept.fingerprint != fingerprint then Conflict(key, fingerprint)
    else Prepared(key, fingerprint, kept.id, kept.action, kept.review)
  }

  datatype Step =
    | Arrive(t: Tid, op: Operation)         // the first lookup
    | LineUp(t: Tid)                        // the preview is done; it joins the promise tail
    | LookAgain(t: Tid)                     // at the head: the lookup inside putIfIdempotencyAbsent
    | Store(t: Tid)                         // and the fsynced put
    | Fail(t: Tid)                          // a failing preview
    | Touch(id: OpId, status: nat)          // a status change of a stored operation
    | Crash
    | TearStore(t: Tid, complete: bool)     // a crash inside the put, with or without the record's last byte
    | TearTouch(id: OpId, status: nat, complete: bool)

  predicate CanStore(s: State, t: Tid) { t in s.tasks && s.tasks[t].Missing? && |s.line| > 0 && s.line[0] == t }

  predicate Enabled(s: State, step: Step) {
    match step
    case Arrive(t, op) => t !in s.tasks && op.id !in s.ids
    case LineUp(t) => t in s.tasks && s.tasks[t].Building?
    case LookAgain(t) => t in s.tasks && s.tasks[t].Lined? && |s.line| > 0 && s.line[0] == t
    case Store(t) => CanStore(s, t)
    case Fail(t) => t in s.tasks && s.tasks[t].Building?
    case Touch(id, _) => id in s.index.operations
    case Crash => true
    case TearStore(t, _) => CanStore(s, t)
    case TearTouch(id, _, _) => id in s.index.operations
  }

  function Finish(s: State, t: Tid, reply: Reply): State {
    s.(tasks := s.tasks - {t}, line := if |s.line| > 0 then s.line[1..] else [], replies := s.replies + {reply})
  }

  function Append(s: State, op: Operation): State {
    s.(log := s.log + [op], index := Put(s.index, op), disk := Appended(s.disk, s.disk.index + [op]))
  }

  /** All that a restart knows is what a reload shows. */
  function Restart(s: State): State { s.(log := s.disk.shown, index := Replay(s.disk.shown), tasks := map[],
    line := []) }

  function Tear(s: State, op: Operation, complete: bool): State {
    Restart(s.(disk := Cut(s.disk, s.disk.index + [op], complete)))
  }

  function Touched(s: State, id: OpId, status: nat): Operation
    requires id in s.index.operations
  {
    s.index.operations[id].(status := status)
  }

  function Apply(s: State, step: Step): State
    requires Enabled(s, step)
  {
    match step
    case Arrive(t, op) =>
      (match ByKey(s.index, op.key)
       case Some(kept) => s.(replies := s.replies + {Answer(op.key, op.fingerprint, kept)})
       case None => s.(tasks := s.tasks[t := Building(op)], ids := s.ids + {op.id}))
    case LineUp(t) => s.(tasks := s.tasks[t := Lined(s.tasks[t].op)], line := s.line + [t])
    case LookAgain(t) =>
      var op := s.tasks[t].op;
      (match ByKey(s.index, op.key)
       case Some(kept) => Finish(s, t, Answer(op.key, op.fingerprint, kept))
       case None => s.(tasks := s.tasks[t := Missing(op)]))
    case Store(t) =>
      var op := s.tasks[t].op;
      Finish(Append(s, op), t, Prepared(op.key, op.fingerprint, op.id, op.action, op.review))
    case Fail(t) => s.(tasks := s.tasks - {t})
    case Touch(id, status) => Append(s, Touched(s, id, status))
    case Crash => Restart(s)
    case TearStore(t, complete) => Tear(s, s.tasks[t].op, complete)
    case TearTouch(id, status, complete) => Tear(s, Touched(s, id, status), complete)
  }

  ghost predicate Next(s: State, t: State) { exists step :: Enabled(s, step) && t == Apply(s, step) }

  const INITIAL := State([], Empty, Intact([]), map[], [], {}, {})

  ghost predicate Run(run: seq<State>) {
    && |run| > 0 && run[0] == INITIAL
    && (forall i :: 0 < i < |run| ==> Next(run[i - 1], run[i]))
  }

  // ------------------------------------------------------------------ invariant

  /** Two records tell of the same prepared operation. */
  predicate SameOperation(a: Operation, b: Operation) {
    a.id == b.id && a.key == b.key && a.fingerprint == b.fingerprint && a.action == b.action && a.review == b.review
  }

  /** Records agree wherever they share a key or an id. */
  ghost predicate Agree(log: seq<Operation>) {
    forall a, b :: a in log && b in log && (a.key == b.key || a.id == b.id) ==> SameOperation(a, b)
  }

  ghost predicate Indexed(ix: Index, log: seq<Operation>) {
    && (forall a :: a in log ==> IndexedAt(ix, a))
    && (forall k :: k in ix.idsByKey ==> exists a :: a in log && a.key == k)
    && (forall id :: id in ix.operations ==> exists a :: a in log && SameOperation(ix.operations[id], a) && a.id == id)
  }

  ghost predicate IndexedAt(ix: Index, a: Operation) {
    a.key in ix.idsByKey && ix.idsByKey[a.key] == a.id && a.id in ix.operations && SameOperation(ix.operations[a.id], a)
  }

  predicate Tells(a: Operation, r: Reply) {
    r.Prepared? && a.key == r.key && a.fingerprint == r.fingerprint && a.id == r.id && a.action == r.action
      && a.review == r.review
  }

  ghost predicate Backed(log: seq<Operation>, r: Reply) { exists a :: a in log && Tells(a, r) }

  /** A complete line of the file tells of the answer. */
  ghost predicate Kept(s: State, r: Reply) { Backed(s.disk.index, r) }

  ghost predicate TaskOk(s: State, t: Tid)
    requires t in s.tasks
  {
    && s.tasks[t].op.id in s.ids
    && (forall a :: a in s.log ==> a.id != s.tasks[t].op.id)
    && (forall u :: u in s.tasks && u != t ==> s.tasks[u].op.id != s.tasks[t].op.id)
    && (!s.tasks[t].Building? <==> t in s.line)
    && (s.tasks[t].Missing? ==> |s.line| > 0 && s.line[0] == t && s.tasks[t].op.key !in s.index.idsByKey)
  }

  ghost predicate BooksOk(s: State) {
    && Agree(s.log) && Indexed(s.index, s.log) && s.index == Replay(s.log)
    && (forall a :: a in s.log ==> a.id in s.ids)
    && (forall a :: a in s.disk.index ==> a in s.disk.shown)
    && (forall a :: a in s.disk.shown ==> a in s.log)
  }

  ghost predicate LineOk(s: State) {
    && (forall i, j :: 0 <= i < j < |s.line| ==> s.line[i] != s.line[j])
    && (forall t :: t in s.line ==> t in s.tasks)
  }

  ghost predicate Inv(s: State) {
    BooksOk(s) && LineOk(s) && (forall t :: t in s.tasks ==> TaskOk(s, t))
  }

  ghost predicate IsNew(log: seq<Operation>, op: Operation) { forall a :: a in log ==> a.id != op.id && a.key != op.key }

  ghost predicate Fits(log: seq<Operation>, op: Operation) {
    IsNew(log, op) || exists a :: a in log && SameOperation(a, op)
  }

  /** A record that agrees with the log, or is about something new, extends it. */
  lemma AppendAgrees(log: seq<Operation>, op: Operation)
    requires Agree(log) && Fits(log, op)
    ensures Agree(log + [op])
  {
    if !IsNew(log, op) {
      var a :| a in log && SameOperation(a, op);
      forall b | b in log && (b.key == op.key || b.id == op.id) ensures SameOperation(b, op) {
        assert SameOperation(b, a);
      }
    }
  }

  lemma AppendIndexed(ix: Index, log: seq<Operation>, op: Operation)
    requires Agree(log + [op]) && Indexed(ix, log)
    ensures Indexed(Put(ix, op), log + [op])
  {
    var n, more := Put(ix, op), log + [op];
    assert op in more;
    forall a | a in more ensures IndexedAt(n, a) {
      if a != op { assert a in log; assert IndexedAt(ix,
        a); assert a.key == op.key || a.id == op.id ==> SameOperation(a, op); }
    }
    forall k | k in n.idsByKey ensures exists a :: a in more && a.key == k {
      if k != op.key { var a :| a in log && a.key == k; assert a in more; }
    }
    forall id | id in n.operations ensures exists a :: a in more && SameOperation(n.operations[id], a) && a.id == id {
      if id != op.id { var a :| a in log && SameOperation(ix.operations[id], a) && a.id == id; assert a in more; }
    }
    hide Agree, Indexed;
  }

  lemma AppendBooks(s: State, op: Operation)
    requires BooksOk(s) && op.id in s.ids
    requires Fits(s.log, op)
    ensures BooksOk(Append(s, op))
  {
    var n := Append(s, op);
    AppendAgrees(s.log, op);
    AppendIndexed(s.index, s.log, op);
    assert n.log[..|n.log| - 1] == s.log;
    hide Agree, Indexed;
  }

  /** Fewer records agree too. */
  lemma FewerAgree(log: seq<Operation>, some: seq<Operation>)
    requires Agree(log) && forall a :: a in some ==> a in log
    ensures Agree(some)
  {
  }

  lemma {:induction false} ReplayIndexed(log: seq<Operation>)
    requires Agree(log)
    ensures Indexed(Replay(log), log)
  {
    if log != [] {
      var init, last := log[..|log| - 1], log[|log| - 1];
      assert log == init + [last];
      FewerAgree(log, init);
      hide Agree, Indexed;
      ReplayIndexed(init);
      AppendIndexed(Replay(init), init, last);
    }
  }

  lemma RestartBooks(s: State)
    requires BooksOk(s)
    ensures BooksOk(Restart(s)) && LineOk(Restart(s))
  {
    FewerAgree(s.log, s.disk.shown);
    ReplayIndexed(s.disk.shown);
    hide Agree, Indexed, Replay;
  }

  /** What is shown of a cut append is as good as an append. */
  lemma CutBooks(s: State, op: Operation, complete: bool)
    requires BooksOk(s) && BooksOk(Append(s, op))
    ensures BooksOk(Append(s, op).(disk := Cut(s.disk, s.disk.index + [op], complete)))
  {
    hide Agree, Indexed, Replay, Put;
    var d := Cut(s.disk, s.disk.index + [op], complete);
    assert d.index == s.disk.index && (d.shown == d.index || d.shown == d.index + [op]);
    hide Cut, Appended;
    forall a | a in d.shown ensures a in s.log + [op] { assert a in s.disk.index || a == op; }
  }

  lemma TearBooks(s: State, op: Operation, complete: bool)
    requires BooksOk(s) && op.id in s.ids && Fits(s.log, op)
    ensures BooksOk(Tear(s, op, complete)) && LineOk(Tear(s, op, complete))
  {
    var n := Append(s, op).(disk := Cut(s.disk, s.disk.index + [op], complete));
    assert Restart(n) == Tear(s, op, complete);
    hide BooksOk, LineOk, Fits, Tear, Restart, Append, Cut;
    AppendBooks(s, op);
    CutBooks(s, op, complete);
    RestartBooks(n);
  }

  /** An answer out of the index tells of a record. */
  lemma AnswerTells(ix: Index, log: seq<Operation>, kept: Operation, key: Key, fingerprint: Hash, a: Operation)
    requires Indexed(ix, log) && ByKey(ix, key) == Some(kept) && a in log && a.key == key
    ensures SameOperation(kept, a) && (a.fingerprint == fingerprint ==> Tells(a, Answer(key, fingerprint, kept)))
    ensures a.fingerprint != fingerprint ==> Answer(key, fingerprint, kept).Conflict?
  {
    assert IndexedAt(ix, a);
  }

  lemma AbsentKey(ix: Index, log: seq<Operation>, key: Key)
    requires Indexed(ix, log) && ByKey(ix, key).None?
    ensures key !in ix.idsByKey
  {
    assert forall a :: a in log && a.key == key ==> IndexedAt(ix, a);
  }

  lemma KeepArrive(s: State, t: Tid, op: Operation)
    requires Inv(s) && Enabled(s, Arrive(t, op))
    ensures Inv(Apply(s, Arrive(t, op)))
  {
    var n := Apply(s, Arrive(t, op));
    hide Agree, Indexed, Replay, ByKey;
    forall u | u in n.tasks ensures TaskOk(n, u) { if u in s.tasks { assert TaskOk(s, u); } }
  }

  lemma KeepLineUp(s: State, t: Tid)
    requires Inv(s) && Enabled(s, LineUp(t))
    ensures Inv(Apply(s, LineUp(t)))
  {
    hide Agree, Indexed, Replay;
    var n := Apply(s, LineUp(t));
    assert TaskOk(s, t);
    forall u | u in n.tasks ensures TaskOk(n, u) { assert TaskOk(s, u); }
  }

  lemma KeepFail(s: State, t: Tid)
    requires Inv(s) && Enabled(s, Fail(t))
    ensures Inv(Apply(s, Fail(t)))
  {
    hide Agree, Indexed, Replay;
    var n := Apply(s, Fail(t));
    assert TaskOk(s, t);
    forall u | u in n.tasks ensures TaskOk(n, u) { assert TaskOk(s, u); }
  }

  /** Leaving the head of the line keeps everyone else in it. */
  lemma Shifted(line: seq<Tid>)
    requires |line| > 0 && forall i, j :: 0 <= i < j < |line| ==> line[i] != line[j]
    ensures forall i, j :: 0 <= i < j < |line[1..]| ==> line[1..][i] != line[1..][j]
    ensures forall u :: u in line[1..] <==> u in line && u != line[0]
  {
    assert line == [line[0]] + line[1..];
  }

  lemma FinishTasks(s: State, n: State, t: Tid)
    requires LineOk(s) && (forall u :: u in s.tasks ==> TaskOk(s, u)) && t in s.tasks && |s.line| > 0 && s.line[0] == t
    requires n.tasks == s.tasks - {t} && n.line == s.line[1..] && n.ids == s.ids
    requires forall u, a :: u in n.tasks && a in n.log ==> a.id != n.tasks[u].op.id
    ensures LineOk(n) && forall u :: u in n.tasks ==> TaskOk(n, u)
  {
    Shifted(s.line);
    forall u | u in n.tasks ensures TaskOk(n, u) { assert TaskOk(s, u); }
  }

  lemma KeepLookAgain(s: State, t: Tid)
    requires Inv(s) && Enabled(s, LookAgain(t))
    ensures Inv(Apply(s, LookAgain(t)))
  {
    var n := Apply(s, LookAgain(t));
    var op := s.tasks[t].op;
    var kept := ByKey(s.index, op.key);
    assert TaskOk(s, t);
    if kept.Some? {
      hide Agree, Indexed, Replay, ByKey;
      FinishTasks(s, n, t);
      hide TaskOk;
    } else {
      AbsentKey(s.index, s.log, op.key);
      hide Agree, Indexed, Replay, ByKey;
      forall u | u in n.tasks ensures TaskOk(n, u) { assert TaskOk(s, u); }
    }
  }

  function SuccessOf(op: Operation): Reply { Prepared(op.key, op.fingerprint, op.id, op.action, op.review) }

  /** Nobody else has the id or the key of what is about to be stored. */
  lemma StoreIsNew(s: State, t: Tid)
    requires Inv(s) && CanStore(s, t)
    ensures s.tasks[t].op.id in s.ids && IsNew(s.log, s.tasks[t].op)
  {
    assert TaskOk(s, t);
    forall a | a in s.log ensures a.key != s.tasks[t].op.key { assert IndexedAt(s.index, a); }
    hide Agree, Indexed, Replay;
  }

  /** Storing ends the prepare and leaves the other operations' ids fresh. */
  lemma StoreTasks(s: State, t: Tid)
    requires Inv(s) && CanStore(s, t)
    ensures var n, op := Apply(s, Store(t)), s.tasks[t].op;
            && n.tasks == s.tasks - {t} && n.line == s.line[1..] && n.ids == s.ids
            && n == Append(s, op).(tasks := n.tasks, line := n.line, replies := s.replies + {SuccessOf(op)})
            && forall u, a :: u in n.tasks && a in n.log ==> a.id != n.tasks[u].op.id
  {
    hide Put, Agree, Indexed, Replay;
    assert TaskOk(s, t);
    var n, op := Apply(s, Store(t)), s.tasks[t].op;
    forall u, a | u in n.tasks && a in n.log ensures a.id != n.tasks[u].op.id {
      assert TaskOk(s, u);
      assert a in s.log || a == op;
    }
  }

  lemma KeepStore(s: State, t: Tid)
    requires Inv(s) && Enabled(s, Store(t))
    ensures Inv(Apply(s, Store(t)))
  {
    hide BooksOk, LineOk, TaskOk, Put, Apply;
    var n, op := Apply(s, Store(t)), s.tasks[t].op;
    StoreTasks(s, t);
    StoreIsNew(s, t);
    AppendBooks(s, op);
    SameBooks(Append(s, op), n);
    FinishTasks(s, n, t);
  }

  lemma KeepTearStore(s: State, t: Tid, complete: bool)
    requires Inv(s) && CanStore(s, t)
    ensures Inv(Apply(s, TearStore(t, complete)))
  {
    hide BooksOk, LineOk, TaskOk;
    StoreIsNew(s, t);
    TearBooks(s, s.tasks[t].op, complete);
  }

  lemma SameBooks(m: State, n: State)
    requires BooksOk(m) && n.log == m.log && n.index == m.index && n.ids == m.ids && n.disk == m.disk
    ensures BooksOk(n)
  {
    hide Agree, Indexed, Replay;
  }

  lemma TouchIsKnown(s: State, id: OpId, status: nat)
    requires BooksOk(s) && id in s.index.operations
    ensures var op := Touched(s, id, status);
            && op.id in s.ids && (exists b :: b in s.log && b.id == op.id && SameOperation(b, op))
            && Append(s, op).index.idsByKey.Keys == s.index.idsByKey.Keys
  {
    var op := Touched(s, id, status);
    var b :| b in s.log && SameOperation(s.index.operations[id], b) && b.id == id;
    assert IndexedAt(s.index, b);
    assert SameOperation(b, op);
    hide Agree, Indexed, Replay;
  }

  lemma TouchTask(s: State, n: State, op: Operation, u: Tid)
    requires u in s.tasks && TaskOk(s, u) && n == s.(log := s.log + [op], index := n.index, disk := n.disk)
    requires n.index.idsByKey.Keys == s.index.idsByKey.Keys && exists b :: b in s.log && b.id == op.id
    ensures TaskOk(n, u)
  {
    forall a | a in n.log ensures a.id != n.tasks[u].op.id { assert a in s.log || a == op; }
    assert s.tasks[u].op.key in n.index.idsByKey.Keys <==> s.tasks[u].op.key in s.index.idsByKey.Keys;
  }

  lemma KeepTouch(s: State, id: OpId, status: nat)
    requires Inv(s) && Enabled(s, Touch(id, status))
    ensures Inv(Apply(s, Touch(id, status)))
  {
    var op := Touched(s, id, status);
    assert Apply(s, Touch(id, status)) == Append(s, op);
    hide Apply, BooksOk, Put, TaskOk;
    TouchIsKnown(s, id, status);
    AppendBooks(s, op);
    TouchTasks(s, op);
  }

  lemma KeepTearTouch(s: State, id: OpId, status: nat, complete: bool)
    requires Inv(s) && id in s.index.operations
    ensures Inv(Apply(s, TearTouch(id, status, complete)))
  {
    hide BooksOk, LineOk, TaskOk;
    TouchIsKnown(s, id, status);
    TearBooks(s, Touched(s, id, status), complete);
  }

  lemma TouchTasks(s: State, op: Operation)
    requires LineOk(s) && forall u :: u in s.tasks ==> TaskOk(s, u)
    requires Append(s, op).index.idsByKey.Keys == s.index.idsByKey.Keys && exists b :: b in s.log && b.id == op.id
    ensures LineOk(Append(s, op)) && forall u :: u in Append(s, op).tasks ==> TaskOk(Append(s, op), u)
  {
    var n := Append(s, op);
    assert n == s.(log := s.log + [op], index := n.index, disk := n.disk);
    hide TaskOk, Put, Append;
    forall u | u in n.tasks ensures TaskOk(n, u) { TouchTask(s, n, op, u); }
  }

  lemma StepInv(s: State, step: Step)
    requires Inv(s) && Enabled(s, step)
    ensures Inv(Apply(s, step))
  {
    hide Inv, Apply;
    match step
    case Arrive(t, op) => KeepArrive(s, t, op);
    case LineUp(t) => KeepLineUp(s, t);
    case LookAgain(t) => KeepLookAgain(s, t);
    case Store(t) => KeepStore(s, t);
    case Fail(t) => KeepFail(s, t);
    case Touch(id, status) => KeepTouch(s, id, status);
    case Crash => KeepCrash(s);
    case TearStore(t, complete) => KeepTearStore(s, t, complete);
    case TearTouch(id, status, complete) => KeepTearTouch(s, id, status, complete);
  }

  lemma KeepCrash(s: State)
    requires Inv(s)
    ensures Inv(Apply(s, Crash))
  {
    hide BooksOk, LineOk;
    RestartBooks(s);
  }

  lemma {:induction false} RunInv(run: seq<State>, i: nat)
    requires Run(run) && i < |run|
    ensures Inv(run[i])
    decreases i
  {
    if i > 0 {
      RunInv(run, i - 1);
      assert Next(run[i - 1], run[i]);
      var step :| Enabled(run[i - 1], step) && run[i] == Apply(run[i - 1], step);
      hide *;
      StepInv(run[i - 1], step);
    }
  }

  lemma StepAt(run: seq<State>, i: nat) returns (step: Step)
    requires Run(run) && 0 < i < |run|
    ensures Inv(run[i - 1]) && Enabled(run[i - 1], step) && run[i] == Apply(run[i - 1], step)
  {
    RunInv(run, i - 1);
    hide Inv, Enabled, Apply;
    assert Next(run[i - 1], run[i]);
    step :| Enabled(run[i - 1], step) && run[i] == Apply(run[i - 1], step);
  }

  // ------------------------------------------------------------------ what a caller may rely on

  /** At most one operation exists per owner and key, among what the process holds and what the file shows, whatever
      interleaves and wherever crashes cut the log. */
  lemma OneOperationPerKey(run: seq<State>, i: nat, a: Operation, b: Operation)
    requires Run(run) && i < |run| && a.key == b.key
    requires a in run[i].log || a in run[i].disk.shown
    requires b in run[i].log || b in run[i].disk.shown
    ensures SameOperation(a, b)
  {
    RunInv(run, i);
    hide Run, Indexed, TaskOk, Replay, LineOk;
  }

  /** A prepare that stores its operation has its answer kept exactly if it found the file whole. */
  lemma KeptIfWhole(run: seq<State>, i: nat, t: Tid)
    requires Run(run) && i < |run| && CanStore(run[i], t)
    ensures SuccessOf(run[i].tasks[t].op) in Apply(run[i], Store(t)).replies
    ensures Kept(Apply(run[i], Store(t)), SuccessOf(run[i].tasks[t].op)) <==> !run[i].disk.torn
  {
    RunInv(run, i);
    var s, op := run[i], run[i].tasks[t].op;
    hide Run;
    StoreIsNew(s, t);
    StoreTasks(s, t);
    KeptIfNew(s, op);
    hide Inv, Apply;
  }

  lemma KeptIfNew(s: State, op: Operation)
    requires BooksOk(s) && forall a :: a in s.log ==> a.id != op.id
    ensures Backed(Append(s, op).disk.index, SuccessOf(op)) <==> !s.disk.torn
  {
    hide Agree, Indexed, Replay, Put;
    if !s.disk.torn { assert op in Append(s, op).disk.index && Tells(op, SuccessOf(op)); }
  }

  lemma KeptStays(s: State, step: Step, r: Reply)
    requires Enabled(s, step) && Kept(s, r)
    ensures Kept(Apply(s, step), r)
  {
    var a :| a in s.disk.index && Tells(a, r);
    hide Put, Replay, ByKey, Tells;
    assert a in Apply(s, step).disk.index;
  }

  lemma {:induction false} KeptForGood(run: seq<State>, i: nat, j: nat, r: Reply)
    requires Run(run) && i <= j < |run| && Kept(run[i], r)
    ensures Kept(run[j], r)
    decreases j
  {
    hide *;
    if i < j {
      KeptForGood(run, i, j - 1, r);
      var step := StepAt(run, j);
      KeptStays(run[j - 1], step, r);
    }
  }

  /** What a lookup after a restart would answer with. */
  predicate Shows(s: State, r: Reply) {
    r.Prepared? && var kept := ByKey(Replay(s.disk.shown), r.key); kept.Some? && Tells(kept.value, r)
  }

  lemma ShownIs(s: State, r: Reply)
    requires BooksOk(s) && r.Prepared?
    ensures Shows(s, r) <==> Backed(s.disk.shown, r)
  {
    var log, ix := s.disk.shown, Replay(s.disk.shown);
    FewerAgree(s.log, log);
    ReplayIndexed(log);
    var kept := ByKey(ix, r.key);
    if Backed(log, r) {
      var a :| a in log && Tells(a, r);
      assert IndexedAt(ix, a);
    }
    if kept.Some? && Tells(kept.value, r) {
      var id := ix.idsByKey[r.key];
      var a :| a in log && SameOperation(ix.operations[id], a) && a.id == id;
      assert Tells(a, r);
    }
    hide Agree, Indexed, Replay;
  }

  lemma KeptIsShown(s: State, r: Reply)
    requires BooksOk(s) && Kept(s, r)
    ensures Shows(s, r) && Backed(s.log, r)
  {
    hide Agree, Indexed, Replay, Shows;
    var a :| a in s.disk.index && Tells(a, r);
    assert a in s.disk.shown && a in s.log;
    ShownIs(s, r);
  }

  /** All kept successes under a key answer with one operation, action and review. */
  lemma SuccessesAgree(run: seq<State>, i: nat, p: Reply, q: Reply)
    requires Run(run) && i < |run| && Kept(run[i], p) && Kept(run[i], q) && p.key == q.key
    ensures p == q
  {
    RunInv(run, i);
    KeptIsShown(run[i], p);
    KeptIsShown(run[i], q);
    hide Run, Indexed, TaskOk, Replay, LineOk, Shows;
  }

  /** Whatever is answered under the key of a kept success tells of it, or of a conflict if the request differs. */
  lemma NextAnswer(s: State, step: Step, p: Reply, q: Reply)
    requires Inv(s) && Enabled(s, step) && Kept(s, p)
    requires q in Apply(s, step).replies && q !in s.replies && q.key == p.key
    ensures q == if q.fingerprint == p.fingerprint then p else Conflict(q.key, q.fingerprint)
  {
    KeptIsShown(s, p);
    var a :| a in s.log && Tells(a, p);
    hide Agree, Replay, Shows, Backed, LineOk, Kept;
    assert IndexedAt(s.index, a);
    match step
    case Arrive(t, op) => Told(s, op, a, p);
    case LookAgain(t) => Told(s, s.tasks[t].op, a, p);
    case Store(t) => StoreIsNew(s, t);
    case _ =>
  }

  lemma Told(s: State, op: Operation, a: Operation, p: Reply)
    requires Indexed(s.index, s.log) && a in s.log && Tells(a, p)
    ensures op.key == p.key && ByKey(s.index, op.key).Some? ==>
              Answer(op.key, op.fingerprint, ByKey(s.index, op.key).value)
              == if op.fingerprint == p.fingerprint then p else Conflict(op.key, op.fingerprint)
  {
    if op.key == p.key && ByKey(s.index, op.key).Some? {
      AnswerTells(s.index, s.log, ByKey(s.index, op.key).value, op.key, op.fingerprint, a);
    }
    hide Indexed;
  }

  /** Once a success is kept, each later answer under its key is that success, or a conflict if the request differs. */
  lemma {:induction false} DifferentRequestConflicts(run: seq<State>, i: nat, j: nat, p: Reply, q: Reply)
    requires Run(run) && i <= j < |run| && Kept(run[i], p)
    requires q in run[j].replies && q !in run[i].replies && q.key == p.key
    ensures q == if q.fingerprint == p.fingerprint then p else Conflict(q.key, q.fingerprint)
    decreases j
  {
    hide *;
    if i < j {
      var step := StepAt(run, j);
      if q in run[j - 1].replies {
        DifferentRequestConflicts(run, i, j - 1, p, q);
      } else {
        KeptForGood(run, i, j - 1, p);
        NextAnswer(run[j - 1], step, p, q);
      }
    }
  }

  // ------------------------------------------------------------------ which answers survive

  ghost predicate Reaches(s: State, t: State) { Paths.Reaches(Next, s, t) }

  lemma Start(s: State)
    ensures Reaches(s, s)
  {
    hide Next;
    Paths.Start(Next, s);
  }

  lemma Extend(s: State, t: State, step: Step)
    requires Reaches(s, t) && Enabled(t, step)
    ensures Reaches(s, Apply(t, step))
  {
    hide Enabled, Apply;
    assert Next(t, Apply(t, step));
    hide Next;
    Paths.Extend(Next, s, t, Apply(t, step));
  }

  lemma Join(s: State, t: State, u: State)
    requires Reaches(s, t) && Reaches(t, u)
    ensures Reaches(s, u)
  {
    hide Next;
    Paths.Join(Next, s, t, u);
  }

  lemma NextKeeps(s: State, t: State, r: Reply)
    requires Inv(s) && Kept(s, r) && Next(s, t)
    ensures Inv(t) && Kept(t, r)
  {
    hide Inv, Kept, Enabled, Apply;
    var step :| Enabled(s, step) && t == Apply(s, step);
    StepInv(s, step);
    KeptStays(s, step, r);
  }

  lemma ReachedKeeps(s: State, t: State, r: Reply)
    requires Inv(s) && Kept(s, r) && Reaches(s, t)
    ensures Inv(t) && Kept(t, r)
  {
    hide Inv, Kept, Next;
    var path :| Paths.Path(Next, path) && path[0] == s && path[|path| - 1] == t;
    forall u, v | Inv(u) && Kept(u, r) && Next(u, v) ensures Inv(v) && Kept(v, r) { NextKeeps(u, v, r); }
    Paths.PathKeeps(Next, path, |path| - 1, u => Inv(u) && Kept(u, r));
  }

  /** An answer that no complete line tells of: crash, and if the reload still shows it,
    write to its record once more and
      crash in that. */
  lemma Forgotten(s: State, p: Reply) returns (t: State)
    requires Inv(s) && p.Prepared? && !Kept(s, p)
    ensures Reaches(s, t) && !Shows(t, p)
  {
    hide Reaches, Shows, Kept, Backed;
    Start(s);
    t := s;
    if Shows(s, p) {
      var u := Apply(s, Crash);
      KeepCrash(s);
      Extend(s, s, Crash);
      ShownHasId(s, p);
      t := Apply(u, TearTouch(p.id, 0, false));
      Extend(s, u, TearTouch(p.id, 0, false));
      KeepTearTouch(u, p.id, 0, false);
      TornAway(s, u, t, p);
    }
  }

  lemma ShownHasId(s: State, p: Reply)
    requires BooksOk(s) && Shows(s, p)
    ensures p.id in Restart(s).index.operations
  {
    FewerAgree(s.log, s.disk.shown);
    ReplayIndexed(s.disk.shown);
    var ix := Replay(s.disk.shown);
    var id := ix.idsByKey[p.key];
    assert exists a :: a in s.disk.shown && SameOperation(ix.operations[id], a) && a.id == id;
    hide Agree, Replay;
  }

  lemma TornAway(s: State, u: State, t: State, p: Reply)
    requires BooksOk(s) && BooksOk(t) && p.Prepared? && Shows(s, p) && !Kept(s, p)
    requires u == Restart(s) && t.disk == Cut(u.disk, t.disk.shown, false)
    ensures !Shows(t, p)
  {
    hide Agree, Indexed, Replay, Shows;
    ShownIs(s, p);
    ShownIs(t, p);
    assert t.disk.shown == s.disk.index;
  }

  /** An answer survives every restart to come, crashes in the middle of appends included, exactly if a complete line of
      the file tells of it. */
  lemma AnswerSurvivesIffKept(run: seq<State>, i: nat, p: Reply)
    requires Run(run) && i < |run| && p.Prepared?
    ensures Kept(run[i], p) <==> forall t :: Reaches(run[i], t) ==> Shows(t, p)
  {
    RunInv(run, i);
    hide Run, Shows, Kept, Inv, Next;
    var s := run[i];
    if Kept(s, p) {
      forall t | Reaches(s, t) ensures Shows(t, p) {
        ReachedKeeps(s, t, p);
        KeptShows(t, p);
      }
    } else {
      var t := Forgotten(s, p);
    }
  }

  lemma KeptShows(s: State, r: Reply)
    requires Inv(s) && Kept(s, r)
    ensures Shows(s, r)
  {
    KeptIsShown(s, r);
  }

  /** A whole prepare by an otherwise idle process, up to its put. */
  function Preparing(s: State, pc: Pc): State {
    s.(tasks := map[0 := pc], line := if pc.Building? then [] else [0], ids := s.ids + {pc.op.id})
  }

  predicate Idle(s: State, op: Operation) {
    s.tasks == map[] && s.line == [] && op.id !in s.ids && op.key !in s.index.idsByKey
  }

  lemma ReachesPut(s: State, op: Operation)
    requires Idle(s, op)
    ensures Reaches(s, Preparing(s, Missing(op)))
  {
    var a, b, c := Preparing(s, Pc.Building(op)), Preparing(s, Lined(op)), Preparing(s, Missing(op));
    assert Enabled(s, Arrive(0, op)) && Apply(s, Arrive(0, op)) == a;
    assert Enabled(a, LineUp(0)) && Apply(a, LineUp(0)) == b by { assert [] + [0] == [0]; }
    assert Enabled(b, LookAgain(0)) && Apply(b, LookAgain(0)) == c;
    hide *;
    Start(s);
    Extend(s, s, Arrive(0, op));
    Extend(s, a, LineUp(0));
    Extend(s, b, LookAgain(0));
  }

  function Succeeded(s: State, op: Operation): State {
    Append(s, op).(replies := s.replies + {SuccessOf(op)}, ids := s.ids + {op.id})
  }

  lemma ReachesSuccess(s: State, op: Operation)
    requires Idle(s, op)
    ensures Reaches(s, Succeeded(s, op))
  {
    var c := Preparing(s, Missing(op));
    ReachesPut(s, op);
    hide Reaches;
    assert Enabled(c, Store(0)) && Apply(c, Store(0)) == Succeeded(s, op) by { assert [0][1..] == []; }
    hide *;
    Extend(s, c, Store(0));
  }

  lemma ReachesTorn(s: State, op: Operation)
    requires Idle(s, op)
    ensures Reaches(s, Tear(s, op, false).(ids := s.ids + {op.id}))
  {
    var c := Preparing(s, Missing(op));
    ReachesPut(s, op);
    hide Reaches;
    assert Enabled(c, TearStore(0, false)) && Apply(c, TearStore(0, false)) == Tear(s, op,
      false).(ids := s.ids + {op.id});
    hide *;
    Extend(s, c, TearStore(0, false));
  }

  /** Two different successes under one key, for any three operations: the crash tears the log in the put of the first,
      the second is answered and lost behind the fragment, and after the next crash the third finds the key free. */
  lemma LostAnswerIsRepeated(torn: Operation, lost: Operation, next: Operation) returns (t: State)
    requires lost.key == next.key && torn.id != lost.id && torn.id != next.id && lost.id != next.id
    ensures Reaches(INITIAL, t)
    ensures SuccessOf(lost) in t.replies && SuccessOf(next) in t.replies && SuccessOf(lost) != SuccessOf(next)
  {
    var s := INITIAL;
    var a := Tear(s, torn, false).(ids := {torn.id});
    var b := Succeeded(a, lost);
    var c := Apply(b, Crash);
    t := Succeeded(c, next);
    assert a.disk == Reloaded([], [], true) && b.disk == Intact([]) && c.index == Empty && a.index == Empty;
    assert s.ids + {torn.id} == a.ids;
    hide Reaches;
    ReachesTorn(s, torn);
    ReachesSuccess(a, lost);
    Join(s, a, b);
    Extend(s, b, Crash);
    ReachesSuccess(c, next);
    Join(s, c, t);
  }
}
