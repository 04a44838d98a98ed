/** The lock graph (account-lock.ts and the executor's write queue): promise tails per key, nested
    acquisition in order, and what any number of concurrent tasks can do with them. */
module AccountLocks {
  import opened Types

  // ------------------------------------------------------------------ keys and their order

  /** RFQ resources come before accounts, accounts before the executor's write queue; within a
      class, keys are ordered as strings. */
  datatype Key = Resource(id: string) | AccountKey(id: string) | WriteQueue

  predicate TextLess(a: string, b: string) {
    b != "" && (a == "" || a[0] < b[0] || (a[0] == b[0] && TextLess(a[1..], b[1..])))
  }

  function Class(k: Key): nat { match k case Resource(_) => 0 case AccountKey(_) => 1 case WriteQueue => 2 }

  function Name(k: Key): string { match k case Resource(id) => id case AccountKey(id) => id case WriteQueue => "" }

  predicate Less(a: Key, b: Key) { Class(a) < Class(b) || (Class(a) == Class(b) && TextLess(Name(a), Name(b))) }

  lemma {:induction false} TextIrreflexive(a: string)
    ensures !TextLess(a, a)
  {
    if a != "" { TextIrreflexive(a[1..]); }
  }

  lemma {:induction false} TextOrder(a: string, b: string)
    ensures !(TextLess(a, b) && TextLess(b, a))
    ensures a != b ==> TextLess(a, b) || TextLess(b, a)
    decreases |a| + |b|
  {
    if a != "" && b != "" {
      TextOrder(a[1..], b[1..]);
      if a[0] == b[0] && a != b { assert [a[0]] + a[1..] == a && [b[0]] + b[1..] == b; }
    }
  }

  lemma {:induction false} TextTransitive(a: string, b: string, c: string)
    requires TextLess(a, b) && TextLess(b, c)
    ensures TextLess(a, c)
  {
    if a != "" && a[0] == b[0] == c[0] { TextTransitive(a[1..], b[1..], c[1..]); }
  }

  lemma Total(a: Key, b: Key)
    ensures !(Less(a, b) && Less(b, a)) && !Less(a, a)
    ensures a != b ==> Less(a, b) || Less(b, a)
  {
    TextOrder(Name(a), Name(b));
    TextIrreflexive(Name(a));
  }

  lemma Transitive(a: Key, b: Key, c: Key)
    requires Less(a, b) && Less(b, c)
    ensures Less(a, c)
  {
    if Class(a) == Class(b) == Class(c) { TextTransitive(Name(a), Name(b), Name(c)); }
  }

  predicate Sorted(ks: seq<Key>) { forall i, j :: 0 <= i < j < |ks| ==> Less(ks[i], ks[j]) }

  function Insert(k: Key, ks: seq<Key>): seq<Key> {
    if ks == [] then [k] else if k == ks[0] then ks else if Less(k, ks[0]) then [k] + ks else [ks[0]] + Insert(k, ks[1..])
  }

  /** [...new Set(rawKeys)].sort(). */
  function SortedKeys(raw: seq<Key>): seq<Key> { if raw == [] then [] else Insert(raw[0], SortedKeys(raw[1..])) }

  lemma {:induction false} InsertSorted(k: Key, ks: seq<Key>)
    requires Sorted(ks)
    ensures Sorted(Insert(k, ks)) && forall x :: x in Insert(k, ks) <==> x == k || x in ks
  {
    if ks != [] {
      assert ks == [ks[0]] + ks[1..];
      Total(k, ks[0]);
      if Less(k, ks[0]) {
        forall j | 0 <= j < |ks| ensures Less(k, ks[j]) { if j > 0 { Transitive(k, ks[0], ks[j]); } }
      } else if k != ks[0] {
        InsertSorted(k, ks[1..]);
        var rest := Insert(k, ks[1..]);
        forall j | 0 <= j < |rest| ensures Less(ks[0], rest[j]) { assert rest[j] in rest; }
        hide Less;
      }
    }
  }

  /** Sorting removes duplicates and loses no key. */
  lemma {:induction false} SortedKeysSorted(raw: seq<Key>)
    ensures Sorted(SortedKeys(raw)) && forall x :: x in SortedKeys(raw) <==> x in raw
  {
    if raw != [] {
      SortedKeysSorted(raw[1..]);
      InsertSorted(raw[0], SortedKeys(raw[1..]));
      assert raw == [raw[0]] + raw[1..];
      hide Less;
    }
  }

  // ------------------------------------------------------------------ tasks

  type Tid = nat
  type Rid = nat

  /** One call of runOne: it waits for the tail it found, and settles when its work is done. */
  datatype Run = Run(task: Tid, key: Key, prev: Option<Rid>, settled: bool)

  datatype Phase = Climbing | Unwinding | Cleaning

  /** A task acquires its keys in order, each inside the previous one's work; runs are its calls of
      runOne so far, of which the first held have begun their work. */
  datatype Task = Task(keys: seq<Key>, runs: seq<Rid>, held: nat, phase: Phase)

  datatype State = State(tasks: map<Tid, Task>, runs: map<Rid, Run>, tails: map<Key, Rid>, order: map<Key, seq<Rid>>)

  function Requests(s: State, k: Key): seq<Rid> { if k in s.order then s.order[k] else [] }

  const Idle := State(map[], map[], map[], map[])

  datatype Step =
    | Spawn(t: Tid, keys: seq<Key>) | Request(t: Tid, r: Rid) | Enter(t: Tid) | Complete(t: Tid)
    | Settle(t: Tid) | Clean(t: Tid) | Leave(t: Tid)

  predicate Enabled(s: State, step: Step) {
    match step
    case Spawn(t, keys) => t !in s.tasks && Sorted(keys)
    case Request(t, r) => t in s.tasks && r !in s.runs && s.tasks[t].phase.Climbing? && s.tasks[t].held == |s.tasks[t].runs| < |s.tasks[t].keys|
    case Enter(t) => t in s.tasks && CanEnter(s, s.tasks[t])
    case Complete(t) => t in s.tasks && s.tasks[t].phase.Climbing? && s.tasks[t].held == |s.tasks[t].runs|
    case Settle(t) => t in s.tasks && s.tasks[t].phase.Unwinding? && s.tasks[t].held > 0 && |s.tasks[t].runs| > 0 && Last(s.tasks[t]) in s.runs
    case Clean(t) => t in s.tasks && s.tasks[t].phase.Cleaning? && s.tasks[t].held > 0 && |s.tasks[t].runs| > 0 && Last(s.tasks[t]) in s.runs
    case Leave(t) => t in s.tasks && s.tasks[t].phase.Unwinding? && s.tasks[t].held == 0
  }

  predicate CanEnter(s: State, task: Task) {
    && task.phase.Climbing? && task.held + 1 == |task.runs| && task.runs[task.held] in s.runs
    && var prev := s.runs[task.runs[task.held]].prev;
       prev.None? || (prev.value in s.runs && s.runs[prev.value].settled)
  }

  function Last(task: Task): Rid { if |task.runs| > 0 then task.runs[|task.runs| - 1] else 0 }

  function Apply(s: State, step: Step): State
    requires Enabled(s, step)
  {
    match step
    case Spawn(t, keys) => s.(tasks := s.tasks[t := Task(keys, [], 0, Climbing)])
    case Request(t, r) =>
      var task := s.tasks[t];
      var key := task.keys[task.held];
      var prev := if key in s.tails then Some(s.tails[key]) else None;
      State(s.tasks[t := task.(runs := task.runs + [r])], s.runs[r := Run(t, key, prev, false)], s.tails[key := r],
            s.order[key := Requests(s, key) + [r]])
    case Enter(t) => s.(tasks := s.tasks[t := s.tasks[t].(held := s.tasks[t].held + 1)])
    case Complete(t) => s.(tasks := s.tasks[t := s.tasks[t].(phase := Unwinding)])
    case Settle(t) =>
      var r := Last(s.tasks[t]);
      s.(tasks := s.tasks[t := s.tasks[t].(phase := Cleaning)], runs := s.runs[r := s.runs[r].(settled := true)])
    case Clean(t) =>
      var task := s.tasks[t];
      var r := Last(task);
      var key := s.runs[r].key;
      var tails := if key in s.tails && s.tails[key] == r then s.tails - {key} else s.tails;
      s.(tasks := s.tasks[t := task.(runs := task.runs[..|task.runs| - 1], held := task.held - 1, phase := Unwinding)], tails := tails)
    case Leave(t) => s.(tasks := s.tasks - {t})
  }

  ghost predicate Next(s: State, t: State) { exists step :: Enabled(s, step) && t == Apply(s, step) }

  ghost predicate Reachable(run: seq<State>) {
    && |run| > 0 && run[0] == Idle
    && (forall i :: 0 < i < |run| ==> Next(run[i - 1], run[i]))
  }

  // ------------------------------------------------------------------ the invariant

  ghost predicate TaskOk(s: State, t: Tid)
    requires t in s.tasks
  {
    var task := s.tasks[t];
    && Sorted(task.keys) && |task.runs| <= |task.keys|
    && task.held <= |task.runs| <= task.held + 1
    && (!task.phase.Climbing? ==> |task.runs| == task.held)
    && (task.phase.Cleaning? ==> task.held > 0)
    && (forall i :: 0 <= i < |task.runs| ==> RunOk(s, t, i))
  }

  ghost predicate RunOk(s: State, t: Tid, i: nat)
    requires t in s.tasks && i < |s.tasks[t].runs| <= |s.tasks[t].keys|
  {
    var task := s.tasks[t];
    var r := task.runs[i];
    && r in s.runs && s.runs[r].task == t && s.runs[r].key == task.keys[i]
    && (s.runs[r].settled <==> task.phase.Cleaning? && i == |task.runs| - 1)
    && (i < task.held ==> Served(s, r))
  }

  /** Everything requested before r on its key has settled. */
  ghost predicate Served(s: State, r: Rid)
    requires r in s.runs
  {
    var q := Requests(s, s.runs[r].key);
    forall i, j :: 0 <= i < j < |q| && q[j] == r ==> q[i] in s.runs && s.runs[q[i]].settled
  }

  /** A run that has not settled belongs to a task that has not let go of it. */
  ghost predicate Owned(s: State, r: Rid)
    requires r in s.runs
  {
    s.runs[r].settled || (s.runs[r].task in s.tasks && r in s.tasks[s.runs[r].task].runs)
  }

  ghost predicate QueueOk(s: State, k: Key) {
    var q := Requests(s, k);
    && (forall i :: 0 <= i < |q| ==> q[i] in s.runs && s.runs[q[i]].key == k)
    && (forall i, j :: 0 <= i < j < |q| ==> q[i] != q[j])
    && (forall i, j :: 0 <= i < j < |q| && s.runs[q[j]].settled ==> s.runs[q[i]].settled)
    && (forall j :: 0 <= j < |q| ==> PrevOk(s, q, j))
    && (if k in s.tails then |q| > 0 && s.tails[k] == q[|q| - 1] else AllSettled(s, q))
  }

  /** The promise that q[j] waits for is its predecessor; a missing one means all of them settled. */
  ghost predicate PrevOk(s: State, q: seq<Rid>, j: nat)
    requires j < |q| && (forall i :: 0 <= i < |q| ==> q[i] in s.runs)
  {
    match s.runs[q[j]].prev
    case None => AllSettled(s, q[..j])
    case Some(p) => j > 0 && p == q[j - 1]
  }

  ghost predicate AllSettled(s: State, q: seq<Rid>) {
    forall i :: 0 <= i < |q| ==> q[i] in s.runs && s.runs[q[i]].settled
  }

  ghost predicate Inv(s: State) {
    && (forall t :: t in s.tasks ==> TaskOk(s, t))
    && (forall r :: r in s.runs ==> Owned(s, r) && r in Requests(s, s.runs[r].key))
    && (forall k :: QueueOk(s, k))
  }

  // ------------------------------------------------------------------ every step keeps it

  /** Tasks other than t, and queues, when only the entry of t changes. */
  lemma KeepTask(s: State, t: Tid, task: Task)
    requires Inv(s) && t in s.tasks && task.runs == s.tasks[t].runs && TaskOk(s.(tasks := s.tasks[t := task]), t)
    ensures Inv(s.(tasks := s.tasks[t := task]))
  {
    var n := s.(tasks := s.tasks[t := task]);
    SameQueues(s, n);
    forall x | x in n.tasks ensures TaskOk(n, x) {
      if x != t { assert TaskOk(s, x); SameTask(s, n, x); }
    }
    hide Sorted, QueueOk, TaskOk, RunOk;
  }

  lemma SameQueues(s: State, n: State)
    requires Inv(s) && n == s.(tasks := n.tasks)
    ensures forall k :: QueueOk(n, k)
    ensures forall k :: Requests(n, k) == Requests(s, k)
  {
    assert forall k :: Requests(n, k) == Requests(s, k);
    forall k ensures QueueOk(n, k) {
      assert QueueOk(s, k);
      forall j | 0 <= j < |Requests(n, k)| ensures PrevOk(n, Requests(n, k), j) { assert PrevOk(s, Requests(s, k), j); }
    }
    hide Sorted, TaskOk, Owned;
  }

  lemma SameTask(s: State, n: State, x: Tid)
    requires x in s.tasks && TaskOk(s, x) && n == s.(tasks := n.tasks) && x in n.tasks && n.tasks[x] == s.tasks[x]
    ensures TaskOk(n, x)
  {
    assert forall k :: Requests(n, k) == Requests(s, k);
    forall i | 0 <= i < |n.tasks[x].runs| ensures RunOk(n, x, i) { assert RunOk(s, x, i); }
    hide Sorted;
  }

  lemma KeepSpawn(s: State, t: Tid, keys: seq<Key>)
    requires Inv(s) && Enabled(s, Spawn(t, keys))
    ensures Inv(Apply(s, Spawn(t, keys)))
  {
    var n := Apply(s, Spawn(t, keys));
    SameQueues(s, n);
    forall x | x in n.tasks ensures TaskOk(n, x) {
      if x != t { assert TaskOk(s, x); SameTask(s, n, x); }
    }
    hide Sorted, QueueOk;
  }

  lemma KeepLeave(s: State, t: Tid)
    requires Inv(s) && Enabled(s, Leave(t))
    ensures Inv(Apply(s, Leave(t)))
  {
    var n := Apply(s, Leave(t));
    SameQueues(s, n);
    forall x | x in n.tasks ensures TaskOk(n, x) { assert TaskOk(s, x); SameTask(s, n, x); }
    assert TaskOk(s, t);
    hide Sorted, QueueOk, RunOk;
  }

  lemma KeepComplete(s: State, t: Tid)
    requires Inv(s) && Enabled(s, Complete(t))
    ensures Inv(Apply(s, Complete(t)))
  {
    var n := Apply(s, Complete(t));
    assert TaskOk(s, t);
    assert TaskOk(n, t) by {
      forall i | 0 <= i < |n.tasks[t].runs| ensures RunOk(n, t, i) { assert RunOk(s, t, i); }
    }
    hide Inv, TaskOk;
    KeepTask(s, t, n.tasks[t]);
  }

  /** The awaited promise settled, so everything before it on the key has. */
  lemma EnterIsServed(s: State, t: Tid)
    requires Inv(s) && Enabled(s, Enter(t))
    ensures Served(s, s.tasks[t].runs[s.tasks[t].held])
  {
    var r := s.tasks[t].runs[s.tasks[t].held];
    var key := s.runs[r].key;
    assert QueueOk(s, key);
    var q := Requests(s, key);
    forall i, j | 0 <= i < j < |q| && q[j] == r ensures q[i] in s.runs && s.runs[q[i]].settled {
      assert PrevOk(s, q, j);
      if s.runs[r].prev.None? { assert q[..j][i] == q[i]; }
    }
    hide Sorted, TaskOk, Owned;
  }

  lemma KeepEnter(s: State, t: Tid)
    requires Inv(s) && Enabled(s, Enter(t))
    ensures Inv(Apply(s, Enter(t)))
  {
    var n := Apply(s, Enter(t));
    assert TaskOk(s, t);
    EnterIsServed(s, t);
    assert TaskOk(n, t) by {
      forall i | 0 <= i < |n.tasks[t].runs| ensures RunOk(n, t, i) { assert RunOk(s, t, i); }
    }
    hide Inv, TaskOk;
    KeepTask(s, t, n.tasks[t]);
  }

  // ------------------------------------------------------------------ requesting

  lemma RequestQueue(s: State, t: Tid, r: Rid, k: Key)
    requires QueueOk(s, k) && Enabled(s, Request(t, r))
    ensures QueueOk(Apply(s, Request(t, r)), k)
  {
    var n := Apply(s, Request(t, r));
    var key := s.tasks[t].keys[s.tasks[t].held];
    var q, p := Requests(s, k), Requests(n, k);
    assert p == if k == key then q + [r] else q;
    forall j | 0 <= j < |p| ensures PrevOk(n, p, j) {
      if j < |q| {
        assert PrevOk(s, q, j);
        assert p[..j] == q[..j];
      } else {
        assert p[..j] == q;
      }
    }
  }

  lemma RequestServed(s: State, t: Tid, r: Rid, x: Rid)
    requires Inv(s) && Enabled(s, Request(t, r)) && x in s.runs && Served(s, x)
    ensures Served(Apply(s, Request(t, r)), x)
  {
    assert QueueOk(s, s.runs[x].key);
    hide Sorted, TaskOk, Owned;
  }

  lemma RequestTask(s: State, t: Tid, r: Rid, x: Tid)
    requires Inv(s) && Enabled(s, Request(t, r)) && x in s.tasks
    ensures TaskOk(Apply(s, Request(t, r)), x)
  {
    var n := Apply(s, Request(t, r));
    assert TaskOk(s, x);
    forall i | 0 <= i < |n.tasks[x].runs| ensures RunOk(n, x, i) {
      if i < |s.tasks[x].runs| {
        assert RunOk(s, x, i);
        var y := s.tasks[x].runs[i];
        if Served(s, y) { RequestServed(s, t, r, y); }
        hide Served;
      }
    }
    hide Sorted, QueueOk, Owned;
  }

  lemma KeepRequest(s: State, t: Tid, r: Rid)
    requires Inv(s) && Enabled(s, Request(t, r))
    ensures Inv(Apply(s, Request(t, r)))
  {
    var n := Apply(s, Request(t, r));
    forall k ensures QueueOk(n, k) { assert QueueOk(s, k); RequestQueue(s, t, r, k); }
    forall x | x in n.tasks ensures TaskOk(n, x) { RequestTask(s, t, r, x); }
    forall y | y in n.runs ensures Owned(n, y) && y in Requests(n, n.runs[y].key) {
      if y != r { assert Owned(s, y) && y in Requests(s, s.runs[y].key); }
      else { assert Requests(n, n.runs[r].key)[|Requests(n, n.runs[r].key)| - 1] == r; assert n.tasks[t].runs[|n.tasks[t].runs| - 1] == r; }
    }
    hide QueueOk, TaskOk, Owned;
  }

  // ------------------------------------------------------------------ settling and cleaning up

  lemma SettleQueue(s: State, t: Tid, k: Key)
    requires QueueOk(s, k) && Enabled(s, Settle(t)) && Served(s, Last(s.tasks[t]))
    ensures QueueOk(Apply(s, Settle(t)), k)
  {
    var n := Apply(s, Settle(t));
    var q := Requests(s, k);
    assert Requests(n, k) == q;
    forall j | 0 <= j < |q| ensures PrevOk(n, q, j) { assert PrevOk(s, q, j); }
  }

  lemma SettleTask(s: State, t: Tid, x: Tid)
    requires Inv(s) && Enabled(s, Settle(t)) && x in s.tasks
    ensures TaskOk(Apply(s, Settle(t)), x)
  {
    var n := Apply(s, Settle(t));
    var r := Last(s.tasks[t]);
    assert TaskOk(s, x) && TaskOk(s, t);
    assert RunOk(s, t, |s.tasks[t].runs| - 1);
    forall i | 0 <= i < |n.tasks[x].runs| ensures RunOk(n, x, i) {
      assert RunOk(s, x, i);
      if x == t && i < |s.tasks[t].runs| - 1 { assert s.runs[s.tasks[t].runs[i]].key != s.runs[r].key by { KeysDiffer(s, t, i); } }
      assert forall k :: Requests(n, k) == Requests(s, k);
    }
    hide Sorted, QueueOk, Owned;
  }

  /** The keys of a task are distinct. */
  lemma KeysDiffer(s: State, t: Tid, i: nat)
    requires t in s.tasks && TaskOk(s, t) && i < |s.tasks[t].runs| - 1
    ensures s.tasks[t].runs[i] in s.runs && s.tasks[t].runs[|s.tasks[t].runs| - 1] in s.runs
    ensures s.runs[s.tasks[t].runs[i]].key != s.runs[s.tasks[t].runs[|s.tasks[t].runs| - 1]].key
  {
    var task := s.tasks[t];
    var n := |task.runs| - 1;
    assert RunOk(s, t, i) && RunOk(s, t, n);
    assert Less(task.keys[i], task.keys[n]);
    Total(task.keys[i], task.keys[n]);
    hide Less;
  }

  lemma KeepSettle(s: State, t: Tid)
    requires Inv(s) && Enabled(s, Settle(t))
    ensures Inv(Apply(s, Settle(t)))
  {
    var n := Apply(s, Settle(t));
    LastRun(s, t);
    forall k ensures QueueOk(n, k) { assert QueueOk(s, k); SettleQueue(s, t, k); }
    forall x | x in n.tasks ensures TaskOk(n, x) { SettleTask(s, t, x); }
    forall y | y in n.runs ensures Owned(n, y) && y in Requests(n, n.runs[y].key) { assert Owned(s, y) && y in Requests(s, s.runs[y].key); }
    hide QueueOk, TaskOk, Owned;
  }

  lemma CleanQueue(s: State, t: Tid, k: Key)
    requires QueueOk(s, k) && Enabled(s, Clean(t)) && s.runs[Last(s.tasks[t])].settled
    ensures QueueOk(Apply(s, Clean(t)), k)
  {
    var n := Apply(s, Clean(t));
    var q := Requests(s, k);
    assert Requests(n, k) == q;
    forall j | 0 <= j < |q| ensures PrevOk(n, q, j) { assert PrevOk(s, q, j); }
  }

  lemma LastRun(s: State, t: Tid)
    requires t in s.tasks && TaskOk(s, t) && |s.tasks[t].runs| > 0
    ensures RunOk(s, t, |s.tasks[t].runs| - 1)
  {
  }

  lemma CleanTask(s: State, t: Tid, x: Tid)
    requires Inv(s) && Enabled(s, Clean(t)) && x in s.tasks
    ensures TaskOk(Apply(s, Clean(t)), x)
  {
    var n := Apply(s, Clean(t));
    assert TaskOk(s, x) && TaskOk(s, t);
    assert forall k :: Requests(n, k) == Requests(s, k);
    forall i | 0 <= i < |n.tasks[x].runs| ensures RunOk(n, x, i) { assert RunOk(s, x, i); }
    hide Sorted, QueueOk, Owned;
  }

  lemma KeepClean(s: State, t: Tid)
    requires Inv(s) && Enabled(s, Clean(t))
    ensures Inv(Apply(s, Clean(t)))
  {
    var n := Apply(s, Clean(t));
    LastRun(s, t);
    forall k ensures QueueOk(n, k) { assert QueueOk(s, k); CleanQueue(s, t, k); }
    forall x | x in n.tasks ensures TaskOk(n, x) { CleanTask(s, t, x); }
    forall y | y in n.runs ensures Owned(n, y) && y in Requests(n, n.runs[y].key) {
      assert Owned(s, y) && y in Requests(s, s.runs[y].key);
      assert TaskOk(s, t);
      assert RunOk(s, t, |s.tasks[t].runs| - 1);
      var runs := s.tasks[t].runs;
      assert forall z :: z in runs && z != runs[|runs| - 1] ==> z in runs[..|runs| - 1];
    }
    hide QueueOk, TaskOk, Owned;
  }

  lemma StepInv(s: State, step: Step)
    requires Inv(s) && Enabled(s, step)
    ensures Inv(Apply(s, step))
  {
    hide Inv, Enabled, Apply;
    match step
    case Spawn(t, keys) => KeepSpawn(s, t, keys);
    case Request(t, r) => KeepRequest(s, t, r);
    case Enter(t) => KeepEnter(s, t);
    case Complete(t) => KeepComplete(s, t);
    case Settle(t) => KeepSettle(s, t);
    case Clean(t) => KeepClean(s, t);
    case Leave(t) => KeepLeave(s, t);
  }

  lemma {:induction false} RunInv(run: seq<State>, i: nat)
    requires Reachable(run) && i < |run|
    ensures Inv(run[i])
    decreases i
  {
    if i > 0 {
      RunInv(run, i - 1);
      assert Next(run[i - 1], run[i]);
      var step :| Enabled(run[i - 1], step) && run[i] == Apply(run[i - 1], step);
      hide *;
      StepInv(run[i - 1], step);
    } else {
      assert forall k :: Requests(run[0], k) == [];
    }
  }

  // ------------------------------------------------------------------ what the locks guarantee

  /** Task t is inside the work that its a-th key protects. */
  predicate Working(s: State, t: Tid, a: nat) {
    t in s.tasks && a < s.tasks[t].held && a < |s.tasks[t].keys| && !(s.tasks[t].phase.Cleaning? && a == s.tasks[t].held - 1)
  }

  lemma WorkingRun(s: State, t: Tid, a: nat)
    requires Inv(s) && Working(s, t, a)
    ensures a < |s.tasks[t].runs|
    ensures var r := s.tasks[t].runs[a]; r in s.runs && s.runs[r].task == t && s.runs[r].key == s.tasks[t].keys[a]
    ensures !s.runs[s.tasks[t].runs[a]].settled && Served(s, s.tasks[t].runs[a])
    ensures s.tasks[t].runs[a] in Requests(s, s.tasks[t].keys[a]) && QueueOk(s, s.tasks[t].keys[a])
  {
    assert TaskOk(s, t);
    assert RunOk(s, t, a);
    hide QueueOk, Owned, Sorted;
  }

  /** At most one task works under a key at any time. */
  lemma Exclusion(run: seq<State>, i: nat, t: Tid, u: Tid, a: nat, b: nat)
    requires Reachable(run) && i < |run| && Working(run[i], t, a) && Working(run[i], u, b)
    requires run[i].tasks[t].keys[a] == run[i].tasks[u].keys[b]
    ensures t == u
  {
    var s := run[i];
    RunInv(run, i);
    hide Reachable, Inv;
    WorkingRun(s, t, a);
    WorkingRun(s, u, b);
    var q := Requests(s, s.tasks[t].keys[a]);
    var m :| 0 <= m < |q| && q[m] == s.tasks[t].runs[a];
    var n :| 0 <= n < |q| && q[n] == s.tasks[u].runs[b];
    hide PrevOk, AllSettled;
  }

  /** Keys are served in the order of request, although tails are deleted when a queue drains. */
  lemma FirstComeFirstServed(run: seq<State>, i: nat, t: Tid, a: nat, m: nat, n: nat)
    requires Reachable(run) && i < |run| && Working(run[i], t, a)
    requires m < n < |Requests(run[i], run[i].tasks[t].keys[a])|
    requires Requests(run[i], run[i].tasks[t].keys[a])[n] in run[i].tasks[t].runs
    ensures var r := Requests(run[i], run[i].tasks[t].keys[a])[m]; r in run[i].runs && run[i].runs[r].settled
  {
    var s := run[i];
    RunInv(run, i);
    WorkingRun(s, t, a);
    OwnKey(s, t, a, Requests(s, s.tasks[t].keys[a])[n]);
    hide Reachable, Inv, PrevOk, AllSettled, QueueOk;
  }

  lemma OwnKey(s: State, t: Tid, a: nat, r: Rid)
    requires Inv(s) && Working(s, t, a) && r in s.tasks[t].runs && r in Requests(s, s.tasks[t].keys[a])
    ensures r == s.tasks[t].runs[a]
  {
    var task := s.tasks[t];
    assert TaskOk(s, t) && QueueOk(s, task.keys[a]);
    var b :| 0 <= b < |task.runs| && task.runs[b] == r;
    assert RunOk(s, t, b);
    if a < b { Total(task.keys[a], task.keys[b]); }
    if b < a { Total(task.keys[b], task.keys[a]); }
    hide Less, Owned, PrevOk, AllSettled, Served;
  }

  // ------------------------------------------------------------------ no deadlock

  predicate Waits(s: State, t: Tid) {
    t in s.tasks && s.tasks[t].phase.Climbing? && |s.tasks[t].runs| == s.tasks[t].held + 1 && s.tasks[t].held < |s.tasks[t].keys|
  }

  function Wanted(s: State, t: Tid): Key
    requires Waits(s, t)
  {
    s.tasks[t].keys[s.tasks[t].held]
  }

  lemma {:induction false} Furthest(s: State, ts: set<Tid>) returns (t: Tid)
    requires ts != {} && forall u :: u in ts ==> Waits(s, u)
    ensures t in ts && forall u :: u in ts ==> !Less(Wanted(s, t), Wanted(s, u))
    decreases |ts|
  {
    var x :| x in ts;
    if ts == {x} {
      t := x;
      Total(Wanted(s, x), Wanted(s, x));
    } else {
      t := Furthest(s, ts - {x});
      Total(Wanted(s, x), Wanted(s, x));
      Total(Wanted(s, t), Wanted(s, x));
      if Less(Wanted(s, t), Wanted(s, x)) {
        forall u | u in ts ensures !Less(Wanted(s, x), Wanted(s, u)) {
          if Less(Wanted(s, x), Wanted(s, u)) { Transitive(Wanted(s, t), Wanted(s, x), Wanted(s, u)); }
        }
        t := x;
      }
    }
  }

  lemma {:induction false} FirstUnsettled(s: State, q: seq<Rid>, j: nat) returns (f: nat)
    requires j < |q| && (forall i :: 0 <= i < |q| ==> q[i] in s.runs) && !s.runs[q[j]].settled
    ensures f <= j && !s.runs[q[f]].settled && forall i :: 0 <= i < f ==> s.runs[q[i]].settled
    decreases j
  {
    f := j;
    if i :| 0 <= i < j && !s.runs[q[i]].settled { f := FirstUnsettled(s, q, i); }
  }

  /** The furthest waiting task stands behind a task that can move. */
  lemma SomeoneEnters(s: State) returns (u: Tid)
    requires Inv(s) && s.tasks != map[] && forall t :: t in s.tasks ==> Waits(s, t)
    ensures u in s.tasks && CanEnter(s, s.tasks[u])
  {
    var any :| any in s.tasks;
    assert any in s.tasks.Keys;
    var t := Furthest(s, s.tasks.Keys);
    var k := Wanted(s, t);
    var q := Requests(s, k);
    var r := s.tasks[t].runs[s.tasks[t].held];
    assert TaskOk(s, t) && QueueOk(s, k);
    assert RunOk(s, t, s.tasks[t].held);
    assert r in q;
    var j :| 0 <= j < |q| && q[j] == r;
    var f := FirstUnsettled(s, q, j);
    u := s.runs[q[f]].task;
    assert Owned(s, q[f]);
    StandsFirst(s, t, u, q[f]);
    assert PrevOk(s, q, f);
    hide Less, Sorted, Inv, Served;
  }

  lemma StandsFirst(s: State, t: Tid, u: Tid, r: Rid)
    requires Inv(s) && Waits(s, t) && Waits(s, u) && !Less(Wanted(s, t), Wanted(s, u))
    requires r in s.runs && s.runs[r].key == Wanted(s, t) && r in s.tasks[u].runs
    ensures r == s.tasks[u].runs[s.tasks[u].held]
  {
    assert TaskOk(s, u);
    var b :| 0 <= b < |s.tasks[u].runs| && s.tasks[u].runs[b] == r;
    assert RunOk(s, u, b);
    hide Less, Inv, Served;
  }

  /** A step that brings its task forward: it completes only with all its keys. */
  predicate Progress(s: State, step: Step) {
    Enabled(s, step) && !step.Spawn? && (step.Complete? ==> s.tasks[step.t].held == |s.tasks[step.t].keys|)
  }

  lemma {:induction false} FreshId(ids: set<nat>) returns (r: nat)
    ensures forall x :: x in ids ==> x < r
    decreases |ids|
  {
    if ids == {} { return 0; }
    var x :| x in ids;
    var y := FreshId(ids - {x});
    assert forall z :: z in ids ==> z == x || z in ids - {x};
    r := if x < y then y else x + 1;
  }

  lemma TaskAt(s: State, t: Tid)
    requires Inv(s) && t in s.tasks
    ensures TaskOk(s, t)
  {
  }

  lemma Moves(s: State, t: Tid)
    requires Inv(s) && t in s.tasks && !Waits(s, t)
    ensures exists step :: Progress(s, step) && step.t == t
  {
    hide Inv, Sorted, Served;
    TaskAt(s, t);
    var task := s.tasks[t];
    if task.phase.Climbing? {
      if task.held < |task.keys| {
        var r := FreshId(s.runs.Keys);
        assert Progress(s, Request(t, r));
      } else {
        assert Progress(s, Complete(t));
      }
    } else {
      if |task.runs| > 0 { assert RunOk(s, t, |task.runs| - 1); }
      if task.phase.Cleaning? { assert Progress(s, Clean(t)); }
      else if task.held > 0 { assert Progress(s, Settle(t)); }
      else { assert Progress(s, Leave(t)); }
    }
  }

  /** No deadlock: in every reachable state with a task in it, some task can go on. */
  lemma NoDeadlock(run: seq<State>, i: nat)
    requires Reachable(run) && i < |run| && run[i].tasks != map[]
    ensures exists step :: Progress(run[i], step)
  {
    var s := run[i];
    RunInv(run, i);
    hide Reachable, Inv, Progress;
    if forall t :: t in s.tasks ==> Waits(s, t) {
      var u := SomeoneEnters(s);
      assert Progress(s, Enter(u)) by { hide Reachable; EnterProgress(s, u); }
    } else {
      var t :| t in s.tasks && !Waits(s, t);
      Moves(s, t);
    }
  }

  lemma EnterProgress(s: State, u: Tid)
    requires u in s.tasks && CanEnter(s, s.tasks[u])
    ensures Progress(s, Enter(u))
  {
  }

  // ------------------------------------------------------------------ the orders the engine uses

  /** A handler's keys: one RFQ resource, then its accounts through run(), then the write queue. */
  function HandlerKeys(rfq: string, accounts: seq<string>, writes: bool): seq<Key> {
    [Resource(rfq)] + SortedKeys(seq(|accounts|, i requires 0 <= i < |accounts| => AccountKey(accounts[i]))) + if writes then [WriteQueue] else []
  }

  /** They are acquired in lock order, whatever accounts are named and however often. */
  lemma HandlerKeysSorted(rfq: string, accounts: seq<string>, writes: bool)
    ensures Sorted(HandlerKeys(rfq, accounts, writes))
    ensures forall a :: AccountKey(a) in HandlerKeys(rfq, accounts, writes) <==> a in accounts
  {
    var raw := seq(|accounts|, i requires 0 <= i < |accounts| => AccountKey(accounts[i]));
    var mid := SortedKeys(raw);
    SortedKeysSorted(raw);
    forall k | k in mid ensures k.AccountKey? { assert k in raw; }
    forall a ensures AccountKey(a) in raw <==> a in accounts {
      if a in accounts { var i :| 0 <= i < |accounts| && accounts[i] == a; assert raw[i] == AccountKey(a); }
    }
    var ks := HandlerKeys(rfq, accounts, writes);
    forall i, j | 0 <= i < j < |ks| ensures Less(ks[i], ks[j]) {
      if 0 < i && j <= |mid| { assert ks[i] == mid[i - 1] && ks[j] == mid[j - 1]; }
      else if i > 0 { assert ks[i] in mid; }
      else if j <= |mid| { assert ks[j] in mid; }
    }
  }
}
