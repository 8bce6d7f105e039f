/**
 * The add-then-roll-back protocol on an atomic counter. One task is one attempt: it adds, compares the value it
 * saw with the limit, and then either holds a slot or rolls back; a held slot may be dropped later. The child
 * counter is this machine with drops and modulus 2^32; the tool-call counter never drops and has modulus 2^64.
 */
module Resource {
  import opened Wrappers

  datatype Task = Idle | Added(next: nat) | RollingBack | Live | Refused | Dropped

  datatype Machine = Machine(limit: Option<nat>, modulus: nat, droppable: bool, counter: nat, tasks: seq<Task>)

  function Start(limit: Option<nat>, modulus: nat, droppable: bool, n: nat): Machine {
    Machine(limit, modulus, droppable, 0, seq(n, _ => Idle))
  }

  /** `fetch_add(1)`, wrapping at the word size. */
  function AddOne(counter: nat, modulus: nat): nat
    requires modulus > 0
  {
    if counter + 1 >= modulus then 0 else counter + 1
  }

  /** `fetch_sub(1)`, wrapping at zero. */
  function SubOne(counter: nat, modulus: nat): nat
    requires modulus > 0
  {
    if counter == 0 then modulus - 1 else counter - 1
  }

  predicate Within(limit: Option<nat>, next: nat) { limit.None? || next <= limit.value }

  /** The next atomic step of task `i`; None when it has none. */
  function Step(m: Machine, i: nat): Option<Machine> {
    if m.modulus == 0 || i >= |m.tasks| then None
    else
      match m.tasks[i]
      case Idle =>
        var c := AddOne(m.counter, m.modulus);
        Some(m.(counter := c, tasks := m.tasks[i := Added(c)]))
      case Added(next) =>
        Some(m.(tasks := m.tasks[i := if Within(m.limit, next) then Live else RollingBack]))
      case RollingBack => Some(m.(counter := SubOne(m.counter, m.modulus), tasks := m.tasks[i := Refused]))
      case Live =>
        if m.droppable then Some(m.(counter := SubOne(m.counter, m.modulus), tasks := m.tasks[i := Dropped])) else None
      case _ => None
  }

  function Run(m: Machine, schedule: seq<nat>): Option<Machine>
    decreases |schedule|
  {
    if schedule == [] then Some(m)
    else match Step(m, schedule[0]) case None => None case Some(n) => Run(n, schedule[1..])
  }

  // ---- counting ----

  function Sum(f: Task -> nat, tasks: seq<Task>): nat {
    if tasks == [] then 0 else f(tasks[0]) + Sum(f, tasks[1..])
  }

  function IsLive(t: Task): nat { if t.Live? then 1 else 0 }

  /** Tasks whose add is in the counter: live, undecided, or about to roll back. */
  function IsActive(t: Task): nat { if t.Live? || t.Added? || t.RollingBack? then 1 else 0 }

  /** Attempts in progress: added and not yet decided, or refused and not yet rolled back. */
  predicate Pending(t: Task) { t.Added? || t.RollingBack? }

  function IsPending(t: Task): nat { if Pending(t) then 1 else 0 }

  function LiveCount(m: Machine): nat { Sum(IsLive, m.tasks) }

  function ActiveCount(m: Machine): nat { Sum(IsActive, m.tasks) }

  /** Tasks that hold a slot or are sure to get one. */
  function Winner(limit: nat): Task -> nat {
    (t: Task) => if t.Live? || (t.Added? && t.next <= limit) then 1 else 0
  }

  lemma {:induction false} SumUpdate(f: Task -> nat, tasks: seq<Task>, i: nat, t: Task)
    requires i < |tasks|
    ensures Sum(f, tasks[i := t]) == Sum(f, tasks) - f(tasks[i]) + f(t)
    ensures f(tasks[i]) <= Sum(f, tasks)
  {
    if i == 0 {
      assert tasks[i := t][1..] == tasks[1..];
    } else {
      SumUpdate(f, tasks[1..], i - 1, t);
      assert tasks[i := t][1..] == tasks[1..][i - 1 := t];
    }
  }

  lemma {:induction false} SumLe(f: Task -> nat, g: Task -> nat, tasks: seq<Task>)
    requires forall t :: f(t) <= g(t)
    ensures Sum(f, tasks) <= Sum(g, tasks)
  {
    if tasks != [] { SumLe(f, g, tasks[1..]); }
  }

  lemma {:induction false} ActiveSplits(tasks: seq<Task>)
    ensures Sum(IsActive, tasks) == Sum(IsLive, tasks) + Sum(IsPending, tasks)
  {
    if tasks != [] { ActiveSplits(tasks[1..]); }
  }

  lemma {:induction false} SumZero(f: Task -> nat, n: nat)
    requires f(Idle) == 0
    ensures Sum(f, seq(n, _ => Idle)) == 0
  {
    if n > 0 {
      SumZero(f, n - 1);
      assert seq(n, _ => Idle)[1..] == seq(n - 1, _ => Idle);
    }
  }

  // ---- the counter is exact ----

  /** `n` modulo the word size. */
  function Residue(n: nat, modulus: nat): (r: nat)
    requires modulus > 0
    ensures r < modulus && (n < modulus ==> r == n)
  {
    if n < modulus then n else Residue(n - modulus, modulus)
  }

  ghost predicate Counted(m: Machine) {
    m.modulus > 0 && m.counter == Residue(ActiveCount(m), m.modulus)
  }

  lemma {:induction false} ResidueUp(n: nat, k: nat)
    requires k > 0
    ensures AddOne(Residue(n, k), k) == Residue(n + 1, k)
  {
    if n >= k { ResidueUp(n - k, k); }
  }

  lemma {:induction false} ResidueDown(n: nat, k: nat)
    requires k > 0 && n > 0
    ensures SubOne(Residue(n, k), k) == Residue(n - 1, k)
  {
    if n > k { ResidueDown(n - k, k); }
  }

  lemma StepKeepsCount(m: Machine, i: nat)
    requires Counted(m) && Step(m, i).Some?
    ensures Counted(Step(m, i).value)
  {
    var n := Step(m, i).value;
    SumUpdate(IsActive, m.tasks, i, n.tasks[i]);
    if m.tasks[i].Idle? { ResidueUp(ActiveCount(m), m.modulus); }
    if m.tasks[i].RollingBack? || m.tasks[i].Live? { ResidueDown(ActiveCount(m), m.modulus); }
  }

  /** The attempts in the counter fit its word, and those holding or sure of a slot are within the limit. */
  ghost predicate Guarded(m: Machine) {
    && Counted(m) && ActiveCount(m) < m.modulus
    && (m.limit.Some? ==> Sum(Winner(m.limit.value), m.tasks) <= m.limit.value)
  }

  lemma CounterIsActive(m: Machine)
    requires Counted(m) && ActiveCount(m) < m.modulus
    ensures m.counter == ActiveCount(m)
  {}

  lemma StepKeepsGuarded(m: Machine, i: nat)
    requires Guarded(m) && Step(m, i).Some? && ActiveCount(Step(m, i).value) < m.modulus
    ensures Guarded(Step(m, i).value)
    ensures m.tasks[i].RollingBack? || m.tasks[i].Live? ==> m.counter > 0 && Step(m, i).value.counter == m.counter - 1
    ensures m.tasks[i].Idle? ==> Step(m, i).value.tasks[i] == Added(ActiveCount(m) + 1)
  {
    StepKeepsCount(m, i);
    var n := Step(m, i).value;
    CounterIsActive(m);
    SumUpdate(IsActive, m.tasks, i, n.tasks[i]);
    CounterIsActive(n);
    if m.limit.Some? {
      var w := Winner(m.limit.value);
      SumUpdate(w, m.tasks, i, n.tasks[i]);
      SumLe(w, IsActive, m.tasks);
    }
  }

  lemma StartGuarded(limit: Option<nat>, modulus: nat, droppable: bool, n: nat)
    requires modulus > 0
    ensures Guarded(Start(limit, modulus, droppable, n))
  {
    SumZero(IsActive, n);
    if limit.Some? { SumZero(Winner(limit.value), n); }
  }

  lemma {:induction false} RunKeepsCounted(m: Machine, schedule: seq<nat>)
    requires Counted(m) && Run(m, schedule).Some?
    ensures Counted(Run(m, schedule).value)
    decreases |schedule|
  {
    if schedule != [] {
      StepKeepsCount(m, schedule[0]);
      RunKeepsCounted(Step(m, schedule[0]).value, schedule[1..]);
    }
  }

  /** At every state of the run fewer attempts are in the counter than its word can count. */
  ghost predicate FitsThroughout(m: Machine, schedule: seq<nat>)
    decreases |schedule|
  {
    && ActiveCount(m) < m.modulus
    && (schedule != [] && Step(m, schedule[0]).Some? ==> FitsThroughout(Step(m, schedule[0]).value, schedule[1..]))
  }

  lemma {:induction false} RunKeepsGuarded(m: Machine, schedule: seq<nat>)
    requires Guarded(m) && Run(m, schedule).Some? && FitsThroughout(m, schedule)
    ensures Guarded(Run(m, schedule).value) && Run(m, schedule).value.limit == m.limit
    decreases |schedule|
  {
    if schedule != [] {
      StepKeepsGuarded(m, schedule[0]);
      RunKeepsGuarded(Step(m, schedule[0]).value, schedule[1..]);
    }
  }

  // ---- main results ----

  /**
   * Any number of tasks, any interleaving: the counter is the number of live, undecided and rolling-back tasks
   * modulo the word size, so at quiescence it is the number of live ones.
   */
  lemma {:induction false} CounterIsExact(limit: Option<nat>, modulus: nat, droppable: bool, n: nat, schedule: seq<nat>)
    requires modulus > 0 && Run(Start(limit, modulus, droppable, n), schedule).Some?
    ensures var m := Run(Start(limit, modulus, droppable, n), schedule).value;
            && m.modulus == modulus && m.counter == Residue(ActiveCount(m), modulus)
            && ((forall t :: t in m.tasks ==> !t.Added? && !t.RollingBack?) ==> m.counter == Residue(LiveCount(m), modulus))
  {
    StartGuarded(limit, modulus, droppable, n);
    RunKeepsCounted(Start(limit, modulus, droppable, n), schedule);
    RunKeepsShape(Start(limit, modulus, droppable, n), schedule);
    var m := Run(Start(limit, modulus, droppable, n), schedule).value;
    if forall t :: t in m.tasks ==> !t.Added? && !t.RollingBack? { QuiescentSums(m.tasks); }
  }

  lemma {:induction false} QuiescentSums(tasks: seq<Task>)
    requires forall t :: t in tasks ==> !t.Added? && !t.RollingBack?
    ensures Sum(IsActive, tasks) == Sum(IsLive, tasks)
  {
    if tasks != [] {
      assert tasks[0] in tasks;
      forall t | t in tasks[1..] ensures t in tasks {}
      QuiescentSums(tasks[1..]);
    }
  }

  lemma {:induction false} RunKeepsShape(m: Machine, schedule: seq<nat>)
    requires Run(m, schedule).Some?
    ensures var r := Run(m, schedule).value; r.limit == m.limit && r.modulus == m.modulus && |r.tasks| == |m.tasks|
    decreases |schedule|
  {
    if schedule != [] { RunKeepsShape(Step(m, schedule[0]).value, schedule[1..]); }
  }

  /** The machine after the first `k` steps. */
  function After(m: Machine, schedule: seq<nat>, k: nat): Machine
    requires Run(m, schedule).Some? && k <= |schedule|
    decreases k
  {
    if k == 0 then m else After(Step(m, schedule[0]).value, schedule[1..], k - 1)
  }

  lemma {:induction false} AfterRuns(m: Machine, schedule: seq<nat>, k: nat)
    requires Run(m, schedule).Some? && k <= |schedule|
    ensures Run(m, schedule[..k]) == Some(After(m, schedule, k))
    decreases k
  {
    if k > 0 {
      assert schedule[..k][1..] == schedule[1..][..k - 1];
      AfterRuns(Step(m, schedule[0]).value, schedule[1..], k - 1);
    }
  }

  /** The next step, if it subtracts, does not start from zero. */
  predicate NoUnderflow(m: Machine, i: nat) {
    i < |m.tasks| && (m.tasks[i].RollingBack? || m.tasks[i].Live? ==> m.counter > 0)
  }

  lemma {:induction false} GuardedThroughout(m: Machine, schedule: seq<nat>, k: nat)
    requires Guarded(m) && Run(m, schedule).Some? && FitsThroughout(m, schedule) && k <= |schedule|
    ensures var now := After(m, schedule, k); now.counter == ActiveCount(now) && (k < |schedule| ==> NoUnderflow(now, schedule[k]))
    decreases k
  {
    CounterIsActive(m);
    if schedule != [] { StepKeepsGuarded(m, schedule[0]); }
    if k > 0 { GuardedThroughout(Step(m, schedule[0]).value, schedule[1..], k - 1); }
  }

  lemma {:induction false} ExactMeansFits(m: Machine, schedule: seq<nat>)
    requires Counted(m) && Run(m, schedule).Some?
    requires forall k: nat :: k <= |schedule| ==> Exact(m, schedule, k)
    ensures FitsThroughout(m, schedule)
    decreases |schedule|
  {
    assert Exact(m, schedule, 0);
    if schedule != [] {
      var next := Step(m, schedule[0]).value;
      StepKeepsCount(m, schedule[0]);
      forall k: nat | k <= |schedule[1..]| ensures Exact(next, schedule[1..], k) { assert Exact(m, schedule, k + 1); }
      ExactMeansFits(next, schedule[1..]);
    }
  }

  /** After `k` steps the counter is the number of live, undecided and rolling-back tasks. */
  predicate Exact(m: Machine, schedule: seq<nat>, k: nat)
    requires Run(m, schedule).Some?
  {
    k <= |schedule| && After(m, schedule, k).counter == ActiveCount(After(m, schedule, k))
  }

  /**
   * The counter is that number itself, at every state of the run, exactly when the attempts in it fit its word
   * throughout; and then no subtraction starts from zero.
   */
  lemma {:induction false} CounterNeverWrapsIff(limit: Option<nat>, modulus: nat, droppable: bool, n: nat, schedule: seq<nat>)
    requires modulus > 0 && Run(Start(limit, modulus, droppable, n), schedule).Some?
    ensures var m := Start(limit, modulus, droppable, n);
            && (FitsThroughout(m, schedule) <==> forall k: nat :: k <= |schedule| ==> Exact(m, schedule, k))
            && (FitsThroughout(m, schedule) ==>
                  forall k: nat :: k < |schedule| ==> NoUnderflow(After(m, schedule, k), schedule[k]))
  {
    var m := Start(limit, modulus, droppable, n);
    StartGuarded(limit, modulus, droppable, n);
    if FitsThroughout(m, schedule) {
      forall k: nat | k <= |schedule|
        ensures Exact(m, schedule, k) && (k < |schedule| ==> NoUnderflow(After(m, schedule, k), schedule[k]))
      {
        GuardedThroughout(m, schedule, k);
      }
    }
    if forall k: nat :: k <= |schedule| ==> Exact(m, schedule, k) { ExactMeansFits(m, schedule); }
  }

  lemma GuardedWithinLimit(m: Machine)
    requires Guarded(m) && m.limit.Some?
    ensures LiveCount(m) <= m.limit.value
  {
    SumLe(IsLive, Winner(m.limit.value), m.tasks);
  }

  /**
   * For any number of attempts and any interleaving: while the attempts in the counter fit its word, no more than
   * `limit` of them hold a slot, however many came and went before.
   */
  lemma {:induction false} LimitHoldsWhileItFits(limit: nat, modulus: nat, droppable: bool, n: nat, schedule: seq<nat>)
    requires modulus > 0 && Run(Start(Some(limit), modulus, droppable, n), schedule).Some?
    requires FitsThroughout(Start(Some(limit), modulus, droppable, n), schedule)
    ensures LiveCount(Run(Start(Some(limit), modulus, droppable, n), schedule).value) <= limit
  {
    StartGuarded(Some(limit), modulus, droppable, n);
    RunKeepsGuarded(Start(Some(limit), modulus, droppable, n), schedule);
    GuardedWithinLimit(Run(Start(Some(limit), modulus, droppable, n), schedule).value);
  }

  // ---- threads ----

  /** Each attempt belongs to one of `threads` threads, and no thread has two attempts in progress. */
  ghost predicate OneEach(tasks: seq<Task>, owners: seq<nat>, threads: nat) {
    && |owners| == |tasks|
    && (forall i :: 0 <= i < |tasks| ==> owners[i] < threads)
    && (forall i, j :: 0 <= i < j < |tasks| && Pending(tasks[i]) && Pending(tasks[j]) ==> owners[i] != owners[j])
  }

  ghost predicate OneEachThroughout(m: Machine, owners: seq<nat>, threads: nat, schedule: seq<nat>)
    decreases |schedule|
  {
    && OneEach(m.tasks, owners, threads)
    && (schedule != [] && Step(m, schedule[0]).Some?
        ==> OneEachThroughout(Step(m, schedule[0]).value, owners, threads, schedule[1..]))
  }

  function Busy(tasks: seq<Task>, owners: seq<nat>): set<nat>
    requires |owners| == |tasks|
  {
    set i | 0 <= i < |tasks| && Pending(tasks[i]) :: owners[i]
  }

  lemma {:induction false} BusyCount(tasks: seq<Task>, owners: seq<nat>, threads: nat)
    requires OneEach(tasks, owners, threads)
    ensures |Busy(tasks, owners)| == Sum(IsPending, tasks)
  {
    if tasks == [] {
      assert Busy(tasks, owners) == {};
    } else {
      var rest := Busy(tasks[1..], owners[1..]);
      assert OneEach(tasks[1..], owners[1..], threads);
      BusyCount(tasks[1..], owners[1..], threads);
      forall w ensures w in Busy(tasks, owners) <==> w in rest || (Pending(tasks[0]) && w == owners[0]) {
        if w in rest {
          var i :| 0 <= i < |tasks[1..]| && Pending(tasks[1..][i]) && owners[1..][i] == w;
          assert Pending(tasks[i + 1]) && owners[i + 1] == w;
        }
        if w in Busy(tasks, owners) {
          var i :| 0 <= i < |tasks| && Pending(tasks[i]) && owners[i] == w;
          assert i > 0 ==> Pending(tasks[1..][i - 1]) && owners[1..][i - 1] == w;
        }
      }
      assert Busy(tasks, owners) == if Pending(tasks[0]) then rest + {owners[0]} else rest;
    }
  }

  lemma {:induction false} AtMost(s: set<nat>, k: nat)
    requires forall x :: x in s ==> x < k
    ensures |s| <= k
  {
    if k == 0 {
      assert s == {};
    } else {
      AtMost(s - {k - 1}, k - 1);
      assert |s| <= |s - {k - 1}| + 1;
    }
  }

  lemma PendingWithinThreads(tasks: seq<Task>, owners: seq<nat>, threads: nat)
    requires OneEach(tasks, owners, threads)
    ensures Sum(IsPending, tasks) <= threads
  {
    BusyCount(tasks, owners, threads);
    AtMost(Busy(tasks, owners), threads);
  }

  lemma StepFits(m: Machine, i: nat, limit: nat, threads: nat)
    requires Guarded(m) && m.limit == Some(limit) && limit + threads < m.modulus && Step(m, i).Some?
    requires Sum(IsPending, Step(m, i).value.tasks) <= threads
    ensures ActiveCount(Step(m, i).value) < m.modulus
  {
    var n := Step(m, i).value;
    GuardedWithinLimit(m);
    ActiveSplits(n.tasks);
    SumUpdate(IsActive, m.tasks, i, n.tasks[i]);
    SumUpdate(IsLive, m.tasks, i, n.tasks[i]);
  }

  lemma {:induction false} ThreadsFit(m: Machine, owners: seq<nat>, threads: nat, limit: nat, schedule: seq<nat>)
    requires Guarded(m) && m.limit == Some(limit) && limit + threads < m.modulus
    requires Run(m, schedule).Some? && OneEachThroughout(m, owners, threads, schedule)
    ensures FitsThroughout(m, schedule)
    decreases |schedule|
  {
    if schedule != [] {
      var n := Step(m, schedule[0]).value;
      PendingWithinThreads(n.tasks, owners, threads);
      StepFits(m, schedule[0], limit, threads);
      StepKeepsGuarded(m, schedule[0]);
      ThreadsFit(n, owners, threads, limit, schedule[1..]);
    }
  }

  /** A run of any number of attempts by that many threads, one attempt of a thread after another. */
  ghost predicate ThreadRun(limit: nat, modulus: nat, droppable: bool, threads: nat, owners: seq<nat>, schedule: seq<nat>) {
    var m := Start(Some(limit), modulus, droppable, |owners|);
    Run(m, schedule).Some? && OneEachThroughout(m, owners, threads, schedule)
  }

  /** With `limit + threads` below the word, no interleaving of any number of attempts exceeds the limit. */
  lemma {:induction false} LimitHoldsForThreads(limit: nat, modulus: nat, droppable: bool, threads: nat,
        owners: seq<nat>, schedule: seq<nat>)
    requires limit + threads < modulus && ThreadRun(limit, modulus, droppable, threads, owners, schedule)
    ensures LiveCount(Run(Start(Some(limit), modulus, droppable, |owners|), schedule).value) <= limit
  {
    StartGuarded(Some(limit), modulus, droppable, |owners|);
    ThreadsFit(Start(Some(limit), modulus, droppable, |owners|), owners, threads, limit, schedule);
    LimitHoldsWhileItFits(limit, modulus, droppable, |owners|, schedule);
  }

  // ---- and with enough threads to wrap the word it can fail ----

  function Wrapped(k: nat, modulus: nat): nat { if k == modulus then 0 else k }

  /** The first `limit` attempts hold a slot, the following ones up to `k` have added and not decided. */
  function Filled(limit: nat, modulus: nat, droppable: bool, n: nat, k: nat): Machine {
    Machine(Some(limit), modulus, droppable, Wrapped(k, modulus),
            seq(n, j requires 0 <= j < n =>
              if j >= k then Idle else if j < limit then Live else Added(Wrapped(j + 1, modulus))))
  }

  /** Attempts up to the limit add and decide one after another; the others only add. */
  function Script(limit: nat, k: nat): seq<nat> {
    if k == 0 then [] else Script(limit, k - 1) + (if k - 1 < limit then [k - 1, k - 1] else [k - 1])
  }

  /** One thread makes the first `limit` attempts, and each later attempt has a thread of its own. */
  function OwnersOf(limit: nat, n: nat): seq<nat> {
    seq(n, j requires 0 <= j < n => if j < limit then 0 else j - limit)
  }

  lemma {:induction false} RunAppend(m: Machine, a: seq<nat>, b: seq<nat>)
    requires Run(m, a).Some?
    ensures Run(m, a + b) == Run(Run(m, a).value, b)
    decreases |a|
  {
    if a == [] {
      assert a + b == b;
    } else {
      assert (a + b)[1..] == a[1..] + b;
      RunAppend(Step(m, a[0]).value, a[1..], b);
    }
  }

  lemma {:induction false} ThroughoutAppend(m: Machine, owners: seq<nat>, threads: nat, a: seq<nat>, b: seq<nat>)
    requires Run(m, a).Some? && OneEachThroughout(m, owners, threads, a)
    requires OneEachThroughout(Run(m, a).value, owners, threads, b)
    ensures OneEachThroughout(m, owners, threads, a + b)
    decreases |a|
  {
    if a == [] {
      assert a + b == b;
    } else {
      assert (a + b)[1..] == a[1..] + b;
      ThroughoutAppend(Step(m, a[0]).value, owners, threads, a[1..], b);
    }
  }

  lemma RunOne(m: Machine, i: nat, owners: seq<nat>, threads: nat)
    requires Step(m, i).Some?
    ensures Run(m, [i]) == Step(m, i)
    ensures OneEach(m.tasks, owners, threads) && OneEach(Step(m, i).value.tasks, owners, threads)
        ==> OneEachThroughout(m, owners, threads, [i])
  {
    assert [i][1..] == [];
    assert Run(Step(m, i).value, []) == Step(m, i);
  }

  lemma FilledOneEach(limit: nat, modulus: nat, droppable: bool, n: nat, threads: nat, k: nat)
    requires limit < modulus == n <= limit + threads && k <= n
    ensures OneEach(Filled(limit, modulus, droppable, n, k).tasks, OwnersOf(limit, n), threads)
  {}

  /** An attempt within the limit adds, then decides. */
  lemma FillGranted(limit: nat, modulus: nat, droppable: bool, n: nat, threads: nat, k: nat)
    requires limit < modulus == n <= limit + threads && k < limit
    ensures var m := Filled(limit, modulus, droppable, n, k);
            && Run(m, [k, k]) == Some(Filled(limit, modulus, droppable, n, k + 1))
            && OneEachThroughout(m, OwnersOf(limit, n), threads, [k, k])
  {
    var m := Filled(limit, modulus, droppable, n, k);
    var owners := OwnersOf(limit, n);
    var added := Step(m, k).value;
    assert added.tasks == m.tasks[k := Added(k + 1)];
    var next := Step(added, k).value;
    assert next.tasks == Filled(limit, modulus, droppable, n, k + 1).tasks;
    FilledOneEach(limit, modulus, droppable, n, threads, k);
    FilledOneEach(limit, modulus, droppable, n, threads, k + 1);
    assert OneEach(added.tasks, owners, threads);
    RunOne(m, k, owners, threads);
    RunOne(added, k, owners, threads);
    assert [k, k] == [k] + [k];
    RunAppend(m, [k], [k]);
    ThroughoutAppend(m, owners, threads, [k], [k]);
  }

  /** An attempt past the limit only adds. */
  lemma FillPending(limit: nat, modulus: nat, droppable: bool, n: nat, threads: nat, k: nat)
    requires limit < modulus == n <= limit + threads && limit <= k < n
    ensures var m := Filled(limit, modulus, droppable, n, k);
            && Run(m, [k]) == Some(Filled(limit, modulus, droppable, n, k + 1))
            && OneEachThroughout(m, OwnersOf(limit, n), threads, [k])
  {
    var m := Filled(limit, modulus, droppable, n, k);
    var next := Step(m, k).value;
    assert next.tasks == Filled(limit, modulus, droppable, n, k + 1).tasks;
    FilledOneEach(limit, modulus, droppable, n, threads, k);
    FilledOneEach(limit, modulus, droppable, n, threads, k + 1);
    RunOne(m, k, OwnersOf(limit, n), threads);
  }

  ghost predicate FilledBy(limit: nat, modulus: nat, droppable: bool, n: nat, threads: nat, k: nat, script: seq<nat>)
    requires n == modulus
  {
    var m := Start(Some(limit), modulus, droppable, n);
    Run(m, script) == Some(Filled(limit, modulus, droppable, n, k)) && OneEachThroughout(m, OwnersOf(limit, n), threads, script)
  }

  lemma FillMore(limit: nat, modulus: nat, droppable: bool, n: nat, threads: nat, k: nat, script: seq<nat>, last: seq<nat>)
    requires n == modulus && FilledBy(limit, modulus, droppable, n, threads, k, script)
    requires var m := Filled(limit, modulus, droppable, n, k);
      Run(m, last) == Some(Filled(limit, modulus, droppable, n, k + 1)) && OneEachThroughout(m, OwnersOf(limit, n), threads, last)
    ensures FilledBy(limit, modulus, droppable, n, threads, k + 1, script + last)
  {
    var m := Start(Some(limit), modulus, droppable, n);
    RunAppend(m, script, last);
    ThroughoutAppend(m, OwnersOf(limit, n), threads, script, last);
  }

  lemma {:induction false} Fill(limit: nat, modulus: nat, droppable: bool, n: nat, threads: nat, k: nat)
    requires limit < modulus == n <= limit + threads && k <= n
    ensures FilledBy(limit, modulus, droppable, n, threads, k, Script(limit, k))
  {
    if k == 0 {
      assert Start(Some(limit), modulus, droppable, n).tasks == Filled(limit, modulus, droppable, n, 0).tasks;
      FilledOneEach(limit, modulus, droppable, n, threads, 0);
    } else {
      Fill(limit, modulus, droppable, n, threads, k - 1);
      if k - 1 < limit {
        FillGranted(limit, modulus, droppable, n, threads, k - 1);
        FillMore(limit, modulus, droppable, n, threads, k - 1, Script(limit, k - 1), [k - 1, k - 1]);
      } else {
        FillPending(limit, modulus, droppable, n, threads, k - 1);
        FillMore(limit, modulus, droppable, n, threads, k - 1, Script(limit, k - 1), [k - 1]);
      }
    }
  }

  lemma {:induction false} LivePrefix(tasks: seq<Task>, k: nat, last: nat)
    requires k <= last < |tasks| && tasks[last] == Live && forall j :: 0 <= j < k ==> tasks[j] == Live
    ensures Sum(IsLive, tasks) > k
  {
    if k == 0 {
      SumUpdate(IsLive, tasks, last, Idle);
    } else {
      LivePrefix(tasks[1..], k - 1, last - 1);
    }
  }

  /** The add that wraps the word reads zero, and its attempt decides in favour beside the `limit` that hold a slot. */
  lemma LimitFailsAcrossTheWord(limit: nat, modulus: nat, droppable: bool, threads: nat)
      returns (owners: seq<nat>, schedule: seq<nat>)
    requires limit < modulus <= limit + threads
    ensures ThreadRun(limit, modulus, droppable, threads, owners, schedule)
    ensures LiveCount(Run(Start(Some(limit), modulus, droppable, |owners|), schedule).value) > limit
  {
    var n := modulus;
    owners := OwnersOf(limit, n);
    var m, full := Start(Some(limit), modulus, droppable, n), Filled(limit, modulus, droppable, n, n);
    Fill(limit, modulus, droppable, n, threads, n);
    var over := Step(full, n - 1).value;
    assert over.tasks == full.tasks[n - 1 := Live];
    FilledOneEach(limit, modulus, droppable, n, threads, n);
    assert OneEach(over.tasks, owners, threads);
    RunOne(full, n - 1, owners, threads);
    schedule := Script(limit, n) + [n - 1];
    RunAppend(m, Script(limit, n), [n - 1]);
    ThroughoutAppend(m, owners, threads, Script(limit, n), [n - 1]);
    LivePrefix(over.tasks, limit, n - 1);
  }

  /**
   * Exactly when the limit is respected: by every interleaving of any number of attempts of that many threads if and
   * only if the word can count the limit and one more attempt of each thread.
   */
  lemma {:induction false} LimitHoldsIff(limit: nat, modulus: nat, droppable: bool, threads: nat)
    requires limit < modulus
    ensures (forall owners, schedule :: ThreadRun(limit, modulus, droppable, threads, owners, schedule)
               ==> LiveCount(Run(Start(Some(limit), modulus, droppable, |owners|), schedule).value) <= limit)
        <==> limit + threads < modulus
  {
    if limit + threads < modulus {
      forall owners, schedule | ThreadRun(limit, modulus, droppable, threads, owners, schedule)
        ensures LiveCount(Run(Start(Some(limit), modulus, droppable, |owners|), schedule).value) <= limit
      {
        LimitHoldsForThreads(limit, modulus, droppable, threads, owners, schedule);
      }
    } else {
      var owners, schedule := LimitFailsAcrossTheWord(limit, modulus, droppable, threads);
    }
  }

  // ---- the counter object, one call at a time ----

  const U32: nat := 0x1_0000_0000
  const U64: nat := 0x1_0000_0000_0000_0000

  class ResourceUsage {
    var toolCalls: nat
    var children: nat
    const maxToolCalls: Option<nat>
    const maxChildren: Option<nat>

    constructor (maxToolCalls: Option<nat>, maxChildren: Option<nat>)
      ensures toolCalls == children == 0 && this.maxToolCalls == maxToolCalls && this.maxChildren == maxChildren
    {
      toolCalls, children := 0, 0;
      this.maxToolCalls, this.maxChildren := maxToolCalls, maxChildren;
    }

    /** A refused call leaves the counter as it was; a granted one reports its new value, wrapped at the word size. */
    method IncrementToolCalls() returns (r: Option<nat>)
      requires toolCalls < U64
      modifies this`toolCalls
      ensures toolCalls < U64
      ensures r == (if Within(maxToolCalls, (old(toolCalls) + 1) % U64) then Some((old(toolCalls) + 1) % U64) else None)
      ensures toolCalls == if r.Some? then r.value else old(toolCalls)
    {
      toolCalls := AddOne(toolCalls, U64);
      var next := toolCalls;
      if !Within(maxToolCalls, next) {
        toolCalls := SubOne(toolCalls, U64);
        return None;
      }
      return Some(next);
    }

    method AcquireChild() returns (granted: bool)
      requires children < U32
      modifies this`children
      ensures children < U32
      ensures granted <==> Within(maxChildren, (old(children) + 1) % U32)
      ensures children == if granted then (old(children) + 1) % U32 else old(children)
    {
      children := AddOne(children, U32);
      var next := children;
      granted := Within(maxChildren, next);
      if !granted { children := SubOne(children, U32); }
    }

    method DropChild()
      requires 0 < children < U32
      modifies this`children
      ensures children == old(children) - 1
    {
      children := SubOne(children, U32);
    }
  }
}
