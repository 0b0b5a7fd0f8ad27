/** The bounded job queue shared by connection threads and slot workers: slot
    affinity, mailboxes, and a condition variable.

    Every method is one critical section, or one action of the condition
    variable, so any interleaving of threads is a sequence of calls. A notify
    is issued after the lock is released: until then it is outstanding. */
module JobQueues {
  import opened Wrappers

  type Prompt = seq<nat>

  datatype Job = Job(id: nat, prompt: Prompt)

  datatype Queued = Queued(job: Job, skipped: nat)

  /** What the affinity callback answers during one call: how many leading
      tokens of the job's prompt the slot's state holds. States change, and a
      locked slot answers 0, so two calls need not agree. */
  type Affinity = (nat, Job) -> nat

  const AFFINITY_WINDOW: nat := 4
  const AFFINITY_MAX_SKIPS: nat := 4

  // ----- which job a slot takes -----------------------------------------------

  function Score(aff: Affinity, slot: nat, jobs: seq<Queued>, i: nat): nat
    requires i < |jobs|
  {
    aff(slot, jobs[i].job)
  }

  /** The first of the best among the first `n`. */
  function BestOf(aff: Affinity, slot: nat, jobs: seq<Queued>, n: nat): (b: nat)
    requires 0 < n <= |jobs|
    ensures b < n && forall j | 0 <= j < n :: Score(aff, slot, jobs, j) <= Score(aff, slot, jobs, b)
    ensures forall j | 0 <= j < b :: Score(aff, slot, jobs, j) < Score(aff, slot, jobs, b)
  {
    if n == 1 then 0
    else
      var b := BestOf(aff, slot, jobs, n - 1);
      if Score(aff, slot, jobs, n - 1) > Score(aff, slot, jobs, b) then n - 1 else b
  }

  function Window(jobs: seq<Queued>): nat {
    if |jobs| < AFFINITY_WINDOW then |jobs| else AFFINITY_WINDOW
  }

  function Picked(affinity: Option<Affinity>, slot: nat, jobs: seq<Queued>): (i: nat)
    requires jobs != []
    ensures i < Window(jobs)
  {
    if affinity.None? || |jobs| < 2 || jobs[0].skipped >= AFFINITY_MAX_SKIPS then 0
    else BestOf(affinity.value, slot, jobs, Window(jobs))
  }

  /** Without an answer to go by, or when the first job was skipped four times, it
      is taken; otherwise the first of the best matches among the first four. */
  lemma PickedMeans(affinity: Option<Affinity>, slot: nat, jobs: seq<Queued>)
    requires jobs != []
    ensures var i := Picked(affinity, slot, jobs);
      i < |jobs| && i < 4 && (affinity.None? || jobs[0].skipped >= 4 ==> i == 0) &&
      (affinity.Some? && jobs[0].skipped < 4 ==>
        (forall j | 0 <= j < |jobs| && j < 4 :: affinity.value(slot, jobs[j].job) <= affinity.value(slot, jobs[i].job)) &&
        forall j | 0 <= j < i :: affinity.value(slot, jobs[j].job) < affinity.value(slot, jobs[i].job))
  {
    if affinity.Some? && |jobs| >= 2 && jobs[0].skipped < AFFINITY_MAX_SKIPS {
      var b := BestOf(affinity.value, slot, jobs, Window(jobs));
      forall j: nat | j < Window(jobs)
        ensures affinity.value(slot, jobs[j].job) <= affinity.value(slot, jobs[b].job)
        ensures j < b ==> affinity.value(slot, jobs[j].job) < affinity.value(slot, jobs[b].job)
      {
        assert Score(affinity.value, slot, jobs, j) <= Score(affinity.value, slot, jobs, b);
      }
    }
  }

  /** The queue after taking job `i`: the jobs it overtook were skipped. */
  function Taking(jobs: seq<Queued>, i: nat): (r: seq<Queued>)
    requires i < |jobs|
    ensures |r| == |jobs| - 1
    ensures forall k | 0 <= k < i :: r[k] == jobs[k].(skipped := jobs[k].skipped + 1)
    ensures forall k | i <= k < |r| :: r[k] == jobs[k + 1]
  {
    seq(i, k requires 0 <= k < i => jobs[k].(skipped := jobs[k].skipped + 1)) + jobs[i + 1..]
  }

  // ----- fairness ------------------------------------------------------------------

  /** Skip counts never exceed the limit and do not increase front to back. */
  ghost predicate Fair(jobs: seq<Queued>) {
    (forall i | 0 <= i < |jobs| :: jobs[i].skipped <= AFFINITY_MAX_SKIPS) &&
    forall i, j | 0 <= i <= j < |jobs| :: jobs[i].skipped >= jobs[j].skipped
  }

  lemma PushIsFair(jobs: seq<Queued>, job: Job)
    requires Fair(jobs)
    ensures Fair(jobs + [Queued(job, 0)])
  {
  }

  lemma TakeIsFair(affinity: Option<Affinity>, slot: nat, jobs: seq<Queued>)
    requires Fair(jobs) && jobs != []
    ensures Fair(Taking(jobs, Picked(affinity, slot, jobs)))
  {
  }

  /** What happens to the queue: a job enters at the back, or a slot takes one,
      with the answers the callback gives at that moment. */
  datatype Op = Enter(job: Job) | Take(slot: nat, affinity: Option<Affinity>)

  function Apply(jobs: seq<Queued>, op: Op): seq<Queued> {
    match op
    case Enter(job) => jobs + [Queued(job, 0)]
    case Take(slot, affinity) => if jobs == [] then [] else Taking(jobs, Picked(affinity, slot, jobs))
  }

  /** Jobs taken by a sequence of operations, in order. */
  function Removed(jobs: seq<Queued>, ops: seq<Op>): seq<Job>
    decreases |ops|
  {
    if ops == [] then []
    else
      (if ops[0].Take? && jobs != [] then [jobs[Picked(ops[0].affinity, ops[0].slot, jobs)].job] else []) +
      Removed(Apply(jobs, ops[0]), ops[1..])
  }

  function ApplyAll(jobs: seq<Queued>, ops: seq<Op>): seq<Queued>
    decreases |ops|
  {
    if ops == [] then jobs else ApplyAll(Apply(jobs, ops[0]), ops[1..])
  }

  lemma {:induction false} OneMore(jobs: seq<Queued>, ops: seq<Op>, op: Op)
    ensures ApplyAll(jobs, ops + [op]) == Apply(ApplyAll(jobs, ops), op)
    ensures Removed(jobs, ops + [op]) ==
      Removed(jobs, ops) + Removed(ApplyAll(jobs, ops), [op])
    decreases |ops|
  {
    hide Apply, Picked;
    if ops == [] {
      assert ops + [op] == [op];
    } else {
      assert (ops + [op])[1..] == ops[1..] + [op];
      OneMore(Apply(jobs, ops[0]), ops[1..], op);
    }
  }

  /** How many jobs may be taken before the one at `p`. */
  function Wait(jobs: seq<Queued>, p: nat): nat
    requires Fair(jobs) && p < |jobs|
  {
    p + AFFINITY_MAX_SKIPS - jobs[p].skipped
  }

  /** Every removal takes the job at `p` or brings it one nearer. */
  lemma TakeBringsNearer(affinity: Option<Affinity>, slot: nat, jobs: seq<Queued>, p: nat) returns (p': nat)
    requires Fair(jobs) && p < |jobs| && Picked(affinity, slot, jobs) != p
    ensures var next := Taking(jobs, Picked(affinity, slot, jobs));
      Fair(next) && p' < |next| && next[p'].job == jobs[p].job && Wait(next, p') + 1 == Wait(jobs, p)
  {
    hide BestOf;
    var i := Picked(affinity, slot, jobs);
    TakeIsFair(affinity, slot, jobs);
    if i > p {
      assert jobs[0].skipped < AFFINITY_MAX_SKIPS;
    }
    p' := if i < p then p - 1 else p;
  }

  lemma RemovedStep(jobs: seq<Queued>, ops: seq<Op>)
    requires ops != []
    ensures var rest := Removed(Apply(jobs, ops[0]), ops[1..]);
      Removed(jobs, ops) ==
      if ops[0].Take? && jobs != [] then [jobs[Picked(ops[0].affinity, ops[0].slot, jobs)].job] + rest else rest
  {
  }

  /** A queued job with `p` jobs ahead of it is one of the next
      `p + 1 + AFFINITY_MAX_SKIPS - skipped` taken, for every affinity. */
  lemma {:induction false} TakenWithin(jobs: seq<Queued>, p: nat, ops: seq<Op>)
    requires Fair(jobs) && p < |jobs|
    requires |Removed(jobs, ops)| > Wait(jobs, p)
    ensures jobs[p].job in Removed(jobs, ops)[..Wait(jobs, p) + 1]
    decreases |ops|
  {
    hide Picked, Taking, Fair;
    if ops == [] {
      assert false;
    }
    RemovedStep(jobs, ops);
    var next := Apply(jobs, ops[0]);
    match ops[0] {
      case Enter(job) =>
        PushIsFair(jobs, job);
        TakenWithin(next, p, ops[1..]);
      case Take(slot, affinity) =>
        var i := Picked(affinity, slot, jobs);
        if i == p {
          assert Removed(jobs, ops)[..Wait(jobs, p) + 1][0] == jobs[p].job;
        } else {
          var p' := TakeBringsNearer(affinity, slot, jobs, p);
          TakenWithin(next, p', ops[1..]);
          InTail(jobs[i].job, Removed(next, ops[1..]), Wait(next, p') + 1, jobs[p].job);
        }
    }
  }

  lemma InTail(head: Job, rest: seq<Job>, n: nat, job: Job)
    requires n <= |rest| && job in rest[..n]
    ensures job in ([head] + rest)[..n + 1]
  {
    assert ([head] + rest)[..n + 1] == [head] + rest[..n];
  }

  /** In particular a job that enters now with `p` jobs ahead of it is one of
      the next `p + 1 + AFFINITY_MAX_SKIPS` taken. */
  lemma EnteredIsTakenWithin(jobs: seq<Queued>, job: Job, ops: seq<Op>)
    requires Fair(jobs)
    requires |Removed(jobs + [Queued(job, 0)], ops)| >= |jobs| + 1 + AFFINITY_MAX_SKIPS
    ensures job in Removed(jobs + [Queued(job, 0)], ops)[..|jobs| + 1 + AFFINITY_MAX_SKIPS]
  {
    PushIsFair(jobs, job);
    TakenWithin(jobs + [Queued(job, 0)], |jobs|, ops);
  }

  // ----- the bound is sharp -----------------------------------------------------------

  function Copies<T>(x: T, n: nat): (r: seq<T>)
    ensures |r| == n && forall i | 0 <= i < n :: r[i] == x
  {
    if n == 0 then [] else [x] + Copies(x, n - 1)
  }

  lemma CopiesStep<T>(x: T, n: nat)
    requires n > 0
    ensures Copies(x, n) == [x] + Copies(x, n - 1) && Copies(x, n)[1..] == Copies(x, n - 1)
  {
  }

  const PLAIN := Job(0, [])
  const TARGET := Job(1, [])
  const MATCHING := Job(2, [7])

  /** Slot 1 holds a prefix of every non-empty prompt, slot 0 of none. */
  function Partial(): Affinity {
    (slot: nat, job: Job) => if slot == 1 && job.prompt != [] then 1 else 0
  }

  function FromSlot(slot: nat): Op {
    Take(slot, Some(Partial()))
  }

  function Behind(k: nat): seq<Queued>
    requires k <= AFFINITY_MAX_SKIPS
  {
    [Queued(TARGET, AFFINITY_MAX_SKIPS - k)] + Copies(Queued(MATCHING, 0), k)
  }

  lemma MatchingFirst(k: nat)
    requires 0 < k <= AFFINITY_MAX_SKIPS
    ensures Picked(Some(Partial()), 1, Behind(k)) == 1 && Behind(k)[1].job == MATCHING
    ensures Taking(Behind(k), 1) == Behind(k - 1)
  {
    var jobs := Behind(k);
    assert Score(Partial(), 1, jobs, 0) == 0 && Score(Partial(), 1, jobs, 1) == 1;
    assert BestOf(Partial(), 1, jobs, Window(jobs)) == 1;
  }

  lemma {:induction false} Overtaken(k: nat)
    requires k <= AFFINITY_MAX_SKIPS
    ensures Removed(Behind(k), Copies(FromSlot(1), k)) == Copies(MATCHING, k)
  {
    hide Picked, Taking, Removed, Behind;
    if k == 0 {
      NothingRemoved(Behind(0));
    } else {
      MatchingFirst(k);
      assert Copies(FromSlot(1), k)[1..] == Copies(FromSlot(1), k - 1);
      RemovedStep(Behind(k), Copies(FromSlot(1), k));
      Overtaken(k - 1);
    }
  }

  lemma NothingRemoved(jobs: seq<Queued>)
    ensures Removed(jobs, []) == []
  {
  }

  lemma NoMatch(jobs: seq<Queued>)
    requires jobs != []
    ensures Picked(Some(Partial()), 0, jobs) == 0
  {
    var n := Window(jobs);
    var b := BestOf(Partial(), 0, jobs, n);
    assert Score(Partial(), 0, jobs, 0) == 0 == Score(Partial(), 0, jobs, b);
  }

  lemma PlainFirst(n: nat, tail: seq<Queued>)
    requires n > 0
    ensures var jobs := Copies(Queued(PLAIN, 0), n) + tail;
      jobs[0].job == PLAIN && Picked(Some(Partial()), 0, jobs) == 0 &&
      Taking(jobs, 0) == Copies(Queued(PLAIN, 0), n - 1) + tail
  {
    hide Copies, Picked;
    NoMatch(Copies(Queued(PLAIN, 0), n) + tail);
  }

  lemma {:induction false} InOrder(n: nat, tail: seq<Queued>, ops: seq<Op>)
    ensures Removed(Copies(Queued(PLAIN, 0), n) + tail, Copies(FromSlot(0), n) + ops) ==
      Copies(PLAIN, n) + Removed(tail, ops)
  {
    hide Removed, Picked, Taking, Copies;
    if n == 0 {
      assert Copies(Queued(PLAIN, 0), 0) + tail == tail && Copies(FromSlot(0), 0) + ops == ops;
    } else {
      var jobs, all := Copies(Queued(PLAIN, 0), n) + tail, Copies(FromSlot(0), n) + ops;
      PlainFirst(n, tail);
      CopiesStep(FromSlot(0), n);
      assert all[1..] == Copies(FromSlot(0), n)[1..] + ops;
      RemovedStep(jobs, all);
      InOrder(n - 1, tail, ops);
      CopiesStep(PLAIN, n);
    }
  }

  /** Behind any number of jobs, a job can be left waiting through the
      `p + AFFINITY_MAX_SKIPS` removals the bound allows. */
  lemma BoundIsSharp(p: nat) returns (jobs: seq<Queued>, ops: seq<Op>)
    ensures Fair(jobs) && p < |jobs| && jobs[p] == Queued(TARGET, 0)
    ensures |Removed(jobs, ops)| == p + AFFINITY_MAX_SKIPS
    ensures TARGET !in Removed(jobs, ops)
  {
    hide Copies, Removed;
    var tail := Behind(AFFINITY_MAX_SKIPS);
    jobs := Copies(Queued(PLAIN, 0), p) + tail;
    ops := Copies(FromSlot(0), p) + Copies(FromSlot(1), AFFINITY_MAX_SKIPS);
    Overtaken(AFFINITY_MAX_SKIPS);
    InOrder(p, tail, Copies(FromSlot(1), AFFINITY_MAX_SKIPS));
  }

  // ----- which slot a job is handed to --------------------------------------------------

  predicate CanReceive(idle: seq<bool>, mailbox: seq<Option<Job>>, s: nat)
    requires |idle| == |mailbox|
  {
    s < |idle| && idle[s] && mailbox[s].None?
  }

  /** The idle slot with the best positive match, the lowest of equals. */
  ghost predicate IsBestSlot(aff: Affinity, job: Job, idle: seq<bool>, mailbox: seq<Option<Job>>, r: Option<nat>)
    requires |idle| == |mailbox|
  {
    match r
    case None => forall s: nat | CanReceive(idle, mailbox, s) :: aff(s, job) == 0
    case Some(b) =>
      CanReceive(idle, mailbox, b) && aff(b, job) > 0 &&
      (forall s: nat | CanReceive(idle, mailbox, s) :: aff(s, job) <= aff(b, job)) &&
      forall s: nat | CanReceive(idle, mailbox, s) && s < b :: aff(s, job) < aff(b, job)
  }

  method BestSlot(aff: Affinity, job: Job, idle: seq<bool>, mailbox: seq<Option<Job>>) returns (r: Option<nat>)
    requires |idle| == |mailbox|
    ensures IsBestSlot(aff, job, idle, mailbox, r)
  {
    r := None;
    for s := 0 to |idle|
      invariant match r
        case None => forall j: nat | j < s && CanReceive(idle, mailbox, j) :: aff(j, job) == 0
        case Some(b) =>
          b < s && CanReceive(idle, mailbox, b) && aff(b, job) > 0 &&
          (forall j: nat | j < s && CanReceive(idle, mailbox, j) :: aff(j, job) <= aff(b, job)) &&
          forall j: nat | CanReceive(idle, mailbox, j) && j < b :: aff(j, job) < aff(b, job)
    {
      if CanReceive(idle, mailbox, s) && aff(s, job) > (if r.Some? then aff(r.value, job) else 0) {
        r := Some(s);
      }
    }
  }

  function SaturatingSub(a: nat, b: nat): nat {
    if a < b then 0 else a - b
  }

  // ----- counting ---------------------------------------------------------------------------

  /** Where a slot's worker is: not in `pop`, blocked on the condition variable,
      woken but not running yet, holding a job, or gone after shutdown. */
  datatype Worker = Outside | Waiting | Woken | Working | Gone

  ghost function Filled(mailbox: seq<Option<Job>>): set<nat> {
    set s | 0 <= s < |mailbox| && mailbox[s].Some?
  }

  function At(pc: seq<Worker>, w: Worker): set<nat> {
    set s | 0 <= s < |pc| && pc[s] == w
  }

  /** Woken workers that will look at the queue. */
  ghost function Ready(pc: seq<Worker>, mailbox: seq<Option<Job>>): set<nat> {
    At(pc, Woken) - Filled(mailbox)
  }

  ghost function Boxed(mailbox: seq<Option<Job>>): multiset<Job> {
    if mailbox == [] then multiset{}
    else Boxed(mailbox[1..]) + if mailbox[0].Some? then multiset{mailbox[0].value} else multiset{}
  }

  lemma BoxedStep(mailbox: seq<Option<Job>>)
    requires mailbox != []
    ensures Boxed(mailbox) ==
      Boxed(mailbox[1..]) + if mailbox[0].Some? then multiset{mailbox[0].value} else multiset{}
  {
  }

  lemma {:induction false} BoxedPut(mailbox: seq<Option<Job>>, s: nat, job: Job)
    requires s < |mailbox| && mailbox[s].None?
    ensures Boxed(mailbox[s := Some(job)]) == Boxed(mailbox) + multiset{job}
  {
    hide Boxed;
    var now := mailbox[s := Some(job)];
    BoxedStep(mailbox);
    BoxedStep(now);
    if s == 0 {
      assert now[1..] == mailbox[1..];
    } else {
      assert now[1..] == mailbox[1..][s - 1 := Some(job)];
      BoxedPut(mailbox[1..], s - 1, job);
    }
  }

  lemma FilledPut(mailbox: seq<Option<Job>>, s: nat, job: Job)
    requires s < |mailbox| && mailbox[s].None?
    ensures Filled(mailbox[s := Some(job)]) == Filled(mailbox) + {s} && s !in Filled(mailbox)
  {
  }

  ghost function Jobs(jobs: seq<Queued>): (r: seq<Job>)
    ensures |r| == |jobs| && forall i | 0 <= i < |jobs| :: r[i] == jobs[i].job
  {
    seq(|jobs|, i requires 0 <= i < |jobs| => jobs[i].job)
  }

  lemma JobsTaken(jobs: seq<Queued>, i: nat)
    requires i < |jobs|
    ensures multiset(Jobs(jobs)) == multiset(Jobs(Taking(jobs, i))) + multiset{jobs[i].job}
  {
    var js, next := Jobs(jobs), Jobs(Taking(jobs, i));
    assert next == js[..i] + js[i + 1..];
    assert js == js[..i] + [js[i]] + js[i + 1..];
  }

  lemma Moved(pc: seq<Worker>, s: nat, w: Worker)
    requires s < |pc| && pc[s] != w
    ensures At(pc[s := w], w) == At(pc, w) + {s} && s !in At(pc, w)
    ensures At(pc[s := w], pc[s]) == At(pc, pc[s]) - {s} && s in At(pc, pc[s])
    ensures forall v | v != w && v != pc[s] :: At(pc[s := w], v) == At(pc, v)
  {
  }

  /** How many workers hold a job after worker `s` becomes `w`. */
  lemma HoldersMoved(pc: seq<Worker>, s: nat, w: Worker)
    requires s < |pc| && pc[s] != w
    ensures |At(pc[s := w], Working)| ==
      |At(pc, Working)| + (if w == Working then 1 else 0) - (if pc[s] == Working then 1 else 0)
  {
    Moved(pc, s, w);
  }

  /** While jobs are queued nobody sleeps, or everybody is about to be woken, or
      enough workers are awake to take them all. */
  ghost predicate AwakeFor(queued: nat, pc: seq<Worker>, mailbox: seq<Option<Job>>, oweOne: nat, oweAll: nat) {
    queued == 0 || At(pc, Waiting) == {} || oweAll > 0 || |Ready(pc, mailbox)| + oweOne >= queued
  }

  lemma AwakeAfterBox(queued: nat, pc: seq<Worker>, mailbox: seq<Option<Job>>, oweOne: nat, oweAll: nat, s: nat)
    requires AwakeFor(queued, pc, mailbox, oweOne, oweAll)
    requires s < |pc| == |mailbox| && pc[s] in {Outside, Woken} && mailbox[s].Some?
    ensures AwakeFor(queued, pc[s := Working], mailbox[s := None], oweOne, oweAll)
  {
    hide At, Ready;
    Moved(pc, s, Working);
    ReadyTaken(pc, mailbox, s);
  }

  lemma AwakeAfterTake(queued: nat, pc: seq<Worker>, mailbox: seq<Option<Job>>, oweOne: nat, oweAll: nat, s: nat)
    requires AwakeFor(queued, pc, mailbox, oweOne, oweAll) && queued > 0
    requires s < |pc| == |mailbox| && pc[s] in {Outside, Woken} && mailbox[s].None?
    ensures AwakeFor(queued - 1, pc[s := Working], mailbox, oweOne, oweAll)
  {
    hide At, Ready;
    Moved(pc, s, Working);
    ReadyLess(pc, mailbox, s);
  }

  lemma AwakeAfterFinish(queued: nat, pc: seq<Worker>, mailbox: seq<Option<Job>>, oweOne: nat, oweAll: nat, s: nat)
    requires AwakeFor(queued, pc, mailbox, oweOne, oweAll)
    requires s < |pc| == |mailbox| && pc[s] == Working
    ensures AwakeFor(queued, pc[s := Outside], mailbox, oweOne, oweAll)
  {
    hide At, Ready;
    Moved(pc, s, Outside);
    ReadyOutside(pc, mailbox, s);
  }

  /** A job is in the mailbox of a blocked worker only, who is about to be woken;
      the idle slots are those of blocked workers without one. */
  ghost predicate SlotsFor(pc: seq<Worker>, mailbox: seq<Option<Job>>, idle: seq<bool>, oweAll: nat, shutdown: bool) {
    |pc| == |mailbox| == |idle| > 0 &&
    forall s | 0 <= s < |pc| ::
      (mailbox[s].Some? ==> pc[s] in {Waiting, Woken, Gone}) &&
      (mailbox[s].Some? && pc[s] == Waiting ==> oweAll > 0) &&
      (!shutdown ==> pc[s] != Gone && (idle[s] <==> pc[s] in {Waiting, Woken} && mailbox[s].None?))
  }

  /** A blocked worker runs again, notified or not. */
  lemma AfterWake(queued: nat, pc: seq<Worker>, mailbox: seq<Option<Job>>, idle: seq<bool>, oweOne: nat, oweAll: nat,
                  shutdown: bool, s: nat)
    requires SlotsFor(pc, mailbox, idle, oweAll, shutdown) && s < |pc| && pc[s] == Waiting
    ensures SlotsFor(pc[s := Woken], mailbox, idle, oweAll, shutdown)
    ensures |At(pc[s := Woken], Working)| == |At(pc, Working)|
    ensures AwakeFor(queued, pc, mailbox, oweOne, oweAll) ==> AwakeFor(queued, pc[s := Woken], mailbox, oweOne, oweAll)
    ensures AwakeFor(queued, pc, mailbox, oweOne, oweAll) && oweOne > 0 ==>
      AwakeFor(queued, pc[s := Woken], mailbox, oweOne - 1, oweAll)
  {
    hide At, Ready;
    Moved(pc, s, Woken);
    ReadyMore(pc, mailbox, s);
  }

  lemma SlotsAfterTake(pc: seq<Worker>, mailbox: seq<Option<Job>>, idle: seq<bool>, oweAll: nat, s: nat)
    requires SlotsFor(pc, mailbox, idle, oweAll, false) && s < |pc|
    ensures |mailbox| == |idle| == |pc|
    ensures SlotsFor(pc[s := Working], mailbox[s := None], idle[s := false], oweAll, false)
    ensures mailbox[s].None? ==> mailbox[s := None] == mailbox
  {
  }

  /** Every accepted job is queued, in a mailbox or delivered, once. */
  ghost predicate Counted(cap: nat, jobs: seq<Queued>, mailbox: seq<Option<Job>>, pc: seq<Worker>, busy: nat,
                          accepted: multiset<Job>, delivered: multiset<Job>, finished: nat) {
    accepted == multiset(Jobs(jobs)) + Boxed(mailbox) + delivered && |jobs| + |Filled(mailbox)| <= cap &&
    busy == |At(pc, Working)| && |delivered| == busy + finished
  }

  lemma CountedAfterTake(cap: nat, jobs: seq<Queued>, mailbox: seq<Option<Job>>, pc: seq<Worker>, busy: nat,
                         accepted: multiset<Job>, delivered: multiset<Job>, finished: nat, s: nat, i: nat)
    requires Counted(cap, jobs, mailbox, pc, busy, accepted, delivered, finished)
    requires s < |pc| && pc[s] != Working && i < |jobs|
    ensures Counted(cap, Taking(jobs, i), mailbox, pc[s := Working], busy + 1, accepted,
                    delivered + multiset{jobs[i].job}, finished)
  {
    hide Boxed, Filled, At, Jobs;
    HoldersMoved(pc, s, Working);
    JobsTaken(jobs, i);
  }

  lemma CountedAfterBox(cap: nat, jobs: seq<Queued>, mailbox: seq<Option<Job>>, pc: seq<Worker>, busy: nat,
                        accepted: multiset<Job>, delivered: multiset<Job>, finished: nat, s: nat)
    requires Counted(cap, jobs, mailbox, pc, busy, accepted, delivered, finished)
    requires s < |pc| == |mailbox| && pc[s] != Working && mailbox[s].Some?
    ensures Counted(cap, jobs, mailbox[s := None], pc[s := Working], busy + 1, accepted,
                    delivered + multiset{mailbox[s].value}, finished)
  {
    hide Boxed, Filled, At, Jobs;
    HoldersMoved(pc, s, Working);
    BoxedTaken(mailbox, s);
  }

  // ----- what one action does -----------------------------------------------------------------

  /** Everything there is to know of the queue at one moment. */
  datatype Moment = Moment(jobs: seq<Queued>, mailbox: seq<Option<Job>>, idle: seq<bool>, busy: nat, shutdown: bool,
                           pc: seq<Worker>, oweOne: nat, oweAll: nat, accepted: multiset<Job>,
                           delivered: multiset<Job>, finished: nat)

  /** What a thread may do; the callback's answers come with the call. */
  datatype Act =
    Push(job: Job, affinity: Option<Affinity>) | Turn(slot: nat, affinity: Option<Affinity>) | Done(slot: nat) |
    Close | Signal | Broadcast | Spurious(slot: nat)

  /** What came of it. */
  datatype Outcome =
    Refused | HandedTo(slot: nat) | Entered |
    TookBoxed(job: Job) | TookQueued(job: Job) | Slept | Stopped |
    Finished | ShutDown | Roused(slot: nat) | RousedNobody | RousedAll | NotNow

  ghost predicate PushOk(cap: nat, m: Moment, job: Job, affinity: Option<Affinity>, o: Outcome, n: Moment) {
    |m.idle| == |m.mailbox| &&
    if m.shutdown || |m.jobs| + |Filled(m.mailbox)| >= cap then o == Refused && n == m
    else if o.HandedTo? then
      affinity.Some? && m.jobs == [] && IsBestSlot(affinity.value, job, m.idle, m.mailbox, Some(o.slot)) &&
      n == m.(mailbox := m.mailbox[o.slot := Some(job)], idle := m.idle[o.slot := false],
              accepted := m.accepted + multiset{job}, oweAll := m.oweAll + 1)
    else
      o == Entered &&
      (affinity.Some? && m.jobs == [] ==> IsBestSlot(affinity.value, job, m.idle, m.mailbox, None)) &&
      n == m.(jobs := m.jobs + [Queued(job, 0)], accepted := m.accepted + multiset{job}, oweOne := m.oweOne + 1)
  }

  /** The moment after a worker took a job. */
  function Took(m: Moment, slot: nat, job: Job): Moment
    requires slot < |m.pc| == |m.mailbox| == |m.idle|
  {
    m.(mailbox := m.mailbox[slot := None], idle := m.idle[slot := false], busy := m.busy + 1,
       pc := m.pc[slot := Working], delivered := m.delivered + multiset{job})
  }

  ghost predicate TurnOk(m: Moment, slot: nat, affinity: Option<Affinity>, o: Outcome, n: Moment) {
    |m.idle| == |m.mailbox| == |m.pc| &&
    if !(slot < |m.pc| && m.pc[slot] in {Outside, Woken}) then o == NotNow && n == m
    else if m.shutdown then o == Stopped && n == m.(pc := m.pc[slot := Gone])
    else if m.mailbox[slot].Some? then
      o == TookBoxed(m.mailbox[slot].value) && n == Took(m, slot, o.job)
    else if m.jobs != [] then
      o == TookQueued(m.jobs[Picked(affinity, slot, m.jobs)].job) &&
      n == Took(m, slot, o.job).(jobs := Taking(m.jobs, Picked(affinity, slot, m.jobs)))
    else o == Slept && n == m.(idle := m.idle[slot := true], pc := m.pc[slot := Waiting])
  }

  ghost predicate SignalOk(m: Moment, o: Outcome, n: Moment) {
    if m.oweOne == 0 then o == NotNow && n == m
    else if At(m.pc, Waiting) == {} then o == RousedNobody && n == m.(oweOne := m.oweOne - 1)
    else o.Roused? && o.slot in At(m.pc, Waiting) && n == m.(oweOne := m.oweOne - 1, pc := m.pc[o.slot := Woken])
  }

  ghost predicate StepOk(cap: nat, m: Moment, act: Act, o: Outcome, n: Moment) {
    match act
    case Push(job, affinity) => PushOk(cap, m, job, affinity, o, n)
    case Turn(slot, affinity) => TurnOk(m, slot, affinity, o, n)
    case Done(slot) =>
      if slot < |m.pc| && m.pc[slot] == Working && m.busy > 0 then
        o == Finished && n == m.(busy := m.busy - 1, pc := m.pc[slot := Outside], finished := m.finished + 1)
      else o == NotNow && n == m
    case Close => o == ShutDown && n == m.(shutdown := true, oweAll := m.oweAll + 1)
    case Signal => SignalOk(m, o, n)
    case Broadcast =>
      if m.oweAll == 0 then o == NotNow && n == m
      else o == RousedAll && n == m.(oweAll := m.oweAll - 1, pc := AllWoken(m.pc))
    case Spurious(slot) =>
      if slot < |m.pc| && m.pc[slot] == Waiting then o == Roused(slot) && n == m.(pc := m.pc[slot := Woken])
      else o == NotNow && n == m
  }

  /** A whole interleaving, moment by moment. */
  ghost predicate IsRun(cap: nat, acts: seq<Act>, log: seq<Outcome>, trace: seq<Moment>) {
    |log| == |acts| && |trace| == |acts| + 1 &&
    forall i | 0 <= i < |acts| :: StepOk(cap, trace[i], acts[i], log[i], trace[i + 1])
  }

  /** The invariant of the queue, at one moment. */
  ghost predicate Sane(cap: nat, m: Moment) {
    SlotsFor(m.pc, m.mailbox, m.idle, m.oweAll, m.shutdown) &&
    Counted(cap, m.jobs, m.mailbox, m.pc, m.busy, m.accepted, m.delivered, m.finished) && Fair(m.jobs) &&
    (!m.shutdown ==> AwakeFor(|m.jobs|, m.pc, m.mailbox, m.oweOne, m.oweAll))
  }

  // ----- whole runs -----------------------------------------------------------------------------

  /** What an action does to the queue of jobs. */
  function OpOf(act: Act, o: Outcome): seq<Op> {
    if act.Push? && o.Entered? then [Enter(act.job)]
    else if act.Turn? && o.TookQueued? then [Take(act.slot, act.affinity)]
    else []
  }

  function OpsOf(acts: seq<Act>, log: seq<Outcome>): seq<Op>
    requires |acts| == |log|
  {
    if acts == [] then []
    else OpsOf(acts[..|acts| - 1], log[..|acts| - 1]) + OpOf(acts[|acts| - 1], log[|acts| - 1])
  }

  function TakenBy(o: Outcome): seq<Job> {
    if o.TookQueued? then [o.job] else []
  }

  /** The jobs taken from the queue, in order. */
  function TakenIn(log: seq<Outcome>): seq<Job> {
    if log == [] then [] else TakenIn(log[..|log| - 1]) + TakenBy(log[|log| - 1])
  }

  ghost function AcceptedBy(act: Act, o: Outcome): multiset<Job> {
    if act.Push? && (o.Entered? || o.HandedTo?) then multiset{act.job} else multiset{}
  }

  /** The jobs pushed and not refused. */
  ghost function AcceptedIn(acts: seq<Act>, log: seq<Outcome>): multiset<Job>
    requires |acts| == |log|
  {
    if acts == [] then multiset{}
    else AcceptedIn(acts[..|acts| - 1], log[..|acts| - 1]) + AcceptedBy(acts[|acts| - 1], log[|acts| - 1])
  }

  ghost function DeliveredBy(o: Outcome): multiset<Job> {
    if o.TookBoxed? || o.TookQueued? then multiset{o.job} else multiset{}
  }

  /** The jobs workers got. */
  ghost function DeliveredIn(log: seq<Outcome>): multiset<Job> {
    if log == [] then multiset{} else DeliveredIn(log[..|log| - 1]) + DeliveredBy(log[|log| - 1])
  }

  function FinishedIn(log: seq<Outcome>): nat {
    if log == [] then 0 else FinishedIn(log[..|log| - 1]) + if log[|log| - 1].Finished? then 1 else 0
  }

  /** Neither a job accepted nor one delivered. */
  lemma NothingCounted(m: Moment, act: Act, o: Outcome)
    ensures !act.Push? || o.Refused? ==> m.accepted == m.accepted + AcceptedBy(act, o)
    ensures !o.TookBoxed? && !o.TookQueued? ==> m.delivered == m.delivered + DeliveredBy(o)
  {
  }

  lemma PushCounts(cap: nat, m: Moment, act: Act, o: Outcome, n: Moment)
    requires act.Push? && PushOk(cap, m, act.job, act.affinity, o, n)
    ensures n.accepted == m.accepted + AcceptedBy(act, o) && n.delivered == m.delivered && n.finished == m.finished
    ensures o.Refused? || o.HandedTo? || o.Entered?
  {
    hide Filled, IsBestSlot;
    if o.Refused? {
      NothingCounted(m, act, o);
    }
  }

  lemma TurnCounts(m: Moment, act: Act, o: Outcome, n: Moment)
    requires act.Turn? && TurnOk(m, act.slot, act.affinity, o, n)
    ensures n.delivered == m.delivered + DeliveredBy(o) && n.accepted == m.accepted && n.finished == m.finished
    ensures o.NotNow? || o.Stopped? || o.TookBoxed? || o.TookQueued? || o.Slept?
  {
    hide Picked, Taking, At, AcceptedBy, DeliveredBy;
    if !o.TookBoxed? && !o.TookQueued? {
      NothingCounted(m, act, o);
    } else {
      assert n.delivered == m.delivered + multiset{o.job};
      OneDelivered(o);
    }
  }

  lemma OneDelivered(o: Outcome)
    requires o.TookBoxed? || o.TookQueued?
    ensures DeliveredBy(o) == multiset{o.job}
  {
  }

  lemma StepCounts(cap: nat, m: Moment, act: Act, o: Outcome, n: Moment)
    requires StepOk(cap, m, act, o, n)
    ensures n.accepted == m.accepted + AcceptedBy(act, o) && n.delivered == m.delivered + DeliveredBy(o)
    ensures n.finished == m.finished + if o.Finished? then 1 else 0
  {
    hide PushOk, TurnOk, At, AcceptedBy, DeliveredBy;
    NothingCounted(m, act, o);
    if act.Push? {
      PushCounts(cap, m, act, o, n);
    } else if act.Turn? {
      TurnCounts(m, act, o, n);
    }
  }

  /** The books are the sum of what the log says. */
  lemma {:induction false} RunCounts(cap: nat, acts: seq<Act>, log: seq<Outcome>, trace: seq<Moment>)
    requires IsRun(cap, acts, log, trace)
    ensures trace[|acts|].accepted == trace[0].accepted + AcceptedIn(acts, log)
    ensures trace[|acts|].delivered == trace[0].delivered + DeliveredIn(log)
    ensures trace[|acts|].finished == trace[0].finished + FinishedIn(log)
  {
    hide StepOk, AcceptedBy, DeliveredBy;
    if acts != [] {
      var n := |acts| - 1;
      RunCounts(cap, acts[..n], log[..n], trace[..n + 1]);
      StepCounts(cap, trace[n], acts[n], log[n], trace[n + 1]);
    }
  }

  lemma StepIsOp(cap: nat, m: Moment, act: Act, o: Outcome, n: Moment)
    requires StepOk(cap, m, act, o, n)
    ensures n.jobs == ApplyAll(m.jobs, OpOf(act, o)) && TakenBy(o) == Removed(m.jobs, OpOf(act, o))
    ensures |OpOf(act, o)| <= 1
  {
    hide Filled, IsBestSlot, Picked, Taking, At;
    if OpOf(act, o) != [] {
      RemovedStep(m.jobs, OpOf(act, o));
    }
  }

  /** What happens to the jobs in a run is what its operations do to them. */
  lemma {:induction false} RunIsOps(cap: nat, acts: seq<Act>, log: seq<Outcome>, trace: seq<Moment>)
    requires IsRun(cap, acts, log, trace)
    ensures trace[|acts|].jobs == ApplyAll(trace[0].jobs, OpsOf(acts, log))
    ensures TakenIn(log) == Removed(trace[0].jobs, OpsOf(acts, log))
  {
    hide StepOk, OpOf, TakenBy, Removed, ApplyAll;
    if acts == [] {
      NoOps(trace[0].jobs);
    } else {
      var n := |acts| - 1;
      RunIsOps(cap, acts[..n], log[..n], trace[..n + 1]);
      StepIsOp(cap, trace[n], acts[n], log[n], trace[n + 1]);
      var ops, last := OpsOf(acts[..n], log[..n]), OpOf(acts[n], log[n]);
      NoOps(trace[n].jobs);
      if last == [] {
        assert ops + last == ops;
      } else {
        assert last == [last[0]];
        OneMore(trace[0].jobs, ops, last[0]);
        OneOp(trace[n].jobs, last[0]);
      }
    }
  }

  lemma NoOps(jobs: seq<Queued>)
    ensures ApplyAll(jobs, []) == jobs && Removed(jobs, []) == []
  {
  }

  lemma OneOp(jobs: seq<Queued>, op: Op)
    ensures ApplyAll(jobs, [op]) == Apply(jobs, op)
  {
    hide Apply;
    NoOps(Apply(jobs, op));
    assert [op][1..] == [];
  }

  /** In any interleaving, a job queued with `p` jobs ahead of it is one of the
      next `p + 1 + AFFINITY_MAX_SKIPS` taken from the queue. */
  lemma QueuedIsTaken(cap: nat, acts: seq<Act>, log: seq<Outcome>, trace: seq<Moment>, i: nat)
    requires IsRun(cap, acts, log, trace) && i < |acts| && Sane(cap, trace[i])
    requires acts[i].Push? && log[i].Entered?
    requires |TakenIn(log[i + 1..])| >= |trace[i].jobs| + 1 + AFFINITY_MAX_SKIPS
    ensures acts[i].job in TakenIn(log[i + 1..])[..|trace[i].jobs| + 1 + AFFINITY_MAX_SKIPS]
  {
    hide Removed, ApplyAll, Fair, PushOk, OpsOf, TakenIn;
    var rest := acts[i + 1..];
    assert IsRun(cap, rest, log[i + 1..], trace[i + 1..]);
    RunIsOps(cap, rest, log[i + 1..], trace[i + 1..]);
    PushedLast(cap, trace[i], acts[i].job, acts[i].affinity, trace[i + 1]);
    EnteredIsTakenWithin(trace[i].jobs, acts[i].job, OpsOf(rest, log[i + 1..]));
  }

  lemma PushedLast(cap: nat, m: Moment, job: Job, affinity: Option<Affinity>, n: Moment)
    requires PushOk(cap, m, job, affinity, Entered, n)
    ensures n.jobs == m.jobs + [Queued(job, 0)]
  {
  }

  lemma JustHanded(cap: nat, m: Moment, act: Act, o: Outcome, n: Moment)
    requires StepOk(cap, m, act, o, n) && act.Push? && o.HandedTo?
    ensures o.slot < |n.mailbox| && n.mailbox[o.slot] == Some(act.job)
  {
    hide Filled;
  }

  lemma StaysBoxed(cap: nat, m: Moment, act: Act, o: Outcome, n: Moment, slot: nat, job: Job)
    requires StepOk(cap, m, act, o, n) && slot < |m.mailbox| && m.mailbox[slot] == Some(job)
    ensures |n.mailbox| == |m.mailbox|
    ensures act.Turn? && act.slot == slot ==> o == NotNow || o == Stopped || o == TookBoxed(job)
    ensures n.mailbox[slot] == Some(job) || (act.Turn? && act.slot == slot && o == TookBoxed(job))
  {
    hide Filled, Picked, Taking, At;
  }

  /** In any interleaving, a job handed to a slot stays in its mailbox until that
      slot's worker takes it, and that worker takes nothing else before. */
  lemma {:induction false} HandedIsNext(cap: nat, acts: seq<Act>, log: seq<Outcome>, trace: seq<Moment>, i: nat, k: nat)
    requires IsRun(cap, acts, log, trace) && i < k <= |acts| && acts[i].Push? && log[i].HandedTo?
    requires forall j | i < j < k :: !(acts[j].Turn? && acts[j].slot == log[i].slot && log[j].TookBoxed?)
    ensures log[i].slot < |trace[k].mailbox| && trace[k].mailbox[log[i].slot] == Some(acts[i].job)
    ensures forall j | i < j < k :: acts[j].Turn? && acts[j].slot == log[i].slot ==> log[j] == NotNow || log[j] == Stopped
    ensures k < |acts| && acts[k].Turn? && acts[k].slot == log[i].slot && log[k].TookBoxed? ==> log[k].job == acts[i].job
    decreases k
  {
    hide StepOk;
    if k == i + 1 {
      JustHanded(cap, trace[i], acts[i], log[i], trace[k]);
    } else {
      HandedIsNext(cap, acts, log, trace, i, k - 1);
      StaysBoxed(cap, trace[k - 1], acts[k - 1], log[k - 1], trace[k], log[i].slot, acts[i].job);
    }
    if k < |acts| {
      StaysBoxed(cap, trace[k], acts[k], log[k], trace[k + 1], log[i].slot, acts[i].job);
    }
  }

  // ----- the queue ----------------------------------------------------------------------------

  datatype Popped = Stop | Got(job: Job) | Blocked

  class JobQueue {
    const cap: nat
    var jobs: seq<Queued>
    /** Jobs handed straight to a slot, not picked up yet. */
    var mailbox: seq<Option<Job>>
    /** Slots blocked with nothing to do. */
    var idle: seq<bool>
    var busy: nat
    var shutdown: bool
    /** Where each slot's worker is. */
    var pc: seq<Worker>
    /** Notifications owed by threads that have released the lock. */
    var oweOne: nat
    var oweAll: nat
    ghost var accepted: multiset<Job>
    ghost var delivered: multiset<Job>
    ghost var finished: nat

    ghost function Now(): Moment
      reads this
    {
      Moment(jobs, mailbox, idle, busy, shutdown, pc, oweOne, oweAll, accepted, delivered, finished)
    }

    ghost function Pending(): nat
      reads this
    {
      |jobs| + |Filled(mailbox)|
    }

    /** Every accepted job is queued, in a mailbox or delivered, once. */
    ghost predicate Conserved()
      reads this
    {
      Counted(cap, jobs, mailbox, pc, busy, accepted, delivered, finished)
    }

    ghost predicate SlotsOk()
      reads this
    {
      SlotsFor(pc, mailbox, idle, oweAll, shutdown)
    }

    ghost predicate Awake()
      reads this
    {
      AwakeFor(|jobs|, pc, mailbox, oweOne, oweAll)
    }

    ghost predicate Valid()
      reads this
    {
      SlotsOk() && Conserved() && Fair(jobs) && (!shutdown ==> Awake())
    }

    constructor (cap: nat, slots: nat)
      ensures Valid() && this.cap == cap && jobs == [] && !shutdown && accepted == multiset{}
    {
      this.cap := cap;
      var n := if slots < 1 then 1 else slots;
      jobs, busy, shutdown := [], 0, false;
      mailbox, idle := seq(n, i => None), seq(n, i => false);
      pc, oweOne, oweAll, accepted, delivered, finished := seq(n, i => Outside), 0, 0, multiset{}, multiset{}, 0;
      new;
      NobodyThere();
    }

    lemma NobodyThere()
      requires forall s | 0 <= s < |mailbox| :: mailbox[s].None?
      requires forall s | 0 <= s < |pc| :: pc[s] == Outside
      ensures Filled(mailbox) == {} && At(pc, Working) == {} && Boxed(mailbox) == multiset{}
    {
      BoxedNone(mailbox);
    }

    /** Enqueue a job, hand it to the best idle slot, or refuse it. */
    method TryPush(job: Job, affinity: Option<Affinity>) returns (ok: bool, ghost slot: Option<nat>)
      requires Valid()
      modifies this
      ensures Valid() && (ok <==> !old(shutdown) && old(Pending()) < cap)
      ensures !ok ==> Now() == old(Now())
      ensures ok ==> accepted == old(accepted) + multiset{job}
      ensures ok && affinity.Some? && old(jobs) == [] ==>
        IsBestSlot(affinity.value, job, old(idle), old(mailbox), slot)
      ensures ok && slot.Some? ==> affinity.Some? && old(jobs) == [] && slot.value < |old(mailbox)|
      ensures ok && slot.Some? ==> jobs == old(jobs) && mailbox == old(mailbox)[slot.value := Some(job)]
      ensures ok && slot.Some? ==>
        idle == old(idle)[slot.value := false] && oweAll == old(oweAll) + 1 && oweOne == old(oweOne)
      ensures ok && slot.None? ==> jobs == old(jobs) + [Queued(job, 0)] && mailbox == old(mailbox) && idle == old(idle)
      ensures ok && slot.None? ==> oweOne == old(oweOne) + 1 && oweAll == old(oweAll)
      ensures delivered == old(delivered) && finished == old(finished) && pc == old(pc) && shutdown == old(shutdown)
      ensures busy == old(busy)
    {
      hide Boxed, Filled, At, Ready, Awake, Fair;
      slot := None;
      var boxed := CountFilled(mailbox);
      if shutdown || |jobs| + boxed >= cap {
        return false, None;
      }
      if affinity.Some? && jobs == [] {
        var best := BestSlot(affinity.value, job, idle, mailbox);
        slot := best;
        if best.Some? {
          HandOver(best.value, job);
          return true, slot;
        }
      }
      Append(job);
      return true, None;
    }

    method HandOver(slot: nat, job: Job)
      requires Valid() && !shutdown && Pending() < cap && jobs == []
      requires |idle| == |mailbox| && CanReceive(idle, mailbox, slot)
      modifies this`idle, this`mailbox, this`accepted, this`oweAll
      ensures Valid() && mailbox == old(mailbox)[slot := Some(job)] && idle == old(idle)[slot := false]
      ensures accepted == old(accepted) + multiset{job} && oweAll == old(oweAll) + 1
    {
      hide Boxed, Filled, At, Ready;
      BoxedPut(mailbox, slot, job);
      FilledPut(mailbox, slot, job);
      idle, mailbox := idle[slot := false], mailbox[slot := Some(job)];
      accepted, oweAll := accepted + multiset{job}, oweAll + 1;
    }

    method Append(job: Job)
      requires Valid() && !shutdown && Pending() < cap
      modifies this`jobs, this`accepted, this`oweOne
      ensures Valid() && jobs == old(jobs) + [Queued(job, 0)]
      ensures accepted == old(accepted) + multiset{job} && oweOne == old(oweOne) + 1
    {
      hide Boxed, Filled, At, Ready;
      PushIsFair(jobs, job);
      assert Jobs(jobs + [Queued(job, 0)]) == Jobs(jobs) + [job];
      jobs := jobs + [Queued(job, 0)];
      accepted, oweOne := accepted + multiset{job}, oweOne + 1;
    }

    /** The index of the job the slot should run next; those it overtakes are
        skipped once more. */
    method Pick(slot: nat, affinity: Option<Affinity>) returns (i: nat)
      requires jobs != []
      modifies this`jobs
      ensures i == Picked(affinity, slot, old(jobs)) && |jobs| == |old(jobs)|
      ensures forall k | 0 <= k < i :: jobs[k] == old(jobs)[k].(skipped := old(jobs)[k].skipped + 1)
      ensures forall k | i <= k < |jobs| :: jobs[k] == old(jobs)[k]
    {
      if affinity.None? || |jobs| < 2 || jobs[0].skipped >= AFFINITY_MAX_SKIPS {
        return 0;
      }
      var window := Window(jobs);
      i := 0;
      var score := 0;
      for k := 0 to window
        invariant i < window && score == (if k == 0 then 0 else Score(affinity.value, slot, jobs, i))
        invariant i == if k == 0 then 0 else BestOf(affinity.value, slot, jobs, k)
      {
        var here := affinity.value(slot, jobs[k].job);
        if here > score {
          i, score := k, here;
        }
      }
      var was := jobs;
      for k := 0 to i
        invariant |jobs| == |was|
        invariant forall j | 0 <= j < k :: jobs[j] == was[j].(skipped := was[j].skipped + 1)
        invariant forall j | k <= j < |jobs| :: jobs[j] == was[j]
      {
        jobs := jobs[k := jobs[k].(skipped := jobs[k].skipped + 1)];
      }
    }

    method TakeNext(slot: nat, affinity: Option<Affinity>) returns (job: Job)
      requires jobs != []
      modifies this`jobs, this`delivered
      ensures jobs == Taking(old(jobs), Picked(affinity, slot, old(jobs))) && |jobs| == |old(jobs)| - 1
      ensures job == old(jobs)[Picked(affinity, slot, old(jobs))].job && delivered == old(delivered) + multiset{job}
    {
      hide Picked;
      var i := Pick(slot, affinity);
      job := jobs[i].job;
      delivered := delivered + multiset{job};
      jobs := jobs[..i] + jobs[i + 1..];
      assert jobs == Taking(old(jobs), i);
    }

    /** One turn of a worker that holds the lock: take a job, or block. */
    method Attempt(slot: nat, affinity: Option<Affinity>) returns (r: Popped)
      requires Valid() && slot < |pc| == |mailbox| == |idle| && pc[slot] in {Outside, Woken}
      modifies this
      ensures Valid() && |pc| == |old(pc)| && accepted == old(accepted) && finished == old(finished)
      ensures shutdown == old(shutdown) && oweOne == old(oweOne) && oweAll == old(oweAll)
      ensures r.Stop? <==> shutdown
      ensures r.Got? <==> !shutdown && (old(mailbox)[slot].Some? || old(jobs) != [])
      ensures r.Got? && old(mailbox)[slot].Some? ==> r.job == old(mailbox)[slot].value && jobs == old(jobs)
      ensures mailbox == if r.Got? then old(mailbox)[slot := None] else old(mailbox)
      ensures idle == if r.Stop? then old(idle) else old(idle)[slot := r.Blocked?]
      ensures busy == old(busy) + if r.Got? then 1 else 0
      ensures r.Got? && old(mailbox)[slot].None? ==> r.job == old(jobs)[Picked(affinity, slot, old(jobs))].job
      ensures r.Got? && old(mailbox)[slot].None? ==> jobs == Apply(old(jobs), Take(slot, affinity))
      ensures r.Got? ==> delivered == old(delivered) + multiset{r.job}
      ensures !r.Got? ==> delivered == old(delivered) && jobs == old(jobs)
      ensures pc == old(pc)[slot := if r.Stop? then Gone else if r.Got? then Working else Waiting]
    {
      hide Conserved, Awake, Fair, At, Ready, Filled, Boxed, Picked, Taking;
      if shutdown {
        r := Stop;
        Leave(slot);
      } else if mailbox[slot].Some? {
        r := Got(mailbox[slot].value);
        TakeBoxed(slot);
      } else if jobs != [] {
        r := Got(jobs[Picked(affinity, slot, jobs)].job);
        TakeQueued(slot, affinity);
      } else {
        r := Blocked;
        Block(slot);
      }
    }

    method Leave(slot: nat)
      requires Valid() && shutdown && slot < |pc| && pc[slot] in {Outside, Woken}
      modifies this`pc
      ensures Valid() && pc == old(pc)[slot := Gone]
    {
      hide Boxed, Filled, At, Ready;
      Moved(pc, slot, Gone);
      pc := pc[slot := Gone];
    }

    method TakeBoxed(slot: nat)
      requires Valid() && !shutdown && slot < |pc| == |mailbox| == |idle| && pc[slot] in {Outside, Woken}
      requires mailbox[slot].Some?
      modifies this`mailbox, this`idle, this`busy, this`pc, this`delivered
      ensures Valid() && pc == old(pc)[slot := Working] && mailbox == old(mailbox)[slot := None]
      ensures idle == old(idle)[slot := false] && busy == old(busy) + 1
      ensures delivered == old(delivered) + multiset{old(mailbox)[slot].value}
    {
      hide AwakeFor, Fair, SlotsFor, Counted;
      SlotsAfterTake(pc, mailbox, idle, oweAll, slot);
      CountedAfterBox(cap, jobs, mailbox, pc, busy, accepted, delivered, finished, slot);
      AwakeAfterBox(|jobs|, pc, mailbox, oweOne, oweAll, slot);
      delivered := delivered + multiset{mailbox[slot].value};
      mailbox, idle, busy := mailbox[slot := None], idle[slot := false], busy + 1;
      pc := pc[slot := Working];
    }

    method TakeQueued(slot: nat, affinity: Option<Affinity>)
      requires Valid() && !shutdown && slot < |pc| == |mailbox| == |idle| && pc[slot] in {Outside, Woken}
      requires mailbox[slot].None? && jobs != []
      modifies this`jobs, this`idle, this`busy, this`pc, this`delivered
      ensures Valid() && pc == old(pc)[slot := Working] && jobs == Taking(old(jobs), Picked(affinity, slot, old(jobs)))
      ensures idle == old(idle)[slot := false] && busy == old(busy) + 1
      ensures delivered == old(delivered) + multiset{old(jobs)[Picked(affinity, slot, old(jobs))].job}
    {
      hide AwakeFor, Fair, Picked, Taking, SlotsFor, Counted;
      TakeIsFair(affinity, slot, jobs);
      CountedAfterTake(cap, jobs, mailbox, pc, busy, accepted, delivered, finished, slot, Picked(affinity, slot, jobs));
      SlotsAfterTake(pc, mailbox, idle, oweAll, slot);
      AwakeAfterTake(|jobs|, pc, mailbox, oweOne, oweAll, slot);
      var job := TakeNext(slot, affinity);
      idle, busy := idle[slot := false], busy + 1;
      pc := pc[slot := Working];
    }

    method Block(slot: nat)
      requires Valid() && !shutdown && slot < |pc| == |mailbox| == |idle| && pc[slot] in {Outside, Woken}
      requires mailbox[slot].None? && jobs == []
      modifies this`idle, this`pc
      ensures Valid() && pc == old(pc)[slot := Waiting] && idle == old(idle)[slot := true]
    {
      hide Boxed, Filled, At, Ready;
      Moved(pc, slot, Waiting);
      idle := idle[slot := true];
      pc := pc[slot := Waiting];
    }

    /** The worker is done with its job. */
    method Finish(slot: nat)
      requires Valid() && slot < |pc| && pc[slot] == Working
      modifies this`busy, this`pc, this`finished
      ensures Valid() && pc == old(pc)[slot := Outside] && finished == old(finished) + 1 && busy + 1 == old(busy)
    {
      hide Boxed, Filled, At, Ready, AwakeFor, Fair, Jobs;
      Moved(pc, slot, Outside);
      if !shutdown {
        AwakeAfterFinish(|jobs|, pc, mailbox, oweOne, oweAll, slot);
      }
      busy := SaturatingSub(busy, 1);
      finished := finished + 1;
      pc := pc[slot := Outside];
    }

    method Shutdown()
      requires Valid()
      modifies this`shutdown, this`oweAll
      ensures Valid() && shutdown && oweAll == old(oweAll) + 1
    {
      shutdown := true;
      oweAll := oweAll + 1;
    }

    /** A waiting worker wakes without being notified. */
    method WakeSpuriously(s: nat)
      requires Valid() && s in At(pc, Waiting)
      modifies this`pc
      ensures Valid() && pc == old(pc)[s := Woken]
    {
      hide Boxed, Filled, Ready, Jobs, Fair, AwakeFor, SlotsFor;
      AfterWake(|jobs|, pc, mailbox, idle, oweOne, oweAll, shutdown, s);
      pc := pc[s := Woken];
    }

    /** `notify_one`: some waiting worker wakes, if there is one. */
    method NotifyOne() returns (ghost woken: Option<nat>)
      requires Valid() && oweOne > 0
      modifies this`oweOne, this`pc
      ensures Valid() && oweOne == old(oweOne) - 1 && (woken.None? <==> old(At(pc, Waiting)) == {})
      ensures if woken.None? then pc == old(pc)
        else woken.value in old(At(pc, Waiting)) && pc == old(pc)[woken.value := Woken]
    {
      hide Boxed, Filled, Ready, Jobs, Fair, SlotsFor;
      woken := None;
      if s: nat :| s in At(pc, Waiting) {
        woken := Some(s);
        AfterWake(|jobs|, pc, mailbox, idle, oweOne, oweAll, shutdown, s);
        pc := pc[s := Woken];
      }
      oweOne := oweOne - 1;
    }

    /** `notify_all`: every waiting worker wakes. */
    method NotifyAll()
      requires Valid() && oweAll > 0
      modifies this`oweAll, this`pc
      ensures Valid() && oweAll == old(oweAll) - 1 && pc == AllWoken(old(pc))
    {
      hide Boxed, Filled, Ready;
      NobodyWaits(pc);
      pc := AllWoken(pc);
      oweAll := oweAll - 1;
    }

    /** No job is forgotten: while one is queued or in a mailbox, some worker
        is awake or busy, or a notification is still owed. */
    lemma NoLostWakeup()
      requires Valid() && !shutdown && Pending() > 0
      ensures oweOne > 0 || oweAll > 0 || exists s :: 0 <= s < |pc| && pc[s] in {Outside, Woken, Working}
    {
      if jobs == [] {
        var s :| s in Filled(mailbox);
        assert pc[s] == Woken || oweAll > 0;
      } else if forall s | 0 <= s < |pc| :: pc[s] == Waiting {
        assert 0 in At(pc, Waiting);
        assert Ready(pc, mailbox) == {};
      } else {
        var s :| 0 <= s < |pc| && pc[s] != Waiting;
        assert pc[s] in {Outside, Woken, Working};
      }
    }

    lemma ValidIsSane()
      requires Valid()
      ensures Sane(cap, Now()) && |mailbox| == |idle| == |pc|
    {
    }

    /** Any interleaving: every action does what the source says, at every moment
        the invariant holds, and nothing else happens. */
    method Run(acts: seq<Act>) returns (ghost trace: seq<Moment>, ghost log: seq<Outcome>)
      requires Valid()
      modifies this
      ensures Valid() && IsRun(cap, acts, log, trace) && trace[0] == old(Now()) && trace[|acts|] == Now()
      ensures forall i | 0 <= i <= |acts| :: Sane(cap, trace[i])
    {
      hide Conserved, SlotsOk, Awake, Fair, StepOk, Sane;
      ValidIsSane();
      trace, log := [Now()], [];
      for i := 0 to |acts|
        invariant Valid() && |log| == i && |trace| == i + 1 && trace[0] == old(Now()) && trace[i] == Now()
        invariant forall k | 0 <= k < i :: StepOk(cap, trace[k], acts[k], log[k], trace[k + 1])
        invariant forall k | 0 <= k <= i :: Sane(cap, trace[k])
      {
        ghost var o := Perform(acts[i]);
        ValidIsSane();
        trace, log := trace + [Now()], log + [o];
      }
    }

    /** One action of some thread, if it is possible now. */
    method Perform(act: Act) returns (ghost o: Outcome)
      requires Valid()
      modifies this
      ensures Valid() && StepOk(cap, old(Now()), act, o, Now())
    {
      hide Conserved, SlotsOk, Awake, Fair, PushOk, TurnOk, SignalOk;
      match act {
        case Push(job, affinity) => o := PerformPush(job, affinity);
        case Turn(slot, affinity) => o := PerformTurn(slot, affinity);
        case Done(slot) =>
          o := NotNow;
          if slot < |pc| && pc[slot] == Working {
            o := Finished;
            Finish(slot);
          }
        case Close =>
          o := ShutDown;
          Shutdown();
        case Signal => o := PerformSignal();
        case Broadcast =>
          o := NotNow;
          if oweAll > 0 {
            o := RousedAll;
            NotifyAll();
          }
        case Spurious(slot) =>
          o := NotNow;
          if slot < |pc| && pc[slot] == Waiting {
            o := Roused(slot);
            WakeSpuriously(slot);
          }
      }
    }

    method PerformPush(job: Job, affinity: Option<Affinity>) returns (ghost o: Outcome)
      requires Valid()
      modifies this
      ensures Valid() && PushOk(cap, old(Now()), job, affinity, o, Now())
    {
      hide Conserved, Awake, Fair, Filled, IsBestSlot;
      ValidIsSane();
      var ok, slot := TryPush(job, affinity);
      o := if !ok then Refused else if slot.Some? then HandedTo(slot.value) else Entered;
    }

    method PerformTurn(slot: nat, affinity: Option<Affinity>) returns (ghost o: Outcome)
      requires Valid()
      modifies this
      ensures Valid() && TurnOk(old(Now()), slot, affinity, o, Now())
    {
      hide Conserved, SlotsOk, Awake, Fair, Picked, Taking, Sane;
      ValidIsSane();
      o := NotNow;
      if slot < |pc| && pc[slot] in {Outside, Woken} {
        ghost var boxed := mailbox[slot].Some?;
        var r := Attempt(slot, affinity);
        o := if r.Stop? then Stopped else if r.Blocked? then Slept
             else if boxed then TookBoxed(r.job) else TookQueued(r.job);
      }
    }

    method PerformSignal() returns (ghost o: Outcome)
      requires Valid()
      modifies this
      ensures Valid() && SignalOk(old(Now()), o, Now())
    {
      hide Conserved, SlotsOk, Awake, Fair;
      o := NotNow;
      if oweOne > 0 {
        var woken := NotifyOne();
        o := if woken.None? then RousedNobody else Roused(woken.value);
      }
    }
  }

  function AllWoken(pc: seq<Worker>): (r: seq<Worker>)
    ensures |r| == |pc| && forall s | 0 <= s < |pc| :: r[s] == if pc[s] == Waiting then Woken else pc[s]
  {
    seq(|pc|, s requires 0 <= s < |pc| => if pc[s] == Waiting then Woken else pc[s])
  }

  lemma NobodyWaits(pc: seq<Worker>)
    ensures At(AllWoken(pc), Waiting) == {} && At(AllWoken(pc), Working) == At(pc, Working)
  {
  }

  lemma ReadyMore(pc: seq<Worker>, mailbox: seq<Option<Job>>, s: nat)
    requires s < |pc| == |mailbox| && pc[s] == Waiting
    ensures Ready(pc[s := Woken], mailbox) == Ready(pc, mailbox) + if mailbox[s].None? then {s} else {}
    ensures |Ready(pc[s := Woken], mailbox)| == |Ready(pc, mailbox)| + if mailbox[s].None? then 1 else 0
  {
    assert s !in Ready(pc, mailbox);
    assert Ready(pc[s := Woken], mailbox) == Ready(pc, mailbox) + if mailbox[s].None? then {s} else {};
  }

  lemma {:induction false} BoxedTaken(mailbox: seq<Option<Job>>, s: nat)
    requires s < |mailbox| && mailbox[s].Some?
    ensures Boxed(mailbox) == Boxed(mailbox[s := None]) + multiset{mailbox[s].value}
    ensures Filled(mailbox[s := None]) == Filled(mailbox) - {s} && |Filled(mailbox[s := None])| + 1 == |Filled(mailbox)|
  {
    var none := mailbox[s := None];
    assert none[s := mailbox[s]] == mailbox;
    BoxedPut(none, s, mailbox[s].value);
  }

  lemma ReadyTaken(pc: seq<Worker>, mailbox: seq<Option<Job>>, s: nat)
    requires s < |pc| == |mailbox| && mailbox[s].Some?
    ensures Ready(pc[s := Working], mailbox[s := None]) == Ready(pc, mailbox)
  {
  }

  lemma ReadyLess(pc: seq<Worker>, mailbox: seq<Option<Job>>, s: nat)
    requires s < |pc| == |mailbox| && mailbox[s].None?
    ensures Ready(pc[s := Working], mailbox) == Ready(pc, mailbox) - {s}
    ensures |Ready(pc, mailbox)| <= |Ready(pc[s := Working], mailbox)| + 1
  {
    assert Ready(pc[s := Working], mailbox) == Ready(pc, mailbox) - {s};
  }

  lemma ReadyOutside(pc: seq<Worker>, mailbox: seq<Option<Job>>, s: nat)
    requires s < |pc| == |mailbox| && pc[s] == Working
    ensures Ready(pc[s := Outside], mailbox) == Ready(pc, mailbox)
  {
  }

  lemma {:induction false} BoxedNone(mailbox: seq<Option<Job>>)
    requires forall s | 0 <= s < |mailbox| :: mailbox[s].None?
    ensures Boxed(mailbox) == multiset{}
  {
    if mailbox != [] {
      BoxedNone(mailbox[1..]);
    }
  }

  method CountFilled(mailbox: seq<Option<Job>>) returns (n: nat)
    ensures n == |Filled(mailbox)|
  {
    n := 0;
    assert Filled(mailbox[..0]) == {};
    for i := 0 to |mailbox|
      invariant n == |Filled(mailbox[..i])|
    {
      assert Filled(mailbox[..i + 1]) == Filled(mailbox[..i]) + if mailbox[i].Some? then {i} else {};
      if mailbox[i].Some? {
        n := n + 1;
      }
    }
    assert mailbox[..|mailbox|] == mailbox;
  }
}
