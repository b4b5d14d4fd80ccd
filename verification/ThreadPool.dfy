/**
 The bounded thread pool as a step system: its worker threads, any number of threads that add work, the mutex and
 the two condition variables. A step is a stretch of code during which the mutex is held, or a notification, which
 the code sends after unlocking; sleeping threads may also wake up on their own.
 */
module ThreadPool {
  import opened Bytes

  type Tid = int
  type Job = int

  // Workers. A worker that took a job carries the job's number, in the order of the pushes.
  datatype Consumer =
    | Ready               // about to lock, for the first time in this round
    | Asleep
    | Awake               // woken, about to lock again
    | Notify(job: nat)    // has unlocked with a job in hand, about to notify a producer
    | Run(job: nat)

  datatype Producer =
    | PReady(work: Job)
    | PAsleep(work: Job)
    | PAwake(work: Job)
    | PNotify             // has pushed and unlocked, about to notify a worker
    | PDone

  datatype State = State(
    size: nat,
    queue: seq<Job>,
    consumers: map<Tid, Consumer>,
    producers: map<Tid, Producer>,
    pushed: seq<Job>,       // every job ever pushed
    popped: nat,            // how many of them were popped
    finished: set<nat>)     // the numbers of those that ran to the end

  datatype Label =
    | Enter(p: Tid, work: Job)    // a thread calls add_work
    | Push(p: Tid)
    | WaitP(p: Tid)
    | NotifyC(p: Tid, c: Tid)     // notify_one wakes c, if any worker sleeps
    | Take(c: Tid)
    | WaitC(c: Tid)
    | NotifyP(c: Tid, p: Tid)     // notify_one wakes p, if any producer sleeps
    | Finish(c: Tid)
    | WakeC(c: Tid)               // spurious
    | WakeP(p: Tid)               // spurious
  {
    predicate Spurious() { WakeC? || WakeP? }
  }

  predicate Rested(c: Consumer) { c.Ready? || c.Awake? }
  predicate PEager(p: Producer) { p.PReady? || p.PAwake? }

  predicate CReady(c: Consumer) { c.Ready? }
  predicate CAsleep(c: Consumer) { c.Asleep? }
  predicate CAwake(c: Consumer) { c.Awake? }
  predicate CNotify(c: Consumer) { c.Notify? }
  predicate CRun(c: Consumer) { c.Run? }

  predicate IsPReady(p: Producer) { p.PReady? }
  predicate IsPAsleep(p: Producer) { p.PAsleep? }
  predicate IsPAwake(p: Producer) { p.PAwake? }
  predicate IsPNotify(p: Producer) { p.PNotify? }

  function Where<T>(m: map<Tid, T>, f: T -> bool): (r: set<Tid>)
    ensures forall t :: t in r <==> t in m && f(m[t])
  {
    set t | t in m && f(m[t])
  }

  function Count<T>(m: map<Tid, T>, f: T -> bool): nat {
    |Where(m, f)|
  }

  lemma CardUpdate(before: set<Tid>, after: set<Tid>, t: Tid)
    requires after - {t} == before - {t}
    ensures |after| == |before| - (if t in before then 1 else 0) + (if t in after then 1 else 0)
  {
    assert t in before ==> before == (before - {t}) + {t};
    assert t in after ==> after == (after - {t}) + {t};
    assert t !in before ==> before == before - {t};
    assert t !in after ==> after == after - {t};
  }

  lemma CountUpdate<T>(m: map<Tid, T>, t: Tid, v: T, f: T -> bool)
    ensures Count(m[t := v], f) == Count(m, f) - (if t in m && f(m[t]) then 1 else 0) + (if f(v) then 1 else 0)
  {
    var m' := m[t := v];
    var before, after := Where(m, f), Where(m', f);
    assert forall u :: u != t ==> (u in m' <==> u in m) && (u in m ==> m'[u] == m[u]);
    assert after - {t} == before - {t};
    CardUpdate(before, after, t);
  }

  lemma NoneCounted<T>(m: map<Tid, T>, f: T -> bool)
    requires forall t :: t in m ==> !f(m[t])
    ensures Count(m, f) == 0
  {
    var none := Where(m, f);
    assert forall t :: t !in none;
    assert none == {};
  }

  lemma CountSome<T>(m: map<Tid, T>, f: T -> bool)
    ensures Count(m, f) > 0 ==> exists t :: t in m && f(m[t])
  {
    if forall t :: t in m ==> !f(m[t]) {
      NoneCounted(m, f);
    }
  }

  /** How many workers are at each place. */
  datatype CNum = CNum(ready: int, asleep: int, awake: int, notify: int, run: int)

  /** How many producers are at each place, those that are done left out. */
  datatype PNum = PNum(ready: int, asleep: int, awake: int, notify: int)

  function AddC(n: CNum, c: Consumer, d: int): CNum {
    match c
    case Ready => n.(ready := n.ready + d)
    case Asleep => n.(asleep := n.asleep + d)
    case Awake => n.(awake := n.awake + d)
    case Notify(_) => n.(notify := n.notify + d)
    case Run(_) => n.(run := n.run + d)
  }

  function AddP(n: PNum, p: Producer, d: int): PNum {
    match p
    case PReady(_) => n.(ready := n.ready + d)
    case PAsleep(_) => n.(asleep := n.asleep + d)
    case PAwake(_) => n.(awake := n.awake + d)
    case PNotify => n.(notify := n.notify + d)
    case PDone => n
  }

  ghost function TallyC(m: map<Tid, Consumer>): CNum {
    CNum(Count(m, CReady), Count(m, CAsleep), Count(m, CAwake),
         Count(m, CNotify), Count(m, CRun))
  }

  ghost function TallyP(m: map<Tid, Producer>): PNum {
    PNum(Count(m, IsPReady), Count(m, IsPAsleep),
         Count(m, IsPAwake), Count(m, IsPNotify))
  }

  lemma MoveC(m: map<Tid, Consumer>, t: Tid, v: Consumer)
    ensures TallyC(m[t := v]) == AddC(if t in m then AddC(TallyC(m), m[t], -1) else TallyC(m), v, 1)
  {
    CountUpdate(m, t, v, CReady);
    CountUpdate(m, t, v, CAsleep);
    CountUpdate(m, t, v, CAwake);
    CountUpdate(m, t, v, CNotify);
    CountUpdate(m, t, v, CRun);
  }

  lemma MoveP(m: map<Tid, Producer>, t: Tid, v: Producer)
    ensures TallyP(m[t := v]) == AddP(if t in m then AddP(TallyP(m), m[t], -1) else TallyP(m), v, 1)
  {
    CountUpdate(m, t, v, IsPReady);
    CountUpdate(m, t, v, IsPAsleep);
    CountUpdate(m, t, v, IsPAwake);
    CountUpdate(m, t, v, IsPNotify);
  }

  ghost predicate SomeWorkerSleeps(s: State) {
    TallyC(s.consumers).asleep > 0
  }

  ghost predicate SomeProducerSleeps(s: State) {
    TallyP(s.producers).asleep > 0
  }

  ghost predicate Enabled(s: State, l: Label) {
    match l
    case Enter(p, work) => p !in s.producers
    case Push(p) => p in s.producers && PEager(s.producers[p]) && |s.queue| != s.size
    case WaitP(p) => p in s.producers && PEager(s.producers[p]) && |s.queue| == s.size
    case NotifyC(p, c) =>
      && p in s.producers && s.producers[p].PNotify?
      && (SomeWorkerSleeps(s) ==> c in s.consumers && s.consumers[c].Asleep?)
    case Take(c) => c in s.consumers && Rested(s.consumers[c]) && s.queue != []
    case WaitC(c) => c in s.consumers && Rested(s.consumers[c]) && s.queue == []
    case NotifyP(c, p) =>
      && c in s.consumers && s.consumers[c].Notify?
      && (SomeProducerSleeps(s) ==> p in s.producers && s.producers[p].PAsleep?)
    case Finish(c) => c in s.consumers && s.consumers[c].Run?
    case WakeC(c) => c in s.consumers && s.consumers[c].Asleep?
    case WakeP(p) => p in s.producers && s.producers[p].PAsleep?
  }

  function WokenC(s: State, c: Tid): State {
    if c in s.consumers && s.consumers[c].Asleep? then s.(consumers := s.consumers[c := Awake]) else s
  }

  function WokenP(s: State, p: Tid): State {
    if p in s.producers && s.producers[p].PAsleep?
    then s.(producers := s.producers[p := PAwake(s.producers[p].work)]) else s
  }

  ghost function Apply(s: State, l: Label): State
    requires Enabled(s, l)
  {
    match l
    case Enter(p, work) => s.(producers := s.producers[p := PReady(work)])
    case Push(p) =>
      var work := s.producers[p].work;
      s.(queue := s.queue + [work], pushed := s.pushed + [work], producers := s.producers[p := PNotify])
    case WaitP(p) => s.(producers := s.producers[p := PAsleep(s.producers[p].work)])
    case NotifyC(p, c) => WokenC(s.(producers := s.producers[p := PDone]), c)
    case Take(c) => s.(queue := s.queue[1..], popped := s.popped + 1, consumers := s.consumers[c := Notify(s.popped)])
    case WaitC(c) => s.(consumers := s.consumers[c := Asleep])
    case NotifyP(c, p) => WokenP(s.(consumers := s.consumers[c := Run(s.consumers[c].job)]), p)
    case Finish(c) =>
      s.(finished := s.finished + {s.consumers[c].job}, consumers := s.consumers[c := Ready])
    case WakeC(c) => WokenC(s, c)
    case WakeP(p) => WokenP(s, p)
  }

  ghost predicate Init(s: State) {
    && |s.consumers| == s.size
    && (forall c :: c in s.consumers ==> s.consumers[c] == Ready)
    && s.queue == [] && s.producers == map[] && s.pushed == [] && s.popped == 0 && s.finished == {}
  }

  // ---------- Order and conservation ----------

  ghost predicate CarriesJob(s: State, c: Tid, j: nat) {
    c in s.consumers && (s.consumers[c].Notify? || s.consumers[c].Run?) && s.consumers[c].job == j
  }

  /**
   Pushed jobs are the popped ones followed by the queue; the queue is bounded; each popped job is with one worker or
   finished.
   */
  ghost predicate Jobs(s: State) {
    && |s.queue| <= s.size
    && s.popped <= |s.pushed| && s.queue == s.pushed[s.popped..]
    && (forall c, j: nat :: CarriesJob(s, c, j) ==> j < s.popped && j !in s.finished)
    && (forall c, d, j: nat :: CarriesJob(s, c, j) && CarriesJob(s, d, j) ==> c == d)
    && (forall j :: j in s.finished ==> j < s.popped)
    && (forall j: nat :: j < s.popped && j !in s.finished ==> exists c :: CarriesJob(s, c, j))
  }

  lemma KeepsJobs(s: State, l: Label)
    requires Jobs(s) && Enabled(s, l)
    ensures Jobs(Apply(s, l))
  {
    var s' := Apply(s, l);
    match l
    case Take(c) =>
      assert forall d, j: nat :: CarriesJob(s', d, j) <==> if d == c then j == s.popped else CarriesJob(s, d, j);
      assert forall d, j: nat :: CarriesJob(s, d, j) ==> CarriesJob(s', d, j);
      assert CarriesJob(s', c, s.popped);
    case Finish(c) =>
      var done := s.consumers[c].job;
      assert CarriesJob(s, c, done);
      assert forall d, j: nat :: CarriesJob(s', d, j) <==> d != c && CarriesJob(s, d, j);
    case _ =>
      assert forall d, j: nat :: CarriesJob(s', d, j) <==> CarriesJob(s, d, j);
  }

  // ---------- No lost wakeup ----------

  /** While a worker sleeps, each queued job has a notification pending or a woken worker; likewise for free places. */
  ghost predicate Wakeups(s: State) {
    Covered(s.size, |s.queue|, TallyC(s.consumers), TallyP(s.producers))
  }

  predicate Covered(size: nat, queue: nat, c: CNum, p: PNum) {
    && (c.asleep == 0 || queue <= p.notify + c.awake)
    && (p.asleep == 0 || size - queue <= c.notify + p.awake)
  }

  /**
   The work still to be done: an upper bound on the number of further steps, if no thread calls `add_work` any more
   and none wakes up on its own.
   */
  ghost function Weight(s: State): int {
    Load(|s.queue|, TallyC(s.consumers), TallyP(s.producers))
  }

  function Load(queue: nat, c: CNum, p: PNum): int {
    4 * queue + 7 * (p.ready + p.awake) + 6 * p.asleep + 2 * p.notify + c.ready + c.awake + 4 * c.notify + 2 * c.run
  }

  /** How one step moves threads between places. */
  lemma Moves(s: State, l: Label)
    requires Enabled(s, l)
    ensures TallyC(Apply(s, l).consumers) == AfterC(s, TallyC(s.consumers), l)
    ensures TallyP(Apply(s, l).producers) == AfterP(s, TallyP(s.producers), l)
  {
    ConsumersMove(s, l);
    ProducersMove(s, l);
  }

  lemma ConsumersMove(s: State, l: Label)
    requires Enabled(s, l)
    ensures TallyC(Apply(s, l).consumers) == AfterC(s, TallyC(s.consumers), l)
  {
    match l
    case Take(c) => MoveC(s.consumers, c, Notify(s.popped));
    case WaitC(c) => MoveC(s.consumers, c, Asleep);
    case NotifyP(c, p) => MoveC(s.consumers, c, Run(s.consumers[c].job));
    case Finish(c) => MoveC(s.consumers, c, Ready);
    case NotifyC(p, c) => WakeMovesC(s.consumers, c);
    case WakeC(c) => WakeMovesC(s.consumers, c);
    case _ =>
  }

  lemma ProducersMove(s: State, l: Label)
    requires Enabled(s, l)
    ensures TallyP(Apply(s, l).producers) == AfterP(s, TallyP(s.producers), l)
  {
    match l
    case Enter(p, work) => MoveP(s.producers, p, PReady(work));
    case Push(p) => MoveP(s.producers, p, PNotify);
    case WaitP(p) => MoveP(s.producers, p, PAsleep(s.producers[p].work));
    case NotifyC(p, c) => MoveP(s.producers, p, PDone);
    case NotifyP(c, p) => WakeMovesP(s.producers, p);
    case WakeP(p) => WakeMovesP(s.producers, p);
    case _ =>
  }

  lemma WakeMovesC(m: map<Tid, Consumer>, c: Tid)
    requires TallyC(m).asleep > 0 || (c in m && m[c].Asleep?) ==> c in m && m[c].Asleep?
    ensures c in m && m[c].Asleep? ==> TallyC(m[c := Awake]) == WakeOneC(TallyC(m))
    ensures !(c in m && m[c].Asleep?) ==> TallyC(m) == WakeOneC(TallyC(m))
  {
    MoveC(m, c, Awake);
  }

  lemma WakeMovesP(m: map<Tid, Producer>, p: Tid)
    requires TallyP(m).asleep > 0 || (p in m && m[p].PAsleep?) ==> p in m && m[p].PAsleep?
    ensures p in m && m[p].PAsleep? ==> TallyP(m[p := PAwake(m[p].work)]) == WakeOneP(TallyP(m))
    ensures !(p in m && m[p].PAsleep?) ==> TallyP(m) == WakeOneP(TallyP(m))
  {
    if p in m && m[p].PAsleep? {
      MoveP(m, p, PAwake(m[p].work));
    }
  }

  function WakeOneC(n: CNum): CNum {
    if n.asleep > 0 then AddC(AddC(n, Asleep, -1), Awake, 1) else n
  }

  function WakeOneP(n: PNum): PNum {
    if n.asleep > 0 then AddP(AddP(n, PAsleep(0), -1), PAwake(0), 1) else n
  }

  ghost function AfterC(s: State, n: CNum, l: Label): CNum
    requires Enabled(s, l)
  {
    match l
    case NotifyC(p, c) => WakeOneC(n)
    case Take(c) => AddC(AddC(n, s.consumers[c], -1), Notify(0), 1)
    case WaitC(c) => AddC(AddC(n, s.consumers[c], -1), Asleep, 1)
    case NotifyP(c, p) => AddC(AddC(n, Notify(0), -1), Run(0), 1)
    case Finish(c) => AddC(AddC(n, Run(0), -1), Ready, 1)
    case WakeC(c) => WakeOneC(n)
    case _ => n
  }

  ghost function AfterP(s: State, n: PNum, l: Label): PNum
    requires Enabled(s, l)
  {
    match l
    case Enter(p, work) => AddP(n, PReady(0), 1)
    case Push(p) => AddP(AddP(n, s.producers[p], -1), PNotify, 1)
    case WaitP(p) => AddP(AddP(n, s.producers[p], -1), PAsleep(0), 1)
    case NotifyC(p, c) => AddP(n, PNotify, -1)
    case NotifyP(c, p) => WakeOneP(n)
    case WakeP(p) => WakeOneP(n)
    case _ => n
  }

  function Cost(l: Label): int {
    if l.Enter? then 7 else if l.Spurious() then 1 else -1
  }

  lemma KeepsWakeups(s: State, l: Label)
    requires Jobs(s) && Wakeups(s) && Enabled(s, l)
    ensures Wakeups(Apply(s, l))
  {
    Moves(s, l);
    WakeupsInNumbers(s, l, TallyC(s.consumers), TallyP(s.producers));
  }

  lemma WakeupsInNumbers(s: State, l: Label, c: CNum, p: PNum)
    requires Enabled(s, l) && |s.queue| <= s.size
    requires Counts(c, p) && Counts(AfterC(s, c, l), AfterP(s, p, l)) && Covered(s.size, |s.queue|, c, p)
    ensures Covered(s.size, |Apply(s, l).queue|, AfterC(s, c, l), AfterP(s, p, l))
  {
  }

  predicate Counts(c: CNum, p: PNum) {
    && c.ready >= 0 && c.asleep >= 0 && c.awake >= 0 && c.notify >= 0 && c.run >= 0
    && p.ready >= 0 && p.asleep >= 0 && p.awake >= 0 && p.notify >= 0
  }

  /** The weight drops at every step, except when a call comes in or a thread wakes up on its own. */
  lemma WeightStep(s: State, l: Label)
    requires Enabled(s, l)
    ensures Weight(Apply(s, l)) <= Weight(s) + Cost(l)
  {
    Moves(s, l);
    WeightInNumbers(s, l, TallyC(s.consumers), TallyP(s.producers));
  }

  lemma WeightInNumbers(s: State, l: Label, c: CNum, p: PNum)
    requires Enabled(s, l)
    ensures Load(|Apply(s, l).queue|, AfterC(s, c, l), AfterP(s, p, l)) <= Load(|s.queue|, c, p) + Cost(l)
  {
  }

  // ---------- Whole runs ----------

  ghost predicate IsRun(ss: seq<State>, ls: seq<Label>) {
    && |ss| == |ls| + 1 && Init(ss[0])
    && forall i :: 0 <= i < |ls| ==> Enabled(ss[i], ls[i]) && ss[i + 1] == Apply(ss[i], ls[i])
  }

  function Calls(ls: seq<Label>): nat {
    if ls == [] then 0 else Calls(ls[..|ls| - 1]) + if ls[|ls| - 1].Enter? then 1 else 0
  }

  function SpuriousWakeups(ls: seq<Label>): nat {
    if ls == [] then 0 else SpuriousWakeups(ls[..|ls| - 1]) + if ls[|ls| - 1].Spurious() then 1 else 0
  }

  lemma InitWeight(m: map<Tid, Consumer>)
    requires forall c :: c in m ==> m[c] == Ready
    ensures TallyC(m) == CNum(|m|, 0, 0, 0, 0)
  {
    var ready := Where(m, CReady);
    assert forall c :: c in ready <==> c in m.Keys;
    assert ready == m.Keys;
    NoneCounted(m, CAsleep);
    NoneCounted(m, CAwake);
    NoneCounted(m, CNotify);
    NoneCounted(m, CRun);
  }

  lemma InitOk(s: State)
    requires Init(s)
    ensures Jobs(s) && Wakeups(s) && Weight(s) == s.size
  {
    InitWeight(s.consumers);
    NoneCounted(s.producers, IsPReady);
    NoneCounted(s.producers, IsPAsleep);
    NoneCounted(s.producers, IsPAwake);
    NoneCounted(s.producers, IsPNotify);
  }

  /**
   Every state of every run: jobs are popped in the order of the pushes, none is lost, duplicated or run twice, the
   queue never exceeds the pool size, and no wakeup is lost.
   */
  lemma {:induction false} RunKeeps(ss: seq<State>, ls: seq<Label>, i: nat)
    requires IsRun(ss, ls) && i <= |ls|
    ensures ss[i].size == ss[0].size && ss[i].consumers.Keys == ss[0].consumers.Keys
    ensures Jobs(ss[i]) && Wakeups(ss[i])
  {
    if i == 0 {
      InitOk(ss[0]);
    } else {
      RunKeeps(ss, ls, i - 1);
      KeepsJobs(ss[i - 1], ls[i - 1]);
      KeepsWakeups(ss[i - 1], ls[i - 1]);
      KeepsWorkers(ss[i - 1], ls[i - 1]);
    }
  }

  /** The number of steps taken is bounded by the number of calls and of spurious wakeups. */
  lemma {:induction false} StepsBounded(ss: seq<State>, ls: seq<Label>, i: nat)
    requires IsRun(ss, ls) && i <= |ls|
    ensures i + Weight(ss[i]) <= ss[0].size + 8 * Calls(ls[..i]) + 2 * SpuriousWakeups(ls[..i])
  {
    if i == 0 {
      InitOk(ss[0]);
    } else {
      StepsBounded(ss, ls, i - 1);
      WeightStep(ss[i - 1], ls[i - 1]);
      assert ls[..i][..i - 1] == ls[..i - 1];
    }
  }

  lemma KeepsWorkers(s: State, l: Label)
    requires Enabled(s, l)
    ensures Apply(s, l).size == s.size && Apply(s, l).consumers.Keys == s.consumers.Keys
  {
  }

  /** Jobs leave the queue in the order of the pushes: the worker gets the oldest one, the next in that order. */
  lemma TakenInPushOrder(ss: seq<State>, ls: seq<Label>, i: nat)
    requires IsRun(ss, ls) && i < |ls| && ls[i].Take?
    ensures var n := ss[i].popped;
            && n < |ss[i].pushed| && ss[i].queue[0] == ss[i].pushed[n]
            && ss[i + 1].consumers[ls[i].c] == Notify(n) && ss[i + 1].popped == n + 1
            && IsPrefix(ss[i].pushed, ss[|ls|].pushed)
  {
    RunKeeps(ss, ls, i);
    PushedGrows(ss, ls, i, |ls|);
  }

  lemma {:induction false} PushedGrows(ss: seq<State>, ls: seq<Label>, i: nat, j: nat)
    requires IsRun(ss, ls) && i <= j <= |ls|
    ensures IsPrefix(ss[i].pushed, ss[j].pushed) && ss[i].finished <= ss[j].finished
    decreases j
  {
    if i < j {
      PushedGrows(ss, ls, i, j - 1);
    }
  }

  ghost predicate Finishes(s: State, l: Label, job: nat) {
    l.Finish? && CarriesJob(s, l.c, job)
  }

  /** No job runs twice. */
  lemma FinishedOnce(ss: seq<State>, ls: seq<Label>, i: nat, j: nat, job: nat)
    requires IsRun(ss, ls) && i <= j < |ls| && Finishes(ss[i], ls[i], job) && Finishes(ss[j], ls[j], job)
    ensures i == j
  {
    if i < j {
      assert job in ss[i + 1].finished by {
        FinishRecords(ss[i], ls[i], job);
      }
      PushedGrows(ss, ls, i + 1, j);
      assert job !in ss[j].finished by {
        RunKeeps(ss, ls, j);
      }
      assert false;
    }
  }

  lemma FinishRecords(s: State, l: Label, job: nat)
    requires Enabled(s, l) && Finishes(s, l, job)
    ensures job in Apply(s, l).finished
  {
  }

  /** However the threads are scheduled, a run makes at most this many steps. */
  lemma RunsAreBounded(ss: seq<State>, ls: seq<Label>)
    requires IsRun(ss, ls)
    ensures |ls| <= ss[0].size + 8 * Calls(ls) + 2 * SpuriousWakeups(ls)
  {
    StepsBounded(ss, ls, |ls|);
    assert ls[..|ls|] == ls;
  }

  /**
   No wakeup is lost: a sleeping worker with a job in the queue implies a notification on its way or a worker already
   woken; a sleeping producer with a free place in the queue implies the same for producers.
   */
  lemma NoLostWakeup(ss: seq<State>, ls: seq<Label>, i: nat)
    requires IsRun(ss, ls) && i <= |ls|
    ensures var s := ss[i];
            && (s.queue != [] && (exists c :: c in s.consumers && s.consumers[c].Asleep?) ==>
                  || (exists p :: p in s.producers && s.producers[p].PNotify?)
                  || (exists c :: c in s.consumers && s.consumers[c].Awake?))
            && (|s.queue| < s.size && (exists p :: p in s.producers && s.producers[p].PAsleep?) ==>
                  || (exists c :: c in s.consumers && s.consumers[c].Notify?)
                  || (exists p :: p in s.producers && s.producers[p].PAwake?))
  {
    RunKeeps(ss, ls, i);
    var s := ss[i];
    CountSome(s.producers, IsPNotify);
    CountSome(s.consumers, CAwake);
    CountSome(s.consumers, CNotify);
    CountSome(s.producers, IsPAwake);
  }

  /** Nothing can happen but that a thread calls `add_work`, or wakes up on its own. */
  ghost predicate Stuck(s: State) {
    forall l :: Enabled(s, l) ==> l.Enter? || l.Spurious()
  }

  /** Every job pushed has run to the end, every call has returned, and the workers sleep. */
  ghost predicate AllDone(s: State) {
    && s.queue == [] && (forall j: nat :: j < |s.pushed| ==> j in s.finished)
    && (forall p :: p in s.producers ==> s.producers[p] == PDone)
    && (forall c :: c in s.consumers ==> s.consumers[c] == Asleep)
  }

  lemma StuckThreads(s: State)
    requires Stuck(s)
    ensures forall c :: c in s.consumers ==> s.consumers[c] == Asleep
    ensures forall p :: p in s.producers ==> s.producers[p].PAsleep? || s.producers[p].PDone?
  {
    forall c | c in s.consumers
      ensures s.consumers[c] == Asleep
    {
      CountSome(s.producers, IsPAsleep);
      var p: Tid := if SomeProducerSleeps(s) then (var p :| p in s.producers && s.producers[p].PAsleep?; p) else 0;
      assert !Enabled(s, Take(c)) && !Enabled(s, WaitC(c)) && !Enabled(s, NotifyP(c, p)) && !Enabled(s, Finish(c));
    }
    forall p | p in s.producers
      ensures s.producers[p].PAsleep? || s.producers[p].PDone?
    {
      CountSome(s.consumers, CAsleep);
      var c: Tid := if SomeWorkerSleeps(s) then (var c :| c in s.consumers && s.consumers[c].Asleep?; c) else 0;
      assert !Enabled(s, Push(p)) && !Enabled(s, WaitP(p)) && !Enabled(s, NotifyC(p, c));
    }
  }

  // ---------- What was asked for is what is pushed ----------

  /** The works with which threads have called `add_work`, in the order of the calls. */
  function Works(ls: seq<Label>): seq<Job> {
    if ls == [] then []
    else
      var l := ls[|ls| - 1];
      Works(ls[..|ls| - 1]) + if l.Enter? then [l.work] else []
  }

  predicate Waits(p: Producer, w: Job) {
    (p.PReady? || p.PAsleep? || p.PAwake?) && p.work == w
  }

  function WaitsWith(w: Job): Producer -> bool {
    p => Waits(p, w)
  }

  lemma WorkStep(s: State, l: Label, s': State, p: Tid)
    requires Enabled(s, l) && s' == Apply(s, l) && p in s'.producers
    ensures var q := s'.producers[p];
            q.PReady? || q.PAsleep? || q.PAwake? ==>
              (p in s.producers && Waits(s.producers[p], q.work)) || l == Enter(p, q.work)
  {
  }

  /** Whatever a producer still has to push is the work it was called with. */
  lemma {:induction false} WorkWasEntered(ss: seq<State>, ls: seq<Label>, i: nat, p: Tid, w: Job) returns (j: nat)
    requires IsRun(ss, ls) && i <= |ls| && p in ss[i].producers && Waits(ss[i].producers[p], w)
    ensures j < i && ls[j] == Enter(p, w)
  {
    WorkStep(ss[i - 1], ls[i - 1], ss[i], p);
    if ls[i - 1] == Enter(p, w) {
      j := i - 1;
    } else {
      j := WorkWasEntered(ss, ls, i - 1, p, w);
    }
  }

  /** A thread pushes the work that it was called with, and nothing else is ever pushed. */
  lemma PushesWhatWasEntered(ss: seq<State>, ls: seq<Label>, k: nat) returns (j: nat)
    requires IsRun(ss, ls) && k < |ls|
    ensures ls[k].Push? ==> j < k && ls[j].Enter? && ls[j].p == ls[k].p
    ensures ls[k].Push? ==> ss[k + 1].pushed == ss[k].pushed + [ls[j].work]
    ensures !ls[k].Push? ==> ss[k + 1].pushed == ss[k].pushed
  {
    if ls[k].Push? {
      j := WorkWasEntered(ss, ls, k, ls[k].p, ss[k].producers[ls[k].p].work);
    } else {
      j := 0;
    }
  }

  /** How many calls with this work have been made, by how often it was pushed and how many threads still hold it. */
  ghost predicate Balanced(s: State, ls: seq<Label>, w: Job) {
    multiset(Works(ls))[w] == multiset(s.pushed)[w] + Count(s.producers, WaitsWith(w))
  }

  lemma BalanceStep(s: State, l: Label, s': State, w: Job)
    requires Enabled(s, l) && s' == Apply(s, l)
    ensures multiset(s'.pushed)[w] + Count(s'.producers, WaitsWith(w))
            == multiset(s.pushed)[w] + Count(s.producers, WaitsWith(w)) + (if l.Enter? && l.work == w then 1 else 0)
  {
    var f := WaitsWith(w);
    match l
    case Enter(p, work) => CountUpdate(s.producers, p, PReady(work), f);
    case Push(p) => CountUpdate(s.producers, p, PNotify, f);
    case WaitP(p) => CountUpdate(s.producers, p, PAsleep(s.producers[p].work), f);
    case NotifyC(p, c) => CountUpdate(s.producers, p, PDone, f);
    case NotifyP(c, p) =>
      if p in s.producers && s.producers[p].PAsleep? {
        CountUpdate(s.producers, p, PAwake(s.producers[p].work), f);
      }
    case WakeP(p) => CountUpdate(s.producers, p, PAwake(s.producers[p].work), f);
    case _ =>
  }

  lemma {:induction false} RunBalances(ss: seq<State>, ls: seq<Label>, i: nat, w: Job)
    requires IsRun(ss, ls) && i <= |ls|
    ensures Balanced(ss[i], ls[..i], w)
  {
    if i == 0 {
      NoneCounted(ss[0].producers, WaitsWith(w));
    } else {
      RunBalances(ss, ls, i - 1, w);
      BalanceStep(ss[i - 1], ls[i - 1], ss[i], w);
      assert ls[..i][..i - 1] == ls[..i - 1];
    }
  }

  /** All is done, and what was pushed are the works that threads have called with, each as often as they have. */
  ghost predicate AllServed(s: State, ls: seq<Label>) {
    AllDone(s) && multiset(s.pushed) == multiset(Works(ls))
  }

  ghost predicate Live(size: nat) {
    forall ss: seq<State>, ls: seq<Label> ::
      IsRun(ss, ls) && ss[0].size == size && Stuck(ss[|ls|]) ==> AllServed(ss[|ls|], ls)
  }

  lemma StuckIsEmpty(s: State, c: Tid)
    requires Stuck(s) && Wakeups(s) && s.size > 0 && c in s.consumers
    ensures s.queue == [] && forall p :: p in s.producers ==> s.producers[p] == PDone
  {
    StuckThreads(s);
    NoneCounted(s.producers, IsPNotify);
    NoneCounted(s.producers, IsPAwake);
    NoneCounted(s.consumers, CAwake);
    NoneCounted(s.consumers, CNotify);
    assert s.queue == [];
    forall p | p in s.producers
      ensures s.producers[p] == PDone
    {
    }
  }

  /** A pool with at least one worker never stops before all the work it was called with is done. */
  lemma StuckIsDone(ss: seq<State>, ls: seq<Label>)
    requires IsRun(ss, ls) && ss[0].size > 0 && Stuck(ss[|ls|])
    ensures AllServed(ss[|ls|], ls)
  {
    var s := ss[|ls|];
    RunKeeps(ss, ls, |ls|);
    StuckThreads(s);
    var c := SomeWorker(ss[0]);
    StuckIsEmpty(s, c);
    forall j: nat | j < |s.pushed|
      ensures j in s.finished
    {
      assert forall d :: !CarriesJob(s, d, j);
    }
    forall w
      ensures multiset(s.pushed)[w] == multiset(Works(ls))[w]
    {
      RunBalances(ss, ls, |ls|, w);
      assert ls[..|ls|] == ls;
      NoneCounted(s.producers, WaitsWith(w));
    }
  }

  lemma SomeWorker(s: State) returns (c: Tid)
    requires Init(s) && s.size > 0
    ensures c in s.consumers
  {
    InitWeight(s.consumers);
    CountSome(s.consumers, CReady);
    c :| c in s.consumers && CReady(s.consumers[c]);
  }

  /** Exactly which pool sizes work: all but 0, the size that `hardware_concurrency` may report. */
  lemma LiveUnlessEmpty(size: nat)
    ensures Live(size) <==> size > 0
  {
    if size > 0 {
      forall ss: seq<State>, ls: seq<Label> | IsRun(ss, ls) && ss[0].size == size && Stuck(ss[|ls|])
        ensures AllServed(ss[|ls|], ls)
      {
        StuckIsDone(ss, ls);
      }
    } else {
      var s0 := State(0, [], map[], map[], [], 0, {});
      var s1 := Apply(s0, Enter(1, 0));
      var s2 := Apply(s1, WaitP(1));
      var ss, ls := [s0, s1, s2], [Enter(1, 0), WaitP(1)];
      assert IsRun(ss, ls) && ss[0].size == size;
      assert s2.producers == map[1 := PAsleep(0)];
      assert Stuck(ss[|ls|]) && !AllServed(ss[|ls|], ls);
    }
  }

  // ---------- The pool object ----------

  datatype Taken = Nothing | Work(work: Job)

  /** The pool's own fields. Its methods are the critical sections of the mutex; each is a step of the model. */
  class Pool {
    const pSize: nat
    var wQueue: seq<Job>

    constructor (pSize: nat, ghost workers: set<Tid>)
      requires |workers| == pSize
      ensures this.pSize == pSize && wQueue == []
      ensures var s := State(pSize, wQueue, map c | c in workers :: Ready, map[], [], 0, {}); Init(s) && Shows(s)
    {
      this.pSize := pSize;
      wQueue := [];
      assert (map c | c in workers :: Ready).Keys == workers;
    }

    ghost predicate Shows(s: State)
      reads this
    {
      s.size == pSize && s.queue == wQueue
    }

    /** One turn of the loop of `add_work`: the work is pushed, or the queue is full and the thread goes to sleep. */
    method AddOrWait(work: Job, ghost s: State, ghost p: Tid) returns (added: bool, ghost l: Label)
      requires Shows(s) && Jobs(s) && p in s.producers && PEager(s.producers[p]) && s.producers[p].work == work
      modifies this
      ensures l == (if added then Push(p) else WaitP(p)) && Enabled(s, l) && Shows(Apply(s, l)) && Jobs(Apply(s, l))
      ensures added <==> |old(wQueue)| < pSize
      ensures wQueue == if added then old(wQueue) + [work] else old(wQueue)
    {
      added := |wQueue| != pSize;
      l := if added then Push(p) else WaitP(p);
      KeepsJobs(s, l);
      if added {
        wQueue := wQueue + [work];
      }
    }

    /** One turn of the loop of `do_work`: the worker gets the oldest work, or goes to sleep. */
    method TakeOrWait(ghost s: State, ghost c: Tid) returns (taken: Taken, ghost l: Label)
      requires Shows(s) && Jobs(s) && c in s.consumers && Rested(s.consumers[c])
      modifies this
      ensures l == (if taken.Work? then Take(c) else WaitC(c)) && Enabled(s, l)
      ensures Shows(Apply(s, l)) && Jobs(Apply(s, l))
      ensures taken.Nothing? <==> old(wQueue) == []
      ensures taken.Work? ==> s.popped < |s.pushed| && taken.work == s.pushed[s.popped]
      ensures taken.Work? ==> old(wQueue) == [taken.work] + wQueue
      ensures taken.Nothing? ==> wQueue == []
    {
      l := if wQueue == [] then WaitC(c) else Take(c);
      KeepsJobs(s, l);
      if wQueue == [] {
        taken := Nothing;
      } else {
        taken := Work(wQueue[0]);
        wQueue := wQueue[1..];
      }
    }
  }
}
