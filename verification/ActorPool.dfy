/**
 The actor thread pool: each actor's tasks run one at a time and in order, on
 whichever worker is free. Blocks under `synchronized (act)` are single steps;
 everything else interleaves.
 */
module ActorPool {
  import opened Wrappers

  /** A task of one actor. Actors are connection handlers, known by number. */
  datatype Job<T> = Job(actor: nat, task: T)

  /** `Finished`: `r.run()` has returned or thrown, `complete(act)` is still to come. */
  datatype Worker<T> = Idle | Running(job: Job<T>) | Finished(job: Job<T>)

  /**
   `queue` and `workers` are the fixed thread pool behind `threads.execute`.
   `submitted` and `started` record the run and are read by no step.
   */
  datatype Pool<T> = Pool(
    playing: set<nat>,
    acts: map<nat, seq<T>>,
    queue: seq<Job<T>>,
    workers: seq<Worker<T>>,
    submitted: seq<Job<T>>,
    started: seq<Job<T>>)

  datatype Step<T> =
    | Submit(actor: nat, task: T)
    | Take(w: nat)
    | EndRun(w: nat)
    | Complete(w: nat)

  function Pending<T>(p: Pool<T>, a: nat): seq<T> {
    if a in p.acts then p.acts[a] else []
  }

  function Fresh<T>(threads: nat): Pool<T> {
    Pool({}, map[], [], seq(threads, i => Idle), [], [])
  }

  predicate Enabled<T>(p: Pool<T>, s: Step<T>) {
    match s
    case Submit(a, t) => true
    case Take(w) => w < |p.workers| && p.workers[w].Idle? && p.queue != []
    case EndRun(w) => w < |p.workers| && p.workers[w].Running?
    case Complete(w) => w < |p.workers| && p.workers[w].Finished?
  }

  function Apply<T>(p: Pool<T>, s: Step<T>): Pool<T>
    requires Enabled(p, s)
  {
    match s
    case Submit(a, t) =>
      var q := p.(submitted := p.submitted + [Job(a, t)]);
      if a !in p.playing then q.(playing := p.playing + {a}, queue := p.queue + [Job(a, t)])
      else q.(acts := p.acts[a := Pending(p, a) + [t]])
    case Take(w) =>
      p.(workers := p.workers[w := Running(p.queue[0])], queue := p.queue[1..],
         started := p.started + [p.queue[0]])
    case EndRun(w) =>
      p.(workers := p.workers[w := Finished(p.workers[w].job)])
    case Complete(w) =>
      var a := p.workers[w].job.actor;
      var q := p.(workers := p.workers[w := Idle]);
      if Pending(p, a) == [] then q.(playing := p.playing - {a}, acts := p.acts[a := []])
      else q.(queue := p.queue + [Job(a, Pending(p, a)[0])], acts := p.acts[a := Pending(p, a)[1..]])
  }

  // ---------------------------------------------------------------- counting

  /** The tasks of actor `a` among `jobs`, in order. */
  function Of<T>(a: nat, jobs: seq<Job<T>>): seq<T> {
    if jobs == [] then []
    else if jobs[0].actor == a then [jobs[0].task] + Of(a, jobs[1..])
    else Of(a, jobs[1..])
  }

  lemma {:induction false} OfAppend<T>(a: nat, x: seq<Job<T>>, y: seq<Job<T>>)
    ensures Of(a, x + y) == Of(a, x) + Of(a, y)
  {
    if x == [] {
      assert x + y == y;
    } else {
      assert (x + y)[0] == x[0] && (x + y)[1..] == x[1..] + y;
      OfAppend(a, x[1..], y);
      if x[0].actor == a {
        assert Of(a, x + y) == [x[0].task] + (Of(a, x[1..]) + Of(a, y));
      }
    }
  }

  lemma OfSnoc<T>(a: nat, x: seq<Job<T>>, j: Job<T>)
    ensures Of(a, x + [j]) == if j.actor == a then Of(a, x) + [j.task] else Of(a, x)
  {
    OfAppend(a, x, [j]);
  }

  predicate Holds<T>(w: Worker<T>, a: nat) {
    !w.Idle? && w.job.actor == a
  }

  /** How many workers are occupied by actor `a`. */
  function Busy<T>(a: nat, ws: seq<Worker<T>>): nat {
    if ws == [] then 0 else (if Holds(ws[0], a) then 1 else 0) + Busy(a, ws[1..])
  }

  lemma {:induction false} BusyUpdate<T>(a: nat, ws: seq<Worker<T>>, i: nat, w: Worker<T>)
    requires i < |ws|
    ensures Busy(a, ws[i := w]) + (if Holds(ws[i], a) then 1 else 0)
         == Busy(a, ws) + (if Holds(w, a) then 1 else 0)
  {
    if i == 0 {
      assert ws[0 := w][1..] == ws[1..];
    } else {
      assert ws[i := w][1..] == ws[1..][i - 1 := w];
      BusyUpdate(a, ws[1..], i - 1, w);
    }
  }

  lemma {:induction false} BusyWitness<T>(a: nat, ws: seq<Worker<T>>, i: nat)
    requires i < |ws| && Holds(ws[i], a)
    ensures Busy(a, ws) >= 1
    ensures forall j :: 0 <= j < |ws| && j != i && Holds(ws[j], a) ==> Busy(a, ws) >= 2
  {
    BusyUpdate(a, ws, i, Idle);
    var rest := ws[i := Idle];
    forall j | 0 <= j < |ws| && j != i && Holds(ws[j], a)
      ensures Busy(a, ws) >= 2
    {
      BusyUpdate(a, rest, j, Idle);
    }
  }

  lemma {:induction false} BusyNone<T>(a: nat, ws: seq<Worker<T>>)
    requires forall i :: 0 <= i < |ws| ==> !Holds(ws[i], a)
    ensures Busy(a, ws) == 0
  {
    if ws != [] {
      BusyNone(a, ws[1..]);
    }
  }

  /** Fewer tasks per actor means fewer tasks. */
  lemma {:induction false} FewerPerActor<T>(x: seq<Job<T>>, y: seq<Job<T>>)
    requires forall a: nat :: |Of(a, x)| <= |Of(a, y)|
    ensures |x| <= |y|
    decreases |x|
  {
    if x != [] {
      var k := FirstOf(x[0].actor, y);
      var y' := y[..k] + y[k + 1..];
      forall a: nat
        ensures |Of(a, x[1..])| <= |Of(a, y')|
      {
        assert |Of(a, x)| <= |Of(a, y)|;
        assert y == y[..k] + ([y[k]] + y[k + 1..]);
        OfAppend(a, y[..k], [y[k]] + y[k + 1..]);
        OfAppend(a, [y[k]], y[k + 1..]);
        OfAppend(a, y[..k], y[k + 1..]);
      }
      FewerPerActor(x[1..], y');
    }
  }

  lemma {:induction false} FirstOf<T>(a: nat, y: seq<Job<T>>) returns (k: nat)
    requires Of(a, y) != []
    ensures k < |y| && y[k].actor == a
  {
    if y[0].actor == a {
      k := 0;
    } else {
      k := FirstOf(a, y[1..]);
      k := k + 1;
    }
  }

  // ---------------------------------------------------------------- safety

  /** An actor has one task in hand exactly while it is marked as playing. */
  ghost predicate OneInHand<T>(p: Pool<T>, a: nat) {
    |Of(a, p.queue)| + Busy(a, p.workers) == if a in p.playing then 1 else 0
  }

  /** Tasks of `a` not yet started: the executor's share, then the actor's own queue. */
  function Waiting<T>(p: Pool<T>, a: nat): seq<T> {
    Of(a, p.queue) + Pending(p, a)
  }

  /** Nothing submitted is lost, repeated or overtaken. */
  ghost predicate InOrder<T>(p: Pool<T>, a: nat) {
    Of(a, p.submitted) == Of(a, p.started) + Waiting(p, a)
  }

  ghost predicate ActorInv<T>(p: Pool<T>, a: nat) {
    && OneInHand(p, a)
    && InOrder(p, a)
    && (a !in p.playing ==> Pending(p, a) == [])
  }

  ghost predicate Inv<T>(p: Pool<T>) {
    forall a: nat :: ActorInv(p, a)
  }

  lemma FreshInv<T>(threads: nat)
    ensures Inv(Fresh<T>(threads))
  {
    forall a: nat
      ensures ActorInv(Fresh<T>(threads), a)
    {
      BusyNone(a, Fresh<T>(threads).workers);
    }
  }

  lemma WaitingSubmit<T>(p: Pool<T>, b: nat, t: T, a: nat)
    requires a !in p.playing ==> Pending(p, a) == []
    ensures Waiting(Apply(p, Step.Submit(b, t)), a) == if a == b then Waiting(p, a) + [t] else Waiting(p, a)
  {
    var x, y := Of(a, p.queue), Pending(p, a);
    if b !in p.playing {
      OfSnoc(a, p.queue, Job(b, t));
      if a == b {
        assert (x + [t]) + [] == (x + []) + [t];
      }
    } else if a == b {
      assert x + (y + [t]) == (x + y) + [t];
    }
  }

  lemma WaitingTake<T>(p: Pool<T>, w: nat, a: nat)
    requires Enabled(p, Take(w))
    ensures var j, rest := p.queue[0], Waiting(Apply(p, Take(w)), a);
      Waiting(p, a) == if j.actor == a then [j.task] + rest else rest
  {
    var j, x, y := p.queue[0], Of(a, p.queue[1..]), Pending(p, a);
    if j.actor == a {
      assert ([j.task] + x) + y == [j.task] + (x + y);
    }
  }

  lemma WaitingComplete<T>(p: Pool<T>, w: nat, a: nat)
    requires Enabled(p, Step.Complete(w))
    ensures Waiting(Apply(p, Step.Complete(w)), a) == Waiting(p, a)
  {
    var b := p.workers[w].job.actor;
    if Pending(p, b) != [] {
      OfSnoc(a, p.queue, Job(b, Pending(p, b)[0]));
      if a == b {
        var x, y := Of(a, p.queue), Pending(p, a);
        assert (x + [y[0]]) + y[1..] == x + y;
      }
    }
  }

  lemma SubmitKeepsOrder<T>(p: Pool<T>, b: nat, t: T, a: nat)
    requires ActorInv(p, a)
    ensures InOrder(Apply(p, Step.Submit(b, t)), a)
  {
    OfSnoc(a, p.submitted, Job(b, t));
    WaitingSubmit(p, b, t, a);
    if a == b {
      AppendAssoc(Of(a, p.started), Waiting(p, a), [t]);
    }
  }

  lemma TakeKeepsOrder<T>(p: Pool<T>, w: nat, a: nat)
    requires Enabled(p, Take(w)) && ActorInv(p, a)
    ensures InOrder(Apply(p, Take(w)), a)
  {
    var j := p.queue[0];
    OfSnoc(a, p.started, j);
    WaitingTake(p, w, a);
    if j.actor == a {
      AppendAssoc(Of(a, p.started), [j.task], Waiting(Apply(p, Take(w)), a));
    }
  }

  lemma StepKeepsOrder<T>(p: Pool<T>, s: Step<T>, a: nat)
    requires Enabled(p, s) && ActorInv(p, a)
    ensures InOrder(Apply(p, s), a)
  {
    match s
    case Submit(b, t) => SubmitKeepsOrder(p, b, t, a);
    case Take(w) => TakeKeepsOrder(p, w, a);
    case EndRun(w) =>
    case Complete(w) => WaitingComplete(p, w, a);
  }

  lemma StepKeepsCount<T>(p: Pool<T>, s: Step<T>, a: nat)
    requires Enabled(p, s) && ActorInv(p, a)
    ensures OneInHand(Apply(p, s), a)
  {
    match s
    case Submit(b, t) =>
      if b !in p.playing {
        OfSnoc(a, p.queue, Job(b, t));
      }
    case Take(w) =>
      BusyUpdate(a, p.workers, w, Running(p.queue[0]));
    case EndRun(w) =>
      BusyUpdate(a, p.workers, w, Finished(p.workers[w].job));
    case Complete(w) =>
      var b := p.workers[w].job.actor;
      BusyUpdate(a, p.workers, w, Idle);
      BusyWitness(b, p.workers, w);
      if Pending(p, b) != [] {
        OfSnoc(a, p.queue, Job(b, Pending(p, b)[0]));
      }
  }

  lemma StepKeepsIdle<T>(p: Pool<T>, s: Step<T>, a: nat)
    requires Enabled(p, s) && ActorInv(p, a)
    ensures a !in Apply(p, s).playing ==> Pending(Apply(p, s), a) == []
  {
    if s.Complete? {
      BusyWitness(p.workers[s.w].job.actor, p.workers, s.w);
    }
  }

  lemma StepKeepsActor<T>(p: Pool<T>, s: Step<T>, a: nat)
    requires Enabled(p, s) && ActorInv(p, a)
    ensures ActorInv(Apply(p, s), a)
  {
    StepKeepsCount(p, s, a);
    StepKeepsOrder(p, s, a);
    StepKeepsIdle(p, s, a);
  }

  lemma StepKeepsInv<T>(p: Pool<T>, s: Step<T>)
    requires Enabled(p, s) && Inv(p)
    ensures Inv(Apply(p, s))
  {
    forall a: nat
      ensures ActorInv(Apply(p, s), a)
    {
      assert ActorInv(p, a);
      StepKeepsActor(p, s, a);
    }
  }

  ghost predicate Next<T(!new)>(p: Pool<T>, q: Pool<T>) {
    exists s: Step<T> :: Enabled(p, s) && q == Apply(p, s)
  }

  /** A run: any interleaving of steps from a fresh pool of `threads` workers. */
  ghost predicate IsRun<T(!new)>(trace: seq<Pool<T>>, threads: nat) {
    && trace != [] && trace[0] == Fresh(threads)
    && forall i :: 0 <= i < |trace| - 1 ==> Next(trace[i], trace[i + 1])
  }

  lemma {:induction false} RunKeepsInv<T(!new)>(trace: seq<Pool<T>>, threads: nat)
    requires IsRun(trace, threads)
    ensures Inv(trace[|trace| - 1]) && |trace[|trace| - 1].workers| == threads
    decreases |trace|
  {
    var n := |trace| - 1;
    if n == 0 {
      FreshInv<T>(threads);
    } else {
      RunKeepsInv(trace[..n], threads);
      assert Next(trace[n - 1], trace[n]);
      var s: Step<T> :| Enabled(trace[n - 1], s) && trace[n] == Apply(trace[n - 1], s);
      StepKeepsInv(trace[n - 1], s);
    }
  }

  /**
   What the pool promises in every reachable state, for every actor: no two
   workers hold it, its tasks have started in submission order and each at most
   once, and it is marked as playing exactly while one task is in hand.
   */
  lemma PoolSafety<T(!new)>(trace: seq<Pool<T>>, threads: nat, a: nat)
    requires IsRun(trace, threads)
    ensures var p := trace[|trace| - 1];
      && (forall i, j :: 0 <= i < j < |p.workers| ==> !(Holds(p.workers[i], a) && Holds(p.workers[j], a)))
      && Of(a, p.started) <= Of(a, p.submitted)
      && (a in p.playing <==> |Of(a, p.queue)| + Busy(a, p.workers) == 1)
      && (a !in p.playing <==> |Of(a, p.queue)| + Busy(a, p.workers) == 0)
      && (a !in p.playing ==> Of(a, p.started) == Of(a, p.submitted))
  {
    var p := trace[|trace| - 1];
    RunKeepsInv(trace, threads);
    assert ActorInv(p, a);
    forall i, j | 0 <= i < j < |p.workers|
      ensures !(Holds(p.workers[i], a) && Holds(p.workers[j], a))
    {
      if Holds(p.workers[i], a) {
        BusyWitness(a, p.workers, i);
      }
    }
  }

  // ---------------------------------------------------------------- drain

  function Weight<T>(ws: seq<Worker<T>>): nat {
    if ws == [] then 0
    else (match ws[0] case Idle => 0 case Running(_) => 2 case Finished(_) => 1) + Weight(ws[1..])
  }

  lemma {:induction false} WeightUpdate<T>(ws: seq<Worker<T>>, i: nat, w: Worker<T>)
    requires i < |ws|
    ensures Weight(ws[i := w]) + Weight([ws[i]]) == Weight(ws) + Weight([w])
  {
    if i == 0 {
      assert ws[0 := w][1..] == ws[1..];
    } else {
      assert ws[i := w][1..] == ws[1..][i - 1 := w];
      WeightUpdate(ws[1..], i - 1, w);
    }
  }

  /** Work left: three steps for a task not yet started, fewer for one under way. */
  function Measure<T>(p: Pool<T>): int {
    3 * (|p.submitted| - |p.started|) + Weight(p.workers)
  }

  predicate Quiescent<T>(p: Pool<T>) {
    p.queue == [] && forall i :: 0 <= i < |p.workers| ==> p.workers[i].Idle?
  }

  lemma MeasureNatural<T>(p: Pool<T>)
    requires Inv(p)
    ensures Measure(p) >= 0
  {
    forall a: nat
      ensures |Of(a, p.started)| <= |Of(a, p.submitted)|
    {
      assert ActorInv(p, a);
    }
    FewerPerActor(p.started, p.submitted);
  }

  lemma StepWorks<T>(p: Pool<T>, s: Step<T>)
    requires Enabled(p, s) && !s.Submit?
    ensures Measure(Apply(p, s)) == Measure(p) - 1
    ensures Apply(p, s).submitted == p.submitted
    ensures |Apply(p, s).workers| == |p.workers|
  {
    var w := s.w;
    WeightUpdate(p.workers, w, Apply(p, s).workers[w]);
  }

  /** While anything is left to do and there is a worker, some step is possible. */
  lemma SomeStepEnabled<T>(p: Pool<T>) returns (s: Step<T>)
    requires |p.workers| >= 1 && !Quiescent(p)
    ensures Enabled(p, s) && !s.Submit?
  {
    if i :| 0 <= i < |p.workers| && p.workers[i].Running? {
      s := EndRun(i);
    } else if i :| 0 <= i < |p.workers| && p.workers[i].Finished? {
      s := Complete(i);
    } else {
      s := Take(0);
    }
  }

  /** At rest, every actor's tasks have all been run, and no actor is playing. */
  lemma QuiescentIsDone<T>(p: Pool<T>)
    requires Inv(p) && Quiescent(p)
    ensures p.playing == {}
    ensures forall a: nat :: Of(a, p.started) == Of(a, p.submitted) && Pending(p, a) == []
  {
    forall a: nat
      ensures a !in p.playing && Of(a, p.started) == Of(a, p.submitted) && Pending(p, a) == []
    {
      assert ActorInv(p, a);
      BusyNone(a, p.workers);
    }
  }

  ghost predicate Works<T(!new)>(p: Pool<T>, q: Pool<T>) {
    exists s: Step<T> :: Enabled(p, s) && !s.Submit? && q == Apply(p, s)
  }

  /**
   Once submission stops, no schedule runs longer than the measure says, and a
   schedule that cannot go on has run every submitted task exactly once.
   */
  lemma {:induction false} PoolDrains<T(!new)>(trace: seq<Pool<T>>)
    requires trace != [] && Inv(trace[0]) && |trace[0].workers| >= 1
    requires forall i :: 0 <= i < |trace| - 1 ==> Works(trace[i], trace[i + 1])
    ensures |trace| - 1 <= Measure(trace[0])
    ensures var p := trace[|trace| - 1];
      (forall s: Step<T> :: Enabled(p, s) ==> s.Submit?) ==>
        && p.playing == {}
        && p.submitted == trace[0].submitted
        && forall a: nat :: Of(a, p.started) == Of(a, trace[0].submitted)
  {
    var p := trace[0];
    if |trace| == 1 {
      MeasureNatural(p);
      if forall s: Step<T> :: Enabled(p, s) ==> s.Submit? {
        if !Quiescent(p) {
          var s := SomeStepEnabled(p);
        }
        QuiescentIsDone(p);
      }
    } else {
      assert Works(trace[0], trace[1]);
      var s: Step<T> :| Enabled(p, s) && !s.Submit? && trace[1] == Apply(p, s);
      StepWorks(p, s);
      StepKeepsInv(p, s);
      forall i | 0 <= i < |trace[1..]| - 1
        ensures Works(trace[1..][i], trace[1..][i + 1])
      {
        assert Works(trace[i + 1], trace[i + 2]);
      }
      PoolDrains(trace[1..]);
    }
  }

  // ---------------------------------------------------------------- the class

  class ActorThreadPool<T(0)> {
    var acts: map<nat, seq<T>>
    var playingNow: set<nat>
    var queue: seq<Job<T>>
    var workers: seq<Worker<T>>
    ghost var submitted: seq<Job<T>>
    ghost var started: seq<Job<T>>

    ghost function State(): Pool<T>
      reads this
    {
      Pool(playingNow, acts, queue, workers, submitted, started)
    }

    constructor (threads: nat)
      ensures State() == Fresh(threads)
    {
      acts := map[];
      playingNow := {};
      queue := [];
      workers := seq(threads, i => Idle);
      submitted := [];
      started := [];
    }

    method Submit(act: nat, r: T)
      modifies this
      ensures State() == Apply(old(State()), Step.Submit(act, r))
    {
      submitted := submitted + [Job(act, r)];
      if act !in playingNow {
        playingNow := playingNow + {act};
        Execute(r, act);
      } else {
        var pending := PendingRunnablesOf(act);
        acts := acts[act := pending + [r]];
      }
    }

    method PendingRunnablesOf(act: nat) returns (pending: seq<T>)
      modifies `acts
      ensures pending == Pending(old(State()), act)
      ensures acts == old(acts)[act := pending]
    {
      if act !in acts {
        acts := acts[act := []];
      }
      pending := acts[act];
    }

    method Execute(r: T, act: nat)
      modifies `queue
      ensures queue == old(queue) + [Job(act, r)]
    {
      queue := queue + [Job(act, r)];
    }

    /** A free worker picks up the oldest runnable. */
    method TakeNext(w: nat) returns (job: Job<T>)
      requires Enabled(State(), Take(w))
      modifies this
      ensures State() == Apply(old(State()), Take(w))
      ensures workers[w] == Running(job)
    {
      job := queue[0];
      queue := queue[1..];
      workers := workers[w := Running(job)];
      started := started + [job];
    }

    /** `r.run()` returns, or throws: the `finally` block follows either way. */
    method RunEnds(w: nat)
      requires Enabled(State(), EndRun(w))
      modifies this
      ensures State() == Apply(old(State()), EndRun(w))
    {
      workers := workers[w := Finished(workers[w].job)];
    }

    method Complete(w: nat)
      requires Enabled(State(), Step.Complete(w))
      modifies this
      ensures State() == Apply(old(State()), Step.Complete(w))
    {
      var act := workers[w].job.actor;
      var pending := PendingRunnablesOf(act);
      if pending == [] {
        playingNow := playingNow - {act};
      } else {
        acts := acts[act := pending[1..]];
        Execute(pending[0], act);
      }
      workers := workers[w := Idle];
    }
  }
}
