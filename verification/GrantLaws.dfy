/**
 Which step `get_work` hands out, and what it does to it, stated on the fields: priorities and times, statuses of
 dependencies, demands and totals.
 */
module GrantLaws {
  import opened Options
  import opened Sequences
  import opened SchedulerModel
  import opened SchedulerInvariants
  import opened SchedulerResources
  import opened StatusLaws

  // ---------------------------------------------------------------- one step of the scan

  /** The step comes first in the scan: it has a higher priority, or the same one for longer. */
  predicate Outranks(s: StepRec, t: StepRec) {
    s.info.priority > t.info.priority || (s.info.priority == t.info.priority && s.info.time < t.info.time)
  }

  /** The step is pending, and all its dependencies are done. */
  predicate ReadyToRun(steps: Steps, s: StepRec) {
    s.life.status == PENDING && forall d <- s.info.deps :: d in steps && steps[d].life.status == DONE
  }

  function Amount(m: Amounts, r: Resource): int {
    if r in m then m[r] else 0
  }

  /** The demand fits on top of what is used; a resource without a total has one unit. */
  predicate Fits(demand: Amounts, used: Amounts, totals: Amounts) {
    forall r <- demand :: demand[r] + Amount(used, r) <= if r in totals then totals[r] else 1
  }

  predicate ForWorker(req: Request, s: StepRec) {
    req.worker in s.info.workers || (req.assistant && s.info.runnable)
  }

  /** The step can be handed out, with what the scan has set aside before it. */
  predicate Takeable(steps: Steps, req: Request, aside: Amounts, s: StepRec) {
    ReadyToRun(steps, s) && ForWorker(req, s) && Fits(s.load.resources, aside, req.totals) && Fits(s.load.resources, req.used, req.totals)
  }

  /** One process of the worker and the amounts are set aside. */
  ghost predicate SetsAside(g: Greedy, next: Greedy, x: WorkerId, amounts: Amounts) {
    && x in g.slots && next.slots == g.slots[x := g.slots[x] - 1]
    && forall r: Resource :: Amount(next.reserved, r) == Amount(g.reserved, r) + Amount(amounts, r)
  }

  /** Position of the first candidate with a free process. */
  predicate FirstFree(g: Greedy, candidates: seq<WorkerId>, i: nat) {
    && i < |candidates| && candidates[i] in g.slots && g.slots[candidates[i]] > 0
    && forall j :: 0 <= j < i ==> candidates[j] !in g.slots || g.slots[candidates[j]] <= 0
  }

  predicate NoneFree(g: Greedy, candidates: seq<WorkerId>) {
    forall x <- candidates :: x !in g.slots || g.slots[x] <= 0
  }

  /** The amounts are set aside for the first candidate with a free process. */
  ghost predicate SetsAsideFirst(g: Greedy, next: Greedy, candidates: seq<WorkerId>, amounts: Amounts) {
    exists i: nat :: FirstFree(g, candidates, i) && SetsAside(g, next, candidates[i], amounts)
  }

  /** The scan passes over the step.  What runs on a worker that takes part is set aside as it runs; what could run, if
      everything were started anew, is set aside for the first of its workers with a free process. */
  ghost predicate Passes(steps: Steps, req: Request, g: Greedy, s: StepRec, next: Greedy) {
    var candidates := s.info.workers + if req.assistant then [req.worker] else [];
    if s.life.status == RUNNING && s.load.workerRunning.Some? && s.load.workerRunning.value in g.slots then
      SetsAside(g, next, s.load.workerRunning.value, if s.load.resourcesRunning.Some? then s.load.resourcesRunning.value else s.load.resources)
    else if ReadyToRun(steps, s) && Fits(s.load.resources, g.reserved, req.totals) && !NoneFree(g, candidates) then
      SetsAsideFirst(g, next, candidates, s.load.resources)
    else next == g
  }

  lemma SameFits(demand: Amounts, used: Amounts, totals: Amounts)
    ensures HasResources(demand, used, totals) == Fits(demand, used, totals)
  {
  }

  lemma TakesSlot(g: Greedy, x: WorkerId, amounts: Amounts)
    requires x in g.slots
    ensures SetsAside(g, TakeSlot(g, x, amounts), x, amounts)
  {
  }

  lemma {:induction false} ReservesFirst(g: Greedy, candidates: seq<WorkerId>, amounts: Amounts)
    ensures var next := Reserve(g, candidates, amounts);
            if NoneFree(g, candidates) then next == g else SetsAsideFirst(g, next, candidates, amounts)
  {
    if candidates != [] {
      if HasSlot(g, candidates[0]) {
        TakesSlot(g, candidates[0], amounts);
        assert candidates[0] in candidates && FirstFree(g, candidates, 0);
      } else {
        ReservesFirst(g, candidates[1..], amounts);
        assert forall x :: x in candidates <==> x == candidates[0] || x in candidates[1..];
        if !NoneFree(g, candidates[1..]) {
          var i: nat :| FirstFree(g, candidates[1..], i) && SetsAside(g, Reserve(g, candidates[1..], amounts), candidates[1..][i], amounts);
          assert FirstFree(g, candidates, i + 1);
        }
      }
    }
  }

  lemma PassesOver(steps: Steps, req: Request, g: Greedy, s: StepRec)
    ensures Passes(steps, req, g, s, PassOver(steps, req, g, s))
    ensures Grantable(steps, req, ChargeRunning(g, s), s) <==> Takeable(steps, req, g.reserved, s)
  {
    SameFits(s.load.resources, g.reserved, req.totals);
    SameFits(s.load.resources, req.used, req.totals);
    hide HasResources, Fits, SetsAside, SetsAsideFirst, NoneFree, Reserve;
    var candidates := s.info.workers + if req.assistant then [req.worker] else [];
    assert Candidates(req, s) == candidates;
    if s.life.status == RUNNING && s.load.workerRunning.Some? && s.load.workerRunning.value in g.slots {
      TakesSlot(g, s.load.workerRunning.value, Charge(s));
    } else if ReadyToRun(steps, s) && Fits(s.load.resources, g.reserved, req.totals) {
      ReservesFirst(g, candidates, s.load.resources);
      assert PassOver(steps, req, g, s) == Reserve(g, candidates, s.load.resources);
    } else {
      assert PassOver(steps, req, g, s) == g;
    }
  }

  /** The scan over `q`: what is set aside before each position, and where it stops. */
  ghost predicate ScansTo(steps: Steps, req: Request, g: Greedy, q: seq<StepRec>, trace: seq<Greedy>, i: nat) {
    && |trace| == |q| + 1 && trace[0] == g && i <= |q|
    && (forall j :: 0 <= j < |q| ==> Passes(steps, req, trace[j], q[j], trace[j+1]))
    && (forall j :: 0 <= j < i ==> !Takeable(steps, req, trace[j].reserved, q[j]))
    && (i < |q| ==> Takeable(steps, req, trace[i].reserved, q[i]))
  }

  /** The scan stops at the first step that can be handed out. */
  lemma ScanByTheRules(steps: Steps, req: Request, g: Greedy, q: seq<StepRec>) returns (trace: seq<Greedy>)
    ensures ScansTo(steps, req, g, q, trace, Pick(steps, req, g, q, 0))
  {
    hide PassOver, Passes, Grantable, Takeable;
    trace := seq(|q| + 1, j requires 0 <= j <= |q| => PassAll(steps, req, g, q[..j]));
    forall j | 0 <= j < |q|
      ensures Passes(steps, req, trace[j], q[j], trace[j+1])
      ensures StopsAt(steps, req, g, q, j) <==> Takeable(steps, req, trace[j].reserved, q[j])
    {
      PassesOver(steps, req, trace[j], q[j]);
      assert q[..j+1][..j] == q[..j];
    }
    assert q[..0] == [];
  }

  // ---------------------------------------------------------------- what get_work looks at

  /** The worker is no assistant, and none of the pending steps it may run demands anything. */
  predicate Undemanding(w: World, x: WorkerId)
    requires x in w.workers
  {
    !w.workers[x].assistant &&
    forall k <- w.steps :: w.steps[k].life.status == PENDING && x in w.steps[k].info.workers ==> w.steps[k].load.resources == map[]
  }

  /** The scan looks at pending and running steps: at none of them while the scheduler is paused, and only at those of
      the worker if they are without demands. */
  predicate LooksAt(w: World, x: WorkerId, k: StepId)
    requires x in w.workers
  {
    && k in w.steps && w.steps[k].life.status in {PENDING, RUNNING} && !w.paused
    && (Undemanding(w, x) ==> x in w.steps[k].info.workers)
  }

  /** The steps in the order of the scan. */
  ghost predicate InScanOrder(w: World, x: WorkerId, q: seq<StepRec>)
    requires x in w.workers
  {
    && (forall i :: 0 <= i < |q| ==> LooksAt(w, x, q[i].id) && q[i] == w.steps[q[i].id])
    && (forall k :: LooksAt(w, x, k) ==> exists i :: 0 <= i < |q| && q[i].id == k)
    && (forall i, j :: 0 <= i < j < |q| ==> q[i].id != q[j].id && !Outranks(q[j], q[i]))
  }

  /** What the scan starts with: for an undemanding worker nothing is used and nobody else takes part; otherwise all
      running steps use what they use, and the workers that have asked for work lately take part. */
  ghost predicate StartsWith(w: World, a: WorkArgs, undemanding: bool, req: Request, g: Greedy, now: Time, cfg: Config) {
    && req.worker == a.worker && req.assistant == a.assistant && req.totals == w.totals && g.reserved == map[]
    && if undemanding then req.used == map[] && g.slots == map[] else
       && (forall r: Resource :: Amount(req.used, r) == UsedAt(w.steps, (set k | k in w.steps && w.steps[k].life.status == RUNNING), r))
       && (forall x :: x in g.slots <==> x in w.workers && w.workers[x].lastGetWork.Some? && w.workers[x].lastGetWork.value > now - cfg.disconnectDelay)
       && (forall x <- g.slots :: g.slots[x] == w.workers[x].processes)
  }

  lemma SetUp(w: World, a: WorkArgs, now: Time, cfg: Config)
    requires a.worker in w.workers
    ensures StartsWith(w, a, Undemanding(w, a.worker), RequestOf(w, a), GreedyOf(w, a, now, cfg), now, cfg)
  {
    UsedByRunning(w.steps);
    hide UsedResources, UsedAt;
  }

  lemma UsedByRunning(steps: Steps)
    ensures forall r: Resource ::
      Amount(UsedResources(steps), r) == UsedAt(steps, (set k | k in steps && steps[k].life.status == RUNNING), r)
  {
    assert Running(steps) == set k | k in steps && steps[k].life.status == RUNNING;
    forall r: Resource
      ensures At(UsedResources(steps), r) == UsedAt(steps, Running(steps), r)
    {
      UsedResourcesSum(steps, r);
    }
    hide UsedResources, Running, UsedAt;
  }

  lemma ScanIsInOrder(w: World, a: WorkArgs, scan: seq<StepId>)
    requires a.worker in w.workers && ValidScan(w, Relevant(w, a.worker), scan) && Keyed(w.steps)
    ensures (forall id <- scan :: id in w.steps) && InScanOrder(w, a.worker, RecsOf(w.steps, scan))
  {
    var q, x := RecsOf(w.steps, scan), a.worker;
    forall k
      ensures LooksAt(w, x, k) <==> k in Relevant(w, x)
    {
    }
    hide LooksAt, Relevant;
    forall i | 0 <= i < |q|
      ensures q[i].id == scan[i] && LooksAt(w, x, q[i].id)
    {
      assert scan[i] in scan;
    }
    forall k | LooksAt(w, x, k)
      ensures exists i :: 0 <= i < |q| && q[i].id == k
    {
      var i :| 0 <= i < |scan| && scan[i] == k;
    }
  }

  // ---------------------------------------------------------------- batches

  /** The step starts a batch: the worker has told which parameters of the family it batches. */
  predicate HeadsBatch(b: Batcher, s: StepRec) {
    |b.names| > 0 && s.info.batchable && forall n <- b.names :: n in s.info.params
  }

  /** The step can run in the batch of `best`: it differs in batched parameters only. */
  predicate FitsBatch(steps: Steps, b: Batcher, best: StepRec, s: StepRec) {
    && ReadyToRun(steps, s) && s.info.batchable && s.info.family == best.info.family && s.load.resources == best.load.resources
    && forall n <- best.info.params :: n !in b.names ==> n in s.info.params && s.info.params[n] == best.info.params[n]
  }

  /** Those that can, in the order of the scan. */
  function Fitting(steps: Steps, b: Batcher, best: StepRec, q: seq<StepRec>): seq<StepId> {
    if q == [] then [] else (if FitsBatch(steps, b, best, q[0]) then [q[0].id] else []) + Fitting(steps, b, best, q[1..])
  }

  /** The first ones, as far as the batch has room for them. */
  function UpTo(ids: seq<StepId>, room: Option<nat>): seq<StepId> {
    if room.Some? && room.value < |ids| then ids[..room.value] else ids
  }

  function Room(b: Batcher, size: nat): Option<nat> {
    if b.maxSize.None? then None else Some(if size < b.maxSize.value then b.maxSize.value - size else 0)
  }

  lemma OneMoreFits(b: Batcher, size: nat, id: StepId, rest: seq<StepId>)
    ensures BelowMax(size, b) ==> UpTo([id] + rest, Room(b, size)) == [id] + UpTo(rest, Room(b, size + 1))
    ensures !BelowMax(size, b) ==> UpTo(rest, Room(b, size)) == [] && UpTo([id] + rest, Room(b, size)) == []
  {
    if b.maxSize.Some? && size + 1 < b.maxSize.value {
      var room := b.maxSize.value - size;
      if room <= |rest| {
        assert ([id] + rest)[..room] == [id] + rest[..room-1];
      }
    }
  }

  /** What the next step of the scan adds. */
  lemma CollectOne(steps: Steps, b: Batcher, best: StepRec, batch: seq<StepId>, q: seq<StepRec>)
    requires q != []
    ensures Fitting(steps, b, best, q) ==
              (if FitsBatch(steps, b, best, q[0]) then [q[0].id] else []) + Fitting(steps, b, best, q[1..])
    ensures Collect(steps, b, best, batch, q) ==
              Collect(steps, b, best, if FitsBatch(steps, b, best, q[0]) && BelowMax(|batch|, b) then batch + [q[0].id] else batch, q[1..])
  {
    assert FitsBatch(steps, b, best, q[0]) <==> JoinsBatch(steps, b, best, q[0]);
    hide FitsBatch, JoinsBatch, BelowMax;
  }

  lemma Associative(p: seq<StepId>, q: seq<StepId>, r: seq<StepId>)
    ensures p + q + r == p + (q + r) && [] + r == r
  {
  }

  lemma {:induction false} CollectsFitting(steps: Steps, b: Batcher, best: StepRec, batch: seq<StepId>, q: seq<StepRec>)
    ensures Collect(steps, b, best, batch, q) == batch + UpTo(Fitting(steps, b, best, q), Room(b, |batch|))
    decreases |q|
  {
    if q == [] {
      assert batch + [] == batch;
    } else {
      hide Collect, Fitting, FitsBatch, UpTo, Room, BelowMax;
      CollectOne(steps, b, best, batch, q);
      var id, rest := q[0].id, Fitting(steps, b, best, q[1..]);
      OneMoreFits(b, |batch|, id, rest);
      if FitsBatch(steps, b, best, q[0]) && BelowMax(|batch|, b) {
        CollectsFitting(steps, b, best, batch + [id], q[1..]);
        Associative(batch, [id], UpTo(rest, Room(b, |batch| + 1)));
      } else {
        CollectsFitting(steps, b, best, batch, q[1..]);
        Associative([], [], rest);
      }
    }
  }

  /** The batch behind position `i`; without a batcher there is only the step itself. */
  function BatchBehind(w: World, x: WorkerId, q: seq<StepRec>, i: nat): seq<StepId>
    requires i < |q|
  {
    var family := q[i].info.family;
    if (x, family) !in w.batchers then [q[i].id] else
    var b := w.batchers[(x, family)];
    if HeadsBatch(b, q[i]) then [q[i].id] + UpTo(Fitting(w.steps, b, q[i], q[i+1..]), Room(b, 1)) else [q[i].id]
  }

  /** A batch of one is no batch. */
  function ReplyWith(batch: seq<StepId>): Reply {
    if |batch| == 0 then NoWork else if |batch| == 1 then Granted(batch[0]) else BatchGranted(batch)
  }

  lemma RepliesWithBatch(w: World, x: WorkerId, q: seq<StepRec>, i: nat)
    requires i < |q|
    ensures ReplyFor(q[i].id, BatchAt(w, x, q, i)) == ReplyWith(BatchBehind(w, x, q, i))
  {
    CollectsFitting(w.steps, GetBatcher(w, x, q[i].info.family), q[i], [q[i].id], q[i+1..]);
    hide Collect, Fitting;
  }

  lemma FirstOfBatch(w: World, x: WorkerId, q: seq<StepRec>, i: nat)
    requires i < |q|
    ensures BatchBehind(w, x, q, i) != [] && BatchBehind(w, x, q, i)[0] == q[i].id
  {
  }

  // ---------------------------------------------------------------- what get_work hands out

  /** The step that is handed out, or the first one of the batch. */
  function First(reply: Reply): Option<StepId> {
    match reply
    case Granted(id) => Some(id)
    case BatchGranted(ids) => if ids != [] then Some(ids[0]) else None
    case _ => None
  }

  /** The scheduler believes that the step runs on the worker, which does not know about it. */
  predicate NotClaimed(s: StepRec, a: WorkArgs) {
    a.current.Some? && s.id !in a.current.value && s.life.status == RUNNING && s.load.workerRunning == Some(a.worker)
  }

  /** The worker is enabled and claims all the steps that run on it. */
  ghost predicate AsksForNew(w: World, a: WorkArgs, c: Choices, now: Time, cfg: Config) {
    && ValidChoices(w, a, c, now, cfg)
    && var w1 := Prepare(w, a, c.pruneOrder, now, cfg);
       !w1.workers[a.worker].disabled && forall k <- w1.steps :: !NotClaimed(w1.steps[k], a)
  }

  /** A running step that the worker does not claim is handed out again, and of several the one that comes first. */
  lemma ResentIsHighest(w: World, a: WorkArgs, c: Choices, now: Time, cfg: Config)
    requires Inv(w) && ValidChoices(w, a, c, now, cfg)
    requires !Prepare(w, a, c.pruneOrder, now, cfg).workers[a.worker].disabled
    ensures var steps, reply := Prepare(w, a, c.pruneOrder, now, cfg).steps, GetWork(w, a, c, now, cfg).1;
            && (c.resend.Some? <==> exists k <- steps :: NotClaimed(steps[k], a))
            && ((exists k <- steps :: NotClaimed(steps[k], a)) ==>
                  && reply.Granted? && reply.id in steps && NotClaimed(steps[reply.id], a)
                  && forall k <- steps :: NotClaimed(steps[k], a) ==> !Outranks(steps[k], steps[reply.id]))
  {
    hide GetWork, Prepare, AtScan;
    var reply := GetWorkShape(w, a, c, now, cfg);
  }

  /** Otherwise the scan decides. */
  lemma GrantByTheRules(w: World, a: WorkArgs, c: Choices, now: Time, cfg: Config)
      returns (q: seq<StepRec>, req: Request, g: Greedy, trace: seq<Greedy>, i: nat)
    requires Inv(w) && AsksForNew(w, a, c, now, cfg)
    ensures var w2 := AtScan(w, a, c, now, cfg);
            && InScanOrder(w2, a.worker, q) && StartsWith(w2, a, Undemanding(w2, a.worker), req, g, now, cfg)
            && ScansTo(w2.steps, req, g, q, trace, i)
            && GetWork(w, a, c, now, cfg).1 == if i == |q| then NoWork else ReplyWith(BatchBehind(w2, a.worker, q, i))
  {
    hide GetWork, Prepare, AtScan, BatchAt;
    ResentIsHighest(w, a, c, now, cfg);
    var reply := GetWorkShape(w, a, c, now, cfg);
    DecisionIsKnown(w, a, c, now, cfg);
    var w2 := AtScan(w, a, c, now, cfg);
    assert Keyed(w2.steps);
    ScanIsInOrder(w2, a, c.scan);
    SetUp(w2, a, now, cfg);
    q, req, g := RecsOf(w2.steps, c.scan), RequestOf(w2, a), GreedyOf(w2, a, now, cfg);
    trace := ScanByTheRules(w2.steps, req, g, q);
    i := Pick(w2.steps, req, g, q, 0);
    hide InScanOrder, StartsWith, ScansTo, Pick, RequestOf, GreedyOf, Undemanding, ValidChoices, Inv, BatchBehind, ReplyFor, ReplyWith;
    if i < |q| {
      RepliesWithBatch(w2, a.worker, q, i);
    }
  }

  // ---------------------------------------------------------------- the highest one

  /** No other of the steps that are ready and may run on the worker comes before the one that is handed out first. */
  predicate IsHighest(steps: Steps, x: WorkerId, id: StepId) {
    && id in steps && ReadyToRun(steps, steps[id]) && x in steps[id].info.workers
    && forall k <- steps :: k != id && ReadyToRun(steps, steps[k]) && x in steps[k].info.workers ==>
         || steps[k].info.priority < steps[id].info.priority
         || (steps[k].info.priority == steps[id].info.priority && steps[k].info.time >= steps[id].info.time)
  }

  /** A worker without demands is handed out the step with the highest priority, and of several the oldest, among all
      pending steps that it may run and whose dependencies are done; it goes away only if there is none. */
  lemma UndemandingGrantIsHighest(w: World, a: WorkArgs, c: Choices, now: Time, cfg: Config)
    requires Inv(w) && AsksForNew(w, a, c, now, cfg)
    requires Undemanding(AtScan(w, a, c, now, cfg), a.worker) && !w.paused
    ensures var steps := AtScan(w, a, c, now, cfg).steps;
            match First(GetWork(w, a, c, now, cfg).1)
            case Some(id) => IsHighest(steps, a.worker, id)
            case None => forall k <- steps :: !(ReadyToRun(steps, steps[k]) && a.worker in steps[k].info.workers)
  {
    hide GetWork, Prepare, AtScan, ValidScan, ValidResend, Inv, InScanOrder, StartsWith, ScansTo, BatchBehind, ReadyToRun, IsHighest, Undemanding, NotClaimed;
    var q, req, g, trace, i := GrantByTheRules(w, a, c, now, cfg);
    var w2 := AtScan(w, a, c, now, cfg);
    AnnouncesAssistant(w, a, c, now, cfg);
    NoAssistant(w2, a.worker);
    BoundOf(w2.steps, req, g, q, trace, i);
    HighestOf(w2, a, q, req, g, trace, i, now, cfg);
    if i < |q| {
      FirstOfBatch(w2, a.worker, q, i);
    }
  }

  lemma NoAssistant(w: World, x: WorkerId)
    requires x in w.workers && Undemanding(w, x)
    ensures !w.workers[x].assistant
  {
  }

  lemma BoundOf(steps: Steps, req: Request, g: Greedy, q: seq<StepRec>, trace: seq<Greedy>, i: nat)
    requires ScansTo(steps, req, g, q, trace, i)
    ensures i <= |q|
  {
  }

  lemma AnnouncesAssistant(w: World, a: WorkArgs, c: Choices, now: Time, cfg: Config)
    requires cfg.pruneOnGetWork ==> Lists(c.pruneOrder, w.steps.Keys)
    ensures var w2 := AtScan(w, a, c, now, cfg);
            (a.assistant ==> w2.workers[a.worker].assistant) && w2.paused == w.paused
  {
    hide PruneLoop;
  }

  lemma HighestOf(w: World, a: WorkArgs, q: seq<StepRec>, req: Request, g: Greedy, trace: seq<Greedy>, i: nat, now: Time, cfg: Config)
    requires a.worker in w.workers && Undemanding(w, a.worker) && !w.paused && !a.assistant
    requires InScanOrder(w, a.worker, q) && StartsWith(w, a, true, req, g, now, cfg) && ScansTo(w.steps, req, g, q, trace, i)
    ensures i < |q| ==> IsHighest(w.steps, a.worker, q[i].id)
    ensures i == |q| ==> forall k <- w.steps :: !(ReadyToRun(w.steps, w.steps[k]) && a.worker in w.steps[k].info.workers)
  {
    forall k | k in w.steps && ReadyToRun(w.steps, w.steps[k]) && a.worker in w.steps[k].info.workers
      ensures exists j :: i <= j < |q| && q[j].id == k
    {
      assert LooksAt(w, a.worker, k);
      var j :| 0 <= j < |q| && q[j].id == k;
      assert Takeable(w.steps, req, trace[j].reserved, q[j]);
    }
  }

  /** Whatever comes before the step that is handed out was passed over because it was not ready, not for the worker,
      or demanded more than is left beside what is used, or beside what the scan had set aside before it. */
  lemma OutrankingWereBlocked(w: World, a: WorkArgs, c: Choices, now: Time, cfg: Config, k: StepId)
      returns (q: seq<StepRec>, req: Request, g: Greedy, trace: seq<Greedy>, i: nat, j: nat)
    requires Inv(w) && AsksForNew(w, a, c, now, cfg)
    requires LooksAt(AtScan(w, a, c, now, cfg), a.worker, k)
    ensures var w2 := AtScan(w, a, c, now, cfg);
            && InScanOrder(w2, a.worker, q) && StartsWith(w2, a, Undemanding(w2, a.worker), req, g, now, cfg)
            && ScansTo(w2.steps, req, g, q, trace, i)
    ensures var w2, first := AtScan(w, a, c, now, cfg), First(GetWork(w, a, c, now, cfg).1);
            && (first.None? <==> i == |q|) && (i < |q| ==> q[i].id == first.value && first.value in w2.steps)
            && (first.None? || Outranks(w2.steps[k], w2.steps[first.value]) ==>
                  && j < i && q[j] == w2.steps[k]
                  && (|| !ReadyToRun(w2.steps, q[j]) || !(a.worker in q[j].info.workers || (a.assistant && q[j].info.runnable))
                      || !Fits(q[j].load.resources, req.used, w2.totals) || !Fits(q[j].load.resources, trace[j].reserved, w2.totals)))
  {
    hide GetWork, Prepare, AtScan, ValidScan, ValidResend, Inv, InScanOrder, StartsWith, ScansTo, BatchBehind, ReadyToRun, Fits, Undemanding, NotClaimed, LooksAt;
    q, req, g, trace, i := GrantByTheRules(w, a, c, now, cfg);
    var w2 := AtScan(w, a, c, now, cfg);
    BoundOf(w2.steps, req, g, q, trace, i);
    if i < |q| {
      FirstOfBatch(w2, a.worker, q, i);
    }
    j := BlockedBefore(w2, a, q, req, g, trace, i, k, now, cfg);
  }

  lemma BlockedBefore(w: World, a: WorkArgs, q: seq<StepRec>, req: Request, g: Greedy, trace: seq<Greedy>, i: nat, k: StepId,
                      now: Time, cfg: Config) returns (j: nat)
    requires a.worker in w.workers && LooksAt(w, a.worker, k) && InScanOrder(w, a.worker, q)
    requires StartsWith(w, a, Undemanding(w, a.worker), req, g, now, cfg) && ScansTo(w.steps, req, g, q, trace, i)
    ensures i < |q| ==> q[i].id in w.steps && w.steps[q[i].id] == q[i]
    ensures i == |q| || Outranks(w.steps[k], q[i]) ==>
              && j < i && q[j] == w.steps[k]
              && (|| !ReadyToRun(w.steps, q[j]) || !(a.worker in q[j].info.workers || (a.assistant && q[j].info.runnable))
                  || !Fits(q[j].load.resources, req.used, w.totals) || !Fits(q[j].load.resources, trace[j].reserved, w.totals))
  {
    hide ReadyToRun, Fits, Passes, Undemanding;
    j :| 0 <= j < |q| && q[j].id == k;
    if j < i {
      assert !Takeable(w.steps, req, trace[j].reserved, q[j]);
    }
  }
}
