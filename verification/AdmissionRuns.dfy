/** Runners of several worktrees interleaved, with crashes: one build at a time, and first come, first served. */
module AdmissionRuns {
  import opened Wrappers
  import opened Admission

  /** Where a runner stands in `main`. From `Waiting` to `Watching` it is inside the `try`. */
  datatype Place = Starting | Waiting | Admitted | Spawned(child: Pid) | Watching(child: Pid) | Leaving | Gone

  /** A runner and how many tickets were queued before its own. */
  datatype Runner = Runner(ticket: Ticket, place: Place, arrival: nat)

  datatype System = System(shared: Shared, runners: map<Pid, Runner>, builds: set<Pid>, alive: set<Pid>,
                           next: Pid, tickets: nat, arrivals: nat)

  datatype Step =
    | Launch
    | Enqueue(r: Pid)
    | Poll(r: Pid, enough: bool)
    | Spawn(r: Pid)
    | Record(r: Pid)
    | Exit(child: Pid)
    | Return(r: Pid)
    | Fail(r: Pid)
    | Leave(r: Pid)
    | Crash(r: Pid)

  const START := System(Shared([], None), map[], {}, {}, 0, 0, 0)

  predicate Live(s: System, r: Pid) {
    r in s.runners && r in s.alive
  }

  predicate At(s: System, r: Pid, place: Place) {
    Live(s, r) && s.runners[r].place == place
  }

  function Moved(s: System, r: Pid, place: Place): System
    requires r in s.runners
  {
    s.(runners := s.runners[r := s.runners[r].(place := place)])
  }

  function Launched(s: System): System {
    s.(runners := s.runners[s.next := Runner(Ticket(s.tickets, s.next), Starting, 0)], alive := s.alive + {s.next},
       next := s.next + 1, tickets := s.tickets + 1)
  }

  function Enqueued(s: System, r: Pid): System {
    if !At(s, r, Starting) then s
    else s.(shared := Queued(s.shared, s.runners[r].ticket),
            runners := s.runners[r := s.runners[r].(place := Waiting, arrival := s.arrivals)],
            arrivals := s.arrivals + 1)
  }

  function PolledBy(s: System, r: Pid, enough: bool): System {
    if !At(s, r, Waiting) then s
    else
      var polled := s.(shared := Polled(s.shared, s.runners[r].ticket, enough, s.alive));
      if Admits(Swept(s.shared, s.alive), s.runners[r].ticket, enough) then Moved(polled, r, Admitted) else polled
  }

  function SpawnedBy(s: System, r: Pid): System {
    if !At(s, r, Admitted) then s
    else Moved(s, r, Spawned(s.next)).(builds := s.builds + {s.next}, alive := s.alive + {s.next}, next := s.next + 1)
  }

  /** Without an active entry the assignment would throw. */
  function RecordedBy(s: System, r: Pid): System {
    if !Live(s, r) || !s.runners[r].place.Spawned? then s
    else if s.shared.active.None? then Moved(s, r, Leaving)
    else Moved(s, r, Watching(s.runners[r].place.child)).(shared := Recorded(s.shared, s.runners[r].place.child))
  }

  function Returned(s: System, r: Pid): System {
    if !Live(s, r) || !s.runners[r].place.Watching? || s.runners[r].place.child in s.alive then s
    else Moved(s, r, Leaving)
  }

  /** An exception leads to the `finally` clause; before the `try` and in that clause it ends the process, as a crash
      does. */
  function Failed(s: System, r: Pid): System {
    if Live(s, r) && s.runners[r].place !in {Starting, Leaving, Gone} then Moved(s, r, Leaving) else s
  }

  function LeftBy(s: System, r: Pid): System {
    if !At(s, r, Leaving) then s
    else Moved(s, r, Gone).(shared := Left(s.shared, s.runners[r].ticket.id, s.alive))
  }

  /** One step; a step that is not possible changes nothing. */
  function Do(s: System, step: Step): System {
    match step
    case Launch => Launched(s)
    case Enqueue(r) => Enqueued(s, r)
    case Poll(r, enough) => PolledBy(s, r, enough)
    case Spawn(r) => SpawnedBy(s, r)
    case Record(r) => RecordedBy(s, r)
    case Exit(child) => if child in s.builds then s.(alive := s.alive - {child}) else s
    case Return(r) => Returned(s, r)
    case Fail(r) => Failed(s, r)
    case Leave(r) => LeftBy(s, r)
    case Crash(r) => if r in s.runners then s.(alive := s.alive - {r}) else s
  }

  /** No failure between starting the child and writing down its process. */
  predicate Careful(s: System, step: Step) {
    (step.Fail? || step.Crash?) && Live(s, step.r) ==> !s.runners[step.r].place.Spawned?
  }

  function Run(steps: seq<Step>): System {
    if steps == [] then START else Do(Run(steps[..|steps| - 1]), steps[|steps| - 1])
  }

  predicate RunCareful(steps: seq<Step>) {
    steps == [] || (RunCareful(steps[..|steps| - 1]) && Careful(Run(steps[..|steps| - 1]), steps[|steps| - 1]))
  }

  /** Process and ticket numbers are never reused. */
  ghost predicate Known(s: System) {
    && (forall p :: p in s.alive ==> p < s.next)
    && (forall r :: r in s.runners ==> r < s.next && s.runners[r].ticket.pid == r && s.runners[r].ticket.id < s.tickets
                                       && r !in s.builds)
    && (forall q, r :: q in s.runners && r in s.runners && q != r ==> s.runners[q].ticket.id != s.runners[r].ticket.id)
    && (forall c :: c in s.builds ==> c < s.next)
  }

  ghost predicate Issued(runners: map<Pid, Runner>, arrivals: nat, t: Ticket) {
    && t.pid in runners && runners[t.pid].ticket == t && runners[t.pid].arrival < arrivals
    && !runners[t.pid].place.Starting?
  }

  /** A ticket in the queue of a live runner is that of one that waits or gives up. */
  ghost predicate Entitled(runners: map<Pid, Runner>, alive: set<Pid>, t: Ticket)
    requires t.pid in runners
  {
    t.pid in alive ==> runners[t.pid].place.Waiting? || runners[t.pid].place.Leaving?
  }

  function Arrival(runners: map<Pid, Runner>, t: Ticket): nat {
    if t.pid in runners then runners[t.pid].arrival else 0
  }

  ghost predicate Rising(runners: map<Pid, Runner>, queue: seq<Ticket>) {
    forall i, j :: 0 <= i < j < |queue| ==> Arrival(runners, queue[i]) < Arrival(runners, queue[j])
  }

  /** The queue holds tickets of runners that queued them, in that order. */
  ghost predicate Ordered(s: System) {
    && (forall t :: t in s.shared.queue ==> Issued(s.runners, s.arrivals, t) && Entitled(s.runners, s.alive, t))
    && Rising(s.runners, s.shared.queue)
  }

  /** A live waiting runner has its ticket in the queue. */
  ghost predicate Queues(s: System) {
    forall r :: Live(s, r) && s.runners[r].place.Waiting? ==> s.runners[r].ticket in s.shared.queue
  }

  /** A live admitted runner owns the slot, and the slot knows its child as soon as that is recorded. */
  ghost predicate Owns(s: System) {
    forall r :: Live(s, r) ==>
      match s.runners[r].place
      case Admitted => s.shared.active == Some(Active(s.runners[r].ticket, None))
      case Spawned(c) => s.shared.active == Some(Active(s.runners[r].ticket, None)) && c in s.builds
      case Watching(c) => s.shared.active == Some(Active(s.runners[r].ticket, Some(c))) && c in s.builds
      case _ => true
  }

  /** Every live build is the slot's recorded child, or the unrecorded one of the slot's live owner. */
  ghost predicate Claimed(s: System) {
    forall c :: c in s.builds && c in s.alive ==>
      && s.shared.active.Some?
      && (s.shared.active.value.child == Some(c)
          || (s.shared.active.value.child.None? && At(s, s.shared.active.value.ticket.pid, Spawned(c))))
  }

  ghost predicate Safe(s: System) {
    Known(s) && Ordered(s) && Queues(s) && Owns(s) && Claimed(s)
  }

  lemma {:induction false} AliveRises(runners: map<Pid, Runner>, queue: seq<Ticket>, alive: set<Pid>)
    requires Rising(runners, queue)
    ensures Rising(runners, OnlyAlive(queue, alive))
  {
    if queue != [] {
      AliveRises(runners, queue[1..], alive);
      var rest := OnlyAlive(queue[1..], alive);
      forall j | 0 <= j < |rest|
        ensures Arrival(runners, queue[0]) < Arrival(runners, rest[j])
      {
        OnlyAliveIs(queue[1..], alive, rest[j]);
        var k :| 0 <= k < |queue[1..]| && queue[1..][k] == rest[j];
        assert queue[k + 1] == rest[j];
      }
    }
  }

  lemma {:induction false} WithoutRises(runners: map<Pid, Runner>, queue: seq<Ticket>, id: nat)
    requires Rising(runners, queue)
    ensures Rising(runners, WithoutTicket(queue, id))
  {
    if queue != [] {
      WithoutRises(runners, queue[1..], id);
      var rest := WithoutTicket(queue[1..], id);
      forall j | 0 <= j < |rest|
        ensures Arrival(runners, queue[0]) < Arrival(runners, rest[j])
      {
        WithoutTicketIs(queue[1..], id, rest[j]);
        var k :| 0 <= k < |queue[1..]| && queue[1..][k] == rest[j];
        assert queue[k + 1] == rest[j];
      }
    }
  }

  lemma SameArrivals(a: map<Pid, Runner>, b: map<Pid, Runner>, queue: seq<Ticket>)
    requires Rising(a, queue) && forall t :: t in queue ==> Arrival(b, t) == Arrival(a, t)
    ensures Rising(b, queue)
  {
    forall i, j | 0 <= i < j < |queue|
      ensures Arrival(b, queue[i]) < Arrival(b, queue[j])
    {
      assert queue[i] in queue && queue[j] in queue;
    }
  }

  /** A step that moves one runner and at most takes tickets out of the queue. */
  lemma OrderKept(s: System, q: System, r: Pid)
    requires Ordered(s) && q.arrivals == s.arrivals && r in s.runners && s.runners.Keys <= q.runners.Keys
    requires forall p :: p in s.runners && p != r ==> q.runners[p] == s.runners[p]
    requires q.runners[r].ticket == s.runners[r].ticket && q.runners[r].arrival == s.runners[r].arrival
    requires s.runners[r].place.Starting? || !q.runners[r].place.Starting?
    requires forall p :: Live(q, p) && p in s.runners ==> p in s.alive
    requires forall t :: t in q.shared.queue ==> t in s.shared.queue
    requires Rising(s.runners, q.shared.queue)
    requires s.runners[r].ticket in q.shared.queue && r in q.alive ==>
               q.runners[r].place.Waiting? || q.runners[r].place.Leaving?
    ensures Ordered(q)
  {
    hide Rising;
    forall t | t in q.shared.queue
      ensures Issued(q.runners, q.arrivals, t) && Entitled(q.runners, q.alive, t)
      ensures Arrival(q.runners, t) == Arrival(s.runners, t)
    {
      assert Issued(s.runners, s.arrivals, t) && Entitled(s.runners, s.alive, t);
    }
    SameArrivals(s.runners, q.runners, q.shared.queue);
  }

  lemma LaunchSafe(s: System)
    requires Safe(s)
    ensures Safe(Launched(s))
  {
    hide Rising;
    var q := Launched(s);
    forall t | t in q.shared.queue
      ensures Issued(q.runners, q.arrivals, t) && Entitled(q.runners, q.alive, t)
      ensures Arrival(q.runners, t) == Arrival(s.runners, t)
    {
      assert Issued(s.runners, s.arrivals, t) && Entitled(s.runners, s.alive, t);
    }
    SameArrivals(s.runners, q.runners, q.shared.queue);
  }

  lemma EnqueueOrdered(s: System, r: Pid)
    requires Known(s) && Ordered(s) && At(s, r, Starting)
    ensures Ordered(Enqueued(s, r))
  {
    var q := Enqueued(s, r);
    var queue, ticket := s.shared.queue, s.runners[r].ticket;
    forall t | t in queue
      ensures Issued(q.runners, q.arrivals, t) && Entitled(q.runners, q.alive, t)
      ensures Arrival(q.runners, t) == Arrival(s.runners, t)
      ensures Arrival(q.runners, t) < Arrival(q.runners, ticket)
    {
      assert Issued(s.runners, s.arrivals, t) && Entitled(s.runners, s.alive, t);
    }
    SameArrivals(s.runners, q.runners, queue);
  }

  lemma EnqueueSafe(s: System, r: Pid)
    requires Safe(s)
    ensures Safe(Enqueued(s, r))
  {
    hide Ordered;
    if At(s, r, Starting) { EnqueueOrdered(s, r); }
  }

  lemma SweptQueue(s: System)
    ensures forall t :: t in Swept(s.shared, s.alive).queue <==> t in s.shared.queue && t.pid in s.alive
  {
    forall t
      ensures t in Swept(s.shared, s.alive).queue <==> t in s.shared.queue && t.pid in s.alive
    {
      OnlyAliveIs(s.shared.queue, s.alive, t);
    }
  }

  /** Sweeping takes neither a live runner's ticket nor the slot of a live build. */
  lemma SweepSafe(s: System)
    requires Safe(s)
    ensures Safe(s.(shared := Swept(s.shared, s.alive)))
  {
    hide Rising;
    var q := s.(shared := Swept(s.shared, s.alive));
    SweptQueue(s);
    AliveRises(s.runners, s.shared.queue, s.alive);
    assert Ordered(q);
    assert Known(q) && Queues(q);
    assert Owns(q) && Claimed(q) by { hide Ordered; }
  }

  function Taken(s: System, r: Pid): System
    requires r in s.runners && s.shared.queue != []
  {
    Moved(s, r, Admitted).(shared := Shared(s.shared.queue[1..], Some(Active(s.runners[r].ticket, None))))
  }

  lemma HeadOnce(runners: map<Pid, Runner>, queue: seq<Ticket>)
    requires Rising(runners, queue) && queue != []
    ensures queue[0] !in queue[1..] && Rising(runners, queue[1..])
    ensures forall t :: t in queue && t != queue[0] ==> t in queue[1..]
  {
    assert queue == [queue[0]] + queue[1..];
    assert forall i :: 0 <= i < |queue[1..]| ==> queue[1..][i] == queue[i + 1];
  }

  lemma AdmitSafe(s: System, r: Pid)
    requires Safe(s) && At(s, r, Waiting) && Admits(s.shared, s.runners[r].ticket, true)
    ensures Safe(Taken(s, r))
  {
    hide Rising;
    var head := s.shared.queue[0];
    assert head in s.shared.queue && Issued(s.runners, s.arrivals, head);
    assert head == s.runners[r].ticket;
    HeadOnce(s.runners, s.shared.queue);
    OrderKept(s, Taken(s, r), r);
    hide Ordered, Issued, Entitled, Taken;
    AdmitOwns(s, r);
  }

  lemma AdmitOwns(s: System, r: Pid)
    requires Known(s) && Queues(s) && Owns(s) && Claimed(s) && At(s, r, Waiting) && s.shared.active.None?
    requires s.shared.queue != []
    requires forall t :: t in s.shared.queue && t != s.runners[r].ticket ==> t in s.shared.queue[1..]
    ensures Known(Taken(s, r)) && Queues(Taken(s, r)) && Owns(Taken(s, r)) && Claimed(Taken(s, r))
  {
  }

  lemma SpawnSafe(s: System, r: Pid)
    requires Safe(s)
    ensures Safe(SpawnedBy(s, r))
  {
    hide Rising;
    if At(s, r, Admitted) {
      var q := SpawnedBy(s, r);
      assert s.runners[r].ticket !in s.shared.queue by { NotQueued(s, r); }
      OrderKept(s, q, r);
      hide Ordered;
    }
  }

  lemma NotQueued(s: System, r: Pid)
    requires Ordered(s) && Known(s) && Live(s, r) && !s.runners[r].place.Waiting? && !s.runners[r].place.Leaving?
    ensures s.runners[r].ticket !in s.shared.queue
  {
    var t := s.runners[r].ticket;
    assert t in s.shared.queue ==> Entitled(s.runners, s.alive, t);
  }

  /** A runner that records its child always finds its own entry active. */
  lemma RecordSafe(s: System, r: Pid)
    requires Safe(s)
    ensures Safe(RecordedBy(s, r))
    ensures Live(s, r) && s.runners[r].place.Spawned? ==>
              s.shared.active.Some? && s.shared.active.value.ticket == s.runners[r].ticket
  {
    hide Rising;
    if Live(s, r) && s.runners[r].place.Spawned? {
      var q := RecordedBy(s, r);
      NotQueued(s, r);
      OrderKept(s, q, r);
      hide Ordered;
      assert Known(q) && Queues(q);
      RecordOwns(s, r);
    }
  }

  lemma RecordOwns(s: System, r: Pid)
    requires Known(s) && Owns(s) && Claimed(s) && Live(s, r) && s.runners[r].place.Spawned?
    ensures Owns(RecordedBy(s, r)) && Claimed(RecordedBy(s, r))
  {
  }

  /** Leaving takes the runner's own ticket out of the queue and no other, and frees the slot exactly when it has the
      runner's number and no live child. */
  lemma LeaveSafe(s: System, r: Pid)
    requires Safe(s)
    ensures Safe(LeftBy(s, r))
    ensures At(s, r, Leaving) ==>
              var q, own := LeftBy(s, r), s.runners[r].ticket;
              && (forall t :: t in q.shared.queue <==> t in s.shared.queue && t != own)
              && (q.shared.active == s.shared.active || q.shared.active.None?)
              && (s.shared.active.Some? ==>
                    (q.shared.active.None? <==>
                     s.shared.active.value.ticket.id == own.id && Idle(s.shared.active.value.child, s.alive)))
  {
    hide Rising;
    if At(s, r, Leaving) {
      var id := s.runners[r].ticket.id;
      WithoutRises(s.runners, s.shared.queue, id);
      forall t
        ensures t in WithoutTicket(s.shared.queue, id) <==> t in s.shared.queue && t.id != id
      {
        WithoutTicketIs(s.shared.queue, id, t);
      }
      forall t | t in s.shared.queue
        ensures t.id == id <==> t == s.runners[r].ticket
      {
        assert Issued(s.runners, s.arrivals, t);
      }
      OrderKept(s, LeftBy(s, r), r);
      hide Ordered;
      assert Known(LeftBy(s, r)) && Queues(LeftBy(s, r));
      LeaveOwns(s, r);
    }
  }

  lemma LeaveOwns(s: System, r: Pid)
    requires Known(s) && Owns(s) && Claimed(s) && At(s, r, Leaving)
    ensures Owns(LeftBy(s, r)) && Claimed(LeftBy(s, r))
  {
    hide WithoutTicket;
  }

  lemma StepAsideSafe(s: System, r: Pid)
    requires Safe(s) && Live(s, r) && s.runners[r].place !in {Starting, Leaving, Gone} && !s.runners[r].place.Spawned?
    ensures Safe(Moved(s, r, Leaving))
  {
    hide Rising;
    OrderKept(s, Moved(s, r, Leaving), r);
    hide Ordered;
  }

  lemma EndSafe(s: System, p: Pid)
    requires Safe(s) && (Live(s, p) ==> !s.runners[p].place.Spawned?)
    ensures Safe(s.(alive := s.alive - {p}))
  {
    hide Rising;
  }

  lemma PollSafe(s: System, r: Pid, enough: bool)
    requires Safe(s)
    ensures Safe(PolledBy(s, r, enough))
  {
    hide Safe;
    var q := s.(shared := Swept(s.shared, s.alive));
    SweepSafe(s);
    if At(s, r, Waiting) && Admits(q.shared, s.runners[r].ticket, enough) { AdmitSafe(q, r); }
  }

  lemma DoSafe(s: System, step: Step)
    requires Safe(s) && Careful(s, step)
    ensures Safe(Do(s, step))
  {
    hide Safe, Launched, Enqueued, PolledBy, SpawnedBy, RecordedBy, LeftBy;
    match step {
      case Launch => LaunchSafe(s);
      case Enqueue(r) => EnqueueSafe(s, r);
      case Poll(r, enough) => PollSafe(s, r, enough);
      case Spawn(r) => SpawnSafe(s, r);
      case Record(r) => RecordSafe(s, r);
      case Exit(child) => if child in s.builds { ChildIsNoRunner(s, child); EndSafe(s, child); }
      case Return(r) => if Returned(s, r) != s { StepAsideSafe(s, r); }
      case Fail(r) => if Failed(s, r) != s { StepAsideSafe(s, r); }
      case Leave(r) => LeaveSafe(s, r);
      case Crash(r) => if r in s.runners { DeadCrash(s, r); }
    }
  }

  lemma ChildIsNoRunner(s: System, child: Pid)
    requires Safe(s) && child in s.builds
    ensures child !in s.runners
  {
  }

  lemma DeadCrash(s: System, r: Pid)
    requires Safe(s) && Careful(s, Crash(r))
    ensures Safe(s.(alive := s.alive - {r}))
  {
    hide Safe;
    EndSafe(s, r);
  }

  /** Every careful run is safe. */
  lemma {:induction false} RunSafe(steps: seq<Step>)
    requires RunCareful(steps)
    ensures Safe(Run(steps))
  {
    hide Do, Careful;
    if steps != [] {
      RunSafe(steps[..|steps| - 1]);
      hide Safe;
      DoSafe(Run(steps[..|steps| - 1]), steps[|steps| - 1]);
    }
  }

  /** The purpose of the runner: at no time are two builds alive. */
  lemma OneBuild(steps: seq<Step>, c: Pid, d: Pid)
    requires RunCareful(steps)
    requires c in Run(steps).builds && c in Run(steps).alive && d in Run(steps).builds && d in Run(steps).alive
    ensures c == d
  {
    hide Run, RunCareful;
    RunSafe(steps);
    assert Claimed(Run(steps));
  }

  lemma Count(queue: seq<Ticket>, runners: map<Pid, Runner>, t: Ticket)
    requires Rising(runners, queue) && t in queue
    ensures multiset(queue)[t] == 1
  {
    var i :| 0 <= i < |queue| && queue[i] == t;
    assert queue == queue[..i] + [t] + queue[i + 1..];
    assert t !in queue[..i] && t !in queue[i + 1..];
  }

  /** A live runner that waits is in the queue exactly once. */
  lemma QueuedOnce(steps: seq<Step>, r: Pid)
    requires RunCareful(steps) && At(Run(steps), r, Waiting)
    ensures multiset(Run(steps).shared.queue)[Run(steps).runners[r].ticket] == 1
  {
    hide Run, RunCareful;
    RunSafe(steps);
    Count(Run(steps).shared.queue, Run(steps).runners, Run(steps).runners[r].ticket);
  }

  lemma HeadIsFirst(s: System, t: Ticket)
    requires Ordered(s) && s.shared.queue != [] && t in s.shared.queue
    ensures Arrival(s.runners, s.shared.queue[0]) <= Arrival(s.runners, t)
  {
    var i :| 0 <= i < |s.shared.queue| && s.shared.queue[i] == t;
    if i > 0 { assert Arrival(s.runners, s.shared.queue[0]) < Arrival(s.runners, s.shared.queue[i]); }
  }

  /** No overtaking: whoever is admitted queued before every other live waiting runner. */
  lemma NoOvertaking(steps: seq<Step>, r: Pid, enough: bool, w: Pid)
    requires RunCareful(steps) && At(Run(steps), r, Waiting) && At(Run(steps), w, Waiting) && w != r
    requires At(Do(Run(steps), Poll(r, enough)), r, Admitted)
    ensures Run(steps).runners[r].arrival < Run(steps).runners[w].arrival
  {
    hide Run, RunCareful, Rising;
    var s := Run(steps);
    RunSafe(steps);
    AdmittedFirst(s, r, enough, w);
  }

  lemma AdmittedFirst(s: System, r: Pid, enough: bool, w: Pid)
    requires Safe(s) && At(s, r, Waiting) && At(s, w, Waiting) && w != r
    requires Admits(Swept(s.shared, s.alive), s.runners[r].ticket, enough)
    ensures s.runners[r].arrival < s.runners[w].arrival
  {
    var q := s.(shared := Swept(s.shared, s.alive));
    SweepSafe(s);
    HeadOfSwept(q, r);
    assert s.runners[w].ticket in q.shared.queue;
    HeadIsFirst(q, s.runners[w].ticket);
    var i :| 0 <= i < |q.shared.queue| && q.shared.queue[i] == s.runners[w].ticket;
    assert i > 0;
  }

  lemma HeadOfSwept(q: System, r: Pid)
    requires Known(q) && Ordered(q) && r in q.runners && q.shared.queue != []
    requires q.shared.queue[0].id == q.runners[r].ticket.id
    ensures q.shared.queue[0] == q.runners[r].ticket
  {
    var head := q.shared.queue[0];
    assert head in q.shared.queue && Issued(q.runners, q.arrivals, head);
  }

  /** Progress: the oldest live waiting runner is admitted by its next poll, with memory enough, as soon as no live
      runner or build holds the slot and no older runner is giving up. */
  lemma OldestIsAdmitted(steps: seq<Step>, r: Pid)
    requires RunCareful(steps)
    requires var s := Run(steps);
             && At(s, r, Waiting)
             && (forall w :: Live(s, w) && (s.runners[w].place.Waiting? || s.runners[w].place.Leaving?) && w != r ==>
                   s.runners[r].arrival < s.runners[w].arrival)
             && (s.shared.active.Some? ==>
                   s.shared.active.value.ticket.pid !in s.alive && Idle(s.shared.active.value.child, s.alive))
    ensures At(Do(Run(steps), Poll(r, true)), r, Admitted)
  {
    hide Run, RunCareful;
    var s := Run(steps);
    RunSafe(steps);
    OldestHeads(s, r);
  }

  lemma OldestHeads(s: System, r: Pid)
    requires Safe(s) && At(s, r, Waiting)
    requires forall w :: Live(s, w) && (s.runners[w].place.Waiting? || s.runners[w].place.Leaving?) && w != r ==>
               s.runners[r].arrival < s.runners[w].arrival
    ensures var q := Swept(s.shared, s.alive); q.queue != [] && q.queue[0].id == s.runners[r].ticket.id
  {
    hide Rising;
    var q := s.(shared := Swept(s.shared, s.alive));
    SweptQueue(s);
    SweepSafe(s);
    var t := s.runners[r].ticket;
    assert t in q.shared.queue;
    HeadIsFirst(q, t);
    var head := q.shared.queue[0];
    assert head in q.shared.queue && Issued(q.runners, q.arrivals, head) && Entitled(q.runners, q.alive, head);
  }

  /** A runner that dies, or that an exception leads through its `finally` clause. */
  function Stopped(s: System, r: Pid, crash: bool): System {
    if crash then Do(s, Crash(r)) else Do(Do(s, Fail(r)), Leave(r))
  }

  /** A runner between starting its child and writing it down, with the child alive, and the next one in the queue. */
  ghost predicate InGap(s: System, r: Pid, w: Pid) {
    && Live(s, r) && s.runners[r].place.Spawned? && s.runners[r].place.child in s.alive
    && At(s, w, Waiting)
    && (forall v :: Live(s, v) && (s.runners[v].place.Waiting? || s.runners[v].place.Leaving?) && v != w ==>
          s.runners[w].arrival < s.runners[v].arrival)
  }

  /** What the assumption is for: if a runner dies or fails between starting its child and writing it down, the next
      runner's poll takes the slot, and its child runs beside the first one. */
  lemma GapDoubles(steps: seq<Step>, r: Pid, w: Pid, crash: bool)
    requires RunCareful(steps) && InGap(Run(steps), r, w)
    ensures var s := Run(steps);
            var q := Do(Do(Stopped(s, r, crash), Poll(w, true)), Spawn(w));
            && s.runners[r].place.child in q.builds && s.runners[r].place.child in q.alive
            && s.next in q.builds && s.next in q.alive && s.next != s.runners[r].place.child
  {
    hide Run, RunCareful, InGap;
    RunSafe(steps);
    StopInGap(Run(steps), r, w, crash);
  }

  lemma StopInGap(s: System, r: Pid, w: Pid, crash: bool)
    requires Safe(s) && InGap(s, r, w)
    ensures var q := Do(Do(Stopped(s, r, crash), Poll(w, true)), Spawn(w));
            && s.runners[r].place.child in q.builds && s.runners[r].place.child in q.alive
            && s.next in q.builds && s.next in q.alive && s.next != s.runners[r].place.child
  {
    assert s.shared.active == Some(Active(s.runners[r].ticket, None)) && s.runners[r].place.child in s.builds;
    OldestHeads(s, w);
    hide WithoutTicket, OnlyAlive;
    StoppedState(s, r, crash);
    hide Safe, Stopped;
    SlotIsTaken(s, Stopped(s, r, crash), w);
  }

  lemma StoppedState(s: System, r: Pid, crash: bool)
    requires Safe(s) && Live(s, r) && s.runners[r].place.Spawned?
    ensures var q := Stopped(s, r, crash);
            && q.builds == s.builds && q.next == s.next && s.alive - {r} <= q.alive
            && (forall v :: v != r && v in s.runners ==> v in q.runners && q.runners[v] == s.runners[v])
            && Swept(q.shared, q.alive) == Shared(OnlyAlive(s.shared.queue, s.alive), None)
  {
    hide Rising, WithoutTicket, OnlyAlive;
    assert s.shared.active == Some(Active(s.runners[r].ticket, None));
    if crash {
      SpawnedIsNotQueued(s, r);
    } else {
      NotQueued(s, r);
      NothingLeaves(s, r);
    }
  }

  lemma SlotIsTaken(s: System, q: System, w: Pid)
    requires At(q, w, Waiting) && Known(s) && q.builds == s.builds && q.next == s.next
    requires var swept := Swept(q.shared, q.alive);
             swept.active.None? && swept.queue != [] && swept.queue[0].id == q.runners[w].ticket.id
    ensures var d := Do(Do(q, Poll(w, true)), Spawn(w));
            d.builds == s.builds + {s.next} && d.alive == q.alive + {s.next} && s.next !in s.builds
  {
  }

  /** A ticket that is not queued leaves nothing behind. */
  lemma NothingLeaves(s: System, r: Pid)
    requires Known(s) && Ordered(s) && r in s.runners && s.runners[r].ticket !in s.shared.queue
    ensures WithoutTicket(s.shared.queue, s.runners[r].ticket.id) == s.shared.queue
  {
    forall t | t in s.shared.queue
      ensures t.id != s.runners[r].ticket.id
    {
      assert Issued(s.runners, s.arrivals, t);
    }
    AllStay(s.shared.queue, s.runners[r].ticket.id);
  }

  lemma {:induction false} AllStay(queue: seq<Ticket>, id: nat)
    requires forall t :: t in queue ==> t.id != id
    ensures WithoutTicket(queue, id) == queue
  {
    if queue != [] {
      assert queue[0] in queue;
      AllStay(queue[1..], id);
      assert queue == [queue[0]] + queue[1..];
    }
  }

  /** The runners 0 and 2, with the child 1 of the first. */
  const GAP := [Launch, Enqueue(0), Poll(0, true), Spawn(0), Launch, Enqueue(2)]

  lemma RunGrows(steps: seq<Step>, step: Step)
    ensures Run(steps + [step]) == Do(Run(steps), step)
    ensures RunCareful(steps + [step]) == (RunCareful(steps) && Careful(Run(steps), step))
  {
    assert (steps + [step])[..|steps + [step]| - 1] == steps;
  }

  /** The first runner admitted, and then the second one behind its child. */
  const HELD := System(Shared([], Some(Active(Ticket(0, 0), None))), map[0 := Runner(Ticket(0, 0), Admitted, 0)],
                       {}, {0}, 1, 1, 1)
  const GAPPED := System(Shared([Ticket(1, 2)], Some(Active(Ticket(0, 0), None))),
                         map[0 := Runner(Ticket(0, 0), Spawned(1), 0), 2 := Runner(Ticket(1, 2), Waiting, 1)],
                         {1}, {0, 1, 2}, 3, 2, 2)

  lemma QueuesFirst()
    ensures Do(Do(START, Launch), Enqueue(0))
         == System(Shared([Ticket(0, 0)], None), map[0 := Runner(Ticket(0, 0), Waiting, 0)], {}, {0}, 1, 1, 1)
  {
    assert {} + {0} == {0};
    assert Do(START, Launch)
        == System(Shared([], None), map[0 := Runner(Ticket(0, 0), Starting, 0)], {}, {0}, 1, 1, 0);
  }

  lemma AdmitsFirst()
    ensures Do(System(Shared([Ticket(0, 0)], None), map[0 := Runner(Ticket(0, 0), Waiting, 0)], {}, {0}, 1, 1, 1),
               Poll(0, true)) == HELD
  {
    assert [Ticket(0, 0)][1..] == [];
    OnlyAliveIs([Ticket(0, 0)], {0}, Ticket(0, 0));
  }

  lemma SpawnsFirst()
    ensures Do(HELD, Spawn(0))
         == HELD.(runners := map[0 := Runner(Ticket(0, 0), Spawned(1), 0)], builds := {1}, alive := {0, 1}, next := 2)
  {
    assert {} + {1} == {1} && {0} + {1} == {0, 1};
  }

  lemma QueuesSecond()
    ensures Do(Do(HELD.(runners := map[0 := Runner(Ticket(0, 0), Spawned(1), 0)], builds := {1}, alive := {0, 1},
                        next := 2), Launch), Enqueue(2)) == GAPPED
  {
    assert {0, 1} + {2} == {0, 1, 2};
  }

  lemma RunReaches(steps: seq<Step>, k: nat)
    requires k < |steps|
    ensures Run(steps[..k + 1]) == Do(Run(steps[..k]), steps[k])
    ensures RunCareful(steps[..k + 1]) == (RunCareful(steps[..k]) && Careful(Run(steps[..k]), steps[k]))
  {
    assert steps[..k + 1][..k] == steps[..k];
  }

  lemma HeldRun()
    ensures RunCareful(GAP[..3]) && Run(GAP[..3]) == HELD
  {
    assert Run(GAP[..0]) == START && RunCareful(GAP[..0]);
    hide Do, Run, RunCareful;
    RunReaches(GAP, 0);
    RunReaches(GAP, 1);
    RunReaches(GAP, 2);
    QueuesFirst();
    AdmitsFirst();
  }

  lemma GapIsReached()
    ensures RunCareful(GAP) && Run(GAP) == GAPPED && InGap(GAPPED, 0, 2)
  {
    hide Do, Run, RunCareful;
    HeldRun();
    RunReaches(GAP, 3);
    RunReaches(GAP, 4);
    RunReaches(GAP, 5);
    SpawnsFirst();
    QueuesSecond();
    assert GAP[..6] == GAP;
  }

  /** And that can happen, from the start and either way: the children 1 and 3 run at once. */
  lemma TwoBuilds(crash: bool)
    ensures var steps := GAP + (if crash then [Crash(0)] else [Fail(0), Leave(0)]) + [Poll(2, true), Spawn(2)];
            {1, 3} <= Run(steps).builds * Run(steps).alive
  {
    hide Do, Run, RunCareful, InGap;
    GapIsReached();
    GapDoubles(GAP, 0, 2, crash);
    var stop := GAP + if crash then [Crash(0)] else [Fail(0), Leave(0)];
    if crash {
      RunGrows(GAP, Crash(0));
    } else {
      RunGrows(GAP, Fail(0));
      RunGrows(GAP + [Fail(0)], Leave(0));
      assert GAP + [Fail(0)] + [Leave(0)] == stop;
    }
    RunGrows(stop, Poll(2, true));
    RunGrows(stop + [Poll(2, true)], Spawn(2));
    assert stop + [Poll(2, true)] + [Spawn(2)] == stop + [Poll(2, true), Spawn(2)];
  }

  lemma SpawnedIsNotQueued(s: System, r: Pid)
    requires Safe(s) && Live(s, r) && s.runners[r].place.Spawned?
    ensures OnlyAlive(s.shared.queue, s.alive - {r}) == OnlyAlive(s.shared.queue, s.alive)
  {
    NotQueued(s, r);
    forall t | t in s.shared.queue
      ensures t.pid != r
    {
      assert Issued(s.runners, s.arrivals, t);
    }
    SameAlive(s.shared.queue, s.alive - {r}, s.alive);
  }

  lemma {:induction false} SameAlive(queue: seq<Ticket>, a: set<Pid>, b: set<Pid>)
    requires forall t :: t in queue ==> (t.pid in a <==> t.pid in b)
    ensures OnlyAlive(queue, a) == OnlyAlive(queue, b)
  {
    if queue != [] {
      assert queue[0] in queue;
      SameAlive(queue[1..], a, b);
    }
  }
}
