/** An account change cancels the sends begun before it, though their calls go on and come back. */
module DraftGenerations {
  import opened Wrappers
  import opened ComposerDrafts
  import opened DraftSafety

  /** The sends of one generation, in order. */
  function Currents(tasks: seq<Task>, generation: nat): seq<Task> {
    if tasks == [] then []
    else
      var last := tasks[|tasks| - 1];
      Currents(tasks[..|tasks| - 1], generation) + if last.epoch == generation then [last] else []
  }

  /** The composer without the sends of earlier generations. */
  function View(c: Composer): Composer {
    c.(tasks := Currents(c.tasks, c.generation))
  }

  /** The send whose awaited call ends in this event. */
  function Target(e: Event): Option<nat> {
    match e
    case Creates(i, _) => Some(i)
    case Opens(i) => Some(i)
    case Returns(i) => Some(i)
    case Throws(i) => Some(i)
    case _ => None
  }

  /** The outcome of a send of an earlier generation. */
  predicate Late(c: Composer, e: Event) {
    Target(e).Some? && !Current(c, Target(e).value)
  }

  /** The event as a composer sees it that runs one send at most. */
  function Renamed(e: Event): Event {
    match e
    case Creates(_, id) => Creates(0, id)
    case Opens(_) => Opens(0)
    case Returns(_) => Returns(0)
    case Throws(_) => Throws(0)
    case _ => e
  }

  lemma {:induction false} CurrentsNone(tasks: seq<Task>, g: nat)
    requires forall j :: 0 <= j < |tasks| ==> tasks[j].epoch != g
    ensures Currents(tasks, g) == []
  {
    if tasks != [] { CurrentsNone(tasks[..|tasks| - 1], g); }
  }

  lemma {:induction false} CurrentsOne(tasks: seq<Task>, g: nat, i: nat)
    requires i < |tasks| && tasks[i].epoch == g
    requires forall j, k :: 0 <= j < k < |tasks| ==> tasks[j].epoch != g || tasks[k].epoch != g
    ensures Currents(tasks, g) == [tasks[i]]
  {
    var rest := tasks[..|tasks| - 1];
    if i == |tasks| - 1 { CurrentsNone(rest, g); } else { CurrentsOne(rest, g, i); }
  }

  lemma CurrentsMore(tasks: seq<Task>, g: nat, task: Task)
    ensures Currents(tasks + [task], g) == Currents(tasks, g) + if task.epoch == g then [task] else []
  {
    assert (tasks + [task])[..|tasks + [task]| - 1] == tasks;
  }

  lemma DroppedBefore(tasks: seq<Task>, i: nat)
    requires i < |tasks| - 1
    ensures Dropped(tasks, i) == Dropped(tasks[..|tasks| - 1], i) + [tasks[|tasks| - 1]]
  {
  }

  lemma DroppedLast(tasks: seq<Task>)
    requires tasks != []
    ensures Dropped(tasks, |tasks| - 1) == tasks[..|tasks| - 1]
  {
  }

  lemma {:induction false} CurrentsDropped(tasks: seq<Task>, g: nat, i: nat)
    requires i < |tasks| && tasks[i].epoch != g
    ensures Currents(Dropped(tasks, i), g) == Currents(tasks, g)
  {
    var rest, last := tasks[..|tasks| - 1], tasks[|tasks| - 1];
    hide Dropped, Currents;
    if i == |tasks| - 1 {
      assert Dropped(tasks, i) == rest by { DroppedLast(tasks); }
      CurrentsMore(rest, g, last);
      assert rest + [last] == tasks;
    } else {
      CurrentsDropped(rest, g, i);
      DroppedBefore(tasks, i);
      CurrentsMore(Dropped(rest, i), g, last);
      CurrentsMore(rest, g, last);
      assert rest + [last] == tasks;
    }
  }

  /** A send of an earlier generation ends without a trace, whatever its call returns. */
  lemma LateIsMute(c: Composer, e: Event)
    requires Late(c, e)
    ensures View(Step(c, e)) == View(c)
  {
    hide Dropped, Currents;
    var i := Target(e).value;
    if i < |c.tasks| {
      StaleSendsAreMute(c, i, if e.Creates? then e.session else 0);
      CurrentsDropped(c.tasks, c.generation, i);
    }
  }

  /** A composer with these sends instead. */
  function Having(c: Composer, tasks: seq<Task>): Composer {
    c.(tasks := tasks)
  }

  lemma UserFrame(c: Composer, tasks: seq<Task>, e: Event)
    requires Target(e).None? && !e.Begins?
    ensures Step(Having(c, tasks), e) == Having(Step(c, e), tasks) && Step(c, e).tasks == c.tasks
    ensures Step(c, e).generation == if e.Resets? then c.generation + 1 else c.generation
  {
    hide Merged, Remaining;
  }

  lemma {:induction false} CurrentsTwice(tasks: seq<Task>, g: nat)
    ensures Currents(Currents(tasks, g), g) == Currents(tasks, g)
    ensures forall j :: 0 <= j < |Currents(tasks, g)| ==> Currents(tasks, g)[j].epoch == g
  {
    if tasks != [] {
      CurrentsTwice(tasks[..|tasks| - 1], g);
      var before, last := Currents(tasks[..|tasks| - 1], g), tasks[|tasks| - 1];
      if last.epoch == g {
        CurrentsMore(before, g, last);
        assert Currents(tasks, g) == before + [last];
      } else {
        assert Currents(tasks, g) == before;
      }
    }
  }

  lemma UserView(c: Composer, e: Event)
    requires Shape(c) && Target(e).None? && !e.Begins?
    ensures View(Step(c, e)) == View(Step(View(c), e))
  {
    var kept := Currents(c.tasks, c.generation);
    UserFrame(c, kept, e);
    hide Step;
    CurrentsTwice(c.tasks, c.generation);
    if e.Resets? {
      CurrentsNone(c.tasks, c.generation + 1);
      CurrentsNone(kept, c.generation + 1);
    }
  }

  lemma BeginView(c: Composer, ready: bool)
    ensures View(Step(c, Begins(ready))) == View(Step(View(c), Begins(ready)))
  {
    var g := c.generation;
    CurrentsTwice(c.tasks, g);
    hide Currents, HasMessage;
    assert HasMessage(View(c)) == HasMessage(c) by { MessageFrame(c, View(c)); }
    if ready && !c.busy && HasMessage(c) {
      var q := Began(c, ready);
      CurrentsMore(c.tasks, g, q.tasks[|c.tasks|]);
      CurrentsMore(View(c).tasks, g, q.tasks[|c.tasks|]);
    }
  }

  lemma MessageFrame(c: Composer, q: Composer)
    requires q.drafts == c.drafts && q.files == c.files && q.selected == c.selected
    ensures HasMessage(q) == HasMessage(c)
  {
  }

  /** How the outcome of the running send leaves the tasks: the send has ended, gone on, or the outcome was none. */
  ghost predicate Leaves(c: Composer, i: nat, q: Composer, r: Composer)
    requires Current(c, i)
  {
    (q.tasks == Dropped(c.tasks, i) && r.tasks == []) || (q.tasks == c.tasks && r.tasks == [c.tasks[i]])
    || exists task: Task :: task.epoch == c.generation && q.tasks == c.tasks[i := task] && r.tasks == [task]
  }

  lemma CreateFrame(c: Composer, i: nat, id: Id)
    requires Current(c, i)
    ensures var q, r := Created(c, i, id), Created(Having(c, [c.tasks[i]]), 0, id);
            r == Having(q, r.tasks) && q.generation == c.generation && Leaves(c, i, q, r)
  {
    var d, task := Having(c, [c.tasks[i]]), c.tasks[i];
    if Waits(c, i, Creating) {
      var later := task.(stage := Opening(id));
      assert [task][0 := later] == [later];
      assert later.epoch == c.generation;
      if task.selectionEpoch == c.selectionGeneration {
        assert Followed(d, task, id) == Having(Followed(c, task, id), d.tasks);
      } else {
        hide Remaining;
        assert Parted(d, task, id) == Having(Parted(c, task, id), d.tasks);
      }
    }
  }

  lemma OpenFrame(c: Composer, i: nat)
    requires Current(c, i)
    ensures var q, r := Opened(c, i), Opened(Having(c, [c.tasks[i]]), 0);
            r == Having(q, r.tasks) && q.generation == c.generation && Leaves(c, i, q, r)
  {
    var task := c.tasks[i];
    if task.stage.Opening? {
      var later := task.(stage := Sending(task.stage.session));
      assert [task][0 := later] == [later];
      assert later.epoch == c.generation;
    }
  }

  lemma ReturnFrame(c: Composer, i: nat)
    requires Current(c, i)
    ensures var q, r := Returned(c, i), Returned(Having(c, [c.tasks[i]]), 0);
            r == Having(q, r.tasks) && q.generation == c.generation && Leaves(c, i, q, r)
  {
    hide Remaining;
    var d, task := Having(c, [c.tasks[i]]), c.tasks[i];
    if task.stage.Sending? { assert Delivered(d, task) == Having(Delivered(c, task), d.tasks); }
  }

  lemma ThrowFrame(c: Composer, i: nat)
    requires Current(c, i)
    ensures var q, r := Threw(c, i), Threw(Having(c, [c.tasks[i]]), 0);
            r == Having(q, r.tasks) && q.generation == c.generation && Leaves(c, i, q, r)
  {
  }

  lemma OutcomeFrame(c: Composer, e: Event, i: nat)
    requires Target(e) == Some(i) && Current(c, i)
    ensures var q, r := Step(c, e), Step(Having(c, [c.tasks[i]]), Renamed(e));
            r == Having(q, r.tasks) && q.generation == c.generation && Leaves(c, i, q, r)
  {
    hide Created, Opened, Returned, Threw, Leaves;
    match e {
      case Creates(_, id) => CreateFrame(c, i, id);
      case Opens(_) => OpenFrame(c, i);
      case Returns(_) => ReturnFrame(c, i);
      case Throws(_) => ThrowFrame(c, i);
    }
  }

  lemma OutcomeView(c: Composer, e: Event, i: nat)
    requires Shape(c) && Target(e) == Some(i) && Current(c, i)
    ensures View(Step(c, e)) == View(Step(View(c), Renamed(e)))
  {
    var g, task := c.generation, c.tasks[i];
    CurrentsOne(c.tasks, g, i);
    OutcomeFrame(c, e, i);
    var q, r := Step(c, e), Step(View(c), Renamed(e));
    hide Step;
    if q.tasks == Dropped(c.tasks, i) && r.tasks == [] {
      CurrentsNone(q.tasks, g);
    } else if q.tasks == c.tasks && r.tasks == [task] {
      CurrentsOne(r.tasks, g, 0);
    } else {
      var later: Task :| later.epoch == g && q.tasks == c.tasks[i := later] && r.tasks == [later];
      CurrentsOne(q.tasks, g, i);
      CurrentsOne(r.tasks, g, 0);
    }
  }

  /** Every other event acts on the composer without the sends of earlier generations as it does on the whole. */
  lemma StepView(c: Composer, e: Event)
    requires Shape(c) && !Late(c, e)
    ensures View(Step(c, e)) == View(Step(View(c), Renamed(e)))
  {
    hide Shape, View, Step;
    if Target(e).Some? {
      OutcomeView(c, e, Target(e).value);
    } else if e.Begins? {
      BeginView(c, e.ready);
    } else {
      UserView(c, e);
    }
  }

  lemma UserShape(c: Composer, e: Event)
    requires Shape(c) && Target(e).None? && !e.Begins?
    ensures Shape(Step(c, e))
  {
    hide Merged, Remaining, CurrentTask;
    if e.Resets? { assert CurrentTask(c.tasks, c.generation + 1).None?; }
  }

  lemma BeginShape(c: Composer, ready: bool)
    requires Shape(c)
    ensures Shape(Step(c, Begins(ready)))
  {
    hide HasMessage;
    var q := Began(c, ready);
    if q != c { CurrentIs(q.tasks, q.generation, |c.tasks|); }
  }

  lemma CreateShape(c: Composer, i: nat, id: Id)
    requires Shape(c) && Waits(c, i, Creating)
    ensures Shape(Created(c, i, id))
  {
    hide Dropped, Remaining, CurrentTask;
    var q := Created(c, i, id);
    if Current(c, i) { StagedShape(c, q, i, q.tasks[i]); } else { DroppedShape(c, q, i); }
  }

  lemma OutcomeShape(c: Composer, e: Event, i: nat)
    requires Shape(c) && Target(e) == Some(i)
    ensures Shape(Step(c, e))
  {
    hide Dropped, Remaining, CurrentTask;
    hide Created;
    var q := Step(c, e);
    match e {
      case Creates(_, id) => if Waits(c, i, Creating) { CreateShape(c, i, id); } else { NoCreation(c, i, id); }
      case Opens(_) => if i < |c.tasks| && c.tasks[i].stage.Opening? {
        if Current(c, i) { StagedShape(c, q, i, q.tasks[i]); } else { DroppedShape(c, q, i); }
      }
      case Returns(_) => if i < |c.tasks| && c.tasks[i].stage.Sending? { DroppedShape(c, q, i); }
      case Throws(_) => if i < |c.tasks| { DroppedShape(c, q, i); }
    }
  }

  /** At most one send is of the present generation, whatever happens. */
  lemma StepShape(c: Composer, e: Event)
    requires Shape(c)
    ensures Shape(Step(c, e))
  {
    hide Shape, Step;
    if Target(e).Some? {
      OutcomeShape(c, e, Target(e).value);
    } else if e.Begins? {
      BeginShape(c, e.ready);
    } else {
      UserShape(c, e);
    }
  }

  lemma EmptyView()
    ensures Shape(EMPTY) && View(EMPTY) == EMPTY
  {
  }

  /** The events of a run without the outcomes of sends of earlier generations. */
  function Timely(events: seq<Event>): seq<Event> {
    if events == [] then []
    else
      var before, e := events[..|events| - 1], events[|events| - 1];
      Timely(before) + if Late(Run(before), e) then [] else [Renamed(e)]
  }

  /** A run of a composer that cancels its sends at every account change. */
  function CancellingRun(events: seq<Event>): Composer {
    if events == [] then EMPTY else View(Step(CancellingRun(events[..|events| - 1]), events[|events| - 1]))
  }

  /** An account change cancels the sends begun before it: the composer, up to those sends, goes through every run as
      one does that has forgotten them and to which their outcomes do not happen. */
  lemma {:induction false} AccountChangeCancels(events: seq<Event>)
    ensures Shape(Run(events)) && View(Run(events)) == CancellingRun(Timely(events))
  {
    hide Shape, Step, View, Late;
    if events == [] {
      EmptyView();
    } else {
      var before, e := events[..|events| - 1], events[|events| - 1];
      AccountChangeCancels(before);
      StepShape(Run(before), e);
      if Late(Run(before), e) {
        LateIsMute(Run(before), e);
        assert Timely(events) == Timely(before);
      } else {
        StepView(Run(before), e);
        assert (Timely(before) + [Renamed(e)])[..|Timely(before) + [Renamed(e)]| - 1] == Timely(before);
      }
    }
  }
}
