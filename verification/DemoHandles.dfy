/** Which handles a commit may come with. It looks its row up by the handle and its lease up by the lease. */
module DemoHandles {
  import opened Whitespace
  import opened Wrappers
  import opened DemoPeer
  import opened DemoIds
  import opened DemoLeases
  import opened DemoLedger
  import opened DemoRuns
  import opened DemoTheorems

  predicate Stands(p: Peer, session: Id, row: Id) {
    session in p.sessions && exists r :: r in p.sessions[session].queue && r.id == row
  }

  /** Some other lease, expired or not, names the row of this one. */
  ghost predicate OtherwiseLeased(p: Peer, lease: Id)
    requires lease in p.edits
  {
    exists l :: l != lease && Names(p.edits, l, p.edits[lease].session, p.edits[lease].row)
  }

  /** The row of the handle, once free, is delivered by the commit itself. */
  predicate GoesAtOnce(p: Peer, edit: Edit)
    requires edit.session in p.sessions
  {
    var state := p.sessions[edit.session];
    && edit.session !in p.paused && !state.working && state.input.None?
    && state.queue != [] && state.queue[0].id == edit.row
  }

  /** The handle names the row of its lease, or else leaves that row to another lease and frees one that no unexpired
      lease holds or that goes at once. */
  ghost predicate Harmless(p: Peer, edit: Edit)
    requires Current(p, edit)
  {
    || p.edits[edit.lease].row == edit.row
    || ((!Stands(p, edit.session, p.edits[edit.lease].row) || OtherwiseLeased(p, edit.lease))
        && (!Leased(p, edit.session, edit.row) || GoesAtOnce(p, edit)))
  }

  lemma CommittedRows(p: Peer, edit: Edit, text: Option<string>, s: Id, r: Row)
    requires Ids(p) && Current(p, edit)
    requires s in Committed(p, edit, text).sessions && r in Committed(p, edit, text).sessions[s].queue
    ensures s in p.sessions
    ensures if s == edit.session && r.id == edit.row then !r.blocked else r in p.sessions[s].queue
  {
    var queue := p.sessions[edit.session].queue;
    var i := RowAt(queue, edit.row).value;
    assert Clean(queue, p.sessions[edit.session].messages, p.nextID);
  }

  /** The freed row stays in the queue unless it goes at once. */
  lemma FreedStays(p: Peer, edit: Edit, text: Option<string>)
    requires Ids(p) && Current(p, edit)
    ensures var q := Drain(Committed(p, edit, text), edit.session);
            Stands(q, edit.session, edit.row) <==> !GoesAtOnce(p, edit)
  {
    var s, c := edit.session, Committed(p, edit, text);
    var queue := p.sessions[s].queue;
    var i := RowAt(queue, edit.row).value;
    assert Clean(queue, p.sessions[s].messages, p.nextID);
    var freed := c.sessions[s].queue[i];
    assert freed.id == edit.row && freed in c.sessions[s].queue;
    DrainLeaves(c, s);
    var q := Drain(c, s);
    hide Drain, Committed, Clean, Ids;
    if GoesAtOnce(p, edit) {
      assert i == 0;
    } else if i > 0 {
      assert c.sessions[s].queue[1..][i - 1] == freed;
    }
  }

  lemma DrainLeaves(c: Peer, s: Id)
    requires s in c.sessions
    ensures s in Drain(c, s).sessions
    ensures Drain(c, s).sessions[s].queue
         == if Deliverable(c, s) then c.sessions[s].queue[1..] else c.sessions[s].queue
  {
  }

  lemma FreeRowKeeps(edits: map<Id, Edit>, clock: int, lease: Id, s: Id, r: Row)
    requires !r.blocked && forall l :: Names(edits, l, s, r.id) ==> !Live(edits, clock, l)
    ensures Protected(edits - {lease}, clock, s, r) && Accounted(edits - {lease}, s, r)
  {
    assert forall l :: Names(edits - {lease}, l, s, r.id) ==> Names(edits, l, s, r.id);
  }

  lemma OtherRowKeeps(edits: map<Id, Edit>, clock: int, lease: Id, s: Id, r: Row)
    requires Protected(edits, clock, s, r) && Accounted(edits, s, r)
    requires Names(edits, lease, s, r.id) ==> exists l :: l != lease && Names(edits, l, s, r.id)
    ensures Protected(edits - {lease}, clock, s, r) && Accounted(edits - {lease}, s, r)
  {
    assert forall l :: Names(edits - {lease}, l, s, r.id) ==> Names(edits, l, s, r.id);
    if r.blocked {
      var l :| l != lease && Names(edits, l, s, r.id);
      assert Names(edits - {lease}, l, s, r.id);
    }
  }

  lemma NoLiveLease(p: Peer, s: Id, row: Id)
    requires !Leased(p, s, row)
    ensures forall l :: Names(p.edits, l, s, row) ==> !Live(p.edits, p.clock, l)
  {
  }

  lemma CommitEdits(p: Peer, edit: Edit, text: Option<string>)
    requires Current(p, edit)
    ensures var c := Committed(p, edit, text);
            c.edits == p.edits - {edit.lease} && c.clock == p.clock && c.nextID == p.nextID
  {
  }

  lemma CommitKeeps(p: Peer, edit: Edit, text: Option<string>)
    requires Leases(p) && Ids(p) && Current(p, edit) && Harmless(p, edit)
    ensures Leases(Drain(Committed(p, edit, text), edit.session))
  {
    var c, saved := Committed(p, edit, text), p.edits[edit.lease];
    var q := Drain(c, edit.session);
    DrainShrinks(c, edit.session);
    if saved.row == edit.row {
      CommittedLeases(p, edit, text);
      ShrinksKeeps(c, q);
    } else {
      FreedStays(p, edit, text);
      CommitEdits(p, edit, text);
      FewerLeases(p.edits, p.clock, p.nextID, {edit.lease});
      hide Drain, Committed, GoesAtOnce, Ids, Protected, Accounted, Register, Leased;
      forall s, r | s in q.sessions && r in q.sessions[s].queue
        ensures Protected(q.edits, q.clock, s, r) && Accounted(q.edits, s, r)
      {
        assert s in c.sessions && r in c.sessions[s].queue;
        CommittedRows(p, edit, text, s, r);
        if s == edit.session && r.id == edit.row {
          assert Stands(q, s, edit.row);
          NoLiveLease(p, s, edit.row);
          FreeRowKeeps(p.edits, p.clock, edit.lease, s, r);
        } else {
          if Names(p.edits, edit.lease, s, r.id) { assert Stands(p, s, saved.row); }
          OtherRowKeeps(p.edits, p.clock, edit.lease, s, r);
        }
      }
      assert Register(q.edits, q.clock, q.nextID) by { LaterRegister(c.edits, c.clock, c.nextID, q.nextID); }
    }
  }

  lemma LaterRegister(edits: map<Id, Edit>, clock: int, next: Id, later: Id)
    requires Register(edits, clock, next) && next <= later
    ensures Register(edits, clock, later)
  {
  }

  /** A freed row under an unexpired lease breaks the register as long as it stays. */
  lemma ExposedBreaks(p: Peer, edit: Edit, text: Option<string>)
    requires Leases(p) && Ids(p) && Current(p, edit) && p.edits[edit.lease].row != edit.row
    requires Leased(p, edit.session, edit.row) && !GoesAtOnce(p, edit)
    ensures !Leases(Drain(Committed(p, edit, text), edit.session))
  {
    var s, c := edit.session, Committed(p, edit, text);
    var q := Drain(c, s);
    DrainShrinks(c, s);
    FreedStays(p, edit, text);
    CommitEdits(p, edit, text);
    hide Drain, Committed, GoesAtOnce, Ids, Accounted, Register;
    var r :| r in q.sessions[s].queue && r.id == edit.row;
    assert r in c.sessions[s].queue;
    CommittedRows(p, edit, text, s, r);
    var l :| l in p.edits && p.edits[l].session == s && p.edits[l].row == edit.row && p.edits[l].expires > p.clock;
    assert Names(q.edits, l, s, r.id) && Live(q.edits, q.clock, l);
    assert !Protected(q.edits, q.clock, s, r);
  }

  /** Exactly when a commit that succeeds keeps the lease register, whatever its handle says. */
  lemma CommitKeepsLeases(p: Peer, edit: Edit, text: Option<string>)
    requires Leases(p) && Ids(p) && FinishEdit(p, edit, text).1.None?
    ensures Current(p, edit)
    ensures Leases(FinishEdit(p, edit, text).0) <==> Harmless(p, edit)
  {
    CommitIs(p, edit, text);
    hide FinishEdit, Drain, Committed, GoesAtOnce, Ids, Leases, Leased, RowAt;
    var saved := p.edits[edit.lease];
    if Harmless(p, edit) {
      CommitKeeps(p, edit, text);
    } else if Stands(p, edit.session, saved.row) && !OtherwiseLeased(p, edit.lease) {
      var row :| row in p.sessions[edit.session].queue && row.id == saved.row;
      ForeignHandleStrands(p, edit, text, row);
    } else {
      ExposedBreaks(p, edit, text);
    }
  }

  lemma CommitIs(p: Peer, edit: Edit, text: Option<string>)
    requires FinishEdit(p, edit, text).1.None?
    ensures Current(p, edit) && FinishEdit(p, edit, text).0 == Drain(Committed(p, edit, text), edit.session)
  {
    hide Drain, Committed, Trim;
  }

  /** The new session `s` of a peer that has begun a turn there and queued the given rows. */
  ghost predicate Working(p: Peer, q: Peer, s: Id, queue: seq<Row>) {
    && q.active && q.script == p.script && q.edits == p.edits && q.clock == p.clock && s == p.nextID < q.nextID
    && s !in q.paused && s in q.sessions && q.sessions[s].working && q.sessions[s].input.None?
    && q.sessions[s].queue == queue
  }

  lemma FirstSend(p: Peer, text: string)
    requires p.active && Trim(text) != ""
    ensures Working(p, Send(Create(p, true).0, p.nextID, text, [], Queue), p.nextID, [])
  {
    hide Trim;
  }

  lemma NextSend(p: Peer, q: Peer, s: Id, queue: seq<Row>, text: string)
    requires Working(p, q, s, queue) && Trim(text) != ""
    ensures var r := Send(q, s, text, [], Queue);
            Working(p, r, s, queue + [Row(q.nextID, Trim(text), [], false, false)]) && r.nextID == q.nextID + 1
  {
    hide Trim;
    assert Sent(s, []) == [] && Paths([]) == [];
  }

  /** The first of two rows that say the same is taken for editing, and the handle made to name the second. */
  lemma Forging(p: Peer, q: Peer, s: Id, queue: seq<Row>)
    requires Leases(p) && Working(p, q, s, queue) && |queue| == 2
    requires p.nextID <= queue[0].id < queue[1].id && queue[0].text == queue[1].text && !queue[0].blocked
    ensures var (r, granted, _) := Begin(q, s, queue[0].id);
            granted.Some?
            && var forged := granted.value.(row := queue[1].id);
               Current(r, forged) && FinishEdit(r, forged, None).1.None? && !Harmless(r, forged)
  {
    hide Drain, Trim;
    assert RowAt(queue, queue[0].id) == Some(0);
    assert forall l :: l in q.edits ==> q.edits[l].row < p.nextID;
    assert !Leased(q, s, queue[0].id);
    var (r, granted, _) := Begin(q, s, queue[0].id);
    var forged := granted.value.(row := queue[1].id);
    assert r.sessions[s].queue[0] == queue[0].(blocked := true) && r.sessions[s].queue[1] == queue[1];
    assert Stands(r, s, queue[0].id) by { assert r.sessions[s].queue[0] in r.sessions[s].queue; }
    assert !OtherwiseLeased(r, forged.lease);
  }

  lemma RunGrows(p: Peer, events: seq<Event>, e: Event)
    ensures Run(p, events + [e]) == Step(Run(p, events), e)
    ensures RunAllowed(p, events + [e]) <==> RunAllowed(p, events) && Allowed(Run(p, events), e)
  {
    assert (events + [e])[..|events + [e]| - 1] == events;
  }

  /** A new session, a message that begins a turn, and two more that wait for its end. */
  function TwoWaiting(p: Peer, text: string): seq<Event> {
    var send := Sends(p.nextID, text, [], Queue);
    [Creates(true)] + [send] + [send] + [send]
  }

  lemma WaitingRun(p: Peer, text: string)
    ensures RunAllowed(p, TwoWaiting(p, text))
    ensures var s := p.nextID;
            var one := Send(Create(p, true).0, s, text, [], Queue);
            Run(p, TwoWaiting(p, text)) == Send(Send(one, s, text, [], Queue), s, text, [], Queue)
  {
    var send := Sends(p.nextID, text, [], Queue);
    assert Run(p, []) == p && RunAllowed(p, []) && [] + [Creates(true)] == [Creates(true)];
    assert forall q :: Step(q, send) == Send(q, p.nextID, text, [], Queue) && Allowed(q, send);
    assert Step(p, Creates(true)) == Create(p, true).0 && Allowed(p, Creates(true));
    hide Run, RunAllowed, Step, Allowed, Send, Create;
    RunGrows(p, [], Creates(true));
    RunGrows(p, [Creates(true)], send);
    RunGrows(p, [Creates(true)] + [send], send);
    RunGrows(p, [Creates(true)] + [send] + [send], send);
  }

  lemma Waits(p: Peer, text: string)
    requires p.active && Trim(text) != ""
    ensures exists a: Id, b: Id :: p.nextID <= a < b && Working(p, Run(p, TwoWaiting(p, text)), p.nextID,
              [Row(a, Trim(text), [], false, false), Row(b, Trim(text), [], false, false)])
  {
    WaitingRun(p, text);
    hide Run, TwoWaiting, Send, Create, Trim;
    var s := p.nextID;
    var one := Send(Create(p, true).0, s, text, [], Queue);
    var two := Send(one, s, text, [], Queue);
    var first, second := Row(one.nextID, Trim(text), [], false, false), Row(two.nextID, Trim(text), [], false, false);
    FirstSend(p, text);
    NextSend(p, one, s, [], text);
    assert [] + [first] == [first] && [first] + [second] == [first, second];
    NextSend(p, two, s, [first], text);
  }

  /** And such a handle can come up in every active peer: two messages wait that say the same, the first is taken for
      editing, and the commit comes with a handle made to name the second. */
  lemma HandleCanStrand(p: Peer, sent: Ledger, text: string)
    requires Inv(p, sent) && p.active && Trim(text) != ""
    ensures var q, s := Run(p, TwoWaiting(p, text)), p.nextID;
            && RunAllowed(p, TwoWaiting(p, text)) && s in q.sessions && |q.sessions[s].queue| == 2
            && var queue := q.sessions[s].queue;
               var (r, granted, _) := Begin(q, s, queue[0].id);
               && granted.Some?
               && var forged := granted.value.(row := queue[1].id);
                  FinishEdit(r, forged, None).1.None? && !Leases(FinishEdit(r, forged, None).0)
  {
    var events, s := TwoWaiting(p, text), p.nextID;
    WaitingRun(p, text);
    Waits(p, text);
    hide Trim, TwoWaiting, Run, RunAllowed, FinishEdit, Begin, Harmless, Ids, Leases;
    var q := Run(p, events);
    var a: Id, b: Id :| p.nextID <= a < b && Working(p, q, s,
      [Row(a, Trim(text), [], false, false), Row(b, Trim(text), [], false, false)]);
    var queue := [Row(a, Trim(text), [], false, false), Row(b, Trim(text), [], false, false)];
    RunHolds(p, sent, events);
    Forging(p, q, s, queue);
    BeginHolds(q, RunLedger(p, sent, events), s, a);
    var (r, granted, _) := Begin(q, s, a);
    CommitKeepsLeases(r, granted.value.(row := b), None);
  }

  lemma BeginHolds(p: Peer, sent: Ledger, s: Id, row: Id)
    requires Inv(p, sent)
    ensures Leases(Begin(p, s, row).0) && Ids(Begin(p, s, row).0)
  {
    hide Leases, Ids, Begin;
    BeginLeases(p, s, row);
    BeginIds(p, s, row);
  }
}
