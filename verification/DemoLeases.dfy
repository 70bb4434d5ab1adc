/** Edit leases: a queued row under an unexpired lease is blocked, has one such lease, and keeps its text. */
module DemoLeases {
  import opened Whitespace
  import opened Wrappers
  import opened DemoPeer
  import opened DemoIds

  ghost predicate Names(edits: map<Id, Edit>, l: Id, session: Id, row: Id) {
    l in edits && edits[l].session == session && edits[l].row == row
  }

  ghost predicate Live(edits: map<Id, Edit>, clock: int, l: Id) {
    l in edits && edits[l].expires > clock
  }

  /** A row under an unexpired lease is blocked and reads as it did when the lease was granted. */
  ghost predicate Protected(edits: map<Id, Edit>, clock: int, session: Id, row: Row) {
    forall l :: Names(edits, l, session, row.id) && Live(edits, clock, l) ==> row.blocked && row.text == edits[l].text
  }

  /** A blocked row has some lease, expired or not. */
  ghost predicate Accounted(edits: map<Id, Edit>, session: Id, row: Row) {
    row.blocked ==> exists l :: Names(edits, l, session, row.id)
  }

  ghost predicate RowsLeased(edits: map<Id, Edit>, clock: int, session: Id, queue: seq<Row>) {
    forall r :: r in queue ==> Protected(edits, clock, session, r) && Accounted(edits, session, r)
  }

  /** Every lease has its own key and an issued row; no row has two unexpired leases. */
  ghost predicate Register(edits: map<Id, Edit>, clock: int, next: Id) {
    && (forall l :: l in edits ==> edits[l].lease == l && l < next && edits[l].row < next)
    && (forall l, m :: Live(edits, clock, l) && Live(edits, clock, m) && l != m ==>
          edits[l].session != edits[m].session || edits[l].row != edits[m].row)
  }

  ghost predicate Leases(p: Peer) {
    && Register(p.edits, p.clock, p.nextID)
    && forall s :: s in p.sessions ==> RowsLeased(p.edits, p.clock, s, p.sessions[s].queue)
  }

  /** A handle the machine issued: its lease is either gone or still says the same. */
  ghost predicate Issued(p: Peer, edit: Edit) {
    edit.lease < p.nextID && (edit.lease in p.edits ==>
          p.edits[edit.lease] == edit.(expires := p.edits[edit.lease].expires))
  }

  /** No lease changes and queues at most lose rows. */
  ghost predicate Shrinks(p: Peer, q: Peer) {
    && q.edits == p.edits && q.clock == p.clock && p.nextID <= q.nextID && q.sessions.Keys == p.sessions.Keys
    && forall s, r :: s in q.sessions && r in q.sessions[s].queue ==> r in p.sessions[s].queue
  }

  ghost predicate KeepsBlocked(p: Peer, q: Peer) {
    p.sessions.Keys <= q.sessions.Keys
    && forall s, r :: s in p.sessions && r in p.sessions[s].queue && r.blocked ==> r in q.sessions[s].queue
  }

  lemma ShrinksKeeps(p: Peer, q: Peer)
    requires Leases(p) && Shrinks(p, q)
    ensures Leases(q)
  {
    hide Protected, Accounted;
  }

  lemma DrainShrinks(p: Peer, session: Id)
    ensures Shrinks(p, Drain(p, session)) && KeepsBlocked(p, Drain(p, session))
  {
    hide Without;
    if Deliverable(p, session) { WithoutIn(p.sessions[session].queue, 0); }
  }

  lemma FinishShrinks(p: Peer, session: Id, interrupted: bool)
    ensures Shrinks(p, Finish(p, session, interrupted)) && KeepsBlocked(p, Finish(p, session, interrupted))
  {
    hide Drain, Settled;
    if session in p.sessions { DrainShrinks(Halted(p, session), session); }
  }

  lemma InterruptShrinks(p: Peer, session: Id)
    ensures Shrinks(p, Interrupt(p, session)) && KeepsBlocked(p, Interrupt(p, session))
  {
    hide Finish;
    FinishShrinks(Stopped(p, session), session, true);
  }

  lemma RetryShrinks(p: Peer, session: Id)
    ensures Shrinks(p, Retry(p, session).0) && KeepsBlocked(p, Retry(p, session).0)
  {
    hide Without;
  }

  lemma RespondShrinks(p: Peer, session: Id, request: Id)
    ensures Shrinks(p, Respond(p, session, request).0) && KeepsBlocked(p, Respond(p, session, request).0)
  {
    hide Drain;
    if session in p.sessions { DrainShrinks(Answered(p, session), session); }
  }

  lemma SendNowShrinks(p: Peer, session: Id, id: Id)
    ensures Shrinks(p, SendNow(p, session, id).0) && KeepsBlocked(p, SendNow(p, session, id).0)
  {
    hide Without;
    if SendNow(p, session, id).1.None? {
      WithoutIn(p.sessions[session].queue, RowAt(p.sessions[session].queue, id).value);
    }
  }

  lemma MoveShrinks(p: Peer, session: Id, id: Id, delta: int)
    ensures Shrinks(p, Move(p, session, id, delta).0) && KeepsBlocked(p, Move(p, session, id, delta).0)
  {
    hide Inserted;
    if Move(p, session, id, delta).1.None? {
      var queue := p.sessions[session].queue;
      var i := RowAt(queue, id).value;
      WithoutIn(queue, i);
      InsertedIn(Without(queue, i), i + delta, queue[i]);
    }
  }

  lemma DeleteShrinks(p: Peer, session: Id, id: Id)
    ensures Shrinks(p, Delete(p, session, id).0)
  {
    hide Without, Drain;
    if Delete(p, session, id).1.None? {
      var i := RowAt(p.sessions[session].queue, id).value;
      WithoutIn(p.sessions[session].queue, i);
      DrainShrinks(Dequeued(p, session, i), session);
    }
  }

  lemma ResumeShrinks(p: Peer, session: Id)
    ensures Shrinks(p, Resume(p, session)) && KeepsBlocked(p, Resume(p, session))
  {
    hide Finish;
    if session in p.running && session in p.sessions && p.running[session].Turn? {
      var job := p.running[session];
      var i := MessageAt(p.sessions[session].messages, job.reply);
      if i.Some? && job.word < |p.script.words| { FinishShrinks(Told(p, session, i.value, job), session, false); }
    }
  }

  lemma FreshRow(edits: map<Id, Edit>, clock: int, next: Id, session: Id, queue: seq<Row>, row: Row)
    requires Register(edits, clock, next) && RowsLeased(edits, clock, session, queue) && row.id >= next && !row.blocked
    ensures RowsLeased(edits, clock, session, queue + [row])
  {
  }

  /** An accepted message under a new identifier is under no lease. */
  lemma EnqueuedLeases(p: Peer, session: Id, text: string, files: seq<Remote>)
    requires Leases(p) && session in p.sessions
    ensures Leases(Enqueued(p, session, text, files)) && KeepsBlocked(p, Enqueued(p, session, text, files))
  {
    hide Paths, RowsLeased;
    FreshRow(p.edits, p.clock, p.nextID, session, p.sessions[session].queue,
        Row(p.nextID, text, Paths(files), false, false));
  }

  lemma SendLeases(p: Peer, session: Id, text: string, files: seq<Local>, mode: Mode)
    requires Leases(p)
    ensures Leases(Send(p, session, text, files, mode)) && KeepsBlocked(p, Send(p, session, text, files, mode))
  {
    hide Sent, Trim, Leases, Enqueued;
    var awake := p.(paused := p.paused - {session});
    ShrinksKeeps(p, awake);
    if Accepts(p, session, text, files, mode) {
      EnqueuedLeases(awake, session, Trim(text), Sent(session, files));
      if !((p.sessions[session].working || p.sessions[session].input.Some?) && mode.Queue?) {
        ShrinksKeeps(p, Send(p, session, text, files, mode));
      }
    }
  }

  /** A new lease on a row leaves every other row as it was. */
  lemma GrantedOthers(edits: map<Id, Edit>, clock: int, edit: Edit, session: Id, row: Row)
    requires edit.lease !in edits && Protected(edits, clock, session, row) && Accounted(edits, session, row)
    requires session != edit.session || row.id != edit.row
    ensures Protected(edits[edit.lease := edit], clock, session, row)
    ensures Accounted(edits[edit.lease := edit], session, row)
  {
    if row.blocked {
      var l :| Names(edits, l, session, row.id);
      assert Names(edits[edit.lease := edit], l, session, row.id);
    }
  }

  lemma GrantedRow(edits: map<Id, Edit>, clock: int, edit: Edit, row: Row)
    requires edit.lease !in edits && Protected(edits, clock, edit.session, row)
    requires row.id == edit.row && row.text == edit.text
    ensures Protected(edits[edit.lease := edit], clock, edit.session, row.(blocked := true))
    ensures Accounted(edits[edit.lease := edit], edit.session, row.(blocked := true))
  {
    assert Names(edits[edit.lease := edit], edit.lease, edit.session, row.id);
  }

  lemma BeginLeases(p: Peer, session: Id, id: Id)
    requires Leases(p) && Ids(p)
    ensures Leases(Begin(p, session, id).0)
  {
    hide Protected, Accounted;
    if Begin(p, session, id).2.None? {
      var (q, granted, _) := Begin(p, session, id);
      var queue := p.sessions[session].queue;
      var i := RowAt(queue, id).value;
      var edit := granted.value;
      GrantedRegister(p, session, id);
      forall s, r | s in q.sessions && r in q.sessions[s].queue
        ensures Protected(q.edits, q.clock, s, r) && Accounted(q.edits, s, r)
      {
        if s == session && r.id == id {
          assert Clean(queue, p.sessions[s].messages, p.nextID);
          assert r == queue[i].(blocked := true) && queue[i] in queue;
          GrantedRow(p.edits, p.clock, edit, queue[i]);
        } else {
          assert r in p.sessions[s].queue;
          GrantedOthers(p.edits, p.clock, edit, s, r);
        }
      }
    }
  }

  lemma GrantedRegister(p: Peer, session: Id, id: Id)
    requires Leases(p) && Ids(p)
    ensures var q := Begin(p, session, id).0; Register(q.edits, q.clock, q.nextID)
  {
    if Begin(p, session, id).2.None? {
      var i := RowAt(p.sessions[session].queue, id).value;
      assert Clean(p.sessions[session].queue, p.sessions[session].messages, p.nextID);
    }
  }

  lemma RenewLeases(p: Peer, edit: Edit)
    requires Leases(p)
    ensures Leases(Renew(p, edit).0)
  {
    hide RowAt;
    if Renew(p, edit).1 {
      var q := Renew(p, edit).0;
      assert forall l :: Live(q.edits, q.clock, l) <==> Live(p.edits, p.clock, l);
      assert forall l, s, r :: Names(q.edits, l, s, r) <==> Names(p.edits, l, s, r);
    }
  }

  /** The edit of a handle that names its lease's row is the only unexpired one there, so nothing else holds the row. */
  lemma CommittedLeases(p: Peer, edit: Edit, text: Option<string>)
    requires Leases(p) && Ids(p) && Current(p, edit) && p.edits[edit.lease].row == edit.row
    ensures Leases(Committed(p, edit, text))
  {
    hide Protected, Accounted;
    var q := Committed(p, edit, text);
    var queue := p.sessions[edit.session].queue;
    var i := RowAt(queue, edit.row).value;
    assert Clean(queue, p.sessions[edit.session].messages, p.nextID);
    forall s, r | s in q.sessions && r in q.sessions[s].queue
      ensures Protected(q.edits, q.clock, s, r) && Accounted(q.edits, s, r)
    {
      if s == edit.session && r.id == edit.row {
        assert r == queue[i].(text := text.GetOr(queue[i].text), blocked := false);
        OnlyLease(p.edits, p.clock, p.nextID, edit, r);
      } else {
        assert r in p.sessions[s].queue;
        LeaseGone(p.edits, p.clock, edit, s, r);
      }
    }
  }

  lemma OnlyLease(edits: map<Id, Edit>, clock: int, next: Id, edit: Edit, row: Row)
    requires Register(edits, clock, next) && Live(edits, clock, edit.lease) && !row.blocked && row.id == edit.row
    requires edits[edit.lease].session == edit.session && edits[edit.lease].row == edit.row
    ensures Protected(edits - {edit.lease}, clock, edit.session, row)
            && Accounted(edits - {edit.lease}, edit.session, row)
  {
  }

  lemma LeaseGone(edits: map<Id, Edit>, clock: int, edit: Edit, session: Id, row: Row)
    requires edit.lease in edits && edits[edit.lease].session == edit.session && edits[edit.lease].row == edit.row
    requires Protected(edits, clock, session, row) && Accounted(edits, session, row)
    requires session != edit.session || row.id != edit.row
    ensures Protected(edits - {edit.lease}, clock, session, row) && Accounted(edits - {edit.lease}, session, row)
  {
    if row.blocked {
      var l :| Names(edits, l, session, row.id);
      assert Names(edits - {edit.lease}, l, session, row.id);
    }
  }

  lemma FinishEditLeases(p: Peer, edit: Edit, text: Option<string>)
    requires Leases(p) && Ids(p) && Issued(p, edit)
    ensures Leases(FinishEdit(p, edit, text).0)
  {
    hide Leases, Ids, Drain, Trim, Committed;
    if FinishEdit(p, edit, text).1.None? {
      CommittedLeases(p, edit, text);
      DrainShrinks(Committed(p, edit, text), edit.session);
      ShrinksKeeps(Committed(p, edit, text), FinishEdit(p, edit, text).0);
    }
  }

  /** The conflict check of a commit never fails for an issued handle whose edit is still current. */
  lemma NeverConflicts(p: Peer, edit: Edit, text: Option<string>)
    requires Leases(p) && Issued(p, edit)
    ensures FinishEdit(p, edit, text).1 != Some(Changed)
  {
    hide Drain, Trim;
    if Current(p, edit) {
      var queue := p.sessions[edit.session].queue;
      var i := RowAt(queue, edit.row).value;
      assert queue[i] in queue && Names(p.edits, edit.lease, edit.session, queue[i].id);
    }
  }

  lemma RowAtIs(queue: seq<Row>, messages: seq<Message>, next: Id, k: nat)
    requires Clean(queue, messages, next) && k < |queue|
    ensures RowAt(queue, queue[k].id) == Some(k)
  {
  }

  lemma ReleasedIsFree(p: Peer, session: Id, k: nat)
    requires Leases(p) && Ids(p) && session in p.sessions && k < |p.sessions[session].queue|
    ensures !Released(p.sessions[session].queue, RowsOf(p, session))[k].blocked
  {
    hide Protected, Accounted, RowAt, Clean, Register;
    var queue := p.sessions[session].queue;
    RowAtIs(queue, p.sessions[session].messages, p.nextID, k);
    assert queue[k] in queue;
    FreedRow(p.edits, p.clock, session, queue[k]);
  }

  lemma FreedHere(p: Peer, session: Id)
    requires Leases(p) && Ids(p) && session in p.sessions
    ensures var queue := Released(p.sessions[session].queue, RowsOf(p, session));
            RowsLeased(p.edits - LeasesOf(p, session), p.clock, session, queue) && forall r :: r in queue ==> !r.blocked
  {
    hide Protected, Accounted, Released, RowsOf, LeasesOf, Ids, Leases;
    var queue := Released(p.sessions[session].queue, RowsOf(p, session));
    forall r | r in queue
      ensures !r.blocked
      ensures Protected(p.edits - LeasesOf(p, session), p.clock, session, r)
      ensures Accounted(p.edits - LeasesOf(p, session), session, r)
    {
      var k :| 0 <= k < |queue| && queue[k] == r;
      ReleasedIsFree(p, session, k);
      NoneLeft(p, session, r);
    }
  }

  lemma FreedThere(p: Peer, session: Id, s: Id)
    requires Leases(p) && s in p.sessions && s != session
    ensures RowsLeased(p.edits - LeasesOf(p, session), p.clock, s, p.sessions[s].queue)
  {
    hide Protected, Accounted, LeasesOf;
    forall r | r in p.sessions[s].queue
      ensures Protected(p.edits - LeasesOf(p, session), p.clock, s, r)
      ensures Accounted(p.edits - LeasesOf(p, session), s, r)
    {
      OthersLeft(p, session, s, r);
    }
  }

  /** Closing a session gives up its leases and frees all its rows. */
  lemma FreedLeases(p: Peer, session: Id)
    requires Leases(p) && Ids(p)
    ensures Leases(Freed(p, session)) && Freed(p, session).sessions.Keys == p.sessions.Keys
    ensures session in p.sessions ==> forall r :: r in Freed(p, session).sessions[session].queue ==> !r.blocked
    ensures Freed(p, session).edits == p.edits - LeasesOf(p, session)
  {
    hide RowsLeased, Register, Released, RowsOf, LeasesOf, Ids;
    forall s | s in p.sessions && s != session
      ensures RowsLeased(p.edits - LeasesOf(p, session), p.clock, s, p.sessions[s].queue)
    {
      FreedThere(p, session, s);
    }
    if session in p.sessions { FreedHere(p, session); }
    FewerLeases(p.edits, p.clock, p.nextID, LeasesOf(p, session));
  }

  lemma FewerLeases(edits: map<Id, Edit>, clock: int, next: Id, gone: set<Id>)
    requires Register(edits, clock, next)
    ensures Register(edits - gone, clock, next)
  {
    assert forall l :: Live(edits - gone, clock, l) ==> Live(edits, clock, l);
  }

  lemma FreedRow(edits: map<Id, Edit>, clock: int, session: Id, row: Row)
    requires Accounted(edits, session, row)
    ensures row.blocked ==> row.id in (set l | l in edits && edits[l].session == session :: edits[l].row)
  {
    if row.blocked {
      var l :| Names(edits, l, session, row.id);
    }
  }

  lemma NoneLeft(p: Peer, session: Id, row: Row)
    requires !row.blocked
    ensures Protected(p.edits - LeasesOf(p, session), p.clock, session, row)
    ensures Accounted(p.edits - LeasesOf(p, session), session, row)
  {
  }

  lemma OthersLeft(p: Peer, session: Id, s: Id, row: Row)
    requires s != session && Protected(p.edits, p.clock, s, row) && Accounted(p.edits, s, row)
    ensures Protected(p.edits - LeasesOf(p, session), p.clock, s, row)
    ensures Accounted(p.edits - LeasesOf(p, session), s, row)
  {
    if row.blocked {
      var l :| Names(p.edits, l, s, row.id);
      assert Names(p.edits - LeasesOf(p, session), l, s, row.id);
    }
  }

  /** Closing a session gives up exactly its leases, and leaves all its rows free. */
  lemma CloseLeases(p: Peer, session: Id)
    requires Leases(p) && Ids(p)
    ensures Leases(Close(p, session))
    ensures var left := Close(p, session).edits;
            && (forall l :: l in left <==> l in p.edits && p.edits[l].session != session)
            && forall l :: l in left ==> left[l] == p.edits[l]
    ensures session in p.sessions ==>
              session in Close(p, session).sessions
              && forall r :: r in Close(p, session).sessions[session].queue ==> !r.blocked
  {
    hide Leases, Ids, Drain, Freed;
    FreedLeases(p, session);
    DrainShrinks(Freed(p, session), session);
    ShrinksKeeps(Freed(p, session), Close(p, session));
  }

  /** Time only makes leases run out. */
  lemma LaterLeases(p: Peer, clock: int)
    requires Leases(p) && p.clock <= clock
    ensures Leases(p.(clock := clock))
  {
    assert forall l :: Live(p.edits, clock, l) ==> Live(p.edits, p.clock, l);
  }

  lemma CreateLeases(p: Peer, accepted: bool)
    requires Leases(p)
    ensures Leases(Create(p, accepted).0)
  {
  }
}
