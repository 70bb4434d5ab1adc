/** What the invariant of the demo peer means to a caller: single delivery, leases that hold, queues that empty. */
module DemoTheorems {
  import opened Whitespace
  import opened Wrappers
  import opened DemoPeer
  import opened DemoIds
  import opened DemoAwake
  import opened DemoTasks
  import opened DemoLeases
  import opened DemoLedger
  import opened DemoRuns

  /** Every run from a new peer on keeps the invariant, against the ledger of what was sent in it. */
  lemma EveryRun(script: Script, clock: int, events: seq<Event>)
    requires script.words != [] && script.progress != [] && RunAllowed(Idle(script, clock), events)
    ensures Inv(Run(Idle(script, clock), events), RunLedger(Idle(script, clock), map[], events))
  {
    hide Run, RunLedger, RunAllowed;
    RunHolds(Idle(script, clock), map[], events);
  }

  /** How often an identifier stands in a queue or on a user's message. */
  function InQueue(queue: seq<Row>, id: Id): nat {
    if queue == [] then 0 else (if queue[0].id == id then 1 else 0) + InQueue(queue[1..], id)
  }

  function AsMessage(messages: seq<Message>, id: Id): nat {
    if messages == [] then 0
    else (if messages[0].role.User? && messages[0].id == id then 1 else 0) + AsMessage(messages[1..], id)
  }

  function Occurrences(state: Session, id: Id): nat {
    InQueue(state.queue, id) + AsMessage(state.messages, id)
  }

  lemma {:induction false} CountRows(queue: seq<Row>, id: Id)
    requires forall i, j :: 0 <= i < j < |queue| ==> queue[i].id != queue[j].id
    ensures InQueue(queue, id) == if (exists r :: r in queue && r.id == id) then 1 else 0
  {
    if queue != [] {
      CountRows(queue[1..], id);
      assert queue == [queue[0]] + queue[1..];
    }
  }

  lemma {:induction false} CountMessages(messages: seq<Message>, id: Id)
    requires forall i, j :: 0 <= i < j < |messages| ==> messages[i].id != messages[j].id
    ensures AsMessage(messages, id) == if (exists m :: m in messages && m.role.User? && m.id == id) then 1 else 0
  {
    if messages != [] {
      CountMessages(messages[1..], id);
      assert messages == [messages[0]] + messages[1..];
    }
  }

  /** Every message sent and not deleted stands in its session exactly once, and nothing else stands there. */
  lemma OnceEach(p: Peer, sent: Ledger, s: Id, id: Id)
    requires Inv(p, sent) && s in p.sessions
    ensures Occurrences(p.sessions[s], id) == if id in sent && sent[id].session == s then 1 else 0
  {
    hide Tasks, Leases, Awake;
    var state := p.sessions[s];
    assert Clean(state.queue, state.messages, p.nextID);
    CountRows(state.queue, id);
    CountMessages(state.messages, id);
    if id in sent && sent[id].session == s {
      assert Present(state.queue, state.messages, id);
      assert !((exists r :: r in state.queue && r.id == id)
          && (exists m :: m in state.messages && m.role.User? && m.id == id)) by {
        NotBoth(state.queue, state.messages, p.nextID, id);
      }
    }
  }

  lemma NotBoth(queue: seq<Row>, messages: seq<Message>, next: Id, id: Id)
    requires Clean(queue, messages, next)
    ensures !((exists r :: r in queue && r.id == id) && (exists m :: m in messages && m.role.User? && m.id == id))
  {
  }

  /** A granted handle is an issued one, and stays one whatever happens. */
  lemma GrantIsIssued(p: Peer, s: Id, row: Id)
    ensures var (q, granted, _) := Begin(p, s, row); granted.Some? ==> Issued(q, granted.value)
  {
  }

  lemma NoNewLeases(p: Peer, q: Peer, edit: Edit)
    requires Issued(p, edit) && p.nextID <= q.nextID
    requires forall l :: l in q.edits && l < p.nextID ==>
               l in p.edits && q.edits[l].(expires := 0) == p.edits[l].(expires := 0)
    ensures Issued(q, edit)
  {
  }

  /** Later states know no lease of an earlier time that was not there, and none that says something else. */
  ghost predicate LeasesLinger(p: Peer, q: Peer) {
    p.nextID <= q.nextID
    && forall l :: l in q.edits && l < p.nextID ==>
                     l in p.edits && q.edits[l].(expires := 0) == p.edits[l].(expires := 0)
  }

  lemma StepLingers(p: Peer, e: Event)
    ensures LeasesLinger(p, Step(p, e))
  {
    hide Drain, Finish, Refusal, Trim, Sent, Paths, RowAt;
    match e {
      case Sends(s, text, files, mode) => SendLingers(p, s, text, files, mode);
      case Interrupts(s) => InterruptShrinks(p, s);
      case Retries(s) => RetryShrinks(p, s);
      case Responds(s, request) => RespondShrinks(p, s, request);
      case SendsNow(s, row) => SendNowShrinks(p, s, row);
      case Moves(s, row, delta) => MoveShrinks(p, s, row, delta);
      case Deletes(s, row) => DeleteShrinks(p, s, row);
      case Finishes(edit, text) => FinishLingers(p, edit, text);
      case Closes(s) => CloseLingers(p, s);
      case Resumes(s) => ResumeShrinks(p, s);
      case _ =>
    }
  }

  lemma SendLingers(p: Peer, s: Id, text: string, files: seq<Local>, mode: Mode)
    ensures LeasesLinger(p, Send(p, s, text, files, mode))
  {
    hide Trim, Sent, Paths, Refusal;
  }

  lemma FinishLingers(p: Peer, edit: Edit, text: Option<string>)
    ensures LeasesLinger(p, FinishEdit(p, edit, text).0)
  {
    hide Drain, Trim;
    if FinishEdit(p, edit, text).1.None? { DrainShrinks(Committed(p, edit, text), edit.session); }
  }

  lemma CloseLingers(p: Peer, s: Id)
    ensures LeasesLinger(p, Close(p, s))
  {
    hide Drain, Released, RowsOf;
    DrainShrinks(Freed(p, s), s);
  }

  lemma StaysIssued(p: Peer, e: Event, edit: Edit)
    requires Issued(p, edit)
    ensures Issued(Step(p, e), edit)
  {
    hide Step;
    StepLingers(p, e);
    NoNewLeases(p, Step(p, e), edit);
  }

  /** The handles of a run are good for all of it: the commit of one is allowed, and never meets a changed text. */
  lemma {:induction false} HandleNeverConflicts(p: Peer, sent: Ledger, events: seq<Event>, edit: Edit,
      text: Option<string>)
    requires Inv(p, sent) && RunAllowed(p, events) && Issued(p, edit)
    ensures Allowed(Run(p, events), Finishes(edit, text))
    ensures FinishEdit(Run(p, events), edit, text).1 != Some(Changed)
  {
    hide Inv, Step, Recorded, FinishEdit, Issued, Allowed;
    IssuedAfter(p, events, edit);
    RunHolds(p, sent, events);
    AllowsIssued(Run(p, events), edit, text);
    InvLeases(Run(p, events), RunLedger(p, sent, events));
    NeverConflicts(Run(p, events), edit, text);
  }

  lemma {:induction false} IssuedAfter(p: Peer, events: seq<Event>, edit: Edit)
    requires Issued(p, edit)
    ensures Issued(Run(p, events), edit)
  {
    hide Step, Issued;
    if events != [] {
      IssuedAfter(p, events[..|events| - 1], edit);
      StaysIssued(Run(p, events[..|events| - 1]), events[|events| - 1], edit);
    }
  }

  lemma AllowsIssued(p: Peer, edit: Edit, text: Option<string>)
    requires Issued(p, edit)
    ensures Allowed(p, Finishes(edit, text))
  {
  }

  lemma InvLeases(p: Peer, sent: Ledger)
    requires Inv(p, sent)
    ensures Leases(p)
  {
  }

  /** The steps that may end a lease on a row, or the row itself. */
  predicate Releases(p: Peer, e: Event, s: Id, row: Id) {
    e.Restored? || e.SignedOut? || (e.Closes? && e.session == s) || (e.Deletes? && e.session == s && e.row == row)
    || (e.Finishes? && e.edit.session == s && e.edit.row == row && FinishEdit(p, e.edit, e.newText).1.None?)
  }

  /** Exclusion: as long as a lease on a queued row runs, no other step delivers the row, moves its text or frees it. */
  lemma LeasedRowStays(p: Peer, sent: Ledger, e: Event, s: Id, row: Row)
    requires Inv(p, sent) && Allowed(p, e) && s in p.sessions && row in p.sessions[s].queue
    requires Leased(p, s, row.id) && !Releases(p, e, s, row.id)
    ensures row.blocked && s in Step(p, e).sessions && row in Step(p, e).sessions[s].queue
  {
    hide Tasks, Kept, Awake, Send, Interrupt, Retry, Respond, SendNow, Move, Delete, Begin, FinishEdit, Close, Resume;
    LeasedIsBlocked(p, s, row);
    hide Leased;
    match e {
      case Sends(t, text, files, mode) => SendLeases(p, t, text, files, mode);
      case Interrupts(t) => InterruptShrinks(p, t);
      case Retries(t) => RetryShrinks(p, t);
      case Responds(t, request) => RespondShrinks(p, t, request);
      case SendsNow(t, id) => SendNowShrinks(p, t, id);
      case Moves(t, id, delta) => MoveShrinks(p, t, id, delta);
      case Deletes(t, id) => DeleteSpares(p, t, id, s, row);
      case Begins(t, id) => BeginSpares(p, t, id, s, row);
      case Finishes(edit, text) => if FinishEdit(p, edit, text).1.None? { FinishSpares(p, edit, text, s, row); }
                                   else { Refused(p, edit, text); }
      case Closes(t) => CloseSpares(p, t, s, row);
      case Resumes(t) => ResumeShrinks(p, t);
      case _ =>
    }
  }

  lemma LeasedIsBlocked(p: Peer, s: Id, row: Row)
    requires Leases(p) && s in p.sessions && row in p.sessions[s].queue && Leased(p, s, row.id)
    ensures row.blocked
  {
    var l :| l in p.edits && p.edits[l].session == s && p.edits[l].row == row.id && p.edits[l].expires > p.clock;
    assert Names(p.edits, l, s, row.id) && Live(p.edits, p.clock, l);
  }

  lemma DeleteSpares(p: Peer, t: Id, id: Id, s: Id, row: Row)
    requires s in p.sessions && row in p.sessions[s].queue && row.blocked && (t != s || id != row.id)
    ensures s in Delete(p, t, id).0.sessions && row in Delete(p, t, id).0.sessions[s].queue
  {
    hide Drain, Without;
    if Delete(p, t, id).1.None? {
      var i := RowAt(p.sessions[t].queue, id).value;
      WithoutIn(p.sessions[t].queue, i);
      DrainShrinks(Dequeued(p, t, i), t);
    }
  }

  lemma BeginSpares(p: Peer, t: Id, id: Id, s: Id, row: Row)
    requires s in p.sessions && row in p.sessions[s].queue && row.blocked && Ids(p)
    ensures s in Begin(p, t, id).0.sessions && row in Begin(p, t, id).0.sessions[s].queue
  {
    if Begin(p, t, id).2.None? && s == t {
      var queue := p.sessions[t].queue;
      var i := RowAt(queue, id).value;
      var k :| 0 <= k < |queue| && queue[k] == row;
      assert queue[i := queue[i].(blocked := true)][k] == row;
    }
  }

  lemma FinishSpares(p: Peer, edit: Edit, text: Option<string>, s: Id, row: Row)
    requires s in p.sessions && row in p.sessions[s].queue && row.blocked && (edit.session != s || edit.row != row.id)
    ensures s in FinishEdit(p, edit, text).0.sessions && row in FinishEdit(p, edit, text).0.sessions[s].queue
  {
    hide Drain, Trim;
    if FinishEdit(p, edit, text).1.None? {
      if s == edit.session {
        var queue := p.sessions[s].queue;
        var k :| 0 <= k < |queue| && queue[k] == row;
        assert Committed(p, edit, text).sessions[s].queue[k] == row;
      }
      DrainShrinks(Committed(p, edit, text), edit.session);
    }
  }

  lemma Refused(p: Peer, edit: Edit, text: Option<string>)
    requires FinishEdit(p, edit, text).1.Some?
    ensures FinishEdit(p, edit, text).0 == p
  {
    hide Drain, Trim;
  }

  lemma CloseSpares(p: Peer, t: Id, s: Id, row: Row)
    requires s in p.sessions && row in p.sessions[s].queue && row.blocked && t != s
    ensures s in Close(p, t).sessions && row in Close(p, t).sessions[s].queue
  {
    hide Drain, Released, RowsOf, LeasesOf;
    DrainShrinks(Freed(p, t), t);
  }

  /** Why handles must be issued ones. A commit looks its row up by the handle, so a handle that pairs a current
      lease with another row of the session frees that row and strands the one under the lease. */
  lemma ForeignHandleStrands(p: Peer, edit: Edit, text: Option<string>, row: Row)
    requires Leases(p) && Current(p, edit) && row in p.sessions[edit.session].queue
    requires p.edits[edit.lease].row == row.id && edit.row != row.id
    requires forall l :: Names(p.edits, l, edit.session, row.id) ==> l == edit.lease
    requires FinishEdit(p, edit, text).1.None?
    ensures !Leases(FinishEdit(p, edit, text).0)
  {
    hide Drain, Trim;
    var s := edit.session;
    assert Names(p.edits, edit.lease, s, row.id) && Live(p.edits, p.clock, edit.lease);
    FinishSpares(p, edit, text, s, row);
    DrainShrinks(Committed(p, edit, text), s);
    var q := FinishEdit(p, edit, text).0;
    assert q.edits == p.edits - {edit.lease};
    assert forall l :: Names(q.edits, l, s, row.id) ==> Names(p.edits, l, s, row.id);
    assert !Accounted(q.edits, s, row);
  }

  /** What users said in a transcript, in order. */
  function Users(messages: seq<Message>): seq<Message> {
    if messages == [] then []
    else
      var last := messages[|messages| - 1];
      Users(messages[..|messages| - 1]) + if last.role.User? then [last] else []
  }

  lemma {:induction false} UsersJoin(a: seq<Message>, b: seq<Message>)
    ensures Users(a + b) == Users(a) + Users(b)
  {
    if b == [] {
      assert a + b == a;
    } else {
      assert (a + b)[..|a + b| - 1] == a + b[..|b| - 1];
      UsersJoin(a, b[..|b| - 1]);
    }
  }

  lemma {:induction false} UsersSame(a: seq<Message>, b: seq<Message>)
    requires |a| == |b| && forall i :: 0 <= i < |a| ==> a[i].role == b[i].role && (a[i].role.User? ==> a[i] == b[i])
    ensures Users(a) == Users(b)
  {
    if a != [] { UsersSame(a[..|a| - 1], b[..|b| - 1]); }
  }

  /** The message a row becomes. */
  function Delivered(files: map<Id, seq<Remote>>, row: Row): Message {
    Message(row.id, User, row.text, Files(files, row.id), false)
  }

  function AllDelivered(files: map<Id, seq<Remote>>, queue: seq<Row>): seq<Message> {
    if queue == [] then [] else [Delivered(files, queue[0])] + AllDelivered(files, queue[1..])
  }

  /** Stopping a session pauses its queue and leaves it at rest, with nothing streaming and no row lost. */
  lemma StoppedRests(p: Peer, sent: Ledger, s: Id)
    requires Inv(p, sent) && s in p.sessions
    ensures var q := Interrupt(p, s);
            && s in q.paused && s !in q.running && s in q.sessions && !q.sessions[s].working
            && StreamsOnly(q.sessions[s].messages, None) && q.sessions[s].queue == p.sessions[s].queue
            && Users(q.sessions[s].messages) == Users(p.sessions[s].messages)
  {
    hide Users, StreamsOnly, Written, Leases, Kept, Awake;
    InterruptTasks(p, s);
    IdleIsQuiet(Interrupt(p, s), s);
    UsersSame(p.sessions[s].messages, Interrupt(p, s).sessions[s].messages);
  }

  /** Retrying moves the last user message behind the failed reply and keeps what users said in its order. */
  lemma RetryKeepsOrder(p: Peer, sent: Ledger, s: Id)
    requires Inv(p, sent) && s in p.sessions
    ensures s in Retry(p, s).0.sessions
    ensures Users(Retry(p, s).0.sessions[s].messages) == Users(p.sessions[s].messages)
  {
    hide Users, Leases, Kept, Awake, Tasks, Ids;
    var messages := p.sessions[s].messages;
    var i := LastUser(messages);
    if p.active && i.Some? && p.sessions[s].failed && !p.sessions[s].working {
      var m := messages[i.value];
      IdleIsQuiet(p, s);
      var before, behind := messages[..i.value], messages[i.value + 1..];
      var added := [Message(m.id, User, m.text, m.files, false), Message(p.nextID, Assistant, "", [], true)];
      assert messages == before + ([m] + behind);
      UsersJoin(before, [m] + behind);
      UsersJoin([m], behind);
      UsersJoin(before + behind, added);
      UsersJoin(before, behind);
      NoUsers(behind);
      UsersOf(m);
      UsersJoin([added[0]], [added[1]]);
      UsersOf(added[0]);
      UsersOf(added[1]);
      assert [added[0]] + [added[1]] == added;
    }
  }

  lemma {:induction false} NoUsers(messages: seq<Message>)
    requires forall k :: 0 <= k < |messages| ==> !messages[k].role.User?
    ensures Users(messages) == []
  {
    if messages != [] { NoUsers(messages[..|messages| - 1]); }
  }

  lemma UsersOf(m: Message)
    ensures Users([m]) == if m.role.User? then [m] else []
  {
    assert [m][..0] == [];
  }

  /** An accepted send lets a stopped queue go on; the message waits at the end of the queue, joins the running turn, or
      starts one at once. */
  lemma SendTakesEffect(p: Peer, s: Id, text: string, files: seq<Local>, mode: Mode)
    requires Accepts(p, s, text, files, mode)
    ensures var q := Send(p, s, text, files, mode);
            var before := p.sessions[s];
            && s !in q.paused && s in q.sessions
            && var after := q.sessions[s];
               if mode.Queue? && (before.working || before.input.Some?) then
                 && after.messages == before.messages && |after.queue| == |before.queue| + 1
                 && after.queue[..|before.queue|] == before.queue && after.queue[|before.queue|].id == p.nextID
                 && Delivered(q.files, after.queue[|before.queue|])
                    == Message(p.nextID, User, Trim(text), Sent(s, files), false)
               else
                 && after.queue == before.queue && after.working && (!before.working ==> after.turnID == Some(p.nextID))
                 && Users(after.messages) == Users(before.messages)
                                             + [Message(p.nextID, User, Trim(text), Sent(s, files), false)]
  {
    hide Users, Trim, Paths;
    var before, clean := p.sessions[s], Trim(text);
    var first, second := Message(p.nextID, User, clean, Sent(s, files), false),
                         Message(p.nextID + 1, Assistant, "", [], true);
    UsersJoin(before.messages, [first]);
    UsersJoin(before.messages, [first, second]);
    UsersJoin([first], [second]);
    UsersOf(first);
    UsersOf(second);
    assert [first] + [second] == [first, second];
    if before.working { assert mode.Steer? ==> Sent(s, files) == []; }
  }

  /** A turn runs and nothing stands in the way of the queue behind it. */
  ghost predicate Flowing(p: Peer, s: Id) {
    && Tasks(p) && Ids(p) && p.active && s in p.running && s in p.sessions && p.running[s].Turn? && s !in p.paused
    && p.sessions[s].input.None? && forall r :: r in p.sessions[s].queue ==> !r.blocked
  }

  function Resumed(p: Peer, s: Id, n: nat): Peer
    decreases n
  {
    if n == 0 then p else Resumed(Resume(p, s), s, n - 1)
  }

  lemma {:induction false} ResumedTwice(p: Peer, s: Id, m: nat, n: nat)
    ensures Resumed(Resumed(p, s, m), s, n) == Resumed(p, s, m + n)
    decreases m
  {
    hide Resume;
    if m > 0 { ResumedTwice(Resume(p, s), s, m - 1, n); }
  }

  /** How a turn leaves its session: at rest, or with the next message of the queue begun. */
  ghost predicate TurnedOver(p: Peer, q: Peer, s: Id)
    requires s in p.sessions
  {
    && s in q.sessions
    && var before, after := p.sessions[s], q.sessions[s];
       if before.queue == [] then
         !after.working && after.queue == [] && Users(after.messages) == Users(before.messages)
       else
         && Flowing(q, s) && after.queue == before.queue[1..] && q.files == p.files - {before.queue[0].id}
         && Users(after.messages) == Users(before.messages) + [Delivered(p.files, before.queue[0])]
  }

  lemma WordStep(p: Peer, s: Id)
    requires Flowing(p, s) && p.running[s].word + 1 < |p.script.words|
    ensures var q := Resume(p, s);
            && Flowing(q, s) && q.running[s].word == p.running[s].word + 1 && q.script == p.script && q.files == p.files
            && q.sessions[s].queue == p.sessions[s].queue
            && Users(q.sessions[s].messages) == Users(p.sessions[s].messages)
  {
    hide Tasks, Ids, Users;
    WriterIsAssistant(p, s);
    ResumeIds(p, s);
    ResumeTasks(p, s);
    UsersSame(p.sessions[s].messages, Resume(p, s).sessions[s].messages);
  }

  lemma LastWord(p: Peer, s: Id)
    requires Flowing(p, s) && p.running[s].word + 1 == |p.script.words|
    ensures TurnedOver(p, Resume(p, s), s)
  {
    hide Tasks, Ids, Users, Joined, Without;
    WriterIsAssistant(p, s);
    ResumeIds(p, s);
    ResumeTasks(p, s);
    var i := MessageAt(p.sessions[s].messages, p.running[s].reply).value;
    var told := Told(p, s, i, p.running[s]);
    var halted := Halted(told, s);
    assert Resume(p, s) == Drain(halted, s);
    UsersSame(p.sessions[s].messages, halted.sessions[s].messages);
    LastDrain(halted, s);
  }

  /** A session at rest hands the head of its queue to a new turn. */
  lemma LastDrain(p: Peer, s: Id)
    requires s in p.sessions && p.active && s !in p.paused && !p.sessions[s].working && p.sessions[s].input.None?
    requires forall r :: r in p.sessions[s].queue ==> !r.blocked
    ensures var q, before := Drain(p, s), p.sessions[s];
            if before.queue == [] then q == p
            else
              && q.active && s in q.running && s in q.sessions && q.running[s].Turn? && s !in q.paused
              && q.sessions[s].input.None? && (forall r :: r in q.sessions[s].queue ==> !r.blocked)
              && q.sessions[s].queue == before.queue[1..] && q.files == p.files - {before.queue[0].id}
              && Users(q.sessions[s].messages) == Users(before.messages) + [Delivered(p.files, before.queue[0])]
  {
    var before := p.sessions[s];
    if before.queue != [] {
      var first, second := Delivered(p.files, before.queue[0]), Message(p.nextID, Assistant, "", [], true);
      UsersJoin(before.messages, [first, second]);
      assert [first, second][..1] == [first];
      assert Users([first]) == [first] by { assert [first][..0] == []; }
      assert Without(before.queue, 0) == before.queue[1..];
    }
  }

  lemma {:induction false} TurnEnds(p: Peer, s: Id)
    requires Flowing(p, s) && p.running[s].word < |p.script.words|
    ensures exists n: nat :: TurnedOver(p, Resumed(p, s, n), s)
    decreases |p.script.words| - p.running[s].word
  {
    hide Resume, Tasks, Ids, Users;
    if p.running[s].word + 1 == |p.script.words| {
      LastWord(p, s);
      assert Resumed(p, s, 1) == Resume(p, s) by { assert Resumed(Resume(p, s), s, 0) == Resume(p, s); }
    } else {
      WordStep(p, s);
      var next := Resume(p, s);
      TurnEnds(next, s);
      var n: nat :| TurnedOver(next, Resumed(next, s, n), s);
      assert Resumed(p, s, n + 1) == Resumed(next, s, n);
    }
  }

  lemma {:induction false} OtherFiles(files: map<Id, seq<Remote>>, queue: seq<Row>, id: Id)
    requires forall r :: r in queue ==> r.id != id
    ensures AllDelivered(files - {id}, queue) == AllDelivered(files, queue)
  {
    if queue != [] { OtherFiles(files, queue[1..], id); }
  }

  /** The session rests with an empty queue, and every row has become a message, in order and with its files. */
  ghost predicate Emptied(p: Peer, q: Peer, s: Id)
    requires s in p.sessions
  {
    && s in q.sessions && !q.sessions[s].working && q.sessions[s].queue == []
    && Users(q.sessions[s].messages) == Users(p.sessions[s].messages) + AllDelivered(p.files, p.sessions[s].queue)
  }

  /** Progress: left alone, a running session delivers its whole queue, in order, and comes to rest. */
  lemma {:induction false} DrainsInOrder(p: Peer, s: Id)
    requires Flowing(p, s)
    ensures exists n: nat :: Emptied(p, Resumed(p, s, n), s)
    decreases |p.sessions[s].queue|
  {
    hide Resume, Users, Ids, Tasks;
    assert p.running[s].word < |p.script.words| by { WordsLeft(p, s); }
    TurnEnds(p, s);
    var n: nat :| TurnedOver(p, Resumed(p, s, n), s);
    var next, queue := Resumed(p, s, n), p.sessions[s].queue;
    if queue != [] {
      DrainsInOrder(next, s);
      var m: nat :| Emptied(next, Resumed(next, s, m), s);
      EmptiesOn(p, next, Resumed(next, s, m), s);
      ResumedTwice(p, s, n, m);
    }
  }

  lemma EmptiesOn(p: Peer, next: Peer, q: Peer, s: Id)
    requires s in p.sessions && Ids(p) && p.sessions[s].queue != [] && TurnedOver(p, next, s)
    requires s in next.sessions && Emptied(next, q, s)
    ensures Emptied(p, q, s)
  {
    hide Flowing, Users, Ids;
    var queue := p.sessions[s].queue;
    OthersDiffer(p, s);
    OtherFiles(p.files, queue[1..], queue[0].id);
  }

  lemma WordsLeft(p: Peer, s: Id)
    requires Flowing(p, s)
    ensures p.running[s].word < |p.script.words|
  {
    assert TaskAt(p, s);
  }

  lemma OthersDiffer(p: Peer, s: Id)
    requires Ids(p) && s in p.sessions && p.sessions[s].queue != []
    ensures forall r :: r in p.sessions[s].queue[1..] ==> r.id != p.sessions[s].queue[0].id
  {
    assert Clean(p.sessions[s].queue, p.sessions[s].messages, p.nextID);
  }
}
