/** Messages are conserved: every accepted one is queued or delivered, once, with its text and its files. */
module DemoLedger {
  import opened Whitespace
  import opened Wrappers
  import opened DemoPeer
  import opened DemoIds
  import opened DemoTasks

  /** What was sent under an identifier. */
  datatype Entry = Entry(session: Id, text: string, files: seq<Remote>)

  type Ledger = map<Id, Entry>

  /** A row will deliver, and a user message did deliver, what was sent. */
  ghost predicate Honest(files: map<Id, seq<Remote>>, sent: Ledger, s: Id, queue: seq<Row>, messages: seq<Message>) {
    && (forall r :: r in queue ==>
          r.id in sent && sent[r.id] == Entry(s, r.text, Files(files, r.id)) && Paths(Files(files, r.id)) == r.files)
    && (forall m :: m in messages && m.role.User? ==> m.id in sent && sent[m.id] == Entry(s, m.text, m.files))
  }

  ghost predicate Present(queue: seq<Row>, messages: seq<Message>, id: Id) {
    (exists r :: r in queue && r.id == id) || (exists m :: m in messages && m.role.User? && m.id == id)
  }

  ghost predicate Complete(sent: Ledger, s: Id, queue: seq<Row>, messages: seq<Message>) {
    forall id :: id in sent && sent[id].session == s ==> Present(queue, messages, id)
  }

  ghost predicate Kept(p: Peer, sent: Ledger) {
    && (forall s :: s in p.sessions ==>
          Honest(p.files, sent, s, p.sessions[s].queue, p.sessions[s].messages)
          && Complete(sent, s, p.sessions[s].queue, p.sessions[s].messages))
    && (forall id :: id in sent ==> id < p.nextID && sent[id].session in p.sessions)
  }

  /** Two ledgers, and two stores of files, that differ in one session's messages at most. */
  ghost predicate AgreeBut(files: map<Id, seq<Remote>>, sent: Ledger, files': map<Id, seq<Remote>>, sent': Ledger,
      s: Id) {
    && (forall id :: id in sent && sent[id].session != s ==>
          id in sent' && sent'[id] == sent[id] && Files(files', id) == Files(files, id))
    && (forall id :: id in sent' && sent'[id].session != s ==> id in sent && sent[id] == sent'[id])
  }

  lemma HonestOthers(files: map<Id, seq<Remote>>, sent: Ledger, files': map<Id, seq<Remote>>, sent': Ledger, s: Id,
                     t: Id, queue: seq<Row>, messages: seq<Message>)
    requires AgreeBut(files, sent, files', sent', s) && t != s
    requires Honest(files, sent, t, queue, messages) && Complete(sent, t, queue, messages)
    ensures Honest(files', sent', t, queue, messages) && Complete(sent', t, queue, messages)
  {
    hide Present, Files;
    assert forall id :: id in sent' && sent'[id].session == t ==> id in sent && sent[id].session == t;
  }

  lemma OneSessionKept(p: Peer, q: Peer, s: Id, sent: Ledger, sent': Ledger)
    requires Kept(p, sent) && p.nextID <= q.nextID && q.sessions.Keys == p.sessions.Keys && s in p.sessions
    requires forall t :: t in p.sessions && t != s ==> q.sessions[t] == p.sessions[t]
    requires AgreeBut(p.files, sent, q.files, sent', s)
    requires Honest(q.files, sent', s, q.sessions[s].queue, q.sessions[s].messages)
    requires Complete(sent', s, q.sessions[s].queue, q.sessions[s].messages)
    requires forall id :: id in sent' && sent'[id].session == s ==> id < q.nextID
    ensures Kept(q, sent')
  {
    hide Honest, Complete;
    forall t | t in p.sessions && t != s
      ensures Honest(q.files, sent', t, q.sessions[t].queue, q.sessions[t].messages)
              && Complete(sent', t, q.sessions[t].queue, q.sessions[t].messages)
    {
      HonestOthers(p.files, sent, q.files, sent', s, t, p.sessions[t].queue, p.sessions[t].messages);
    }
  }

  lemma RowTaken(files: map<Id, seq<Remote>>, sent: Ledger, s: Id, queue: seq<Row>, messages: seq<Message>, next: Id,
      i: nat)
    requires Honest(files, sent, s, queue, messages) && Complete(sent, s, queue, messages)
    requires Clean(queue, messages, next) && i < |queue|
    ensures var id := queue[i].id;
            && Honest(files - {id}, sent - {id}, s, Without(queue, i), messages)
            && Complete(sent - {id}, s, Without(queue, i), messages)
            && AgreeBut(files, sent, files - {id}, sent - {id}, s)
            && id in sent && sent[id] == Entry(s, queue[i].text, Files(files, id))
            && Paths(Files(files, id)) == queue[i].files
  {
    hide Without;
    WithoutIn(queue, i);
    TakenIsUnused(queue, messages, next, i);
    assert queue[i] in queue;
    var id := queue[i].id;
    forall x | x in sent - {id} && sent[x].session == s
      ensures Present(Without(queue, i), messages, x)
    {
      assert Present(queue, messages, x);
    }
  }

  lemma MessagePulled(files: map<Id, seq<Remote>>, sent: Ledger, s: Id, queue: seq<Row>, messages: seq<Message>,
      next: Id,
                      i: nat)
    requires Honest(files, sent, s, queue, messages) && Complete(sent, s, queue, messages)
    requires Clean(queue, messages, next) && i < |messages| && messages[i].role.User?
    ensures var id := messages[i].id;
            && Honest(files, sent - {id}, s, queue, Without(messages, i))
            && Complete(sent - {id}, s, queue, Without(messages, i))
            && AgreeBut(files, sent, files, sent - {id}, s)
            && id in sent && sent[id] == Entry(s, messages[i].text, messages[i].files)
  {
    hide Without;
    WithoutIn(messages, i);
    PulledIsUnused(queue, messages, next, i);
    assert messages[i] in messages;
    var id := messages[i].id;
    forall x | x in sent - {id} && sent[x].session == s
      ensures Present(queue, Without(messages, i), x)
    {
      assert Present(queue, messages, x);
    }
  }

  lemma MessageAdded(files: map<Id, seq<Remote>>, sent: Ledger, s: Id, queue: seq<Row>, messages: seq<Message>,
      m: Message)
    requires Honest(files, sent, s, queue, messages) && Complete(sent, s, queue, messages)
    requires m.role.User? ==> m.id !in sent
    ensures var sent' := if m.role.User? then sent[m.id := Entry(s, m.text, m.files)] else sent;
            && Honest(files, sent', s, queue, messages + [m]) && Complete(sent', s, queue, messages + [m])
            && AgreeBut(files, sent, files, sent', s)
  {
    var sent' := if m.role.User? then sent[m.id := Entry(s, m.text, m.files)] else sent;
    assert m in messages + [m];
    forall x | x in sent' && sent'[x].session == s
      ensures Present(queue, messages + [m], x)
    {
      if x in sent && sent[x].session == s { assert Present(queue, messages, x); }
    }
  }

  lemma RowAdded(files: map<Id, seq<Remote>>, sent: Ledger, s: Id, queue: seq<Row>, messages: seq<Message>, row: Row,
                 remote: seq<Remote>)
    requires Honest(files, sent, s, queue, messages) && Complete(sent, s, queue, messages)
    requires row.id !in sent && row.files == Paths(remote)
    ensures var sent', files' := sent[row.id := Entry(s, row.text, remote)], files[row.id := remote];
            && Honest(files', sent', s, queue + [row], messages) && Complete(sent', s, queue + [row], messages)
            && AgreeBut(files, sent, files', sent', s)
  {
    var sent' := sent[row.id := Entry(s, row.text, remote)];
    assert row in queue + [row];
    forall x | x in sent' && sent'[x].session == s
      ensures Present(queue + [row], messages, x)
    {
      if x in sent && sent[x].session == s { assert Present(queue, messages, x); }
    }
  }

  ghost predicate SameMessage(m: Message, m': Message) {
    m'.id == m.id && m'.role == m.role && m'.files == m.files && (m.role.User? ==> m'.text == m.text)
  }

  /** Flags, places and an assistant's words do not matter. */
  ghost predicate SameContent(queue: seq<Row>, messages: seq<Message>, queue': seq<Row>, messages': seq<Message>) {
    && (forall r :: r in queue ==> exists r' :: r' in queue' && r'.id == r.id)
    && (forall r' :: r' in queue' ==>
         exists r :: r in queue && r'.id == r.id && r'.text == r.text && r'.files == r.files)
    && |messages'| == |messages|
    && (forall i :: 0 <= i < |messages| ==> SameMessage(messages[i], messages'[i]))
  }

  lemma SameIsKept(files: map<Id, seq<Remote>>, sent: Ledger, s: Id, queue: seq<Row>, messages: seq<Message>,
                   queue': seq<Row>, messages': seq<Message>)
    requires Honest(files, sent, s, queue, messages) && Complete(sent, s, queue, messages)
    requires SameContent(queue, messages, queue', messages')
    ensures Honest(files, sent, s, queue', messages') && Complete(sent, s, queue', messages')
  {
    forall m | m in messages' && m.role.User?
      ensures m.id in sent && sent[m.id] == Entry(s, m.text, m.files)
    {
      var i :| 0 <= i < |messages'| && messages'[i] == m;
      assert messages[i] in messages;
    }
    forall x | x in sent && sent[x].session == s
      ensures Present(queue', messages', x)
    {
      assert Present(queue, messages, x);
      if m :| m in messages && m.role.User? && m.id == x {
        var i :| 0 <= i < |messages| && messages[i] == m;
        assert messages'[i] in messages';
      }
    }
  }

  lemma RowEdited(files: map<Id, seq<Remote>>, sent: Ledger, s: Id, queue: seq<Row>, messages: seq<Message>, next: Id,
                  i: nat, row: Row)
    requires Honest(files, sent, s, queue, messages) && Complete(sent, s, queue, messages)
    requires Clean(queue, messages, next) && i < |queue| && row.id == queue[i].id && row.files == queue[i].files
    ensures row.id in sent
    ensures var sent' := sent[row.id := Entry(s, row.text, sent[row.id].files)];
            && Honest(files, sent', s, queue[i := row], messages) && Complete(sent', s, queue[i := row], messages)
            && AgreeBut(files, sent, files, sent', s)
  {
    assert queue[i] in queue;
    var sent' := sent[row.id := Entry(s, row.text, sent[row.id].files)];
    assert queue[i := row][i] == row;
    forall r | r in queue[i := row]
      ensures r == row || (r in queue && r.id != row.id)
    {
      var k :| 0 <= k < |queue| && queue[i := row][k] == r;
    }
    forall x | x in sent' && sent'[x].session == s
      ensures Present(queue[i := row], messages, x)
    {
      assert Present(queue, messages, x);
      if r :| r in queue && r.id == x {
        var k :| 0 <= k < |queue| && queue[k] == r;
        assert queue[i := row][k].id == x && queue[i := row][k] in queue[i := row];
      }
    }
  }

  lemma StartKept(p: Peer, sent: Ledger, s: Id, text: string, files: seq<Remote>, message: Id)
    requires Kept(p, sent) && s in p.sessions && message !in sent && message < p.nextID
    ensures Kept(StartTurn(p, s, text, files, message), sent[message := Entry(s, text, files)])
  {
    hide Honest, Complete;
    var state := p.sessions[s];
    var first, second := Message(message, User, text, files, false), Message(p.nextID, Assistant, "", [], true);
    var sent' := sent[message := Entry(s, text, files)];
    MessageAdded(p.files, sent, s, state.queue, state.messages, first);
    MessageAdded(p.files, sent', s, state.queue, state.messages + [first], second);
    assert state.messages + [first] + [second] == state.messages + [first, second];
    OneSessionKept(p, StartTurn(p, s, text, files, message), s, sent, sent');
  }

  lemma DequeuedKept(p: Peer, sent: Ledger, s: Id, i: nat)
    requires Kept(p, sent) && Ids(p) && s in p.sessions && i < |p.sessions[s].queue|
    ensures var row := p.sessions[s].queue[i];
            && Kept(Dequeued(p, s, i), sent - {row.id}) && row.id in sent
            && sent[row.id] == Entry(s, row.text, Files(p.files, row.id)) && Paths(Files(p.files, row.id)) == row.files
  {
    hide Honest, Complete, Clean, Without;
    RowTaken(p.files, sent, s, p.sessions[s].queue, p.sessions[s].messages, p.nextID, i);
    OneSessionKept(p, Dequeued(p, s, i), s, sent, sent - {p.sessions[s].queue[i].id});
  }

  /** Delivering the head of the queue changes no message. */
  lemma DrainKept(p: Peer, sent: Ledger, s: Id)
    requires Kept(p, sent) && Ids(p)
    ensures Kept(Drain(p, s), sent)
  {
    hide Kept, Ids, Dequeued, StartTurn, Honest, Complete;
    if Deliverable(p, s) {
      var row := p.sessions[s].queue[0];
      var files := Files(p.files, row.id);
      DequeuedKept(p, sent, s, 0);
      DequeuedIds(p, s, 0);
      StartKept(Dequeued(p, s, 0), sent - {row.id}, s, row.text, files, row.id);
      assert (sent - {row.id})[row.id := Entry(s, row.text, files)] == sent;
    }
  }

  lemma SameContentKept(p: Peer, q: Peer, s: Id, sent: Ledger)
    requires Kept(p, sent) && p.nextID <= q.nextID && q.sessions.Keys == p.sessions.Keys && q.files == p.files
    requires forall t :: t in p.sessions && t != s ==> q.sessions[t] == p.sessions[t]
    requires s in p.sessions ==> SameContent(p.sessions[s].queue, p.sessions[s].messages,
                                             q.sessions[s].queue, q.sessions[s].messages)
    ensures Kept(q, sent)
  {
    hide Honest, Complete, SameContent;
    if s in p.sessions {
      SameIsKept(p.files, sent, s, p.sessions[s].queue, p.sessions[s].messages,
                 q.sessions[s].queue, q.sessions[s].messages);
    }
  }

  lemma HaltedKept(p: Peer, sent: Ledger, s: Id)
    requires Kept(p, sent) && s in p.sessions
    ensures Kept(Halted(p, s), sent)
  {
    hide Kept;
    SameContentKept(p, Halted(p, s), s, sent);
  }

  lemma FinishKept(p: Peer, sent: Ledger, s: Id, interrupted: bool)
    requires Kept(p, sent) && Ids(p)
    ensures Kept(Finish(p, s, interrupted), sent)
  {
    hide Honest, Complete, Halted, Drain, Ids;
    if s in p.sessions {
      HaltedKept(p, sent, s);
      HaltedIds(p, s);
      DrainKept(Halted(p, s), sent, s);
    }
  }

  /** An accepted message is entered once, under a new identifier, trimmed and with all its files. */
  lemma SendKept(p: Peer, sent: Ledger, s: Id, text: string, files: seq<Local>, mode: Mode)
    requires Kept(p, sent)
    ensures Kept(Send(p, s, text, files, mode),
                 if Accepts(p, s, text, files, mode) then sent[p.nextID := Entry(s, Trim(text),
                     Sent(s, files))] else sent)
  {
    hide Honest, Complete, Trim, StartTurn, Sent, Paths;
    if Accepts(p, s, text, files, mode) {
      var state := p.sessions[s];
      var clean, remote := Trim(text), Sent(s, files);
      var sent' := sent[p.nextID := Entry(s, clean, remote)];
      if (state.working || state.input.Some?) && mode.Queue? {
        var row := Row(p.nextID, clean, Paths(remote), false, false);
        RowAdded(p.files, sent, s, state.queue, state.messages, row, remote);
        OneSessionKept(p, Send(p, s, text, files, mode), s, sent, sent');
      } else if state.working {
        assert remote == [];
        MessageAdded(p.files, sent, s, state.queue, state.messages, Message(p.nextID, User, clean, [], false));
        OneSessionKept(p, Send(p, s, text, files, mode), s, sent, sent');
      } else {
        StartKept(p.(paused := p.paused - {s}, nextID := p.nextID + 1), sent, s, clean, remote, p.nextID);
      }
    }
  }

  lemma RetryKept(p: Peer, sent: Ledger, s: Id)
    requires Kept(p, sent) && Ids(p)
    ensures Kept(Retry(p, s).0, sent)
  {
    hide Honest, Complete, StartTurn, Without, Clean;
    if s in p.sessions && LastUser(p.sessions[s].messages).Some? {
      var state := p.sessions[s];
      var i := LastUser(state.messages).value;
      var m := state.messages[i];
      MessagePulled(p.files, sent, s, state.queue, state.messages, p.nextID, i);
      OneSessionKept(p, Pulled(p, s, i), s, sent, sent - {m.id});
      StartKept(Pulled(p, s, i), sent - {m.id}, s, m.text, m.files, m.id);
      assert (sent - {m.id})[m.id := Entry(s, m.text, m.files)] == sent;
    }
  }

  lemma RespondKept(p: Peer, sent: Ledger, s: Id, request: Id)
    requires Kept(p, sent) && Ids(p)
    ensures Kept(Respond(p, s, request).0, sent)
  {
    hide Honest, Complete, Drain, Ids;
    if s in p.sessions {
      var state := p.sessions[s];
      MessageAdded(p.files, sent, s, state.queue, state.messages,
          Message(p.nextID, Assistant, p.script.saved, [], false));
      OneSessionKept(p, Answered(p, s), s, sent, sent);
      AnsweredIds(p, s);
      DrainKept(Answered(p, s), sent, s);
    }
  }

  /** A row sent at once is one without files, and keeps its identifier. */
  lemma SendNowKept(p: Peer, sent: Ledger, s: Id, id: Id)
    requires Kept(p, sent) && Ids(p)
    ensures Kept(SendNow(p, s, id).0, sent)
  {
    hide Honest, Complete, StartTurn, Without, Ids;
    if SendNow(p, s, id).1.None? {
      var i := RowAt(p.sessions[s].queue, id).value;
      var row := p.sessions[s].queue[i];
      DequeuedKept(p, sent, s, i);
      DequeuedIds(p, s, i);
      var taken := Dequeued(p, s, i).(paused := p.paused - {s});
      assert Files(p.files, id) == [];
      assert (sent - {id})[id := Entry(s, row.text, [])] == sent;
      if p.sessions[s].working {
        var m := Message(id, User, row.text, [], false);
        MessageAdded(taken.files, sent - {id}, s, taken.sessions[s].queue, taken.sessions[s].messages, m);
        OneSessionKept(taken, Posted(taken, s, m), s, sent - {id}, sent);
      } else {
        StartKept(taken, sent - {id}, s, row.text, [], id);
      }
    }
  }

  lemma MoveKept(p: Peer, sent: Ledger, s: Id, id: Id, delta: int)
    requires Kept(p, sent)
    ensures Kept(Move(p, s, id, delta).0, sent)
  {
    hide Kept, Inserted;
    if Move(p, s, id, delta).1.None? {
      var queue := p.sessions[s].queue;
      var i := RowAt(queue, id).value;
      WithoutIn(queue, i);
      InsertedIn(Without(queue, i), i + delta, queue[i]);
      SameContentKept(p, Move(p, s, id, delta).0, s, sent);
    }
  }

  lemma DeleteKept(p: Peer, sent: Ledger, s: Id, id: Id)
    requires Kept(p, sent) && Ids(p)
    ensures Kept(Delete(p, s, id).0, if Delete(p, s, id).1.None? then sent - {id} else sent)
  {
    hide Kept, Ids, Dequeued, Drain, Honest, Complete;
    if Delete(p, s, id).1.None? {
      var i := RowAt(p.sessions[s].queue, id).value;
      DequeuedKept(p, sent, s, i);
      DequeuedIds(p, s, i);
      DrainKept(Dequeued(p, s, i), sent - {id}, s);
    }
  }

  lemma SameRowsContent(queue: seq<Row>, queue': seq<Row>, messages: seq<Message>)
    requires |queue'| == |queue|
    requires forall i :: 0 <= i < |queue| ==> queue'[i].id == queue[i].id && queue'[i].text == queue[i].text
                                              && queue'[i].files == queue[i].files
    ensures SameContent(queue, messages, queue', messages)
  {
    forall r | r in queue
      ensures exists r' :: r' in queue' && r'.id == r.id
    {
      var i :| 0 <= i < |queue| && queue[i] == r;
      assert queue'[i] in queue';
    }
    forall r' | r' in queue'
      ensures exists r :: r in queue && r'.id == r.id && r'.text == r.text && r'.files == r.files
    {
      var i :| 0 <= i < |queue'| && queue'[i] == r';
      assert queue[i] in queue;
    }
  }

  lemma BlockedContent(queue: seq<Row>, i: nat, messages: seq<Message>)
    requires i < |queue|
    ensures SameContent(queue, messages, queue[i := queue[i].(blocked := true)], messages)
  {
    hide SameContent;
    SameRowsContent(queue, queue[i := queue[i].(blocked := true)], messages);
  }

  lemma BeginKept(p: Peer, sent: Ledger, s: Id, id: Id)
    requires Kept(p, sent)
    ensures Kept(Begin(p, s, id).0, sent)
  {
    hide Kept, Leased, SameContent;
    if Begin(p, s, id).2.None? {
      var state := p.sessions[s];
      BlockedContent(state.queue, RowAt(state.queue, id).value, state.messages);
      SameContentKept(p, Begin(p, s, id).0, s, sent);
    }
  }

  /** What a commit does to the ledger: the new text, if any, and nothing else. */
  function Edited(p: Peer, sent: Ledger, edit: Edit, text: Option<string>): Ledger {
    if FinishEdit(p, edit, text).1.None? && text.Some? && edit.row in sent
    then sent[edit.row := sent[edit.row].(text := text.value)] else sent
  }

  lemma FinishEditKept(p: Peer, sent: Ledger, edit: Edit, text: Option<string>)
    requires Kept(p, sent) && Ids(p)
    ensures Kept(FinishEdit(p, edit, text).0, Edited(p, sent, edit, text))
  {
    hide Honest, Complete, Drain, Trim, Clean;
    if FinishEdit(p, edit, text).1.None? {
      var s := edit.session;
      var state := p.sessions[s];
      var i := RowAt(state.queue, edit.row).value;
      var row := state.queue[i].(text := text.GetOr(state.queue[i].text), blocked := false);
      assert Kept(Committed(p, edit, text), Edited(p, sent, edit, text)) by {
        RowEdited(p.files, sent, s, state.queue, state.messages, p.nextID, i, row);
        RowTaken(p.files, sent, s, state.queue, state.messages, p.nextID, i);
        assert Edited(p, sent, edit, text) == sent[row.id := Entry(s, row.text, sent[row.id].files)];
        OneSessionKept(p, Committed(p, edit, text), s, sent, Edited(p, sent, edit, text));
      }
      CommittedIds(p, edit, text);
      hide Kept, Ids, Committed;
      DrainKept(Committed(p, edit, text), Edited(p, sent, edit, text), s);
    }
  }

  lemma CloseKept(p: Peer, sent: Ledger, s: Id)
    requires Kept(p, sent) && Ids(p)
    ensures Kept(Close(p, s), sent)
  {
    hide Kept, Ids, Drain, RowsOf, LeasesOf, SameContent;
    var q := Freed(p, s);
    if s in p.sessions { SameRowsContent(p.sessions[s].queue, q.sessions[s].queue, p.sessions[s].messages); }
    SameContentKept(p, q, s, sent);
    FreedIds(p, s);
    DrainKept(q, sent, s);
  }

  lemma CreateKept(p: Peer, sent: Ledger, accepted: bool)
    requires Kept(p, sent) && Ids(p)
    ensures Kept(Create(p, accepted).0, sent)
  {
    hide Honest;
    if p.active && accepted {
      assert p.nextID !in p.sessions;
      assert Honest(p.files, sent, p.nextID, [], []) by { EmptyHonest(p.files, sent, p.nextID); }
    }
  }

  lemma EmptyHonest(files: map<Id, seq<Remote>>, sent: Ledger, s: Id)
    ensures Honest(files, sent, s, [], [])
  {
  }

  /** Streaming writes into assistant messages only. */
  lemma RetoldKept(p: Peer, sent: Ledger, s: Id, i: nat, text: string)
    requires Kept(p, sent) && s in p.sessions && i < |p.sessions[s].messages|
             && p.sessions[s].messages[i].role.Assistant?
    ensures Kept(Retold(p, s, i, text), sent)
  {
    hide Kept;
    SameContentKept(p, Retold(p, s, i, text), s, sent);
  }

  lemma InterruptKept(p: Peer, sent: Ledger, s: Id)
    requires Kept(p, sent) && Ids(p)
    ensures Kept(Interrupt(p, s), sent)
  {
    hide Honest, Complete, Finish, Clean;
    FinishKept(Stopped(p, s), sent, s, true);
  }

  /** A session's task writes into the message of its own. */
  lemma ResumeKept(p: Peer, sent: Ledger, s: Id)
    requires Kept(p, sent) && Ids(p) && Tasks(p)
    ensures Kept(Resume(p, s), sent)
  {
    hide Kept, Ids, Tasks, Finish, Retold;
    if s in p.running && s in p.sessions {
      var job := p.running[s];
      var i := MessageAt(p.sessions[s].messages, if job.Turn? then job.reply else PROGRESS);
      WriterIsAssistant(p, s);
      if i.Some? && job.Turn? && job.word < |p.script.words| {
        var before := p.sessions[s].messages[i.value].text;
        var text := before + (if job.word == 0 then "" else " ") + p.script.words[job.word];
        RetoldKept(p, sent, s, i.value, text);
        TasksAside(Retold(p, s, i.value, text), sent, Told(p, s, i.value, job));
        ToldIds(p, s, i.value, job);
        FinishKept(Told(p, s, i.value, job), sent, s, false);
      } else if i.Some? && job.Showcase? && p.script.progress != [] {
        var next := (job.phase + 1) % |p.script.progress|;
        var q := Retold(p, s, i.value, p.script.progress[next]);
        RetoldKept(p, sent, s, i.value, p.script.progress[next]);
        TasksAside(q, sent, q.(running := p.running[s := Showcase(next)]));
      }
    }
  }

  lemma TasksAside(p: Peer, sent: Ledger, q: Peer)
    requires Kept(p, sent) && q.sessions == p.sessions && q.files == p.files && q.nextID == p.nextID
    ensures Kept(q, sent)
  {
    hide Honest, Complete;
  }

  lemma WriterIsAssistant(p: Peer, s: Id)
    requires Ids(p) && Tasks(p) && s in p.running && s in p.sessions
    ensures var job := p.running[s];
            var i := MessageAt(p.sessions[s].messages, if job.Turn? then job.reply else PROGRESS);
            i.Some? && p.sessions[s].messages[i.value].role.Assistant?
  {
    hide Joined, StreamsOnly;
    assert TaskAt(p, s);
    var messages := p.sessions[s].messages;
    var id := if p.running[s].Turn? then p.running[s].reply else PROGRESS;
    var k :| 0 <= k < |messages| && messages[k].id == id && messages[k].role.Assistant?;
    assert Clean(p.sessions[s].queue, messages, p.nextID);
  }
}
