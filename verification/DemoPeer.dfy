/** The state of the in-memory demo peer and what each of its entry points does to it. */
module DemoPeer {
  import opened Whitespace
  import opened Wrappers

  /** Identifiers are numbers; a new one is the next number, above all that are in use. */
  type Id = nat

  /** The two fixed identifiers of the sample that keeps working by itself. */
  const RUNNING: Id := 0
  const PROGRESS: Id := 1

  const LEASE_MILLISECONDS := 60_000

  datatype Path = Path(session: Id, attachment: Id)
  datatype Remote = Remote(path: Path, name: string)
  datatype Local = Local(id: Id, name: string, valid: bool)

  datatype Role = User | Assistant | Tool
  datatype Message = Message(id: Id, role: Role, text: string, files: seq<Remote>, streaming: bool)
  datatype Row = Row(id: Id, text: string, files: seq<Path>, blocked: bool, pending: bool)
  datatype Session = Session(messages: seq<Message>, working: bool, input: Option<Id>, queue: seq<Row>,
                             failed: bool, turnID: Option<Id>)

  /** A granted edit, and the handle for it. */
  datatype Edit = Edit(lease: Id, session: Id, row: Id, text: string, expires: int)

  /** A live task: a simulated turn that has streamed `word` words, or the sample's endless one. */
  datatype Job = Turn(reply: Id, word: nat) | Showcase(phase: nat)

  /** What the peer writes: the words of a reply, the sample's progress and the answer to an answer. */
  datatype Script = Script(words: seq<string>, progress: seq<string>, saved: string)

  datatype Peer = Peer(script: Script, active: bool, showcasing: bool, sessions: map<Id, Session>,
                       running: map<Id, Job>, files: map<Id, seq<Remote>>, edits: map<Id, Edit>,
                       paused: set<Id>, clock: int, nextID: Id)

  /** The samples the peer ships, and a number above all identifiers in them. */
  datatype Fixtures = Fixtures(sessions: map<Id, Session>, files: map<Id, seq<Remote>>, next: Id)

  datatype Mode = Queue | Steer

  datatype Failure = NoSession | BadAttachment | FilesMustWait | LeftQueue | FilesWait | BeingEdited | Busy | CannotMove
                   | AlreadyEdited | EditOver | Changed | EmptyMessage | NoQuestion

  /** The place of the first row or message with an identifier. */
  function RowAt(queue: seq<Row>, id: Id): (i: Option<nat>)
    ensures i.Some? ==> i.value < |queue| && queue[i.value].id == id && forall j :: 0 <= j < i.value ==>
              queue[j].id != id
    ensures i.None? ==> forall j :: 0 <= j < |queue| ==> queue[j].id != id
  {
    if queue == [] then None
    else if queue[0].id == id then Some(0)
    else
      var rest := RowAt(queue[1..], id);
      if rest.Some? then Some(rest.value + 1) else None
  }

  function MessageAt(messages: seq<Message>, id: Id): (i: Option<nat>)
    ensures i.Some? ==> i.value < |messages| && messages[i.value].id == id
                        && forall j :: 0 <= j < i.value ==> messages[j].id != id
    ensures i.None? ==> forall j :: 0 <= j < |messages| ==> messages[j].id != id
  {
    if messages == [] then None
    else if messages[0].id == id then Some(0)
    else
      var rest := MessageAt(messages[1..], id);
      if rest.Some? then Some(rest.value + 1) else None
  }

  function LastUser(messages: seq<Message>): (i: Option<nat>)
    ensures i.Some? ==> i.value < |messages| && messages[i.value].role.User?
                        && forall j :: i.value < j < |messages| ==> !messages[j].role.User?
    ensures i.None? ==> forall j :: 0 <= j < |messages| ==> !messages[j].role.User?
  {
    if messages == [] then None
    else if messages[|messages| - 1].role.User? then Some(|messages| - 1)
    else LastUser(messages[..|messages| - 1])
  }

  function LastStreaming(messages: seq<Message>): (i: Option<nat>)
    ensures i.Some? ==> i.value < |messages| && messages[i.value].role.Assistant? && messages[i.value].streaming
                        && forall j :: i.value < j < |messages| ==>
                                         !messages[j].role.Assistant? || !messages[j].streaming
    ensures i.None? ==> forall j :: 0 <= j < |messages| ==> !messages[j].role.Assistant? || !messages[j].streaming
  {
    if messages == [] then None
    else if messages[|messages| - 1].role.Assistant? && messages[|messages| - 1].streaming then Some(|messages| - 1)
    else LastStreaming(messages[..|messages| - 1])
  }

  function Settled(messages: seq<Message>): (r: seq<Message>)
    ensures |r| == |messages|
  {
    var i := LastStreaming(messages);
    if i.Some? then messages[i.value := messages[i.value].(streaming := false)] else messages
  }

  function Without<T>(s: seq<T>, i: nat): seq<T>
    requires i < |s|
  {
    s[..i] + s[i + 1..]
  }

  lemma WithoutIn<T>(s: seq<T>, i: nat)
    requires i < |s|
    ensures forall x :: x in Without(s, i) ==> x in s
    ensures forall x :: x in s && x != s[i] ==> x in Without(s, i)
  {
    forall x | x in s && x != s[i]
      ensures x in Without(s, i)
    {
      var k :| 0 <= k < |s| && s[k] == x;
      assert Without(s, i)[if k < i then k else k - 1] == x;
    }
  }

  function Inserted<T>(s: seq<T>, i: nat, x: T): seq<T>
    requires i <= |s|
  {
    s[..i] + [x] + s[i..]
  }

  lemma InsertedIn<T>(s: seq<T>, i: nat, x: T)
    requires i <= |s|
    ensures forall y :: y in Inserted(s, i, x) <==> y in s || y == x
  {
    assert s == s[..i] + s[i..];
  }

  function Sent(session: Id, files: seq<Local>): (r: seq<Remote>)
    ensures |r| == |files|
    ensures forall i :: 0 <= i < |r| ==> r[i] == Remote(Path(session, files[i].id), files[i].name)
  {
    seq(|files|, i requires 0 <= i < |files| => Remote(Path(session, files[i].id), files[i].name))
  }

  function Paths(files: seq<Remote>): (r: seq<Path>)
    ensures |r| == |files| && forall i :: 0 <= i < |r| ==> r[i] == files[i].path
  {
    seq(|files|, i requires 0 <= i < |files| => files[i].path)
  }

  /** What the queue delivers with a row. */
  function Files(files: map<Id, seq<Remote>>, row: Id): seq<Remote> {
    if row in files then files[row] else []
  }

  function Idle(script: Script, clock: int): Peer {
    Peer(script, false, false, map[], map[], map[], map[], {}, clock, PROGRESS + 1)
  }

  function Cleared(p: Peer): Peer {
    p.(active := false, showcasing := false, sessions := map[], running := map[], files := map[], edits := map[],
       paused := {})
  }

  function StartShowcase(p: Peer): Peer {
    if p.active && p.showcasing && RUNNING in p.sessions && p.sessions[RUNNING].working && RUNNING !in p.running then
      p.(running := p.running[RUNNING := Showcase(0)])
    else p
  }

  /** New identifiers are none of those of the samples. */
  function NextAbove(p: Peer, f: Fixtures): Id {
    if p.nextID < f.next then f.next else p.nextID
  }

  function Restore(p: Peer, f: Fixtures): Peer {
    StartShowcase(Cleared(p).(active := true, showcasing := true, sessions := f.sessions, files := f.files,
                              nextID := NextAbove(p, f)))
  }

  function StartTurn(p: Peer, session: Id, text: string, files: seq<Remote>, message: Id): Peer {
    if session !in p.sessions then p
    else
      var state := p.sessions[session];
      var reply := p.nextID;
      var added := [Message(message, User, text, files, false), Message(reply, Assistant, "", [], true)];
      p.(showcasing := p.showcasing && session != RUNNING,
         sessions := p.sessions[session := state.(input := None, messages := state.messages + added, working := true,
                                                  turnID := Some(message), failed := false)],
         running := p.running[session := Turn(reply, 0)],
         nextID := p.nextID + 1)
  }

  predicate Deliverable(p: Peer, session: Id) {
    && p.active && session !in p.paused && session in p.sessions && !p.sessions[session].working
    && p.sessions[session].input.None? && p.sessions[session].queue != [] && !p.sessions[session].queue[0].blocked
  }

  function Dequeued(p: Peer, session: Id, i: nat): Peer
    requires session in p.sessions && i < |p.sessions[session].queue|
  {
    var state := p.sessions[session];
    p.(sessions := p.sessions[session := state.(queue := Without(state.queue, i))],
       files := p.files - {state.queue[i].id})
  }

  function Drain(p: Peer, session: Id): Peer {
    if Deliverable(p, session) then
      var row := p.sessions[session].queue[0];
      StartTurn(Dequeued(p, session, 0), session, row.text, Files(p.files, row.id), row.id)
    else p
  }

  function Halted(p: Peer, session: Id): Peer
    requires session in p.sessions
  {
    var state := p.sessions[session];
    p.(running := p.running - {session},
       sessions := p.sessions[session := state.(working := false, messages := Settled(state.messages))])
  }

  function Finish(p: Peer, session: Id, interrupted: bool): Peer {
    if session !in p.sessions then p.(running := p.running - {session})
    else if interrupted then Halted(p, session)
    else Drain(Halted(p, session), session)
  }

  function Enqueued(p: Peer, session: Id, text: string, files: seq<Remote>): Peer
    requires session in p.sessions
  {
    var state := p.sessions[session];
    var row := Row(p.nextID, text, Paths(files), false, false);
    p.(sessions := p.sessions[session := state.(queue := state.queue + [row])],
       files := p.files[p.nextID := files],
       nextID := p.nextID + 1)
  }

  function Posted(p: Peer, session: Id, message: Message): Peer
    requires session in p.sessions
  {
    var state := p.sessions[session];
    p.(sessions := p.sessions[session := state.(messages := state.messages + [message])])
  }

  /** The failure `send` throws before it changes anything. */
  function Refusal(p: Peer, session: Id, text: string, files: seq<Local>, mode: Mode): Option<Failure> {
    if !p.active || session !in p.sessions then Some(NoSession)
    else if Trim(text) == "" && files == [] then None
    else if mode.Steer? && files != [] then Some(FilesMustWait)
    else if exists i :: 0 <= i < |files| && !files[i].valid then Some(BadAttachment)
    else None
  }

  predicate Accepts(p: Peer, session: Id, text: string, files: seq<Local>, mode: Mode) {
    Refusal(p, session, text, files, mode).None? && (Trim(text) != "" || files != [])
  }

  function Send(p: Peer, session: Id, text: string, files: seq<Local>, mode: Mode): Peer {
    if !Accepts(p, session, text, files, mode) then p
    else
      var state := p.sessions[session];
      var clean, remote := Trim(text), Sent(session, files);
      var awake := p.(paused := p.paused - {session});
      if (state.working || state.input.Some?) && mode.Queue? then Enqueued(awake, session, clean, remote)
      else
        var named := awake.(nextID := p.nextID + 1);
        if state.working then Posted(named, session, Message(p.nextID, User, clean, [], false))
        else StartTurn(named, session, clean, remote, p.nextID)
  }

  function Stopped(p: Peer, session: Id): Peer {
    p.(showcasing := p.showcasing && session != RUNNING, paused := p.paused + {session})
  }

  function Interrupt(p: Peer, session: Id): Peer {
    Finish(Stopped(p, session), session, true)
  }

  function Pulled(p: Peer, session: Id, i: nat): Peer
    requires session in p.sessions && i < |p.sessions[session].messages|
  {
    var state := p.sessions[session];
    p.(sessions := p.sessions[session := state.(messages := Without(state.messages, i))])
  }

  function Retry(p: Peer, session: Id): (Peer, Option<Failure>) {
    if !p.active || session !in p.sessions then (p, Some(NoSession))
    else
      var state := p.sessions[session];
      var last := LastUser(state.messages);
      if !state.failed || state.working || last.None? then (p, None)
      else
        var message := state.messages[last.value];
        (StartTurn(Pulled(p, session, last.value), session, message.text, message.files, message.id), None)
  }

  function Answered(p: Peer, session: Id): Peer
    requires session in p.sessions
  {
    var state := p.sessions[session];
    Posted(p.(sessions := p.sessions[session := state.(input := None)], nextID := p.nextID + 1), session,
           Message(p.nextID, Assistant, p.script.saved, [], false))
  }

  function Respond(p: Peer, session: Id, request: Id): (Peer, Option<Failure>) {
    if session !in p.sessions || p.sessions[session].input != Some(request) then (p, Some(NoQuestion))
    else (Drain(Answered(p, session), session), None)
  }

  function SendNow(p: Peer, session: Id, id: Id): (Peer, Option<Failure>) {
    if !p.active || session !in p.sessions || RowAt(p.sessions[session].queue, id).None? then (p, Some(LeftQueue))
    else
      var state := p.sessions[session];
      var i := RowAt(state.queue, id).value;
      var row := state.queue[i];
      if row.files != [] then (p, Some(FilesWait))
      else if row.blocked then (p, Some(BeingEdited))
      else
        var taken := Dequeued(p, session, i).(paused := p.paused - {session});
        if state.working then (Posted(taken, session, Message(id, User, row.text, [], false)), None)
        else (StartTurn(taken, session, row.text, [], id), None)
  }

  function WithQueue(p: Peer, session: Id, queue: seq<Row>): Peer
    requires session in p.sessions
  {
    p.(sessions := p.sessions[session := p.sessions[session].(queue := queue)])
  }

  function Move(p: Peer, session: Id, id: Id, delta: int): (Peer, Option<Failure>) {
    if !p.active || session !in p.sessions || RowAt(p.sessions[session].queue, id).None? then (p, Some(LeftQueue))
    else
      var queue := p.sessions[session].queue;
      var i := RowAt(queue, id).value;
      if queue[i].blocked || queue[i].pending then (p, Some(Busy))
      else if delta == 0 || !(0 <= i + delta < |queue|) then (p, Some(CannotMove))
      else (WithQueue(p, session, Inserted(Without(queue, i), i + delta, queue[i])), None)
  }

  function Delete(p: Peer, session: Id, id: Id): (Peer, Option<Failure>) {
    if !p.active || session !in p.sessions || RowAt(p.sessions[session].queue, id).None? then (p, Some(LeftQueue))
    else (Drain(Dequeued(p, session, RowAt(p.sessions[session].queue, id).value), session), None)
  }

  predicate Leased(p: Peer, session: Id, row: Id) {
    exists l :: l in p.edits && p.edits[l].session == session && p.edits[l].row == row && p.edits[l].expires > p.clock
  }

  /** The lease `beginQueuedMessageEdit` grants, or its failure. */
  function Begin(p: Peer, session: Id, id: Id): (Peer, Option<Edit>, Option<Failure>) {
    if !p.active || session !in p.sessions || RowAt(p.sessions[session].queue, id).None? then (p, None, Some(LeftQueue))
    else if Leased(p, session, id) then (p, None, Some(AlreadyEdited))
    else
      var queue := p.sessions[session].queue;
      var i := RowAt(queue, id).value;
      var edit := Edit(p.nextID, session, id, queue[i].text, p.clock + LEASE_MILLISECONDS);
      (WithQueue(p, session, queue[i := queue[i].(blocked := true)])
         .(edits := p.edits[edit.lease := edit], nextID := p.nextID + 1),
       Some(edit), None)
  }

  function Renew(p: Peer, edit: Edit): (Peer, bool) {
    if p.active && edit.lease in p.edits && p.edits[edit.lease].expires > p.clock && edit.session in p.sessions
       && RowAt(p.sessions[edit.session].queue, edit.row).Some?
    then (p.(edits := p.edits[edit.lease := p.edits[edit.lease].(expires := p.clock + LEASE_MILLISECONDS)]), true)
    else (p, false)
  }

  predicate Current(p: Peer, edit: Edit) {
    && p.active && edit.lease in p.edits && p.edits[edit.lease].session == edit.session
    && p.edits[edit.lease].expires > p.clock && edit.session in p.sessions
    && RowAt(p.sessions[edit.session].queue, edit.row).Some?
  }

  function Committed(p: Peer, edit: Edit, text: Option<string>): Peer
    requires Current(p, edit)
  {
    var queue := p.sessions[edit.session].queue;
    var i := RowAt(queue, edit.row).value;
    WithQueue(p, edit.session, queue[i := queue[i].(text := text.GetOr(queue[i].text), blocked := false)])
      .(edits := p.edits - {edit.lease})
  }

  function FinishEdit(p: Peer, edit: Edit, text: Option<string>): (Peer, Option<Failure>) {
    if !Current(p, edit) then (p, Some(EditOver))
    else
      var row := p.sessions[edit.session].queue[RowAt(p.sessions[edit.session].queue, edit.row).value];
      if row.text != p.edits[edit.lease].text then (p, Some(Changed))
      else if text.Some? && Trim(text.value) == "" && row.files == [] then (p, Some(EmptyMessage))
      else (Drain(Committed(p, edit, text), edit.session), None)
  }

  /** A queue whose first row of each given identifier is free again. */
  function Released(queue: seq<Row>, rows: set<Id>): (r: seq<Row>)
    ensures |r| == |queue|
  {
    seq(|queue|, i requires 0 <= i < |queue| =>
      if queue[i].id in rows && RowAt(queue, queue[i].id) == Some(i) then queue[i].(blocked := false) else queue[i])
  }

  function LeasesOf(p: Peer, session: Id): set<Id> {
    set l | l in p.edits && p.edits[l].session == session
  }

  function RowsOf(p: Peer, session: Id): set<Id> {
    set l | l in p.edits && p.edits[l].session == session :: p.edits[l].row
  }

  function Freed(p: Peer, session: Id): Peer {
    var left := p.edits - LeasesOf(p, session);
    if session !in p.sessions then p.(edits := left)
    else WithQueue(p, session, Released(p.sessions[session].queue, RowsOf(p, session))).(edits := left)
  }

  function Close(p: Peer, session: Id): Peer {
    Drain(Freed(p, session), session)
  }

  function Create(p: Peer, accepted: bool): (Peer, Option<Id>) {
    if !p.active || !accepted then (p, None)
    else (p.(sessions := p.sessions[p.nextID := Session([], false, None, [], false, None)], nextID := p.nextID + 1),
          Some(p.nextID))
  }

  function Foreground(p: Peer, foreground: bool): Peer {
    if !p.showcasing then p
    else if foreground then StartShowcase(p)
    else p.(running := p.running - {RUNNING})
  }

  function Retold(p: Peer, session: Id, i: nat, text: string): Peer
    requires session in p.sessions && i < |p.sessions[session].messages|
  {
    var state := p.sessions[session];
    p.(sessions := p.sessions[session := state.(messages := state.messages[i := state.messages[i].(text := text)])])
  }

  /** One more word of a reply. */
  function Told(p: Peer, session: Id, i: nat, job: Job): Peer
    requires session in p.sessions && i < |p.sessions[session].messages| && job.Turn? && job.word < |p.script.words|
  {
    var before := p.sessions[session].messages[i].text;
    Retold(p, session, i, before + (if job.word == 0 then "" else " ") + p.script.words[job.word])
      .(running := p.running[session := Turn(job.reply, job.word + 1)])
  }

  /** The live task of a session runs up to its next suspension. A task whose guards fail ends without a trace. */
  function Resume(p: Peer, session: Id): Peer {
    if session !in p.running || !p.active || session !in p.sessions then p
    else
      var state := p.sessions[session];
      var job := p.running[session];
      match job
      case Turn(reply, word) =>
        var i := MessageAt(state.messages, reply);
        if i.None? || word >= |p.script.words| then p
        else
          var told := Told(p, session, i.value, job);
          if word + 1 == |p.script.words| then Finish(told, session, false) else told
      case Showcase(phase) =>
        var i := MessageAt(state.messages, PROGRESS);
        if !p.showcasing || !state.working || i.None? || p.script.progress == [] then p
        else
          var next := (phase + 1) % |p.script.progress|;
          Retold(p, session, i.value, p.script.progress[next]).(running := p.running[session := Showcase(next)])
  }
}
