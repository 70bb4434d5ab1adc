/** The composer's drafts and attachments around an asynchronous `send`. Every await ends one of the steps here. */
module ComposerDrafts {
  import opened Whitespace
  import opened Wrappers

  type Id = nat

  /** The key of a draft: a session, or the composer for a new one. */
  datatype Slot = New | Of(session: Id)

  datatype File = File(id: nat, name: string)

  /** What a `send` waits for. */
  datatype Stage = Creating | Opening(session: Id) | Sending(session: Id)

  /** A running `send` and what it captured when it began. */
  datatype Task = Task(epoch: nat, selectionEpoch: nat, text: string, files: seq<File>, stage: Stage)

  /** The preferences of an account are read once in a generation. */
  datatype Restore = Unread | Reading | Read

  datatype Composer = Composer(generation: nat, selectionGeneration: nat, selected: Option<Id>,
                               drafts: map<Slot, string>,
                               files: map<Slot, seq<File>>, edited: set<Slot>, busy: bool, restore: Restore,
                               tasks: seq<Task>, nextFile: nat)

  function Here(c: Composer): Slot {
    if c.selected.Some? then Of(c.selected.value) else New
  }

  function FilesAt(c: Composer, slot: Slot): seq<File> {
    if slot in c.files then c.files[slot] else []
  }

  function Draft(c: Composer, slot: Slot): string {
    if slot in c.drafts then c.drafts[slot] else ""
  }

  function SetDraft(c: Composer, value: Option<string>, slot: Slot): Composer {
    c.(edited := c.edited + {slot},
       drafts := if value.Some? then c.drafts[slot := value.value] else c.drafts - {slot})
  }

  function Ids(files: seq<File>): set<nat> {
    set f | f in files :: f.id
  }

  function Remaining(files: seq<File>, gone: set<nat>): seq<File> {
    if files == [] then []
    else (if files[0].id in gone then [] else [files[0]]) + Remaining(files[1..], gone)
  }

  function RemoveFiles(c: Composer, gone: set<nat>, slot: Slot): Composer {
    if slot in c.files then c.(files := c.files[slot := Remaining(c.files[slot], gone)]) else c
  }

  predicate HasMessage(c: Composer) {
    Trim(Draft(c, Here(c))) != "" || FilesAt(c, Here(c)) != []
  }

  function Typed(c: Composer, text: string): Composer {
    SetDraft(c, Some(text), Here(c))
  }

  function Added(c: Composer, name: string): Composer {
    c.(files := c.files[Here(c) := FilesAt(c, Here(c)) + [File(c.nextFile, name)]], nextFile := c.nextFile + 1)
  }

  function Removed(c: Composer, id: nat): Composer {
    RemoveFiles(c, {id}, Here(c))
  }

  function Navigated(c: Composer, to: Option<Id>): Composer {
    c.(selectionGeneration := c.selectionGeneration + 1, selected := to)
  }

  function Reset(c: Composer): Composer {
    c.(generation := c.generation + 1, selectionGeneration := c.selectionGeneration + 1, selected := None,
       drafts := map[], files := map[], edited := {}, busy := false, restore := Unread)
  }

  function StartedReading(c: Composer): Composer {
    if c.restore.Unread? then c.(restore := Reading) else c
  }

  /** The saved drafts, except where the user has edited or deleted one meanwhile. */
  function Merged(drafts: map<Slot, string>, edited: set<Slot>, saved: map<Slot, string>): map<Slot, string> {
    map k | k in saved.Keys + drafts.Keys && (if k in edited then k in drafts else k in saved) ::
      if k in edited then drafts[k] else saved[k]
  }

  lemma MergesNone(drafts: map<Slot, string>, saved: map<Slot, string>)
    ensures Merged(drafts, {}, saved) == saved
  {
  }

  lemma MergesOne(drafts: map<Slot, string>, edited: set<Slot>, saved: map<Slot, string>, id: Slot)
    ensures Merged(drafts, edited + {id}, saved)
         == if id in drafts then Merged(drafts, edited, saved)[id := drafts[id]]
            else Merged(drafts, edited, saved) - {id}
  {
  }

  method LayOver(drafts: map<Slot, string>, edited: set<Slot>, saved: map<Slot, string>)
    returns (merged: map<Slot, string>)
    ensures merged == Merged(drafts, edited, saved)
  {
    hide Merged;
    merged := saved;
    var left := edited;
    MergesNone(drafts, saved);
    assert edited - left == {};
    while left != {}
      invariant left <= edited && merged == Merged(drafts, edited - left, saved)
    {
      var id :| id in left;
      MergesOne(drafts, edited - left, saved, id);
      merged := if id in drafts then merged[id := drafts[id]] else merged - {id};
      assert edited - left + {id} == edited - (left - {id});
      left := left - {id};
    }
    assert edited - left == edited;
  }

  method RemoveAll(files: seq<File>, gone: set<nat>) returns (kept: seq<File>)
    ensures kept == Remaining(files, gone)
  {
    kept := [];
    var i := 0;
    while i < |files|
      invariant 0 <= i <= |files| && Remaining(files, gone) == kept + Remaining(files[i..], gone)
    {
      if files[i].id !in gone { kept := kept + [files[i]]; }
      i := i + 1;
    }
  }

  /** `saved` is None when reading failed. */
  function FinishedReading(c: Composer, epoch: nat, saved: Option<map<Slot, string>>): Composer {
    if epoch != c.generation || !c.restore.Reading? then c
    else if saved.None? then c.(restore := Read)
    else c.(restore := Read, drafts := Merged(c.drafts, c.edited, saved.value))
  }

  /** `ready` stands for what else `canSend` asks for: a signed-in peer, a host, a model and a checkout. */
  function Began(c: Composer, ready: bool): Composer {
    if !ready || c.busy || !HasMessage(c) then c
    else
      var stage := if c.selected.Some? then Sending(c.selected.value) else Creating;
      c.(busy := true,
         tasks := c.tasks + [Task(c.generation, c.selectionGeneration, Draft(c, Here(c)), FilesAt(c, Here(c)), stage)])
  }

  function Dropped(tasks: seq<Task>, i: nat): seq<Task>
    requires i < |tasks|
  {
    tasks[..i] + tasks[i + 1..]
  }

  predicate Waits(c: Composer, i: nat, stage: Stage) {
    i < |c.tasks| && c.tasks[i].stage == stage
  }

  predicate Current(c: Composer, i: nat) {
    i < |c.tasks| && c.tasks[i].epoch == c.generation
  }

  /** The draft moves to the new session with the user, who has not navigated since. */
  function Followed(c: Composer, task: Task, id: Id): Composer {
    var named := SetDraft(SetDraft(c, Some(if New in c.drafts then c.drafts[New] else task.text), Of(id)), None, New);
    named.(files := if New in c.files then (c.files - {New})[Of(id) := c.files[New]] else c.files - {Of(id)},
           selected := Some(id))
  }

  /** The submitted draft moves to the new session; what the user wrote since stays where it is. */
  function Parted(c: Composer, task: Task, id: Id): Composer {
    var named := SetDraft(c, Some(task.text), Of(id));
    var split := RemoveFiles(named.(files := named.files[Of(id) := task.files]), Ids(task.files), New);
    if New in split.drafts && split.drafts[New] == task.text then SetDraft(split, None, New) else split
  }

  /** `createSession` returned a session. */
  function Created(c: Composer, i: nat, id: Id): Composer {
    if !Waits(c, i, Creating) then c
    else if !Current(c, i) then c.(tasks := Dropped(c.tasks, i))
    else
      var task := c.tasks[i];
      var moved := if task.selectionEpoch == c.selectionGeneration then Followed(c, task, id) else Parted(c, task, id);
      moved.(tasks := c.tasks[i := task.(stage := Opening(id))])
  }

  /** `openSession` returned. */
  function Opened(c: Composer, i: nat): Composer {
    if i >= |c.tasks| || !c.tasks[i].stage.Opening? then c
    else if !Current(c, i) then c.(tasks := Dropped(c.tasks, i))
    else c.(tasks := c.tasks[i := c.tasks[i].(stage := Sending(c.tasks[i].stage.session))])
  }

  /** Clears just the draft and the files that were sent. */
  function Delivered(c: Composer, task: Task): Composer
    requires task.stage.Sending?
  {
    var slot := Of(task.stage.session);
    var cleared := if slot in c.drafts && c.drafts[slot] == task.text then SetDraft(c, None, slot) else c;
    RemoveFiles(cleared, Ids(task.files), slot)
  }

  /** The peer's `send` returned. */
  function Returned(c: Composer, i: nat): Composer {
    if i >= |c.tasks| || !c.tasks[i].stage.Sending? then c
    else if !Current(c, i) then c.(tasks := Dropped(c.tasks, i))
    else Delivered(c, c.tasks[i]).(tasks := Dropped(c.tasks, i), busy := false)
  }

  /** The awaited call threw. */
  function Threw(c: Composer, i: nat): Composer {
    if i >= |c.tasks| then c
    else c.(tasks := Dropped(c.tasks, i), busy := c.busy && !Current(c, i))
  }

  const EMPTY := Composer(0, 0, None, map[], map[], {}, false, Unread, [], 0)

  /** The part of the app model that owns drafts. An async `send` is cut at its awaits into five methods. */
  class AppModel {
    var generation: nat
    var selectionGeneration: nat
    var selectedSession: Option<Id>
    var drafts: map<Slot, string>
    var attachmentDrafts: map<Slot, seq<File>>
    var editedDrafts: set<Slot>
    var busy: bool
    var restore: Restore
    var tasks: seq<Task>
    var nextFile: nat

    function Now(): Composer
      reads this
    {
      Composer(generation, selectionGeneration, selectedSession, drafts, attachmentDrafts, editedDrafts, busy, restore,
               tasks, nextFile)
    }

    constructor ()
      ensures Now() == EMPTY
    {
      generation, selectionGeneration, selectedSession := 0, 0, None;
      drafts, attachmentDrafts, editedDrafts, busy, restore, tasks, nextFile := map[], map[], {}, false, Unread, [], 0;
    }

    method StoreDraft(value: Option<string>, slot: Slot)
      modifies `drafts, `editedDrafts
      ensures Now() == SetDraft(old(Now()), value, slot)
    {
      editedDrafts := editedDrafts + {slot};
      if value.Some? { drafts := drafts[slot := value.value]; } else { drafts := drafts - {slot}; }
    }

    /** `removeAll` over one slot's attachments. */
    method RemoveAttachments(gone: set<nat>, slot: Slot)
      modifies `attachmentDrafts
      ensures Now() == RemoveFiles(old(Now()), gone, slot)
    {
      if slot in attachmentDrafts {
        var kept := RemoveAll(attachmentDrafts[slot], gone);
        attachmentDrafts := attachmentDrafts[slot := kept];
      }
    }

    method ResetAccount()
      modifies this
      ensures Now() == Reset(old(Now()))
    {
      generation, selectionGeneration, selectedSession := generation + 1, selectionGeneration + 1, None;
      drafts, attachmentDrafts, editedDrafts, busy, restore := map[], map[], {}, false, Unread;
    }

    method MergeRestored(epoch: nat, saved: Option<map<Slot, string>>)
      modifies this
      ensures Now() == FinishedReading(old(Now()), epoch, saved)
    {
      if epoch != generation || !restore.Reading? { return; }
      restore := Read;
      if saved.None? { return; }
      drafts := LayOver(drafts, editedDrafts, saved.value);
    }

    method BeginSend(ready: bool)
      modifies this
      ensures Now() == Began(old(Now()), ready)
    {
      if !ready || busy || !HasMessage(Now()) { return; }
      busy := true;
      var slot := if selectedSession.Some? then Of(selectedSession.value) else New;
      var text := if slot in drafts then drafts[slot] else "";
      var files := if slot in attachmentDrafts then attachmentDrafts[slot] else [];
      var stage := if selectedSession.Some? then Sending(selectedSession.value) else Creating;
      tasks := tasks + [Task(generation, selectionGeneration, text, files, stage)];
    }

    method SessionCreated(i: nat, id: Id)
      requires i < |tasks| && tasks[i].stage.Creating?
      modifies this
      ensures Now() == Created(old(Now()), i, id)
    {
      var task := tasks[i];
      if task.epoch != generation {
        tasks := Dropped(tasks, i);
        return;
      }
      if task.selectionEpoch == selectionGeneration {
        StoreDraft(Some(if New in drafts then drafts[New] else task.text), Of(id));
        StoreDraft(None, New);
        if New in attachmentDrafts {
          var moved := attachmentDrafts[New];
          attachmentDrafts := (attachmentDrafts - {New})[Of(id) := moved];
        } else {
          attachmentDrafts := attachmentDrafts - {Of(id)};
        }
        selectedSession := Some(id);
      } else {
        StoreDraft(Some(task.text), Of(id));
        attachmentDrafts := attachmentDrafts[Of(id) := task.files];
        RemoveAttachments(Ids(task.files), New);
        if New in drafts && drafts[New] == task.text { StoreDraft(None, New); }
      }
      tasks := tasks[i := task.(stage := Opening(id))];
    }

    method SessionOpened(i: nat)
      requires i < |tasks| && tasks[i].stage.Opening?
      modifies `tasks
      ensures Now() == Opened(old(Now()), i)
    {
      if tasks[i].epoch != generation {
        tasks := Dropped(tasks, i);
      } else {
        tasks := tasks[i := tasks[i].(stage := Sending(tasks[i].stage.session))];
      }
    }

    method SendReturned(i: nat)
      requires i < |tasks| && tasks[i].stage.Sending?
      modifies this
      ensures Now() == Returned(old(Now()), i)
    {
      var task := tasks[i];
      tasks := Dropped(tasks, i);
      if task.epoch != generation { return; }
      var slot := Of(task.stage.session);
      if slot in drafts && drafts[slot] == task.text { StoreDraft(None, slot); }
      RemoveAttachments(Ids(task.files), slot);
      busy := false;
    }

    method SendThrew(i: nat)
      requires i < |tasks|
      modifies this
      ensures Now() == Threw(old(Now()), i)
    {
      if tasks[i].epoch == generation { busy := false; }
      tasks := Dropped(tasks, i);
    }
  }
}
