/** No draft is lost around a `send`, whatever the user, the peer and the disk do meanwhile. */
module DraftSafety {
  import opened Whitespace
  import opened Wrappers
  import opened ComposerDrafts

  datatype Event =
    | Types(text: string)
    | Adds(name: string)
    | Removes(id: nat)
    | Navigates(to: Option<Id>)
    | Resets
    | Reads
    | ReadReturns(epoch: nat, saved: Option<map<Slot, string>>)
    | Begins(ready: bool)
    | Creates(task: nat, session: Id)
    | Opens(task: nat)
    | Returns(task: nat)
    | Throws(task: nat)

  function Step(c: Composer, e: Event): Composer {
    match e
    case Types(text) => Typed(c, text)
    case Adds(name) => Added(c, name)
    case Removes(id) => Removed(c, id)
    case Navigates(to) => Navigated(c, to)
    case Resets => Reset(c)
    case Reads => StartedReading(c)
    case ReadReturns(epoch, saved) => FinishedReading(c, epoch, saved)
    case Begins(ready) => Began(c, ready)
    case Creates(i, id) => Created(c, i, id)
    case Opens(i) => Opened(c, i)
    case Returns(i) => Returned(c, i)
    case Throws(i) => Threw(c, i)
  }

  /** The slot of a task's draft: its own until a session is created for it. */
  function Holding(task: Task): Slot {
    if task.stage.Creating? then New else Of(task.stage.session)
  }

  /** The send of the present generation, if one runs. */
  function CurrentTask(tasks: seq<Task>, generation: nat): (i: Option<nat>)
    ensures i.Some? ==> i.value < |tasks| && tasks[i.value].epoch == generation
    ensures i.None? ==> forall j :: 0 <= j < |tasks| ==> tasks[j].epoch != generation
  {
    if tasks == [] then None
    else if tasks[|tasks| - 1].epoch == generation then Some(|tasks| - 1)
    else CurrentTask(tasks[..|tasks| - 1], generation)
  }

  function Held(c: Composer): Option<Slot> {
    var i := CurrentTask(c.tasks, c.generation);
    if i.Some? then Some(Holding(c.tasks[i.value])) else None
  }

  /** What a run has done so far: whether the user typed over the running task's draft, which files they took off it,
      which files were added and since neither removed nor sent nor overwritten, which were removed, brought back by
      creating a session, and since neither removed again nor sent nor overwritten, and which stood in the slot of a
      created session and were overwritten there. */
  datatype History = History(touched: bool, removed: set<nat>, kept: set<File>, back: set<File>, lost: set<File>)

  const START := History(false, {}, {}, {}, {})

  /** The files that the creation of a session brings back. */
  function Returning(c: Composer, h: History, task: Task): set<File> {
    if task.selectionEpoch == c.selectionGeneration then {} else set f | f in task.files && f.id in h.removed
  }

  function Recorded(c: Composer, h: History, e: Event): History {
    match e
    case Types(_) => h.(touched := h.touched || Held(c) == Some(Here(c)))
    case Adds(name) => h.(kept := h.kept + {File(c.nextFile, name)})
    case Removes(id) =>
      h.(removed := if Held(c) == Some(Here(c)) then h.removed + {id} else h.removed,
         kept := h.kept - (set f | f in FilesAt(c, Here(c)) && f.id == id),
         back := h.back - (set f | f in FilesAt(c, Here(c)) && f.id == id))
    case Resets => START
    case Begins(ready) => if Began(c, ready) == c then h else h.(touched := false, removed := {})
    case Creates(i, id) =>
      if !Waits(c, i, Creating) || !Current(c, i) then h
      else
        var over := set f | f in FilesAt(c, Of(id));
        var back := Returning(c, h, c.tasks[i]);
        h.(kept := h.kept - over, back := h.back - over + back, lost := h.lost - back + over)
    case Returns(i) =>
      if Current(c, i) && c.tasks[i].stage.Sending?
      then h.(kept := h.kept - (set f | f in c.tasks[i].files), back := h.back - (set f | f in c.tasks[i].files))
      else h
    case _ => h
  }

  /** A created session comes to the composer with nothing written for it. */
  predicate Vacant(c: Composer, id: Id) {
    Of(id) !in c.drafts && FilesAt(c, Of(id)) == []
  }

  predicate Allowed(c: Composer, e: Event) {
    e.Creates? && Waits(c, e.task, Creating) && Current(c, e.task) ==> Vacant(c, e.session)
  }

  /** At most one task is of the present generation; it runs exactly while the composer is busy. */
  ghost predicate Shape(c: Composer) {
    && (forall i :: 0 <= i < |c.tasks| ==> c.tasks[i].epoch <= c.generation)
    && (forall i, j :: 0 <= i < j < |c.tasks| ==> c.tasks[i].epoch != c.generation || c.tasks[j].epoch != c.generation)
    && (c.busy <==> CurrentTask(c.tasks, c.generation).Some?)
    && (!c.restore.Read? ==> c.drafts.Keys <= c.edited)
  }

  ghost predicate DistinctFiles(files: seq<File>) {
    forall i, j :: 0 <= i < j < |files| ==> files[i].id != files[j].id
  }

  ghost predicate Stands(c: Composer, slot: Slot, f: File) {
    f in FilesAt(c, slot)
  }

  /** A file stands at one place of one slot. */
  ghost predicate Apart(c: Composer) {
    forall k :: DistinctFiles(FilesAt(c, k))
  }

  ghost predicate Single(c: Composer) {
    && (forall k, l, f, g :: Stands(c, k, f) && Stands(c, l, g) && f.id == g.id ==> k == l && f == g)
    && (forall k, f :: Stands(c, k, f) ==> f.id < c.nextFile)
  }

  ghost predicate Somewhere(c: Composer, f: File) {
    exists k :: Stands(c, k, f)
  }

  ghost predicate Complete(c: Composer, h: History) {
    && h.kept !! h.back && (forall f :: f in h.kept + h.back <==> Somewhere(c, f))
    && (forall f :: f in h.lost ==> !Somewhere(c, f) && f.id < c.nextFile)
  }

  /** The submitted text, unless typed over, stands in its slot. */
  ghost predicate TextHeld(c: Composer, h: History, task: Task) {
    !h.touched && task.text != "" ==> Holding(task) in c.drafts && c.drafts[Holding(task)] == task.text
  }

  /** The submitted files, unless removed, stand there too, and none of them stands in another slot. Until the session
      is created, the removed ones do not stand at all. */
  ghost predicate FilesHeld(c: Composer, h: History, task: Task) {
    && (forall f :: f in task.files && f.id !in h.removed ==> Stands(c, Holding(task), f))
    && (task.stage.Creating? ==> forall f :: f in task.files && f.id in h.removed ==> !Stands(c, New, f))
    && (forall f, g, k :: f in task.files && Stands(c, k, g) && f.id == g.id ==> f == g && k == Holding(task))
    && (forall f :: f in task.files ==> f.id < c.nextFile)
    && DistinctFiles(task.files)
  }

  ghost predicate TasksHeld(c: Composer, h: History) {
    forall i :: 0 <= i < |c.tasks| && c.tasks[i].epoch == c.generation ==>
      TextHeld(c, h, c.tasks[i]) && FilesHeld(c, h, c.tasks[i])
  }

  ghost predicate Inv(c: Composer, h: History) {
    Shape(c) && Apart(c) && Single(c) && Complete(c, h) && TasksHeld(c, h)
  }

  lemma {:induction false} RemainingIs(files: seq<File>, gone: set<nat>)
    ensures forall f :: f in Remaining(files, gone) <==> f in files && f.id !in gone
    ensures DistinctFiles(files) ==> DistinctFiles(Remaining(files, gone))
  {
    if files != [] {
      RemainingIs(files[1..], gone);
      assert files == [files[0]] + files[1..];
      if DistinctFiles(files) {
        assert DistinctFiles(files[1..]);
        assert forall f :: f in files[1..] ==> f.id != files[0].id;
      }
    }
  }

  lemma SameFiles(c: Composer, h: History, q: Composer, h': History)
    requires Apart(c) && Single(c) && Complete(c, h) && q.files == c.files && q.nextFile == c.nextFile
    requires h'.kept == h.kept && h'.back == h.back && h'.lost == h.lost
    ensures Apart(q) && Single(q) && Complete(q, h')
    ensures forall k, f :: Stands(q, k, f) <==> Stands(c, k, f)
  {
    assert forall k :: FilesAt(q, k) == FilesAt(c, k);
    assert forall k, f :: Stands(q, k, f) <==> Stands(c, k, f);
    hide Stands;
    forall f
      ensures Somewhere(q, f) <==> Somewhere(c, f)
    {
      if Somewhere(c, f) {
        var k :| Stands(c, k, f);
        assert Stands(q, k, f);
      }
      if Somewhere(q, f) {
        var k :| Stands(q, k, f);
        assert Stands(c, k, f);
      }
    }
  }

  lemma TypeInv(c: Composer, h: History, text: string)
    requires Inv(c, h)
    ensures Inv(Typed(c, text), Recorded(c, h, Types(text)))
  {
    SameFiles(c, h, Typed(c, text), Recorded(c, h, Types(text)));
    hide Apart, Single, Complete, Stands;
  }

  /** One more file with a new number. */
  lemma AddFiles(c: Composer, h: History, q: Composer, h': History, slot: Slot, f: File)
    requires Single(c) && Complete(c, h) && f.id == c.nextFile && q.nextFile == c.nextFile + 1
    requires h'.kept == h.kept + {f} && h'.back == h.back && h'.lost == h.lost
    requires forall k, g :: Stands(q, k, g) <==> Stands(c, k, g) || (k == slot && g == f)
    ensures Single(q) && Complete(q, h')
  {
    hide Stands;
    assert Stands(q, slot, f);
    assert !Somewhere(c, f);
    forall g
      ensures g in h'.kept + h'.back <==> Somewhere(q, g)
    {
      if Somewhere(c, g) {
        var k :| Stands(c, k, g);
        assert Stands(q, k, g);
      }
    }
  }

  lemma AddStands(c: Composer, name: string)
    requires Apart(c) && Single(c)
    ensures var q, f := Added(c, name), File(c.nextFile, name);
            Apart(q) && forall k, g :: Stands(q, k, g) <==> Stands(c, k, g) || (k == Here(c) && g == f)
  {
    var q, f := Added(c, name), File(c.nextFile, name);
    forall g | g in FilesAt(c, Here(c))
      ensures g.id != f.id
    {
      assert Stands(c, Here(c), g);
    }
    assert forall k :: FilesAt(q, k) == if k == Here(c) then FilesAt(c, k) + [f] else FilesAt(c, k);
    assert DistinctFiles(FilesAt(c, Here(c)) + [f]);
  }

  lemma AddedHeld(c: Composer, h: History, q: Composer, h': History, task: Task, slot: Slot, f: File)
    requires FilesHeld(c, h, task) && f.id == c.nextFile && q.nextFile == c.nextFile + 1 && h'.removed == h.removed
    requires forall k, g :: Stands(q, k, g) <==> Stands(c, k, g) || (k == slot && g == f)
    ensures FilesHeld(q, h', task)
  {
    hide Stands;
  }

  lemma AddInv(c: Composer, h: History, name: string)
    requires Inv(c, h)
    ensures Inv(Added(c, name), Recorded(c, h, Adds(name)))
  {
    var q, h', f := Added(c, name), Recorded(c, h, Adds(name)), File(c.nextFile, name);
    AddStands(c, name);
    AddFiles(c, h, q, h', Here(c), f);
    hide Apart, Single, Complete, Stands, FilesHeld;
    forall i | 0 <= i < |q.tasks| && q.tasks[i].epoch == q.generation
      ensures TextHeld(q, h', q.tasks[i]) && FilesHeld(q, h', q.tasks[i])
    {
      assert TextHeld(c, h, c.tasks[i]) && FilesHeld(c, h, c.tasks[i]);
      AddedHeld(c, h, q, h', c.tasks[i], Here(c), f);
    }
  }

  lemma RemovedAt(c: Composer, gone: set<nat>, slot: Slot)
    ensures var q := RemoveFiles(c, gone, slot);
            && (forall k, f :: Stands(q, k, f) <==> Stands(c, k, f) && (k != slot || f.id !in gone))
            && (Apart(c) ==> Apart(q))
  {
    RemainingIs(FilesAt(c, slot), gone);
    var q := RemoveFiles(c, gone, slot);
    assert forall k :: FilesAt(q, k) == if k == slot then Remaining(FilesAt(c, k), gone) else FilesAt(c, k);
  }

  /** Fewer files. */
  lemma FewerFiles(c: Composer, h: History, q: Composer, h': History, slot: Slot, gone: set<nat>)
    requires Single(c) && Complete(c, h) && q.nextFile == c.nextFile
    requires forall k, f :: Stands(q, k, f) <==> Stands(c, k, f) && (k != slot || f.id !in gone)
    requires forall f :: f in h'.kept <==> f in h.kept && !(Stands(c, slot, f) && f.id in gone)
    requires forall f :: f in h'.back <==> f in h.back && !(Stands(c, slot, f) && f.id in gone)
    requires h'.lost == h.lost
    ensures Single(q) && Complete(q, h')
  {
    hide Stands;
    forall f
      ensures f in h'.kept + h'.back <==> Somewhere(q, f)
    {
      if Somewhere(c, f) {
        var k :| Stands(c, k, f);
        assert Stands(q, k, f) <==> (k != slot || f.id !in gone);
      }
    }
  }

  lemma CurrentIs(tasks: seq<Task>, generation: nat, i: nat)
    requires i < |tasks| && tasks[i].epoch == generation
    requires forall j, k :: 0 <= j < k < |tasks| ==> tasks[j].epoch != generation || tasks[k].epoch != generation
    ensures CurrentTask(tasks, generation) == Some(i)
  {
  }

  /** A removed file is one that was taken off the running send, or stood elsewhere. */
  lemma RemovedHeld(c: Composer, h: History, q: Composer, h': History, task: Task, slot: Slot, id: nat)
    requires FilesHeld(c, h, task) && q.nextFile == c.nextFile
    requires forall k, f :: Stands(q, k, f) <==> Stands(c, k, f) && (k != slot || f.id !in {id})
    requires h'.removed == if slot == Holding(task) then h.removed + {id} else h.removed
    ensures FilesHeld(q, h', task)
  {
    hide Stands;
  }

  lemma RemoveHeld(c: Composer, h: History, id: nat)
    requires Shape(c) && TasksHeld(c, h)
    ensures TasksHeld(Removed(c, id), Recorded(c, h, Removes(id)))
  {
    var q, h' := Removed(c, id), Recorded(c, h, Removes(id));
    RemovedAt(c, {id}, Here(c));
    hide Stands, FilesHeld, Apart;
    forall i | 0 <= i < |q.tasks| && q.tasks[i].epoch == q.generation
      ensures TextHeld(q, h', q.tasks[i]) && FilesHeld(q, h', q.tasks[i])
    {
      CurrentIs(c.tasks, c.generation, i);
      assert TextHeld(c, h, c.tasks[i]) && FilesHeld(c, h, c.tasks[i]);
      RemovedHeld(c, h, q, h', c.tasks[i], Here(c), id);
    }
  }

  lemma RemoveInv(c: Composer, h: History, id: nat)
    requires Inv(c, h)
    ensures Inv(Removed(c, id), Recorded(c, h, Removes(id)))
  {
    hide Apart, Single, Complete, Stands, TasksHeld, Remaining;
    RemovedAt(c, {id}, Here(c));
    RemoveKept(c, h, id);
    FewerFiles(c, h, Removed(c, id), Recorded(c, h, Removes(id)), Here(c), {id});
    RemoveHeld(c, h, id);
  }

  lemma RemoveKept(c: Composer, h: History, id: nat)
    ensures var h' := Recorded(c, h, Removes(id));
            && (forall f :: f in h'.kept <==> f in h.kept && !(Stands(c, Here(c), f) && f.id in {id}))
            && forall f :: f in h'.back <==> f in h.back && !(Stands(c, Here(c), f) && f.id in {id})
  {
  }

  /** Moving about, and reading the preferences, change no task and no file. */
  lemma NavigateInv(c: Composer, h: History, to: Option<Id>)
    requires Inv(c, h)
    ensures Inv(Navigated(c, to), h)
  {
    SameFiles(c, h, Navigated(c, to), h);
    hide Apart, Single, Complete, Stands;
  }

  lemma ResetInv(c: Composer, h: History)
    requires Inv(c, h)
    ensures Inv(Reset(c), Recorded(c, h, Resets))
  {
    var q := Reset(c);
    assert forall k :: FilesAt(q, k) == [];
    assert forall k, f :: !Stands(q, k, f);
    hide Stands;
  }

  lemma ReadInv(c: Composer, h: History)
    requires Inv(c, h)
    ensures Inv(StartedReading(c), h)
  {
    SameFiles(c, h, StartedReading(c), h);
    hide Apart, Single, Complete, Stands;
  }

  /** What the user has edited wins over what was saved, and a submitted text is either edited or was read. */
  lemma ReadReturnsInv(c: Composer, h: History, epoch: nat, saved: Option<map<Slot, string>>)
    requires Inv(c, h)
    ensures Inv(FinishedReading(c, epoch, saved), h)
  {
    var q := FinishedReading(c, epoch, saved);
    SameFiles(c, h, q, h);
    hide Apart, Single, Complete, Stands;
    if q != c && saved.Some? {
      assert forall k :: k in c.drafts ==> k in q.drafts && q.drafts[k] == c.drafts[k];
    }
  }

  lemma BeginInv(c: Composer, h: History, ready: bool)
    requires Inv(c, h)
    ensures Inv(Began(c, ready), Recorded(c, h, Begins(ready)))
  {
    var q, h' := Began(c, ready), Recorded(c, h, Begins(ready));
    SameFiles(c, h, q, h');
    if ready && !c.busy && HasMessage(c) {
      assert |q.tasks| == |c.tasks| + 1;
      var task := q.tasks[|c.tasks|];
      BeginHolds(c, h', task);
      assert FilesHeld(q, h', task) by { HeldStays(c, h', q, h', task); }
      hide Apart, Single, Complete, Stands, FilesHeld, HasMessage;
      CurrentIs(q.tasks, q.generation, |c.tasks|);
    }
  }

  lemma BeginHolds(c: Composer, h: History, task: Task)
    requires Apart(c) && Single(c) && Holding(task) == Here(c) && task.files == FilesAt(c, Here(c)) && h.removed == {}
    ensures FilesHeld(c, h, task)
  {
    assert forall f :: f in task.files ==> Stands(c, Here(c), f);
  }

  lemma HeldStays(c: Composer, h: History, q: Composer, h': History, task: Task)
    requires FilesHeld(c, h, task) && q.nextFile == c.nextFile && h.removed == h'.removed
    requires forall k, f :: Stands(q, k, f) <==> Stands(c, k, f)
    ensures FilesHeld(q, h', task)
  {
    hide Stands;
  }

  /** A task that ends changes nothing for the others. */
  lemma DroppedTasks(tasks: seq<Task>, i: nat, g: nat)
    requires i < |tasks| && forall j, k :: 0 <= j < k < |tasks| ==> tasks[j].epoch != g || tasks[k].epoch != g
    ensures var rest := Dropped(tasks, i);
            && |rest| == |tasks| - 1 && (forall j :: 0 <= j < |rest| ==> rest[j] == tasks[if j < i then j else j + 1])
            && CurrentTask(rest, g).Some? == (CurrentTask(tasks, g).Some? && tasks[i].epoch != g)
  {
    var rest := Dropped(tasks, i);
    DroppedAt(tasks, i);
    hide Dropped;
    if tasks[i].epoch != g && CurrentTask(tasks, g).Some? {
      var k := CurrentTask(tasks, g).value;
      assert rest[if k < i then k else k - 1].epoch == g;
    }
  }

  lemma DroppedAt(tasks: seq<Task>, i: nat)
    requires i < |tasks|
    ensures var rest := Dropped(tasks, i);
            |rest| == |tasks| - 1 && forall j :: 0 <= j < |rest| ==> rest[j] == tasks[if j < i then j else j + 1]
  {
  }

  lemma DroppedShape(c: Composer, q: Composer, i: nat)
    requires Shape(c) && i < |c.tasks| && q.tasks == Dropped(c.tasks, i) && q.generation == c.generation
    requires q.busy == (c.busy && !Current(c, i)) && (!q.restore.Read? ==> q.drafts.Keys <= q.edited)
    ensures Shape(q)
    ensures forall j :: 0 <= j < |q.tasks| ==>
              q.tasks[j] in c.tasks && (Current(c, i) ==> q.tasks[j].epoch != c.generation)
  {
    hide Dropped;
    DroppedTasks(c.tasks, i, c.generation);
  }

  lemma ThrowInv(c: Composer, h: History, i: nat)
    requires Inv(c, h)
    ensures Inv(Threw(c, i), h)
  {
    SameFiles(c, h, Threw(c, i), h);
    if i < |c.tasks| {
      DroppedShape(c, Threw(c, i), i);
      DroppedHeld(c, h, Threw(c, i), i);
    }
  }

  lemma DroppedHeld(c: Composer, h: History, q: Composer, i: nat)
    requires TasksHeld(c, h) && i < |c.tasks| && q.tasks == Dropped(c.tasks, i) && q.generation == c.generation
    requires q.drafts == c.drafts && q.nextFile == c.nextFile
    requires forall k, f :: Stands(q, k, f) <==> Stands(c, k, f)
    ensures TasksHeld(q, h)
  {
    hide Stands;
    forall j | 0 <= j < |q.tasks| && q.tasks[j].epoch == q.generation
      ensures TextHeld(q, h, q.tasks[j]) && FilesHeld(q, h, q.tasks[j])
    {
      assert q.tasks[j] == c.tasks[if j < i then j else j + 1];
    }
  }

  /** A task that goes on to its next await. */
  lemma StagedShape(c: Composer, q: Composer, i: nat, task: Task)
    requires Shape(c) && Current(c, i) && task.epoch == c.generation && q.tasks == c.tasks[i := task]
    requires q.generation == c.generation && q.busy == c.busy && (!q.restore.Read? ==> q.drafts.Keys <= q.edited)
    ensures Shape(q) && CurrentTask(q.tasks, q.generation) == Some(i)
    ensures forall j :: 0 <= j < |q.tasks| && q.tasks[j].epoch == q.generation ==> j == i
  {
    CurrentIs(c.tasks, c.generation, i);
    CurrentIs(q.tasks, q.generation, i);
  }

  lemma HeldOn(c: Composer, h: History, q: Composer, task: Task, later: Task)
    requires FilesHeld(c, h, task) && q.nextFile == c.nextFile && later.files == task.files
    requires Holding(later) == Holding(task)
    requires forall k, f :: Stands(q, k, f) <==> Stands(c, k, f)
    ensures FilesHeld(q, h, later)
  {
    hide Stands;
  }

  lemma OpenInv(c: Composer, h: History, i: nat)
    requires Inv(c, h)
    ensures Inv(Opened(c, i), h)
  {
    var q := Opened(c, i);
    SameFiles(c, h, q, h);
    hide Apart, Single, Complete, Stands;
    if i < |c.tasks| && c.tasks[i].stage.Opening? {
      if Current(c, i) {
        StagedShape(c, q, i, q.tasks[i]);
        assert TextHeld(c, h, c.tasks[i]) && FilesHeld(c, h, c.tasks[i]);
        HeldOn(c, h, q, c.tasks[i], q.tasks[i]);
        hide FilesHeld;
      } else {
        DroppedShape(c, q, i);
        DroppedHeld(c, h, q, i);
        hide FilesHeld;
      }
    }
  }

  /** What a returned `send` clears is exactly what was sent. */
  lemma ReturnInv(c: Composer, h: History, i: nat)
    requires Inv(c, h)
    ensures Inv(Returned(c, i), Recorded(c, h, Returns(i)))
  {
    var q, h' := Returned(c, i), Recorded(c, h, Returns(i));
    if i < |c.tasks| && c.tasks[i].stage.Sending? {
      if Current(c, i) {
        var task := c.tasks[i];
        DroppedShape(c, q, i);
        ReturnedFiles(c, h, task, q, h');
      } else {
        SameFiles(c, h, q, h');
        DroppedShape(c, q, i);
        DroppedHeld(c, h, q, i);
      }
    }
  }

  lemma ReturnedFiles(c: Composer, h: History, task: Task, q: Composer, h': History)
    requires Apart(c) && Single(c) && Complete(c, h) && FilesHeld(c, h, task) && task.stage.Sending?
    requires q.files == Delivered(c, task).files && q.nextFile == c.nextFile
    requires h'.kept == h.kept - (set f | f in task.files) && h'.back == h.back - (set f | f in task.files)
    requires h'.lost == h.lost
    ensures Apart(q) && Single(q) && Complete(q, h')
  {
    var slot := Of(task.stage.session);
    RemovedAt(c, Ids(task.files), slot);
    var r := RemoveFiles(c, Ids(task.files), slot);
    assert r.files == q.files;
    assert forall k :: FilesAt(q, k) == FilesAt(r, k);
    assert forall k, f :: Stands(q, k, f) <==> Stands(r, k, f);
    hide Stands, Apart, RemoveFiles;
    forall f | f in h.kept + h.back
      ensures f in task.files <==> Stands(c, slot, f) && f.id in Ids(task.files)
    {
      assert Somewhere(c, f);
    }
    FewerFiles(c, h, q, h', slot, Ids(task.files));
    assert Apart(q) by { ApartAgain(r, q); }
  }

  lemma ApartAgain(r: Composer, q: Composer)
    requires Apart(r) && forall k :: FilesAt(q, k) == FilesAt(r, k)
    ensures Apart(q)
  {
  }

  lemma FollowedStands(c: Composer, task: Task, id: Id)
    requires Apart(c)
    ensures var q := Followed(c, task, id);
            && Apart(q)
            && forall k, f :: Stands(q, k, f) <==>
                 (if k == Of(id) then Stands(c, New, f) else k != New && Stands(c, k, f))
  {
    var q := Followed(c, task, id);
    assert forall k :: FilesAt(q, k) == if k == Of(id) then FilesAt(c, New) else if k == New then [] else FilesAt(c, k);
  }

  /** What the creation of session `id` does to the ledger, when it brings these files back. */
  ghost predicate Overwritten(c: Composer, h: History, id: Id, back: set<File>, h': History) {
    && h'.touched == h.touched && h'.removed == h.removed
    && (forall f :: f in h'.kept <==> f in h.kept && !Stands(c, Of(id), f))
    && (forall f :: f in h'.back <==> (f in h.back && !Stands(c, Of(id), f)) || f in back)
    && (forall f :: f in h'.lost <==> (f in h.lost && f !in back) || Stands(c, Of(id), f))
  }

  lemma CreateRecords(c: Composer, h: History, i: nat, id: Id)
    requires Waits(c, i, Creating) && Current(c, i)
    ensures Overwritten(c, h, id, Returning(c, h, c.tasks[i]), Recorded(c, h, Creates(i, id)))
  {
  }

  lemma FollowedFiles(c: Composer, h: History, task: Task, id: Id, q: Composer, h': History)
    requires Single(c) && Complete(c, h) && FilesHeld(c, h, task) && task.stage.Creating? && q.nextFile == c.nextFile
    requires forall k, f :: Stands(q, k, f) <==>
               (if k == Of(id) then Stands(c, New, f) else k != New && Stands(c, k, f))
    requires Overwritten(c, h, id, {}, h')
    ensures Single(q) && Complete(q, h') && FilesHeld(q, h', task.(stage := Opening(id)))
  {
    hide Stands;
    forall f
      ensures Somewhere(q, f) <==> Somewhere(c, f) && !Stands(c, Of(id), f)
    {
      if Somewhere(c, f) && !Stands(c, Of(id), f) {
        var k :| Stands(c, k, f);
        assert Stands(q, if k == New then Of(id) else k, f);
      }
      if Somewhere(q, f) {
        var k :| Stands(q, k, f);
        assert Stands(c, if k == Of(id) then New else k, f);
      }
    }
  }

  lemma PartedStands(c: Composer, h: History, task: Task, id: Id)
    requires Apart(c) && FilesHeld(c, h, task)
    ensures var q := Parted(c, task, id);
            && Apart(q)
            && forall k, f :: Stands(q, k, f) <==> if k == Of(id) then f in task.files
                                                   else Stands(c, k, f) && (k != New || f.id !in Ids(task.files))
  {
    var named := SetDraft(c, Some(task.text), Of(id));
    var placed := named.(files := named.files[Of(id) := task.files]);
    assert forall k :: FilesAt(placed, k) == if k == Of(id) then task.files else FilesAt(c, k);
    assert Apart(placed);
    assert forall k, f :: Stands(placed, k, f) <==> if k == Of(id) then f in task.files else Stands(c, k, f);
    RemovedAt(placed, Ids(task.files), New);
    var split := RemoveFiles(placed, Ids(task.files), New);
    assert Parted(c, task, id).files == split.files;
    hide Stands, Apart, RemoveFiles, FilesAt, Parted, Ids;
    SameStands(split, Parted(c, task, id));
  }

  lemma PartedFiles(c: Composer, h: History, task: Task, id: Id, q: Composer, h': History)
    requires Single(c) && Complete(c, h) && FilesHeld(c, h, task) && task.stage.Creating? && q.nextFile == c.nextFile
    requires forall k, f :: Stands(q, k, f) <==> if k == Of(id) then f in task.files
                                                 else Stands(c, k, f) && (k != New || f.id !in Ids(task.files))
    requires Overwritten(c, h, id, (set f | f in task.files && f.id in h.removed), h')
    ensures Single(q) && Complete(q, h') && FilesHeld(q, h', task.(stage := Opening(id)))
  {
    hide Stands;
    forall f | f in task.files
      ensures f in h.kept + h.back <==> f.id !in h.removed
    {
      if Somewhere(c, f) { var k :| Stands(c, k, f); }
    }
    forall f
      ensures f in h'.kept + h'.back <==> Somewhere(q, f)
    {
      if f in task.files { assert Stands(q, Of(id), f); }
      if Somewhere(c, f) && !Stands(c, Of(id), f) {
        var k :| Stands(c, k, f);
        assert Stands(q, k, f) || f in task.files;
      }
    }
  }

  /** When the session is created, text and files move to it or stay; removed files may come back, and what stood in its
      slot is overwritten. */
  lemma CreateInv(c: Composer, h: History, i: nat, id: Id)
    requires Inv(c, h)
    ensures Inv(Created(c, i, id), Recorded(c, h, Creates(i, id)))
  {
    var q, h' := Created(c, i, id), Recorded(c, h, Creates(i, id));
    if Waits(c, i, Creating) {
      var task := c.tasks[i];
      if !Current(c, i) {
        SameFiles(c, h, q, h');
        DroppedShape(c, q, i);
        DroppedHeld(c, h, q, i);
      } else if task.selectionEpoch == c.selectionGeneration {
        FollowInv(c, h, i, id);
      } else {
        PartInv(c, h, i, id);
      }
    }
  }

  lemma SameStands(r: Composer, q: Composer)
    requires q.files == r.files
    ensures (forall k, f :: Stands(q, k, f) <==> Stands(r, k, f)) && (Apart(r) ==> Apart(q))
  {
    assert forall k :: FilesAt(q, k) == FilesAt(r, k);
  }

  lemma FollowInv(c: Composer, h: History, i: nat, id: Id)
    requires Inv(c, h) && Waits(c, i, Creating) && Current(c, i)
    requires c.tasks[i].selectionEpoch == c.selectionGeneration
    ensures Inv(Created(c, i, id), Recorded(c, h, Creates(i, id)))
  {
    var q, task, h' := Created(c, i, id), c.tasks[i], Recorded(c, h, Creates(i, id));
    assert TextHeld(c, h, task) && FilesHeld(c, h, task);
    CreateRecords(c, h, i, id);
    FollowedStands(c, task, id);
    SameStands(Followed(c, task, id), q);
    hide Recorded;
    FollowedFiles(c, h, task, id, q, h');
    hide Apart, Single, Complete, Stands, FilesHeld;
    StagedShape(c, q, i, task.(stage := Opening(id)));
  }

  lemma PartInv(c: Composer, h: History, i: nat, id: Id)
    requires Inv(c, h) && Waits(c, i, Creating) && Current(c, i)
    requires c.tasks[i].selectionEpoch != c.selectionGeneration
    ensures Inv(Created(c, i, id), Recorded(c, h, Creates(i, id)))
  {
    var q, task, h' := Created(c, i, id), c.tasks[i], Recorded(c, h, Creates(i, id));
    assert TextHeld(c, h, task) && FilesHeld(c, h, task);
    CreateRecords(c, h, i, id);
    PartedStands(c, h, task, id);
    SameStands(Parted(c, task, id), q);
    hide Recorded, Apart, Stands;
    PartedFiles(c, h, task, id, q, h');
    hide Single, Complete, FilesHeld, Ids, RemoveFiles, Overwritten;
    StagedShape(c, q, i, task.(stage := Opening(id)));
  }

  lemma StepInv(c: Composer, h: History, e: Event)
    requires Inv(c, h)
    ensures Inv(Step(c, e), Recorded(c, h, e))
  {
    hide Inv, Typed, Added, Removed, Navigated, Reset, StartedReading, FinishedReading, Began, Created, Opened,
        Returned, Threw;
    match e {
      case Types(text) => TypeInv(c, h, text);
      case Adds(name) => AddInv(c, h, name);
      case Removes(id) => RemoveInv(c, h, id);
      case Navigates(to) => NavigateInv(c, h, to);
      case Resets => ResetInv(c, h);
      case Reads => ReadInv(c, h);
      case ReadReturns(epoch, saved) => ReadReturnsInv(c, h, epoch, saved);
      case Begins(ready) => BeginInv(c, h, ready);
      case Creates(i, id) => CreateInv(c, h, i, id);
      case Opens(i) => OpenInv(c, h, i);
      case Returns(i) => ReturnInv(c, h, i);
      case Throws(i) => ThrowInv(c, h, i);
    }
  }

  function Run(events: seq<Event>): Composer {
    if events == [] then EMPTY else Step(Run(events[..|events| - 1]), events[|events| - 1])
  }

  function RunHistory(events: seq<Event>): History {
    if events == [] then START
    else Recorded(Run(events[..|events| - 1]), RunHistory(events[..|events| - 1]), events[|events| - 1])
  }

  predicate RunAllowed(events: seq<Event>) {
    events == [] || (RunAllowed(events[..|events| - 1]) && Allowed(Run(events[..|events| - 1]), events[|events| - 1]))
  }

  lemma StartInv()
    ensures Inv(EMPTY, START)
  {
    assert forall k :: FilesAt(EMPTY, k) == [];
    assert forall k, f :: !Stands(EMPTY, k, f);
  }

  /** The main result: in every run, a submitted text that was not typed over and submitted files that were not
      removed stand in the draft slot of the running send, and the files in the composer are just those that were added
      and neither removed nor sent nor overwritten, and those that creating a session brought back, each in one
      place. */
  lemma {:induction false} RunInv(events: seq<Event>)
    ensures Inv(Run(events), RunHistory(events))
  {
    hide Inv, Step, Recorded;
    if events == [] {
      StartInv();
    } else {
      RunInv(events[..|events| - 1]);
      StepInv(Run(events[..|events| - 1]), RunHistory(events[..|events| - 1]), events[|events| - 1]);
    }
  }

  /** Nothing is overwritten as long as created sessions come to the composer with nothing written for them. */
  lemma {:induction false} NothingLost(events: seq<Event>)
    requires RunAllowed(events)
    ensures RunHistory(events).lost == {}
  {
    if events != [] { NothingLost(events[..|events| - 1]); }
  }

  /** Where the text of a slot is after an event: it moves only with the user to a created session. */
  function Later(c: Composer, e: Event, slot: Slot): Slot {
    if e.Creates? && Waits(c, e.task, Creating) && Current(c, e.task) && slot == New
       && (c.tasks[e.task].selectionEpoch == c.selectionGeneration
          || (New in c.drafts && c.drafts[New] == c.tasks[e.task].text))
    then Of(e.session) else slot
  }

  lemma ReturnedDrafts(c: Composer, i: nat)
    requires i < |c.tasks| && c.tasks[i].stage.Sending?
    ensures var q, slot := Returned(c, i), Of(c.tasks[i].stage.session);
            q.drafts == if Current(c, i) && slot in c.drafts && c.drafts[slot] == c.tasks[i].text then c.drafts - {slot}
                        else c.drafts
  {
    hide Remaining;
  }

  lemma CreatedDrafts(c: Composer, i: nat, id: Id)
    requires Waits(c, i, Creating)
    ensures var q, task := Created(c, i, id), c.tasks[i];
            if !Current(c, i) then q.drafts == c.drafts
            else if task.selectionEpoch == c.selectionGeneration then
              q.drafts == c.drafts[Of(id) := if New in c.drafts then c.drafts[New] else task.text] - {New}
            else
              q.drafts == if New in c.drafts && c.drafts[New] == task.text then c.drafts[Of(id) := task.text] - {New}
                          else c.drafts[Of(id) := task.text]
  {
    hide Remaining;
  }

  /** A successful send clears this slot. */
  predicate Clears(c: Composer, e: Event, slot: Slot) {
    e.Returns? && Current(c, e.task) && c.tasks[e.task].stage.Sending? && slot == Of(c.tasks[e.task].stage.session)
    && slot in c.drafts && c.drafts[slot] == c.tasks[e.task].text
  }

  /** A send begun before an account change ends without a trace, whatever its calls return. */
  lemma StaleSendsAreMute(c: Composer, i: nat, id: Id)
    requires i < |c.tasks| && !Current(c, i)
    ensures Threw(c, i) == c.(tasks := Dropped(c.tasks, i))
    ensures c.tasks[i].stage.Creating? ==> Created(c, i, id) == c.(tasks := Dropped(c.tasks, i))
    ensures c.tasks[i].stage.Opening? ==> Opened(c, i) == c.(tasks := Dropped(c.tasks, i))
    ensures c.tasks[i].stage.Sending? ==> Returned(c, i) == c.(tasks := Dropped(c.tasks, i))
  {
    hide Dropped;
  }

  /** The text that is moved to a created session's slot. */
  function MovedText(c: Composer, task: Task): string {
    if task.selectionEpoch == c.selectionGeneration && New in c.drafts then c.drafts[New] else task.text
  }

  /** A created session replaces the text of its slot by another. */
  predicate Overwrites(c: Composer, e: Event, slot: Slot) {
    e.Creates? && Waits(c, e.task, Creating) && Current(c, e.task) && slot == Of(e.session)
    && slot in c.drafts && c.drafts[slot] != MovedText(c, c.tasks[e.task])
  }

  /** Any text other than the one sent survives every event but the user's own typing there, an account change, and the
      creation of its session with another text: failures and successes of a send, navigation, and the reading of the
      preferences. */
  lemma OtherTextSurvives(c: Composer, h: History, e: Event, slot: Slot)
    requires Inv(c, h) && slot in c.drafts
    requires !e.Resets? && (e.Types? ==> slot != Here(c)) && !Clears(c, e, slot) && !Overwrites(c, e, slot)
    ensures Later(c, e, slot) in Step(c, e).drafts && Step(c, e).drafts[Later(c, e, slot)] == c.drafts[slot]
  {
    hide Apart, Single, Complete, TasksHeld, HasMessage, Remaining, Returned, Created;
    match e {
      case Returns(i) =>
        if i < |c.tasks| && c.tasks[i].stage.Sending? { ReturnedDrafts(c, i); } else { NoReturn(c, i); }
      case Creates(i, id) =>
        if Waits(c, i, Creating) { CreatedDrafts(c, i, id); } else { NoCreation(c, i, id); }
      case _ =>
    }
  }

  lemma NoReturn(c: Composer, i: nat)
    requires i >= |c.tasks| || !c.tasks[i].stage.Sending?
    ensures Returned(c, i) == c
  {
  }

  lemma NoCreation(c: Composer, i: nat, id: Id)
    requires !Waits(c, i, Creating)
    ensures Created(c, i, id) == c
  {
  }

  /** When the session may already have been written for, creating it replaces the text of its slot: exactly a text that
      differs from what is moved there is lost. */
  lemma CreationOverwritesText(c: Composer, h: History, i: nat, id: Id)
    requires Inv(c, h) && Waits(c, i, Creating) && Current(c, i) && Of(id) in c.drafts
    ensures Of(id) in Created(c, i, id).drafts
    ensures Created(c, i, id).drafts[Of(id)] == c.drafts[Of(id)] <==> c.drafts[Of(id)] == MovedText(c, c.tasks[i])
  {
    hide Inv, Created;
    CreatedDrafts(c, i, id);
  }

  lemma CreatedStands(c: Composer, h: History, i: nat, id: Id)
    requires Inv(c, h) && Waits(c, i, Creating) && Current(c, i)
    ensures var q, task := Created(c, i, id), c.tasks[i];
            forall k, f :: Stands(q, k, f) <==>
              if task.selectionEpoch == c.selectionGeneration
              then (if k == Of(id) then Stands(c, New, f) else k != New && Stands(c, k, f))
              else if k == Of(id) then f in task.files
              else Stands(c, k, f) && (k != New || f.id !in Ids(task.files))
  {
    var q, task := Created(c, i, id), c.tasks[i];
    assert FilesHeld(c, h, task);
    if task.selectionEpoch == c.selectionGeneration {
      FollowedStands(c, task, id);
      SameStands(Followed(c, task, id), q);
    } else {
      PartedStands(c, h, task, id);
      SameStands(Parted(c, task, id), q);
    }
  }

  /** The same for files: exactly those that stand in its slot are lost. */
  lemma CreationOverwritesFile(c: Composer, h: History, i: nat, id: Id, slot: Slot, f: File)
    requires Inv(c, h) && Waits(c, i, Creating) && Current(c, i) && Stands(c, slot, f)
    ensures Somewhere(Created(c, i, id), f) <==> slot != Of(id)
  {
    var q, task := Created(c, i, id), c.tasks[i];
    assert FilesHeld(c, h, task) && Single(c);
    CreatedStands(c, h, i, id);
    hide Inv, Stands, Created;
    if slot != Of(id) {
      assert Stands(q, if f in task.files || (slot == New && task.selectionEpoch == c.selectionGeneration)
                       then Of(id) else slot, f);
    } else {
      assert forall k :: Stands(c, k, f) ==> k == Of(id);
    }
  }

  /** A submitted file that the user took off comes back when the session is created, exactly when they had navigated
      meanwhile: the submitted files are then put into the new session's slot as they were. */
  lemma RemovedFileReturns(c: Composer, h: History, i: nat, id: Id, f: File)
    requires Inv(c, h) && Waits(c, i, Creating) && Current(c, i) && f in c.tasks[i].files && f.id in h.removed
    ensures !Somewhere(c, f)
    ensures Somewhere(Created(c, i, id), f) <==> c.tasks[i].selectionEpoch != c.selectionGeneration
  {
    var q, task := Created(c, i, id), c.tasks[i];
    assert FilesHeld(c, h, task);
    CreatedStands(c, h, i, id);
    hide Inv, Stands, Created;
    assert forall k :: !Stands(c, k, f);
    if task.selectionEpoch != c.selectionGeneration { assert Stands(q, Of(id), f); }
  }

  lemma FirstSend(text: string)
    requires text != "" && !White(text[0])
    ensures Began(Typed(EMPTY, text), true)
         == Composer(0, 0, None, map[New := text], map[], {New}, true, Unread, [Task(0, 0, text, [], Creating)], 0)
  {
    var one := Typed(EMPTY, text);
    assert one.drafts == map[New := text] && one.edited == {New};
    TrimsToNothing(text);
  }

  lemma TypedElsewhere(text: string, other: string, id: Id)
    ensures var two := Composer(0, 0, None, map[New := text], map[], {New}, true, Unread,
            [Task(0, 0, text, [], Creating)], 0);
            var four := Typed(Navigated(two, Some(id)), other);
            && four.drafts == map[New := text, Of(id) := other] && four.tasks == two.tasks && four.generation == 0
            && four.selectionGeneration == 1
  {
  }

  /** And that can happen: the user opens the new session before `createSession` returns, and types there. */
  lemma TextOverwritten(text: string, other: string, id: Id)
    requires text != "" && !White(text[0])
    ensures var c := Step(Step(Step(Step(EMPTY, Types(text)), Begins(true)), Navigates(Some(id))), Types(other));
            && c.drafts == map[New := text, Of(id) := other]
            && Step(c, Creates(0, id)).drafts == map[Of(id) := text]
  {
    hide Typed, Began, Navigated, Created;
    FirstSend(text);
    TypedElsewhere(text, other, id);
    CreatedDrafts(Typed(Navigated(Began(Typed(EMPTY, text), true), Some(id)), other), 0, id);
    assert map[New := text, Of(id) := other][Of(id) := text] - {New} == map[Of(id) := text];
  }

  lemma RunGrows(events: seq<Event>, e: Event)
    ensures Run(events + [e]) == Step(Run(events), e)
    ensures RunHistory(events + [e]) == Recorded(Run(events), RunHistory(events), e)
    ensures RunAllowed(events + [e]) == (RunAllowed(events) && Allowed(Run(events), e))
  {
    assert (events + [e])[..|events + [e]| - 1] == events;
  }

  /** A new user's composer with this one file sent, the rest as given. */
  function Sent(name: string, kept: seq<File>, moves: nat, at: Option<Id>): Composer {
    Composer(0, moves, at, map[], map[New := kept], {}, true, Unread, [Task(0, 0, "", [File(0, name)], Creating)], 1)
  }

  lemma SendsFile(name: string)
    ensures var c, f := Step(EMPTY, Adds(name)), File(0, name);
            && Step(c, Begins(true)) == Sent(name, [f], 0, None)
            && Recorded(c, Recorded(EMPTY, START, Adds(name)), Begins(true)) == History(false, {}, {f}, {}, {})
  {
    var c, f := Step(EMPTY, Adds(name)), File(0, name);
    assert FilesAt(EMPTY, New) + [f] == [f] && map[][New := [f]] == map[New := [f]];
    assert Began(c, true).busy;
    assert Recorded(EMPTY, START, Adds(name)) == History(false, {}, {f}, {}, {});
  }

  lemma TakesOff(name: string, other: Id)
    ensures var f := File(0, name);
            var c, h := Sent(name, [f], 0, None), History(false, {}, {f}, {}, {});
            && Step(c, Removes(0)) == Sent(name, [], 0, None)
            && Recorded(c, h, Removes(0)) == History(false, {0}, {}, {}, {})
            && Step(Step(c, Removes(0)), Navigates(Some(other))) == Sent(name, [], 1, Some(other))
  {
    var c, f := Sent(name, [File(0, name)], 0, None), File(0, name);
    assert Remaining([f], {0}) == [] by { assert Remaining([f][1..], {0}) == []; }
    assert Held(c) == Some(New);
  }

  lemma BringsBack(name: string, id: Id, other: Id)
    requires id != other
    ensures var c, h, f := Sent(name, [], 1, Some(other)), History(false, {0}, {}, {}, {}), File(0, name);
            && Allowed(c, Creates(0, id)) && FilesAt(Step(c, Creates(0, id)), Of(id)) == [f]
            && Recorded(c, h, Creates(0, id)) == History(false, {0}, {}, {f}, {})
  {
    var c, f := Sent(name, [], 1, Some(other)), File(0, name);
    assert f in c.tasks[0].files;
    assert Waits(c, 0, Creating) && Current(c, 0);
    assert (set g | g in c.tasks[0].files && g.id in {0}) == {f};
  }

  lemma SentRun(name: string)
    ensures var events := [Adds(name), Begins(true)];
            && Run(events) == Sent(name, [File(0, name)], 0, None) && RunAllowed(events)
            && RunHistory(events) == History(false, {}, {File(0, name)}, {}, {})
  {
    assert Run([]) == EMPTY && RunHistory([]) == START && RunAllowed([]);
    assert [] + [Adds(name)] == [Adds(name)] && [Adds(name)] + [Begins(true)] == [Adds(name), Begins(true)];
    SendsFile(name);
    hide Step, Recorded, Run, RunHistory, RunAllowed;
    RunGrows([], Adds(name));
    RunGrows([Adds(name)], Begins(true));
  }

  lemma TakenOffRun(name: string, other: Id)
    ensures var events := [Adds(name), Begins(true), Removes(0), Navigates(Some(other))];
            && Run(events) == Sent(name, [], 1, Some(other)) && RunAllowed(events)
            && RunHistory(events) == History(false, {0}, {}, {}, {})
  {
    var two, three := [Adds(name), Begins(true)], [Adds(name), Begins(true), Removes(0)];
    assert two + [Removes(0)] == three;
    assert three + [Navigates(Some(other))] == [Adds(name), Begins(true), Removes(0), Navigates(Some(other))];
    TakesOff(name, other);
    hide Step, Run, RunHistory, RunAllowed, Held, FilesAt;
    SentRun(name);
    RunGrows(two, Removes(0));
    RunGrows(three, Navigates(Some(other)));
  }

  /** And a removed file can come back: the user adds one, sends, takes it off, and goes to another session before
      `createSession` returns. */
  lemma RemovedFileComesBack(name: string, id: Id, other: Id)
    requires id != other
    ensures var events := [Adds(name), Begins(true), Removes(0), Navigates(Some(other)), Creates(0, id)];
            && RunAllowed(events)
            && FilesAt(Run(events[..4]), New) == [] && FilesAt(Run(events), Of(id)) == [File(0, name)]
            && 0 in RunHistory(events).removed
            && RunHistory(events).kept == {} && RunHistory(events).back == {File(0, name)}
  {
    var four := [Adds(name), Begins(true), Removes(0), Navigates(Some(other))];
    var events := [Adds(name), Begins(true), Removes(0), Navigates(Some(other)), Creates(0, id)];
    assert four + [Creates(0, id)] == events && events[..4] == four;
    hide Step, Recorded, Allowed, Run, RunHistory, RunAllowed;
    TakenOffRun(name, other);
    BringsBack(name, id, other);
    RunGrows(four, Creates(0, id));
  }
}
