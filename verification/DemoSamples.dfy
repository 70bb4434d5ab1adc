/** The first start of the demo peer: what it restores, and that the theorems about runs cover it. */
module DemoSamples {
  import opened Wrappers
  import opened DemoPeer
  import opened DemoIds
  import opened DemoTasks
  import opened DemoLedger
  import opened DemoRuns
  import opened DemoTheorems

  /** Proper samples may be restored at any time, on a new peer as on any other: it gives out only identifiers above
      theirs from then on. */
  lemma SamplesFit(p: Peer, f: Fixtures, samples: Ledger)
    requires Sample(f, samples, f.next)
    ensures Allowed(p, Restored(f, samples)) && f.next <= Restore(p, f).nextID
  {
    hide Honest, Complete, StreamsOnly, Written;
  }

  function WorkingMessages(texts: seq<string>): seq<Message>
    requires |texts| == 8
  {
    [Message(2, User, texts[0], [], false), Message(3, Tool, texts[1], [], false),
     Message(PROGRESS, Assistant, texts[2], [], true)]
  }

  const NOTES := Remote(Path(RUNNING, 6), "notes")

  function WorkingQueue(texts: seq<string>): seq<Row>
    requires |texts| == 8
  {
    [Row(4, texts[3], [], false, false), Row(5, texts[4], [NOTES.path], false, false),
     Row(7, texts[5], [], false, false)]
  }

  /** A working sample with a prompt, a tool's line and a streaming reply, and three rows behind them, one with a file;
      and a finished one. */
  function Samples(texts: seq<string>): Fixtures
    requires |texts| == 8
  {
    var done := [Message(9, User, texts[6], [], false), Message(10, Assistant, texts[7], [], false)];
    Fixtures(map[RUNNING := Session(WorkingMessages(texts), true, None, WorkingQueue(texts), false, None),
                 8 := Session(done, false, None, [], false, Some(9))],
             map[5 := [NOTES]], 11)
  }

  function SampleLedger(texts: seq<string>): Ledger
    requires |texts| == 8
  {
    map[2 := Entry(RUNNING, texts[0], []), 4 := Entry(RUNNING, texts[3], []), 5 := Entry(RUNNING, texts[4], [NOTES]),
        7 := Entry(RUNNING, texts[5], []), 9 := Entry(8, texts[6], [])]
  }

  lemma WorkingIsProper(texts: seq<string>)
    requires |texts| == 8
    ensures SampleSession(Samples(texts), SampleLedger(texts), 11, RUNNING)
  {
    WorkingIsClean(texts);
    WorkingIsHonest(texts);
    WorkingIsComplete(texts);
    hide WorkingMessages, WorkingQueue, SampleLedger, Clean, StreamsOnly, Written, Honest, Complete;
  }

  lemma WorkingIsClean(texts: seq<string>)
    requires |texts| == 8
    ensures Clean(WorkingQueue(texts), WorkingMessages(texts), 11)
    ensures StreamsOnly(WorkingMessages(texts), Some(PROGRESS)) && Written(WorkingMessages(texts), PROGRESS, None)
    ensures forall r :: r in WorkingQueue(texts) ==> !r.blocked
  {
    assert WorkingMessages(texts)[2].id == PROGRESS;
  }

  lemma WorkingIsHonest(texts: seq<string>)
    requires |texts| == 8
    ensures Honest(map[5 := [NOTES]], SampleLedger(texts), RUNNING, WorkingQueue(texts), WorkingMessages(texts))
  {
    assert Paths([NOTES]) == [NOTES.path] && Paths([]) == [];
  }

  lemma WorkingIsComplete(texts: seq<string>)
    requires |texts| == 8
    ensures Complete(SampleLedger(texts), RUNNING, WorkingQueue(texts), WorkingMessages(texts))
  {
    var queue := WorkingQueue(texts);
    assert WorkingMessages(texts)[0].id == 2 && queue[0].id == 4 && queue[1].id == 5 && queue[2].id == 7;
  }

  lemma FinishedIsProper(texts: seq<string>)
    requires |texts| == 8
    ensures SampleSession(Samples(texts), SampleLedger(texts), 11, 8)
  {
    var done := Samples(texts).sessions[8];
    assert done.messages[0].id == 9;
  }

  lemma SamplesAreProper(texts: seq<string>)
    requires |texts| == 8
    ensures Sample(Samples(texts), SampleLedger(texts), 11)
  {
    hide SampleSession;
    WorkingIsProper(texts);
    FinishedIsProper(texts);
  }

  lemma SamplesStart(script: Script, clock: int, texts: seq<string>)
    requires |texts| == 8
    ensures var q := Restore(Idle(script, clock), Samples(texts));
            && RUNNING in q.sessions && |q.sessions[RUNNING].messages| == 3 && |q.sessions[RUNNING].queue| == 3
            && RUNNING in q.running && q.nextID == 11
  {
  }

  /** So the runs of a new peer include those that start with such samples. */
  lemma SampleRun(script: Script, clock: int, texts: seq<string>)
    requires script.words != [] && script.progress != [] && |texts| == 8
    ensures var events := [Restored(Samples(texts), SampleLedger(texts))];
            var q := Run(Idle(script, clock), events);
            && RunAllowed(Idle(script, clock), events) && Inv(q, SampleLedger(texts))
            && RUNNING in q.sessions && |q.sessions[RUNNING].messages| == 3 && |q.sessions[RUNNING].queue| == 3
            && RUNNING in q.running && q.nextID == 11
  {
    var p, e := Idle(script, clock), Restored(Samples(texts), SampleLedger(texts));
    SamplesAreProper(texts);
    SamplesFit(p, Samples(texts), SampleLedger(texts));
    SamplesStart(script, clock, texts);
    hide Allowed, Sample, Samples, SampleLedger, Inv, Idle, Restore;
    assert [e][..0] == [] && Run(p, []) == p && RunAllowed(p, []) && RunLedger(p, map[], []) == map[];
    assert RunAllowed(p, [e]) && Run(p, [e]) == Step(p, e) && RunLedger(p, map[], [e]) == SampleLedger(texts);
    EveryRun(script, clock, [e]);
  }
}
