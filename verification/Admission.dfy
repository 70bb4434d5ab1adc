/** The shared state of the build runners and the four steps that change it under the file lock. */
module Admission {
  import opened Wrappers

  type Pid = nat

  /** A runner's entry in the queue; `id` is its unique ticket number. */
  datatype Ticket = Ticket(id: nat, pid: Pid)

  datatype Active = Active(ticket: Ticket, child: Option<Pid>)

  datatype Shared = Shared(queue: seq<Ticket>, active: Option<Active>)

  function OnlyAlive(queue: seq<Ticket>, alive: set<Pid>): seq<Ticket> {
    if queue == [] then []
    else (if queue[0].pid in alive then [queue[0]] else []) + OnlyAlive(queue[1..], alive)
  }

  function WithoutTicket(queue: seq<Ticket>, id: nat): seq<Ticket> {
    if queue == [] then []
    else (if queue[0].id != id then [queue[0]] else []) + WithoutTicket(queue[1..], id)
  }

  lemma {:induction false} OnlyAliveIs(queue: seq<Ticket>, alive: set<Pid>, t: Ticket)
    ensures t in OnlyAlive(queue, alive) <==> t in queue && t.pid in alive
  {
    if queue != [] {
      OnlyAliveIs(queue[1..], alive, t);
      assert queue == [queue[0]] + queue[1..];
    }
  }

  lemma {:induction false} WithoutTicketIs(queue: seq<Ticket>, id: nat, t: Ticket)
    ensures t in WithoutTicket(queue, id) <==> t in queue && t.id != id
  {
    if queue != [] {
      WithoutTicketIs(queue[1..], id, t);
      assert queue == [queue[0]] + queue[1..];
    }
  }

  /** No process can still be working on an active entry's account. */
  predicate Idle(child: Option<Pid>, alive: set<Pid>) {
    child.None? || child.value !in alive
  }

  function Queued(s: Shared, ticket: Ticket): Shared {
    s.(queue := s.queue + [ticket])
  }

  /** Dead runners leave the queue, and a dead owner without a live child leaves the slot. */
  function Swept(s: Shared, alive: set<Pid>): Shared {
    Shared(OnlyAlive(s.queue, alive),
           if s.active.Some? && s.active.value.ticket.pid !in alive && Idle(s.active.value.child, alive) then None
           else s.active)
  }

  predicate Admits(s: Shared, ticket: Ticket, enough: bool) {
    s.active.None? && s.queue != [] && s.queue[0].id == ticket.id && enough
  }

  function Polled(s: Shared, ticket: Ticket, enough: bool, alive: set<Pid>): Shared {
    var swept := Swept(s, alive);
    if Admits(swept, ticket, enough) then Shared(swept.queue[1..], Some(Active(ticket, None))) else swept
  }

  function Recorded(s: Shared, child: Pid): Shared
    requires s.active.Some?
  {
    s.(active := Some(s.active.value.(child := Some(child))))
  }

  function Left(s: Shared, id: nat, alive: set<Pid>): Shared {
    Shared(WithoutTicket(s.queue, id),
           if s.active.Some? && s.active.value.ticket.id == id && Idle(s.active.value.child, alive) then None
           else s.active)
  }

  /** The state file, as the runner that holds the lock sees it. */
  class StateFile {
    var queue: seq<Ticket>
    var active: Option<Active>

    function State(): Shared
      reads this
    {
      Shared(queue, active)
    }

    constructor ()
      ensures State() == Shared([], None)
    {
      queue, active := [], None;
    }

    method Enqueue(ticket: Ticket)
      modifies this
      ensures State() == Queued(old(State()), ticket)
    {
      queue := queue + [ticket];
    }

    /** The list comprehension over the queue. */
    method Prune(alive: set<Pid>)
      modifies `queue
      ensures queue == OnlyAlive(old(queue), alive)
    {
      var kept, i := [], 0;
      while i < |queue|
        invariant 0 <= i <= |queue| && queue == old(queue)
        invariant OnlyAlive(queue, alive) == kept + OnlyAlive(queue[i..], alive)
      {
        if queue[i].pid in alive { kept := kept + [queue[i]]; }
        i := i + 1;
      }
      queue := kept;
    }

    method Poll(ticket: Ticket, measured: int, required: int, alive: set<Pid>) returns (admitted: bool)
      modifies this
      ensures State() == Polled(old(State()), ticket, measured >= required, alive)
      ensures admitted <==> Admits(Swept(old(State()), alive), ticket, measured >= required)
    {
      admitted := false;
      Prune(alive);
      if active.Some? && active.value.ticket.pid !in alive {
        var child := active.value.child;
        if child.None? || child.value !in alive { active := None; }
      }
      if active.None? && queue != [] && queue[0].id == ticket.id {
        if measured >= required {
          queue := queue[1..];
          active := Some(Active(ticket, None));
          admitted := true;
        }
      }
    }

    method RecordChild(child: Pid)
      requires active.Some?
      modifies this
      ensures State() == Recorded(old(State()), child)
    {
      active := Some(active.value.(child := Some(child)));
    }

    method Withdraw(id: nat)
      modifies `queue
      ensures queue == WithoutTicket(old(queue), id)
    {
      var kept, i := [], 0;
      while i < |queue|
        invariant 0 <= i <= |queue| && queue == old(queue)
        invariant WithoutTicket(queue, id) == kept + WithoutTicket(queue[i..], id)
      {
        if queue[i].id != id { kept := kept + [queue[i]]; }
        i := i + 1;
      }
      queue := kept;
    }

    /** The `finally` clause. */
    method Leave(id: nat, alive: set<Pid>)
      modifies this
      ensures State() == Left(old(State()), id, alive)
    {
      Withdraw(id);
      if active.Some? && active.value.ticket.id == id {
        var child := active.value.child;
        if child.None? || child.value !in alive { active := None; }
      }
    }
  }
}
