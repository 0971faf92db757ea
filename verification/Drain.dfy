/**
The end of an SSH connection (app/App/Drain.swift, Child.swift, SSH.swift): a group counts the
helpers of the connection, and the master is stopped once the connection takes no more helpers and
all have ended. A count below zero would crash the program.
*/
module Drains {
  import opened Wrappers

  type ChildID = nat

  // ----- the three states -----

  datatype DrainState = DrainState(count: int, closed: bool) {
    function Entered(): DrainState {
      if closed then this else this.(count := count + 1)
    }

    function Left(): DrainState {
      this.(count := count - 1)
    }

    function Closed(): DrainState {
      if closed then this else DrainState(count - 1, true)
    }
  }

  /** A child process: its group counts the process and the reader of its stderr. */
  datatype ChildState = ChildState(running: bool, reading: bool, count: int, stopping: bool) {
    function Died(): ChildState {
      this.(running := false, count := count - 1)
    }

    function Read(): ChildState {
      this.(reading := false, count := count - 1)
    }

    function Stopped(): ChildState {
      this.(stopping := true)
    }
  }

  /** What is left to do of a stop: wait for the drain, run the block, wait for the master, or nothing. */
  datatype Plan =
    | NotAsked
    | Waiting(child: Option<ChildID>)
    | Posted(child: Option<ChildID>)
    | Ending(master: ChildID)
    | Over(child: Option<ChildID>)

  datatype SshState = SshState(stopped: bool, master: Option<ChildID>, plan: Plan, ended: int, awaits: bool) {
    /** A stop, after a drain whose count is given or at once. */
    function Stop(drain: Option<int>): SshState {
      if stopped then this
      else
        this.(stopped := true, master := None, awaits := drain.Some?,
              plan := if drain.Some? && drain.value != 0 then Waiting(master) else Posted(master))
    }

    /** The drain's count has reached zero. */
    function Notified(): SshState {
      if plan.Waiting? then this.(plan := Posted(plan.child)) else this
    }

    /** The block of the stop; the master itself is stopped beside it. */
    function Finished(): SshState
      requires plan.Posted?
    {
      if plan.child.Some? then this.(plan := Ending(plan.child.value)) else this.(plan := Over(None), ended := ended - 1)
    }

    function MasterEnded(): SshState
      requires plan.Ending?
    {
      this.(plan := Over(Some(plan.master)), ended := ended - 1)
    }
  }

  // ----- the classes -----

  class Drain {
    var count: int
    var closed: bool

    constructor ()
      ensures View() == DrainState(1, false)
    {
      count, closed := 1, false;
    }

    function View(): DrainState
      reads this
    {
      DrainState(count, closed)
    }

    method Enter() returns (accepted: bool)
      modifies this
      ensures View() == old(View()).Entered() && accepted == !old(closed)
      ensures closed == old(closed) && count == if accepted then old(count) + 1 else old(count)
    {
      if closed {
        return false;
      }
      count := count + 1;
      return true;
    }

    method Leave()
      modifies `count
      ensures View() == old(View()).Left() && count == old(count) - 1
    {
      count := count - 1;
    }

    method Close()
      modifies this
      ensures View() == old(View()).Closed()
      ensures closed && count == if old(closed) then old(count) else old(count) - 1
    {
      if closed {
        return;
      }
      closed := true;
      count := count - 1;
    }
  }

  class Child {
    var running: bool
    var reading: bool
    var count: int
    var stopping: bool

    /** Before the launch. */
    constructor ()
      ensures View() == ChildState(false, false, 0, false)
    {
      running, reading, count, stopping := false, false, 0, false;
    }

    function View(): ChildState
      reads this
    {
      ChildState(running, reading, count, stopping)
    }

    /**
    The launch, of a helper if there is a drain: refused by a closed drain, failed, or run. A failed
    launch leaves both groups as they were.
    */
    method Launch(drain: Drain?, runs: bool) returns (launched: bool)
      requires View() == ChildState(false, false, 0, false)
      modifies this, drain
      ensures launched == (runs && (drain == null || !old(drain.closed)))
      ensures View() == if launched then ChildState(true, true, 2, false) else old(View())
      ensures drain != null ==> drain.View() == if launched then old(drain.View()).Entered() else old(drain.View())
      ensures drain != null && launched ==> drain.count == old(drain.count) + 1
    {
      if drain != null {
        var accepted := drain.Enter();
        if !accepted {
          return false;
        }
      }
      count := count + 1;
      if !runs {
        if drain != null {
          drain.Leave();
        }
        count := count - 1;
        return false;
      }
      running := true;
      count := count + 1;
      reading := true;
      return true;
    }

    /** The termination handler. */
    method Terminated(drain: Drain?)
      modifies this, drain
      ensures View() == old(View()).Died() && !running && count == old(count) - 1
      ensures drain != null ==> drain.View() == old(drain.View()).Left() && drain.count == old(drain.count) - 1
    {
      running := false;
      if drain != null {
        drain.Leave();
      }
      count := count - 1;
    }

    method Stop()
      modifies `stopping
      ensures View() == old(View()).Stopped() && stopping
    {
      if stopping {
        return;
      }
      stopping := true;
    }
  }

  class Ssh {
    var stopped: bool
    var master: Option<ChildID>
    var plan: Plan
    var ended: int
    var awaits: bool

    constructor ()
      ensures View() == SshState(false, None, NotAsked, 1, false)
    {
      stopped, master, plan, ended, awaits := false, None, NotAsked, 1, false;
    }

    function View(): SshState
      reads this
    {
      SshState(stopped, master, plan, ended, awaits)
    }

    method StopAfter(drain: Drain?)
      modifies this
      ensures View() == old(View()).Stop(if drain == null then None else Some(drain.count))
      ensures old(stopped) ==> View() == old(View())
      ensures !old(stopped) ==>
                && stopped && master == None && ended == old(ended) && awaits == (drain != null)
                && plan == if drain != null && drain.count != 0 then Waiting(old(master)) else Posted(old(master))
    {
      if stopped {
        return;
      }
      stopped := true;
      var child := master;
      master := None;
      awaits := drain != null;
      plan := Posted(child);
      if drain != null {
        if drain.count != 0 {
          plan := Waiting(child);
        }
      }
    }

    /** The block of a stop, with the master that the stop found. */
    method Finish(child: Child?)
      requires plan.Posted? && (plan.child.Some? <==> child != null)
      modifies this, child
      ensures View() == old(View()).Finished()
      ensures child != null ==> child.View() == old(child.View()).Stopped()
      ensures child != null ==> child.stopping && plan == Ending(old(plan).child.value) && ended == old(ended)
      ensures child == null ==> plan == Over(None) && ended == old(ended) - 1
    {
      if child != null {
        child.Stop();
        plan := Ending(plan.child.value);
      } else {
        plan := Over(None);
        ended := ended - 1;
      }
    }

    /** The master's group is empty. */
    method Leave()
      requires plan.Ending?
      modifies this
      ensures View() == old(View()).MasterEnded()
    {
      plan := Over(Some(plan.master));
      ended := ended - 1;
    }
  }

  // ----- the protocol -----

  datatype Helper = Admitted | Running | Refused | Failed | Done

  /** A master is ready once its launch has seen it serve. */
  datatype Master = Master(child: ChildState, ready: bool)

  /** `kept`: the ready master that a stop after the drain found, if nothing had stopped it before. */
  datatype State = State(drain: DrainState, helpers: map<ChildID, Helper>, masters: map<ChildID, Master>,
                         ssh: SshState, kept: Option<ChildID>)

  datatype Label =
    | Enter(helper: ChildID)
    | RunFails(helper: ChildID)
    | Runs(helper: ChildID)
    | Terminates(helper: ChildID)
    | CloseDrain
    | LaunchMaster(master: ChildID, dead: bool)
    | MasterReady(master: ChildID)
    | LaunchGivesUp(master: ChildID)
    | RelaunchStops
    | MasterDies(master: ChildID)
    | StderrEnds(master: ChildID)
    | StopSsh(after: bool)
    | RunBlock
    | LeaveEnded

  const Start := State(DrainState(1, false), map[], map[], SshState(false, None, NotAsked, 1, false), None)

  predicate Alive(s: State, m: ChildID) {
    m in s.masters && s.masters[m].child.count != 0
  }

  predicate Enabled(s: State, l: Label) {
    match l
    case Enter(c) => c !in s.helpers
    case RunFails(c) => c in s.helpers && s.helpers[c] == Admitted
    case Runs(c) => c in s.helpers && s.helpers[c] == Admitted
    case Terminates(c) => c in s.helpers && s.helpers[c] == Running
    case CloseDrain => true
    case LaunchMaster(m, _) => m !in s.masters && !s.ssh.stopped && (s.ssh.master.Some? ==> !Alive(s, s.ssh.master.value))
    case MasterReady(m) => m in s.masters && !s.masters[m].ready
    case LaunchGivesUp(m) => m in s.masters && !s.masters[m].ready
    case RelaunchStops => s.ssh.master.Some? && s.ssh.master.value in s.masters
    case MasterDies(m) => m in s.masters && s.masters[m].child.running
    case StderrEnds(m) => m in s.masters && s.masters[m].child.reading
    case StopSsh(_) => true
    case RunBlock => s.ssh.plan.Posted? && (s.ssh.plan.child.Some? ==> s.ssh.plan.child.value in s.masters)
    case LeaveEnded => s.ssh.plan.Ending? && s.ssh.plan.master in s.masters && !Alive(s, s.ssh.plan.master)
  }

  /** A drain that has just been left. */
  function Drained(s: State, drain: DrainState): State {
    s.(drain := drain, ssh := if drain.count == 0 && drain != s.drain then s.ssh.Notified() else s.ssh)
  }

  function WithMaster(s: State, m: ChildID, child: ChildState): State
    requires m in s.masters
  {
    s.(masters := s.masters[m := s.masters[m].(child := child)])
  }

  function Next(s: State, l: Label): State
    requires Enabled(s, l)
  {
    match l
    case Enter(c) => s.(drain := s.drain.Entered(), helpers := s.helpers[c := if s.drain.closed then Refused else Admitted])
    case RunFails(c) => Drained(s, s.drain.Left()).(helpers := s.helpers[c := Failed])
    case Runs(c) => s.(helpers := s.helpers[c := Running])
    case Terminates(c) => Drained(s, s.drain.Left()).(helpers := s.helpers[c := Done])
    case CloseDrain => Drained(s, s.drain.Closed())
    case LaunchMaster(m, dead) =>
      s.(masters := s.masters[m := Master(ChildState(!dead, true, if dead then 1 else 2, false), false)],
         ssh := s.ssh.(master := Some(m)))
    case MasterReady(m) => s.(masters := s.masters[m := s.masters[m].(ready := true)])
    case LaunchGivesUp(m) => WithMaster(s, m, s.masters[m].child.Stopped())
    case RelaunchStops => WithMaster(s, s.ssh.master.value, s.masters[s.ssh.master.value].child.Stopped())
    case MasterDies(m) => WithMaster(s, m, s.masters[m].child.Died())
    case StderrEnds(m) => WithMaster(s, m, s.masters[m].child.Read())
    case StopSsh(after) =>
      s.(ssh := s.ssh.Stop(if after then Some(s.drain.count) else None),
         kept := if !s.ssh.stopped && after && Keepable(s) then s.ssh.master else s.kept)
    case RunBlock =>
      var t := s.(ssh := s.ssh.Finished());
      if s.ssh.plan.child.None? then t
      else WithMaster(t, s.ssh.plan.child.value, s.masters[s.ssh.plan.child.value].child.Stopped())
    case LeaveEnded => s.(ssh := s.ssh.MasterEnded())
  }

  /** The master serves, and nothing has stopped it. */
  predicate Keepable(s: State) {
    s.ssh.master.Some? && s.ssh.master.value in s.masters && s.masters[s.ssh.master.value].ready
    && !s.masters[s.ssh.master.value].child.stopping
  }

  predicate Steps(s: State, l: Label, t: State) {
    Enabled(s, l) && t == Next(s, l)
  }
}
