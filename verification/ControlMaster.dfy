/** The lifecycle of the OpenSSH ControlMaster: a path lock, one owned process, and a socket file, driven by
    an ssh whose answers are arbitrary (internal/sshctl/openssh.go). */
module ControlMaster {
  import opened Results

  datatype Probe = Unknown | Absent | Stale | Running

  /** What is found at the control path: an inode, whether it is a socket, and whether it is ours. */
  datatype File = File(inode: int, isSocket: bool, ours: bool)

  datatype Look = NotThere | LookFailed | There(file: File)

  /** Everything the runner does to, or learns from, the world, in order. `Refused` is any call that the world does not
      grant: the lock, a request, a signal, a file operation, a start, or more time. */
  datatype Event =
    | Refused
    | LockTaken
    | LockDropped
    | Probed(result: Probe)
    | Looked(look: Look)
    | Identified(inode: int)
    | Unlinked(inode: int)
    | ExitAsked
    | KillSent
    | ForwardAsked
    | Spawned
    | ExitSeen
    | Cleared

  type Trace = seq<Event>

  // ---- What a trace says, independently of the runner's fields ----

  function Last(t: Trace): Option<Event> { if t == [] then None else Some(t[|t| - 1]) }

  predicate Locked(t: Trace) {
    t != [] && match t[|t| - 1]
               case LockTaken => true
               case LockDropped => false
               case _ => Locked(t[..|t| - 1])
  }

  /** A process was spawned and not yet given up. */
  predicate Owned(t: Trace) {
    t != [] && match t[|t| - 1]
               case Spawned => true
               case Cleared => false
               case _ => Owned(t[..|t| - 1])
  }

  /** The exit of the latest process has been seen. */
  predicate ExitKnown(t: Trace) {
    t != [] && match t[|t| - 1]
               case Spawned => false
               case ExitSeen => true
               case _ => ExitKnown(t[..|t| - 1])
  }

  /** The latest process, or the master at the path, was asked to exit after the process was spawned. */
  predicate AskedToExit(t: Trace) {
    t != [] && match t[|t| - 1]
               case Spawned => false
               case ExitAsked => true
               case _ => AskedToExit(t[..|t| - 1])
  }

  /** The socket identity recorded for the latest process. */
  function RecordedSocket(t: Trace): Option<int> {
    if t == [] then None
    else
      match t[|t| - 1]
      case Spawned => None
      case Identified(inode) => Some(inode)
      case _ => RecordedSocket(t[..|t| - 1])
  }

  /** The latest thing learned is that no master is there. */
  predicate AbsenceJustSeen(t: Trace) {
    Last(t) == Some(Probed(Absent)) || Last(t) == Some(Looked(NotThere))
  }

  /** The latest probe found a running master, and at most its socket was identified since. */
  predicate RunningJustSeen(t: Trace) {
    || Last(t) == Some(Probed(Running))
    || (|t| >= 2 && t[|t| - 1].Identified? && t[|t| - 2] == Probed(Running))
  }

  /** The file at the path was just looked at and is the socket with this inode. */
  predicate JustSaw(t: Trace, inode: int) {
    Last(t).Some? && Last(t).value.Looked? && Last(t).value.look.There?
    && Last(t).value.look.file.isSocket && Last(t).value.look.file.inode == inode
  }

  /** The socket was identified, then probed stale, then seen again. */
  predicate StaleSocket(t: Trace, inode: int) {
    && |t| >= 3 && t[|t| - 3] == Identified(inode) && t[|t| - 2] == Probed(Stale) && JustSaw(t, inode)
  }

  /** The socket is the one recorded for the owned process, which has exited. */
  predicate ExitedMastersSocket(t: Trace, inode: int) {
    Owned(t) && ExitKnown(t) && RecordedSocket(t) == Some(inode) && JustSaw(t, inode)
  }

  /** The safety rules: when each event is allowed, given what happened before. */
  predicate Allowed(t: Trace, e: Event) {
    match e
    case Spawned => Locked(t) && !Owned(t) && AbsenceJustSeen(t)
    case Unlinked(inode) => Locked(t) && (StaleSocket(t, inode) || ExitedMastersSocket(t, inode))
    case Cleared => Locked(t) && Owned(t) && ExitKnown(t)
    case LockTaken => !Locked(t)
    case LockDropped => Locked(t) && !Owned(t)
    case ExitSeen => Owned(t)
    case KillSent => Locked(t) && Owned(t) && !ExitKnown(t) && AskedToExit(t)
    case _ => true
  }

  predicate Safe(t: Trace) {
    t == [] || (Safe(t[..|t| - 1]) && Allowed(t[..|t| - 1], t[|t| - 1]))
  }

  // ---- What stands in the way ----

  /** The file just looked for is not the one that was identified before. */
  predicate Mismatch(t: Trace, inode: int) {
    || (|t| >= 2 && t[|t| - 1] == Probed(Stale) && t[|t| - 2].Identified? && t[|t| - 2].inode != inode)
    || (Owned(t) && ExitKnown(t) && RecordedSocket(t).Some? && RecordedSocket(t).value != inode)
  }

  /** After this event the runner cannot go on: a refusal, a master in an unknown state or still there against all
      evidence, or a file at the path that it must not touch. */
  predicate Blocks(t: Trace, e: Event) {
    match e
    case Refused => true
    case Probed(result) =>
      || result == Unknown
      || (Last(t).Some? && Last(t).value.Unlinked? && result != Absent)
      || (Last(t).Some? && Last(t).value.Identified? && result == Running)
    case Looked(look) =>
      || look.LookFailed?
      || (look.There? && (!look.file.isSocket || !look.file.ours))
      || (look.There? && (Last(t) == Some(Probed(Absent)) || Mismatch(t, look.file.inode)))
    case _ => false
  }

  /** Between two points of a trace something stood in the way. */
  ghost predicate Hindered(before: Trace, after: Trace) {
    exists k :: |before| <= k < |after| && Blocks(after[..k], after[k])
  }

  lemma HinderedBy(t: Trace, e: Event)
    requires Blocks(t, e)
    ensures Hindered(t, t + [e])
  {
    hide Blocks;
    assert (t + [e])[..|t|] == t && (t + [e])[|t|] == e;
  }

  lemma LookBlocks(t: Trace, look: Look)
    requires look.LookFailed? || (look.There? && (!look.file.isSocket || !look.file.ours || Last(t) == Some(Probed(Absent))))
    ensures Blocks(t, Looked(look))
  {
    hide Mismatch;
  }

  lemma ProbeBlocks(t: Trace, result: Probe)
    requires Last(t).Some?
    requires if Last(t).value.Identified? then result == Unknown || result == Running
             else Last(t).value.Unlinked? && result != Absent
    ensures Blocks(t, Probed(result))
  {}

  /** The second look at a stale socket either shows it again or shows something in the way. */
  lemma SecondLook(identified: Trace, inode: int, look: Look)
    requires Last(identified) == Some(Identified(inode)) && !look.NotThere?
    ensures var probed := identified + [Probed(Stale)];
      if look.There? && look.file.isSocket && look.file.inode == inode then StaleSocket(probed + [Looked(look)], inode)
      else Blocks(probed, Looked(look))
  {
    hide Owned, ExitKnown, RecordedSocket;
  }

  lemma HinderedWithin(a: Trace, b: Trace, c: Trace, d: Trace)
    requires a <= b <= c <= d && Hindered(b, c)
    ensures Hindered(a, d)
  {
    hide Blocks;
    var k :| |b| <= k < |c| && Blocks(c[..k], c[k]);
    assert d[..k] == c[..k] && d[k] == c[k];
  }

  lemma Appended(t: Trace, e: Event)
    ensures (t + [e])[..|t|] == t
    ensures Safe(t + [e]) <==> Safe(t) && Allowed(t, e)
    ensures Last(t + [e]) == Some(e)
  {
    assert (t + [e])[..|t|] == t;
  }

  /** An owned process, as the runner knows it. */
  datatype Process = Process(exited: bool, socket: Option<int>)

  /** How an operation ended. */
  datatype Ending = Succeeded | Failed | Unconfirmed | ReleaseFailed

  class Runner {
    var lockHeld: bool
    var master: Option<Process>
    ghost var trace: Trace

    ghost predicate Valid()
      reads this
    {
      && Safe(trace)
      && Locked(trace) == lockHeld
      && Owned(trace) == master.Some?
      && (master.Some? ==> lockHeld && master.value.exited == ExitKnown(trace) && master.value.socket == RecordedSocket(trace))
    }

    constructor ()
      ensures Valid() && !lockHeld && master.None? && trace == []
    {
      lockHeld, master, trace := false, None, [];
    }

    /** Record an event that changes neither the lock nor the process. */
    ghost method Note(e: Event)
      requires Valid() && Allowed(trace, e)
      requires e.Probed? || e.Looked? || e.ExitAsked? || e.KillSent? || e.ForwardAsked? || e.Unlinked? || e.Refused?
        || (e.Identified? && master.None?)
      modifies this`trace
      ensures Valid() && trace == old(trace) + [e]
      ensures Blocks(old(trace), e) ==> Hindered(old(trace), trace)
    {
      Appended(trace, e);
      if Blocks(trace, e) { HinderedBy(trace, e); }
      trace := trace + [e];
    }

    // ---- Lock ----

    /** Try to take the path lock; `taken` says that this call took it. */
    method AcquireControlPathLock() returns (ok: bool, taken: bool)
      requires Valid()
      modifies this
      ensures Valid() && master == old(master)
      ensures ok ==> lockHeld && taken == !old(lockHeld)
      ensures !ok ==> !taken && !lockHeld && !old(lockHeld)
      ensures trace == if taken then old(trace) + [LockTaken] else if ok then old(trace) else old(trace) + [Refused]
      ensures !ok ==> Hindered(old(trace), trace)
    {
      if lockHeld { return true, false; }
      var granted: bool := *;
      if !granted {
        Note(Refused);
        return false, false;
      }
      Appended(trace, LockTaken);
      lockHeld, trace := true, trace + [LockTaken];
      return true, true;
    }

    /** The lock is given up even when unlocking reports an error. */
    method ReleaseControlPathLock() returns (ok: bool)
      requires Valid() && master.None?
      modifies this
      ensures Valid() && !lockHeld && master.None?
      ensures old(trace) <= trace
      ensures trace == if old(lockHeld) then old(trace) + [LockDropped] else old(trace)
    {
      if !lockHeld { return true; }
      Appended(trace, LockDropped);
      lockHeld, trace := false, trace + [LockDropped];
      ok := *;
    }

    // ---- Observing the process, the socket and the master ----

    method IsDone() returns (done: bool)
      requires Valid() && master.Some?
      modifies this`master, this`trace
      ensures Valid() && master.Some? && master.value == old(master).value.(exited := done)
      ensures old(master).value.exited ==> done
      ensures trace == if done && !old(master).value.exited then old(trace) + [ExitSeen] else old(trace)
      ensures AskedToExit(old(trace)) ==> AskedToExit(trace)
    {
      if master.value.exited {
        return true;
      }
      done := *;
      if done {
        Appended(trace, ExitSeen);
        trace := trace + [ExitSeen];
        master := Some(master.value.(exited := true));
      }
    }

    method LookAtSocket() returns (look: Look)
      requires Valid()
      modifies this`trace
      ensures Valid() && trace == old(trace) + [Looked(look)]
      ensures Blocks(old(trace), Looked(look)) ==> Hindered(old(trace), trace)
    {
      look := *;
      Note(Looked(look));
    }

    method ProbeMaster() returns (result: Probe)
      requires Valid()
      modifies this`master, this`trace
      ensures Valid() && master.Some? == old(master).Some?
      ensures master.Some? ==> master.value.socket == old(master).value.socket
      ensures
        || (trace == old(trace) + [Probed(result)] && master == old(master))
        || (result == Absent && master.Some? && master.value.exited
            && trace == if old(master).value.exited then old(trace) else old(trace) + [ExitSeen])
      ensures old(master).None? ==> trace == old(trace) + [Probed(result)]
      ensures Blocks(old(trace), Probed(result)) && result != Absent ==> Hindered(old(trace), trace)
    {
      if master.Some? {
        var done := IsDone();
        if done { return Absent; }
      }
      result := *;
      Note(Probed(result));
    }

    /** Ask a running master to exit. */
    method CloseControl() returns (ok: bool)
      requires Valid()
      modifies this`trace
      ensures Valid()
      ensures old(trace) <= trace
      ensures AskedToExit(trace)
      ensures !ok ==> Hindered(old(trace), trace)
    {
      Note(ExitAsked);
      ok := *;
      if !ok {
        ghost var asked := trace;
        Note(Refused);
        HinderedWithin(old(trace), asked, trace, trace);
      }
    }

    // ---- The socket file ----

    method RemoveStaleControlSocket() returns (ok: bool)
      requires Valid() && master.None?
      modifies this
      ensures Valid() && master.None? && lockHeld == old(lockHeld)
      ensures ok ==> lockHeld && AbsenceJustSeen(trace)
      ensures old(trace) <= trace
      ensures !ok && lockHeld ==> Hindered(old(trace), trace)
    {
      hide Safe, Locked, Owned, ExitKnown, RecordedSocket, AskedToExit, Hindered, Blocks;
      if !lockHeld { return false; }
      var first := LookAtSocket();
      if first.NotThere? { return true; }
      if first.LookFailed? || !first.file.isSocket || !first.file.ours {
        LookBlocks(old(trace), first);
        return false;
      }
      var inode := first.file.inode;
      Note(Identified(inode));
      ghost var identified := trace;
      var state := ProbeMaster();
      ghost var probed := trace;
      if state == Absent {
        var gone := LookAtSocket();
        if !gone.NotThere? {
          LookBlocks(probed, gone);
          HinderedWithin(old(trace), probed, trace, trace);
        }
        return gone.NotThere?;
      }
      if state != Stale {
        ProbeBlocks(identified, state);
        HinderedWithin(old(trace), identified, trace, trace);
        return false;
      }
      ok := UnlinkStaleControlSocket(inode, identified);
      if !ok { HinderedWithin(old(trace), probed, trace, trace); }
    }

    /** The second half: the socket is still there and still refuses connections. */
    method UnlinkStaleControlSocket(inode: int, ghost identified: Trace) returns (ok: bool)
      requires Valid() && master.None? && lockHeld
      requires trace == identified + [Probed(Stale)] && Last(identified) == Some(Identified(inode))
      modifies this
      ensures Valid() && master.None? && lockHeld
      ensures ok ==> AbsenceJustSeen(trace)
      ensures old(trace) <= trace
      ensures !ok ==> Hindered(old(trace), trace)
    {
      hide Safe, Locked, Owned, ExitKnown, RecordedSocket, AskedToExit, Hindered, Blocks, StaleSocket, JustSaw;
      var current := LookAtSocket();
      if current.NotThere? { return true; }
      SecondLook(identified, inode, current);
      if current.LookFailed? || !current.file.isSocket || current.file.inode != inode { return false; }
      var removed: bool := *;
      if !removed {
        Give();
        return false;
      }
      Note(Unlinked(inode));
      ghost var unlinked := trace;
      var state := ProbeMaster();
      if state != Absent {
        ProbeBlocks(unlinked, state);
        HinderedWithin(old(trace), unlinked, trace, trace);
      }
      return state == Absent;
    }

    method RecordManagedControlSocket() returns (ok: bool)
      requires Valid() && master.Some?
      modifies this`master, this`trace
      ensures Valid() && master.Some? && master.value.exited == old(master).value.exited
      ensures old(master).value.socket.Some? ==> master == old(master)
      ensures ok ==>
        trace == old(trace) || (trace != [] && trace[|trace| - 1].Identified? && trace[..|trace| - 1] == old(trace))
      ensures ok <==> master.value.socket.Some?
      ensures old(trace) <= trace
      ensures !ok ==> Hindered(old(trace), trace)
    {
      if master.value.socket.Some? { return true; }
      var inode: int := *;
      var found: bool := *;
      if !found {
        Note(Refused);
        return false;
      }
      Appended(trace, Identified(inode));
      trace := trace + [Identified(inode)];
      master := Some(master.value.(socket := Some(inode)));
      return true;
    }

    /** Remove the exited process's socket, if the file at the path is still that socket. */
    method CleanupManagedControlSocket() returns (ok: bool)
      requires Valid() && master.Some? && master.value.exited
      modifies this`trace
      ensures Valid()
      ensures old(trace) <= trace
      ensures ok ==>
        || Last(trace) == Some(Looked(NotThere))
        || (master.value.socket.Some? && Last(trace) == Some(Unlinked(master.value.socket.value)))
      ensures !ok && master.value.socket.Some? ==> Hindered(old(trace), trace)
    {
      if !lockHeld { return false; }
      var current := LookAtSocket();
      ghost var looked := trace;
      if current.NotThere? { return true; }
      if current.LookFailed? || master.value.socket.None? { return false; }
      var readable: bool := *;
      if !readable {
        Note(Refused);
        HinderedWithin(old(trace), looked, trace, trace);
        return false;
      }
      if !current.file.isSocket || current.file.inode != master.value.socket.value { return false; }
      var removed: bool := *;
      if !removed {
        Note(Refused);
        HinderedWithin(old(trace), looked, trace, trace);
        return false;
      }
      Note(Unlinked(current.file.inode));
      return true;
    }

    method ClearManagedProcess()
      requires Valid() && master.Some? && master.value.exited
      modifies this`master, this`trace
      ensures Valid() && master.None?
      ensures old(trace) <= trace
    {
      Appended(trace, Cleared);
      trace := trace + [Cleared];
      master := None;
    }

    // ---- Stopping ----

    /** Give an exited process up, once its socket is out of the way. */
    method FinishStopped() returns (ok: bool)
      requires Valid() && master.Some? && master.value.exited
      modifies this
      ensures Valid() && lockHeld == old(lockHeld)
      ensures ok ==> master.None?
      ensures !ok ==> master.Some? && Hindered(old(trace), trace)
      ensures old(trace) <= trace
    {
      hide Safe, Locked, Owned, ExitKnown, RecordedSocket, AskedToExit, Hindered;
      var recorded := RecordManagedControlSocket();
      ghost var found := trace;
      if !recorded { HinderedWithin(old(trace), old(trace), trace, trace); }
      var cleaned := CleanupManagedControlSocket();
      if !cleaned {
        if recorded { HinderedWithin(old(trace), found, trace, trace); }
        else { HinderedWithin(old(trace), old(trace), found, trace); }
        return false;
      }
      ClearManagedProcess();
      return true;
    }

    /** Force an owned process that did not exit when asked. */
    method Kill() returns (ok: bool)
      requires Valid() && master.Some? && !master.value.exited && AskedToExit(trace)
      modifies this`trace
      ensures Valid() && old(trace) <= trace
      ensures !ok ==> Hindered(old(trace), trace)
    {
      Note(KillSent);
      ok := *;
      if !ok { Give(); }
    }

    /** Note a refusal after whatever else happened. */
    ghost method Give()
      requires Valid()
      modifies this`trace
      ensures Valid() && trace == old(trace) + [Refused]
      ensures forall before: Trace :: before <= old(trace) ==> Hindered(before, trace)
    {
      ghost var was := trace;
      Note(Refused);
      forall before: Trace | before <= was ensures Hindered(before, trace) {
        HinderedWithin(before, was, trace, trace);
      }
    }

    method StopManaged() returns (ending: Ending)
      requires Valid() && master.Some?
      modifies this
      ensures Valid() && lockHeld
      ensures ending == Succeeded || ending == Failed || ending == Unconfirmed
      ensures ending == Succeeded <==> master.None?
      ensures ending == Unconfirmed ==> master.Some? && !master.value.exited
      ensures old(trace) <= trace
      ensures ending != Succeeded ==> Hindered(old(trace), trace)
    {
      hide Safe, Locked, Owned, ExitKnown, RecordedSocket, AskedToExit, Hindered;
      var done := IsDone();
      if done {
        ending := FinishedAs(old(trace));
        return;
      }
      var _ := CloseControl();
      done := IsDone();
      if done {
        ending := FinishedAs(old(trace));
        return;
      }
      var cancelled: bool := *;
      if cancelled {
        Give();
        return Unconfirmed;
      }
      done := IsDone();
      if !done {
        ghost var asked := trace;
        var killed := Kill();
        if !killed {
          HinderedWithin(old(trace), asked, trace, trace);
          return Unconfirmed;
        }
        done := IsDone();
        if !done {
          Give();
          return Unconfirmed;
        }
      }
      ending := FinishedAs(old(trace));
    }

    /** How a stop ends whose process has exited. */
    method FinishedAs(ghost before: Trace) returns (ending: Ending)
      requires Valid() && master.Some? && master.value.exited && before <= trace
      modifies this
      ensures Valid() && lockHeld
      ensures ending == if master.None? then Succeeded else Failed
      ensures old(trace) <= trace
      ensures ending != Succeeded ==> Hindered(before, trace)
    {
      hide Safe, Locked, Owned, ExitKnown, RecordedSocket, AskedToExit, Hindered;
      var finished := FinishStopped();
      if !finished { HinderedWithin(before, old(trace), trace, trace); }
      return if finished then Succeeded else Failed;
    }

    /** Poll until no master answers; the context allows a number of polls. */
    method WaitControlStopped(polls: nat) returns (ok: bool)
      requires Valid() && master.None?
      modifies this
      ensures Valid() && master.None? && lockHeld == old(lockHeld)
      ensures ok ==> AbsenceJustSeen(trace)
      ensures old(trace) <= trace
      ensures !ok && lockHeld ==> Hindered(old(trace), trace)
    {
      hide Safe, Locked, Owned, ExitKnown, RecordedSocket, AskedToExit, Hindered;
      for i := 0 to polls + 1
        invariant Valid() && master.None? && lockHeld == old(lockHeld) && old(trace) <= trace
      {
        ghost var before := trace;
        var state := ProbeMaster();
        match state {
          case Absent => return true;
          case Stale =>
            ghost var probed := trace;
            ok := RemoveStaleControlSocket();
            if !ok && lockHeld { HinderedWithin(old(trace), probed, trace, trace); }
            return;
          case Unknown =>
            HinderedWithin(old(trace), before, trace, trace);
            return false;
          case Running =>
        }
      }
      Give();
      return false;
    }

    // ---- Public operations ----

    /** Make sure that no master is left before a new one is started. */
    method EstablishAbsence(polls: nat) returns (ok: bool)
      requires Valid() && master.None?
      modifies this
      ensures Valid() && master.None? && lockHeld == old(lockHeld)
      ensures ok ==> AbsenceJustSeen(trace)
      ensures old(trace) <= trace
      ensures !ok && lockHeld ==> Hindered(old(trace), trace)
    {
      hide Safe, Locked, Owned, ExitKnown, RecordedSocket, AskedToExit, Hindered;
      var state := ProbeMaster();
      ghost var probed := trace;
      match state {
        case Unknown => return false;
        case Absent => return true;
        case Stale =>
          ok := RemoveStaleControlSocket();
          if !ok && lockHeld { HinderedWithin(old(trace), probed, trace, trace); }
        case Running =>
          var asked := CloseControl();
          ghost var closed := trace;
          if !asked {
            HinderedWithin(old(trace), probed, trace, trace);
            return false;
          }
          ok := WaitControlStopped(polls);
          if !ok && lockHeld { HinderedWithin(old(trace), closed, trace, trace); }
      }
    }

    /** One look at the process just spawned: whether it answers with its socket recorded, or else has exited. */
    method PollReadiness() returns (ready: bool, done: bool)
      requires Valid() && master.Some? && lockHeld && !master.value.exited
      modifies this
      ensures Valid() && lockHeld && master.Some? && (!ready ==> master.value.exited == done)
      ensures ready ==> master.value.socket.Some? && RunningJustSeen(trace)
      ensures old(trace) <= trace
      ensures !ready && done ==> ExitSeen in trace[|old(trace)|..]
    {
      hide Safe, Locked, Owned, ExitKnown, RecordedSocket, AskedToExit, Hindered, Blocks;
      var state := ProbeMaster();
      ghost var probed := trace;
      EndsSeen(old(trace));
      var recorded := RecordManagedControlSocket();
      ready, done := state == Running && recorded, false;
      if ready { return; }
      ghost var looked := trace;
      done := IsDone();
      if done {
        EndsSeen(looked);
        if old(trace) + [ExitSeen] == probed { SeenStays(old(trace), old(trace), probed, trace); }
        else { SeenStays(old(trace), looked, trace, trace); }
      }
    }

    /** Wait for the process just spawned to answer and record its socket. */
    method AwaitReadiness(polls: nat) returns (ending: Ending)
      requires Valid() && master.Some? && lockHeld && !master.value.exited
      modifies this
      ensures Valid() && lockHeld
      ensures ending == Succeeded ==> master.Some? && master.value.socket.Some?
      ensures ending == Succeeded ==> RunningJustSeen(trace)
      ensures ending == Unconfirmed ==> master.Some? && !master.value.exited
      ensures old(trace) <= trace
      ensures ending != Succeeded ==> Hindered(old(trace), trace) || ExitSeen in trace[|old(trace)|..]
    {
      hide Safe, Locked, Owned, ExitKnown, RecordedSocket, AskedToExit, Hindered, Blocks, RunningJustSeen;
      for i := 0 to polls
        invariant Valid() && master.Some? && lockHeld && old(trace) <= trace && !master.value.exited
      {
        ghost var before := trace;
        var ready, done := PollReadiness();
        if ready { return Succeeded; }
        if done {
          ghost var exited := trace;
          var _ := FinishStopped();
          SeenStays(old(trace), before, exited, trace);
          return Failed;
        }
      }
      Give();
      ghost var waited := trace;
      var stopped := StopManaged();
      HinderedWithin(old(trace), old(trace), waited, trace);
      return if stopped == Unconfirmed then Unconfirmed else Failed;
    }

    method StartManagedProcess() returns (ok: bool)
      requires Valid() && lockHeld && master.None? && AbsenceJustSeen(trace)
      modifies this`master, this`trace
      ensures Valid() && (if ok then master == Some(Process(false, None)) else master.None?)
      ensures trace == old(trace) + [if ok then Spawned else Refused]
      ensures !ok ==> Hindered(old(trace), trace)
    {
      ok := *;
      if !ok {
        Note(Refused);
        return false;
      }
      Appended(trace, Spawned);
      trace := trace + [Spawned];
      master := Some(Process(false, None));
    }

    /** Start a master where none of our own is left. */
    method StartAnother(polls: nat) returns (ending: Ending)
      requires Valid() && lockHeld && master.None?
      modifies this
      ensures Valid() && lockHeld
      ensures ending == Succeeded ==> master.Some? && RunningJustSeen(trace)
      ensures ending == Unconfirmed ==> master.Some? && !master.value.exited
      ensures old(trace) <= trace
      ensures ending == Succeeded ==> Spawned in trace[|old(trace)|..]
      ensures ending != Succeeded ==> Hindered(old(trace), trace) || DiedAtOnce(old(trace), trace)
    {
      hide Safe, Locked, Owned, ExitKnown, RecordedSocket, AskedToExit, AbsenceJustSeen, Hindered, DiedAtOnce;
      var absent := EstablishAbsence(polls);
      if !absent { return Failed; }
      ghost var before := trace;
      var started := StartManagedProcess();
      if !started {
        HinderedWithin(old(trace), before, trace, trace);
        return Failed;
      }
      ghost var spawned := trace;
      ending := AwaitReadiness(polls);
      SpawnedWithin(old(trace), before, trace);
      if ending != Succeeded {
        if Hindered(spawned, trace) { HinderedWithin(old(trace), spawned, trace, trace); }
        else { DiedWithin(old(trace), before, trace); }
      }
    }

    /** Make sure that a master of our own answers. One that does is left alone. Any other is replaced, and the call fails
        only for a reason. */
    method EnsureMaster(gate: bool, polls: nat) returns (ending: Ending)
      requires Valid()
      modifies this
      ensures Valid()
      ensures ending == Succeeded ==> lockHeld && master.Some?
      ensures ending == Succeeded ==> RunningJustSeen(trace)
      ensures ending == Unconfirmed ==> lockHeld && master.Some? && !master.value.exited
      ensures old(master).Some? ==> lockHeld
      ensures old(trace) <= trace
      ensures !gate ==> ending == Failed && trace == old(trace)
      ensures gate && old(master).Some? && !old(master).value.exited ==>
        && |trace| > |old(trace)| && (trace[|old(trace)|].Probed? || trace[|old(trace)|].ExitSeen?)
        && (trace[|old(trace)|] == Probed(Running) ==>
              ending == Succeeded && trace == old(trace) + [Probed(Running)] && master == old(master))
      ensures ending == Succeeded ==>
        || (trace == old(trace) + [Probed(Running)] && master == old(master) && master.Some?)
        || Spawned in trace[|old(trace)|..]
      ensures gate && ending != Succeeded ==> Hindered(old(trace), trace) || DiedAtOnce(old(trace), trace)
    {
      hide Safe, Locked, Owned, ExitKnown, RecordedSocket, AskedToExit, AbsenceJustSeen, Hindered, DiedAtOnce;
      if !gate { return Failed; }
      var ok, _ := AcquireControlPathLock();
      if !ok { return Failed; }
      if master.Some? {
        var done := IsDone();
        if !done {
          var state := ProbeMaster();
          if state == Running { return Succeeded; }
        }
        var cancelled: bool := *;
        if cancelled {
          Give();
          return Failed;
        }
        ghost var found := trace;
        var stopped := StopManaged();
        if stopped != Succeeded {
          HinderedWithin(old(trace), found, trace, trace);
          return stopped;
        }
      }
      ghost var clear := trace;
      ending := StartAnother(polls);
      if ending == Succeeded { SpawnStays(old(trace), clear, trace); }
      else { ReasonStays(old(trace), clear, trace); }
    }

    /** Check without keeping a lock that was not held before. */
    method CheckMaster(gate: bool) returns (ending: Ending)
      requires Valid()
      modifies this
      ensures Valid() && lockHeld == old(lockHeld) && master.Some? == old(master).Some?
      ensures old(trace) <= trace
      ensures ending == Succeeded ==>
        trace != [] && RunningJustSeen(if old(lockHeld) then trace else trace[..|trace| - 1])
      ensures !gate ==> ending == Failed && trace == old(trace)
      ensures gate && ending == Failed ==>
        Hindered(old(trace), trace) || Probed(Running) !in trace[|old(trace)|..]
    {
      hide Safe, Locked, Owned, ExitKnown, RecordedSocket, AskedToExit, Hindered;
      if !gate { return Failed; }
      var ok, taken := AcquireControlPathLock();
      if !ok { return Failed; }
      var state := ProbeMaster();
      ending := if state == Running then Succeeded else Failed;
      if taken {
        var released := ReleaseControlPathLock();
        if !released { ending := if ending == Succeeded then ReleaseFailed else Failed; }
      }
    }

    /** Add or cancel a forward; a lock taken for a failing call is given back. */
    method ControlForward(gate: bool, valid: bool) returns (ending: Ending)
      requires Valid()
      modifies this
      ensures Valid() && master == old(master)
      ensures ending == Succeeded ==> lockHeld
      ensures ending != Succeeded ==> lockHeld == old(lockHeld)
      ensures old(trace) <= trace
      ensures ending == Succeeded ==> Last(trace) == Some(ForwardAsked)
      ensures gate && valid && ending != Succeeded ==> Hindered(old(trace), trace)
    {
      if !valid || !gate { return Failed; }
      var ok, taken := AcquireControlPathLock();
      if !ok { return Failed; }
      Note(ForwardAsked);
      var done: bool := *;
      if done { return Succeeded; }
      Give();
      ghost var refused := trace;
      if taken {
        var _ := ReleaseControlPathLock();
      }
      HinderedWithin(old(trace), old(trace), refused, trace);
      return Failed;
    }

    method Close(gate: bool, polls: nat) returns (ending: Ending)
      requires Valid()
      modifies this
      ensures Valid()
      ensures ending == Succeeded || ending == ReleaseFailed ==> master.None? && !lockHeld
      ensures ending == Unconfirmed ==> lockHeld && master.Some? && !master.value.exited
      ensures ending == Failed && old(lockHeld) ==> lockHeld
      ensures ending == Failed && old(master).Some? ==> master.Some?
      ensures old(trace) <= trace
      ensures (ending == Succeeded || ending == ReleaseFailed) && old(master).None? ==>
        Last(trace) == Some(LockDropped) && AbsenceJustSeen(trace[..|trace| - 1])
      ensures gate && (ending == Failed || ending == Unconfirmed) ==> Hindered(old(trace), trace)
    {
      hide Safe, Locked, Owned, ExitKnown, RecordedSocket, AskedToExit, Hindered;
      if !gate { return Failed; }
      var ok, _ := AcquireControlPathLock();
      if !ok { return Failed; }
      ghost var locked := trace;
      if master.Some? {
        var stopped := StopManaged();
        if stopped != Succeeded {
          HinderedWithin(old(trace), locked, trace, trace);
          return stopped;
        }
      } else {
        var absent := EstablishAbsence(polls);
        if !absent {
          HinderedWithin(old(trace), locked, trace, trace);
          return Failed;
        }
      }
      var released := ReleaseControlPathLock();
      return if released then Succeeded else ReleaseFailed;
    }
  }

  // ---- Parts of a longer trace ----

  /** A process was spawned and its exit seen, one after the other. */
  ghost predicate DiedAtOnce(before: Trace, after: Trace) {
    exists i, j :: |before| <= i < j < |after| && after[i].Spawned? && after[j].ExitSeen?
  }

  lemma EndsSeen(t: Trace)
    ensures ExitSeen in (t + [ExitSeen])[|t|..]
  {
    assert (t + [ExitSeen])[|t|..][0] == ExitSeen;
  }

  lemma SeenStays(a: Trace, b: Trace, c: Trace, d: Trace)
    requires a <= b <= c <= d && ExitSeen in c[|b|..]
    ensures ExitSeen in d[|a|..]
  {
    var i :| 0 <= i < |c| - |b| && c[|b|..][i] == ExitSeen;
    assert d[|a|..][|b| - |a| + i] == ExitSeen;
  }

  lemma SpawnedWithin(a: Trace, b: Trace, c: Trace)
    requires a <= b && b + [Spawned] <= c
    ensures Spawned in c[|a|..]
  {
    assert c[|a|..][|b| - |a|] == (b + [Spawned])[|b|];
  }

  lemma SpawnStays(a: Trace, b: Trace, c: Trace)
    requires a <= b <= c && Spawned in c[|b|..]
    ensures Spawned in c[|a|..]
  {
    var i :| 0 <= i < |c| - |b| && c[|b|..][i] == Spawned;
    assert c[|a|..][|b| - |a| + i] == Spawned;
  }

  lemma ReasonStays(a: Trace, b: Trace, c: Trace)
    requires a <= b <= c && (Hindered(b, c) || DiedAtOnce(b, c))
    ensures Hindered(a, c) || DiedAtOnce(a, c)
  {
    hide Blocks;
  }

  lemma DiedWithin(a: Trace, b: Trace, c: Trace)
    requires a <= b && b + [Spawned] <= c && ExitSeen in c[|b| + 1..]
    ensures DiedAtOnce(a, c)
  {
    var i :| 0 <= i < |c| - |b| - 1 && c[|b| + 1..][i] == ExitSeen;
    assert c[|b|] == (b + [Spawned])[|b|] && c[|b| + 1 + i].ExitSeen?;
  }

  // ---- What a safe trace rules out ----

  /** Every event of a safe trace was allowed when it happened. */
  lemma {:induction false} SafeMeansAllowed(t: Trace, i: nat)
    requires Safe(t) && i < |t|
    ensures Allowed(t[..i], t[i])
  {
    if i < |t| - 1 {
      SafeMeansAllowed(t[..|t| - 1], i);
      assert t[..|t| - 1][..i] == t[..i];
    }
  }

  /** In a safe trace an owned master implies that the lock is held. */
  lemma {:induction false} OwnedImpliesLocked(t: Trace)
    requires Safe(t) && Owned(t)
    ensures Locked(t)
  {
    if !t[|t| - 1].Spawned? {
      OwnedImpliesLocked(t[..|t| - 1]);
    }
  }

  /** Two masters are never owned at once: between two spawns the first is given up, after its exit was seen. */
  lemma {:induction false} SpawnsAreSeparated(t: Trace, i: nat, j: nat)
    requires Safe(t) && i < j < |t| && t[i].Spawned? && t[j].Spawned?
    ensures exists e, c :: i < e < c < j && t[e].ExitSeen? && t[c].Cleared?
  {
    SafeMeansAllowed(t, j);
    var c := ClearedSince(t, i, j);
    SafeMeansAllowed(t, c);
    var e := ExitSince(t, i, c);
  }

  /** A process that is no longer owned was cleared after it was spawned. */
  lemma {:induction false} ClearedSince(t: Trace, i: nat, j: nat) returns (c: nat)
    requires i < j <= |t| && t[i].Spawned? && !Owned(t[..j])
    ensures i < c < j && t[c].Cleared?
    decreases j
  {
    assert t[..j][..j - 1] == t[..j - 1];
    if t[j - 1].Cleared? {
      return j - 1;
    }
    c := ClearedSince(t, i, j - 1);
  }

  /** An exit that is known after a spawn was seen after that spawn. */
  lemma {:induction false} ExitSince(t: Trace, i: nat, c: nat) returns (e: nat)
    requires i < c <= |t| && t[i].Spawned? && ExitKnown(t[..c])
    ensures i < e < c && t[e].ExitSeen?
    decreases c
  {
    assert t[..c][..c - 1] == t[..c - 1];
    if t[c - 1].ExitSeen? {
      return c - 1;
    }
    e := ExitSince(t, i, c - 1);
  }

  /** A socket is only ever unlinked under the lock, right after it was seen in place, and was identified before. */
  lemma UnlinkIsJustified(t: Trace, i: nat)
    requires Safe(t) && i < |t| && t[i].Unlinked?
    ensures Locked(t[..i]) && JustSaw(t[..i], t[i].inode)
    ensures exists k :: 0 <= k < i && t[k] == Identified(t[i].inode)
  {
    SafeMeansAllowed(t, i);
    if StaleSocket(t[..i], t[i].inode) {
      assert t[i - 3] == t[..i][i - 3];
    } else {
      var k := RecordedAt(t[..i], t[i].inode);
      assert t[k] == t[..i][k];
    }
  }

  lemma {:induction false} RecordedAt(t: Trace, inode: int) returns (k: nat)
    requires RecordedSocket(t) == Some(inode)
    ensures k < |t| && t[k] == Identified(inode)
  {
    if t[|t| - 1] == Identified(inode) {
      return |t| - 1;
    }
    k := RecordedAt(t[..|t| - 1], inode);
  }

  /** A process is killed only after it was itself asked to exit and was not seen to. */
  lemma KillFollowsRequest(t: Trace, i: nat)
    requires Safe(t) && i < |t| && t[i].KillSent?
    ensures exists k :: 0 <= k < i && t[k].ExitAsked? && forall j :: k < j < i ==> !t[j].Spawned? && !t[j].ExitSeen?
  {
    SafeMeansAllowed(t, i);
    var k := AskedAt(t, i);
    NotSeenSince(t, k, i);
  }

  lemma {:induction false} AskedAt(t: Trace, i: nat) returns (k: nat)
    requires i <= |t| && AskedToExit(t[..i])
    ensures k < i && t[k].ExitAsked? && forall j :: k < j < i ==> !t[j].Spawned?
  {
    assert t[..i][..i - 1] == t[..i - 1];
    if t[i - 1].ExitAsked? {
      return i - 1;
    }
    k := AskedAt(t, i - 1);
  }

  /** An exit not known now was not seen since the latest spawn. */
  lemma {:induction false} NotSeenSince(t: Trace, k: nat, i: nat)
    requires k < i <= |t| && !ExitKnown(t[..i]) && forall j :: k < j < i ==> !t[j].Spawned?
    ensures forall j :: k < j < i ==> !t[j].ExitSeen?
    decreases i
  {
    if i - 1 > k {
      assert t[..i][..i - 1] == t[..i - 1];
      NotSeenSince(t, k, i - 1);
    }
  }
}
