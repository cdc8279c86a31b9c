/** The managed Git repository (gitops/repository.go): threads of several processes share clones under a file lock and
    an in-process read-write lock, run single-flight syncs, and push optimistically to one remote branch. Every git
    command is one step that succeeds or fails; a failing command may leave behind whatever it is able to touch. */
module ManagedRepository {
  import opened Text

  /** Tracked or untracked files by path. */
  type Tree = map<string, string>

  /** One WithWrite call: its callback, as a function on the tree it finds; None is a callback error. */
  datatype Write = Write(id: nat, apply: Tree -> Option<Tree>)

  /** A commit of the branch; write is None when somebody else pushed it. */
  datatype Commit = Commit(tree: Tree, write: Option<Write>)
  type History = seq<Commit>

  /** A clone: whether .git exists, the local branch, the remote-tracking branch, the index and the worktree. */
  datatype Clone = Clone(isCloned: bool, head: History, origin: History, index: Tree, work: Tree)

  datatype Job = WriteJob(write: Write) | SyncJob(channel: nat) | BackgroundJob(channel: nat)

  datatype Command =
    | GitClone | SetUrl | Fetch | Checkout | Reset | Clean   // syncLocked
    | Callback | Status | Add | MakeCommit | Push             // the rest of withWrite

  datatype Phase =
    | Idle
    | WantRead                                   // acquireReadLock
    | Reading(seen: Tree)                        // read callback, with the tree it found
    | AwaitSync(channel: nat)                    // syncOnce behind another leader
    | WantFlock(job: Job)                        // acquireProcessLockWithPolicy
    | Fetching(job: Job, command: Command)       // background fetch, holding only the file lock
    | WantMu(job: Job, command: Command)         // acquireInProcessLock, holding the file lock
    | InGit(job: Job, command: Command)          // about to run command, holding both locks
    | Leaving(job: Job)                          // in-process lock given back, file lock still held
    | Finishing(channel: nat)                    // finishSync

  datatype Thread = Thread(process: nat, phase: Phase)
  datatype RWLock = RWLock(writer: Option<nat>, readers: set<nat>)
  datatype Outcome = Pushed | Unchanged | Failed | Ambiguous

  datatype World = World(
    remote: History,
    cloneOf: nat -> nat,                 // the directory a process works in; several processes may share one
    clones: map<nat, Clone>,
    flock: map<nat, nat>,                // per directory, the thread holding the file lock
    mu: map<nat, RWLock>,                // per process
    inFlight: map<nat, nat>,             // per process, the channel of the running sync
    leaders: seq<nat>,                   // per channel, the thread that opened it
    closed: set<nat>,
    threads: map<nat, Thread>,
    writes: nat,                         // WithWrite calls so far; their ids are 0, 1, ...
    outcomes: map<nat, Outcome>)

  datatype Event =
    | StartRead(t: nat, process: nat) | AcquireRead(t: nat) | EndRead(t: nat)
    | StartWrite(t: nat, process: nat, apply: Tree -> Option<Tree>)
    | StartSync(t: nat, process: nat, background: bool)
    | Wake(t: nat)
    | TakeFlock(t: nat) | TakeMu(t: nat, upToDate: bool)
    | RunGit(t: nat, ok: bool, applied: bool, after: Clone)
    | Release(t: nat) | Finish(t: nat)
    | GiveUp(t: nat)                                            // busy or cancelled while waiting
    | ForeignPush(tree: Tree)

  // ---------------------------------------------------------------- state access

  function PhaseOf(w: World, t: nat): Phase {
    if t in w.threads then w.threads[t].phase else Idle
  }

  function ProcessOf(w: World, t: nat): nat {
    if t in w.threads then w.threads[t].process else 0
  }

  function DirOf(w: World, t: nat): nat {
    w.cloneOf(ProcessOf(w, t))
  }

  function CloneAt(w: World, d: nat): Clone {
    if d in w.clones then w.clones[d] else Clone(false, [], [], map[], map[])
  }

  function MuOf(w: World, p: nat): RWLock {
    if p in w.mu then w.mu[p] else RWLock(None, {})
  }

  function TreeOf(h: History): Tree {
    if h == [] then map[] else h[|h| - 1].tree
  }

  function Moved(w: World, t: nat, phase: Phase): World {
    w.(threads := w.threads[t := Thread(ProcessOf(w, t), phase)])
  }

  function Started(w: World, t: nat, process: nat, phase: Phase): World {
    w.(threads := w.threads[t := Thread(process, phase)])
  }

  predicate HoldsFlock(phase: Phase) {
    phase.Fetching? || phase.WantMu? || phase.InGit? || phase.Leaving?
  }

  predicate HasJob(phase: Phase) {
    phase.WantFlock? || HoldsFlock(phase)
  }

  function ChannelOf(phase: Phase): Option<nat> {
    if phase.Finishing? then Some(phase.channel)
    else if HasJob(phase) && !phase.job.WriteJob? then Some(phase.job.channel)
    else None
  }

  /** The write a thread has not yet got a result for. */
  function OpenWrite(phase: Phase): Option<Write> {
    if HasJob(phase) && !phase.Leaving? && phase.job.WriteJob? then Some(phase.job.write) else None
  }

  /** Where a thread goes when its job ends without holding the file lock. */
  function AfterJob(job: Job): Phase {
    if job.WriteJob? then Idle else Finishing(job.channel)
  }

  // ---------------------------------------------------------------- git commands

  ghost predicate HasTracked(work: Tree, tree: Tree) {
    forall path :: path in tree ==> path in work && work[path] == tree[path]
  }

  /** after is what a successful command may leave of the clone c. */
  ghost predicate Succeeds(command: Command, job: Job, remote: History, c: Clone, after: Clone) {
    match command
    case GitClone => after == Clone(true, remote, remote, TreeOf(remote), TreeOf(remote))
    case SetUrl => after == c
    case Fetch => after == c.(origin := remote)
    // checkout -B moves the branch; local modifications may be carried over.
    case Checkout => after == c.(head := c.origin, index := after.index, work := after.work)
    // reset --hard restores tracked files and leaves untracked ones.
    case Reset => after == c.(head := c.origin, index := TreeOf(c.origin), work := after.work) && HasTracked(after.work, TreeOf(c.origin))
    // clean -fd removes what is not in the index.
    case Clean => after == c.(work := map path | path in c.work && path in c.index :: c.work[path])
    case Callback => job.WriteJob? && job.write.apply(c.work).Some? && after == c.(work := job.write.apply(c.work).value)
    case Status => after == c
    case Add => after == c.(index := c.work)
    case MakeCommit => job.WriteJob? && after == c.(head := c.head + [Commit(c.index, Some(job.write))])
    // Not forced: the remote branch must be contained in what is pushed.
    case Push => remote <= c.head && after == c.(origin := c.head)
  }

  /** What a failing command may leave behind. */
  ghost predicate Fails(command: Command, c: Clone, after: Clone) {
    match command
    case GitClone => true
    case SetUrl => after == c
    case Fetch => after == c.(origin := after.origin)
    case Checkout => after == c.(head := after.head, index := after.index, work := after.work)
    case Reset => after == c.(head := after.head, index := after.index, work := after.work)
    case Clean => after == c.(work := after.work)
    case Callback => after == c.(work := after.work)
    case Status => after == c
    case Add => after == c.(index := after.index)
    case MakeCommit => after == c.(head := after.head)
    case Push => after == c.(origin := after.origin)
  }

  /** The command that follows a successful one; None ends the critical section. */
  function NextCommand(command: Command, job: Job, c: Clone): Option<Command> {
    match command
    case GitClone => Some(SetUrl)
    case SetUrl => Some(Fetch)
    case Fetch => Some(Checkout)
    case Checkout => Some(Reset)
    case Reset => Some(Clean)
    case Clean => if job.WriteJob? then Some(Callback) else None
    case Callback => Some(Status)
    case Status => if c.work == TreeOf(c.head) then None else Some(Add)
    case Add => Some(MakeCommit)
    case MakeCommit => Some(Push)
    case Push => None
  }

  function FirstCommand(c: Clone): Command {
    if c.isCloned then SetUrl else GitClone
  }

  // ---------------------------------------------------------------- steps

  ghost predicate IsEnabled(w: World, e: Event) {
    match e
    case StartRead(t, _) => PhaseOf(w, t).Idle?
    case AcquireRead(t) => PhaseOf(w, t).WantRead? && MuOf(w, ProcessOf(w, t)).writer.None?
    case EndRead(t) => PhaseOf(w, t).Reading?
    case StartWrite(t, _, _) => PhaseOf(w, t).Idle?
    case StartSync(t, _, _) => PhaseOf(w, t).Idle?
    case Wake(t) => PhaseOf(w, t).AwaitSync? && PhaseOf(w, t).channel in w.closed
    case TakeFlock(t) => PhaseOf(w, t).WantFlock? && DirOf(w, t) !in w.flock
    case TakeMu(t, _) => PhaseOf(w, t).WantMu? && MuOf(w, ProcessOf(w, t)) == RWLock(None, {})
    case RunGit(t, ok, applied, after) =>
      var phase, c := PhaseOf(w, t), CloneAt(w, DirOf(w, t));
      && (phase.InGit? || phase.Fetching?)
      && (ok ==> Succeeds(phase.command, phase.job, w.remote, c, after))
      && (!ok ==> Fails(phase.command, c, after))
      // A push may reach the remote although its reply is lost.
      && (applied ==> !ok && phase.command.Push? && w.remote <= c.head)
    case Release(t) => PhaseOf(w, t).Leaving?
    case Finish(t) => PhaseOf(w, t).Finishing?
    case GiveUp(t) =>
      var phase := PhaseOf(w, t);
      phase.WantRead? || phase.AwaitSync? || phase.WantFlock? || phase.WantMu?
    case ForeignPush(_) => true
  }

  /** The phase after a command. */
  function AfterGit(phase: Phase, ok: bool, c: Clone): Phase
    requires phase.InGit? || phase.Fetching?
  {
    var next := if ok then NextCommand(phase.command, phase.job, c) else None;
    if next == None then Leaving(phase.job)
    else if phase.InGit? then InGit(phase.job, next.value)
    else if next.value == Checkout then WantMu(phase.job, Checkout)
    else Fetching(phase.job, next.value)
  }

  /** The result of the write a command ends. */
  function OutcomeOf(command: Command, ok: bool, applied: bool): Outcome {
    if applied then Ambiguous else if !ok then Failed else if command.Push? then Pushed else Unchanged
  }

  function Resolved(outcomes: map<nat, Outcome>, job: Job, outcome: Outcome): map<nat, Outcome> {
    if job.WriteJob? then outcomes[job.write.id := outcome] else outcomes
  }

  function GitResult(w: World, t: nat, ok: bool, applied: bool, c: Clone): World
    requires PhaseOf(w, t).InGit? || PhaseOf(w, t).Fetching?
  {
    var phase := PhaseOf(w, t);
    var phase' := AfterGit(phase, ok, c);
    w.(remote := if phase.command.Push? && (ok || applied) then c.head else w.remote,
       mu := if phase.InGit? && phase'.Leaving? then w.mu[ProcessOf(w, t) := RWLock(None, {})] else w.mu,
       threads := w.threads[t := Thread(ProcessOf(w, t), phase')],
       outcomes := if phase'.Leaving? then Resolved(w.outcomes, phase.job, OutcomeOf(phase.command, ok, applied)) else w.outcomes)
  }

  ghost function Next(w: World, e: Event): World
    requires IsEnabled(w, e)
  {
    match e
    case StartRead(t, p) => Started(w, t, p, WantRead)
    case AcquireRead(t) =>
      var p := ProcessOf(w, t);
      Moved(w, t, Reading(CloneAt(w, w.cloneOf(p)).work)).(mu := w.mu[p := RWLock(None, MuOf(w, p).readers + {t})])
    case EndRead(t) =>
      var p := ProcessOf(w, t);
      Moved(w, t, Idle).(mu := w.mu[p := MuOf(w, p).(readers := MuOf(w, p).readers - {t})])
    case StartWrite(t, p, apply) => Started(w, t, p, WantFlock(WriteJob(Write(w.writes, apply)))).(writes := w.writes + 1)
    case StartSync(t, p, background) =>
      // With a sync in flight a background sync is dropped and any other caller waits for it.
      var busy, channel := p in w.inFlight, |w.leaders|;
      Started(w, t, p, if busy then (if background then Idle else AwaitSync(w.inFlight[p]))
                       else WantFlock(if background then BackgroundJob(channel) else SyncJob(channel))).(
        inFlight := if busy then w.inFlight else w.inFlight[p := channel],
        leaders := if busy then w.leaders else w.leaders + [t])
    case Wake(t) => Moved(w, t, Idle)
    case TakeFlock(t) =>
      var job, c := PhaseOf(w, t).job, CloneAt(w, DirOf(w, t));
      Moved(w, t, if job.BackgroundJob? && c.isCloned then Fetching(job, SetUrl) else WantMu(job, FirstCommand(c))).(
        flock := w.flock[DirOf(w, t) := t])
    case TakeMu(t, upToDate) =>
      var WantMu(job, command) := PhaseOf(w, t);
      // syncLocked returns at once when an unforced sync finds the clone fresh.
      var skip := upToDate && !job.WriteJob? && command != Checkout;
      Moved(w, t, if skip then Leaving(job) else InGit(job, command)).(
        mu := if skip then w.mu else w.mu[ProcessOf(w, t) := RWLock(Some(t), {})])
    case RunGit(t, ok, applied, after) =>
      GitResult(w, t, ok, applied, CloneAt(w, DirOf(w, t))).(clones := w.clones[DirOf(w, t) := after])
    case Release(t) => Moved(w, t, AfterJob(PhaseOf(w, t).job)).(flock := w.flock - {DirOf(w, t)})
    case Finish(t) =>
      var p, channel := ProcessOf(w, t), PhaseOf(w, t).channel;
      Moved(w, t, Idle).(closed := w.closed + {channel},
        inFlight := if p in w.inFlight && w.inFlight[p] == channel then w.inFlight - {p} else w.inFlight)
    case GiveUp(t) =>
      var phase := PhaseOf(w, t);
      Moved(w, t, if phase.WantFlock? then AfterJob(phase.job) else if phase.WantMu? then Leaving(phase.job) else Idle).(
        outcomes := if HasJob(phase) then Resolved(w.outcomes, phase.job, Failed) else w.outcomes)
    case ForeignPush(tree) => w.(remote := w.remote + [Commit(tree, None)])
  }

  ghost predicate IsInitial(w: World) {
    && w.remote != [] && (forall i :: 0 <= i < |w.remote| ==> w.remote[i].write.None?)
    && w.flock == map[] && w.mu == map[] && w.inFlight == map[] && w.leaders == [] && w.closed == {}
    && w.threads == map[] && w.writes == 0 && w.outcomes == map[]
  }

  ghost predicate IsRun(w: World, es: seq<Event>)
    decreases |es|
  {
    es != [] ==> IsEnabled(w, es[0]) && IsRun(Next(w, es[0]), es[1..])
  }

  ghost function Final(w: World, es: seq<Event>): World
    requires IsRun(w, es)
    decreases |es|
  {
    if es == [] then w else Final(Next(w, es[0]), es[1..])
  }

  // ---------------------------------------------------------------- the locks

  /** A thread past an acquisition is named by the lock. */
  ghost predicate ThreadLocked(w: World, t: nat) {
    var phase, p := PhaseOf(w, t), ProcessOf(w, t);
    && (HoldsFlock(phase) ==> DirOf(w, t) in w.flock && w.flock[DirOf(w, t)] == t)
    && (phase.InGit? ==> MuOf(w, p).writer == Some(t))
    && (phase.Reading? ==> t in MuOf(w, p).readers)
  }

  /** A taken file lock names a thread that holds it. */
  ghost predicate FlockOk(w: World, d: nat) {
    d in w.flock ==> HoldsFlock(PhaseOf(w, w.flock[d])) && DirOf(w, w.flock[d]) == d
  }

  /** A taken in-process lock names its one writer or its readers, never both. */
  ghost predicate MuOk(w: World, p: nat) {
    var mu := MuOf(w, p);
    && (mu.writer.Some? ==> PhaseOf(w, mu.writer.value).InGit? && ProcessOf(w, mu.writer.value) == p && mu.readers == {})
    && (forall r :: r in mu.readers ==> PhaseOf(w, r).Reading? && ProcessOf(w, r) == p)
  }

  ghost predicate LocksOk(w: World) {
    && (forall t :: ThreadLocked(w, t)) && (forall d :: FlockOk(w, d)) && (forall p :: MuOk(w, p))
  }

  /** The thread an event belongs to. */
  function Actor(e: Event): nat {
    match e
    case ForeignPush(_) => 0
    case StartRead(t, _) => t
    case AcquireRead(t) => t
    case EndRead(t) => t
    case StartWrite(t, _, _) => t
    case StartSync(t, _, _) => t
    case Wake(t) => t
    case TakeFlock(t) => t
    case TakeMu(t, _) => t
    case RunGit(t, _, _, _) => t
    case Release(t) => t
    case Finish(t) => t
    case GiveUp(t) => t
  }

  /** Only thread a moves, and not to another process while it holds something. */
  ghost predicate ThreadDiscipline(w: World, w': World, a: nat) {
    var phase, phase' := PhaseOf(w, a), PhaseOf(w', a);
    && w'.cloneOf == w.cloneOf
    && (forall t :: t != a ==> PhaseOf(w', t) == PhaseOf(w, t) && ProcessOf(w', t) == ProcessOf(w, t))
    && (HoldsFlock(phase) || phase.Reading? || HoldsFlock(phase') || phase'.Reading? ==> ProcessOf(w', a) == ProcessOf(w, a))
  }

  ghost predicate FlockDiscipline(w: World, w': World, a: nat) {
    var before, after := HoldsFlock(PhaseOf(w, a)), HoldsFlock(PhaseOf(w', a));
    if before == after then w'.flock == w.flock
    else if after then DirOf(w, a) !in w.flock && w'.flock == w.flock[DirOf(w, a) := a]
    else w'.flock == w.flock - {DirOf(w, a)}
  }

  ghost predicate MuDiscipline(w: World, w': World, a: nat) {
    var phase, phase', p := PhaseOf(w, a), PhaseOf(w', a), ProcessOf(w, a);
    if phase.InGit? == phase'.InGit? && phase.Reading? == phase'.Reading? then w'.mu == w.mu
    else if phase'.InGit? then !phase.Reading? && MuOf(w, p) == RWLock(None, {}) && w'.mu == w.mu[p := RWLock(Some(a), {})]
    else if phase.InGit? then !phase'.Reading? && w'.mu == w.mu[p := RWLock(None, {})]
    else if phase'.Reading? then MuOf(w, p).writer.None? && w'.mu == w.mu[p := RWLock(None, MuOf(w, p).readers + {a})]
    else w'.mu == w.mu[p := MuOf(w, p).(readers := MuOf(w, p).readers - {a})]
  }

  /** What a step of thread a does to the locks: it takes or gives back at most its own. */
  ghost predicate LockDiscipline(w: World, w': World, a: nat) {
    ThreadDiscipline(w, w', a) && FlockDiscipline(w, w', a) && MuDiscipline(w, w', a)
  }

  lemma GitKeepsDiscipline(w: World, t: nat, ok: bool, applied: bool, c: Clone)
    requires PhaseOf(w, t).InGit? || PhaseOf(w, t).Fetching?
    ensures LockDiscipline(w, GitResult(w, t, ok, applied, c), t)
  {
  }

  lemma ReadKeepsDiscipline(w: World, e: Event)
    requires IsEnabled(w, e) && (e.AcquireRead? || e.EndRead?)
    ensures LockDiscipline(w, Next(w, e), Actor(e))
  {
  }

  lemma ReleaseKeepsDiscipline(w: World, e: Event)
    requires IsEnabled(w, e) && e.Release?
    ensures LockDiscipline(w, Next(w, e), Actor(e))
  {
    hide Succeeds, Fails, GitResult, CloneAt;
  }

  lemma TakeFlockKeepsDiscipline(w: World, e: Event)
    requires IsEnabled(w, e) && e.TakeFlock?
    ensures LockDiscipline(w, Next(w, e), Actor(e))
  {
    hide Succeeds, Fails, GitResult, CloneAt;
  }

  lemma TakeMuKeepsDiscipline(w: World, e: Event)
    requires IsEnabled(w, e) && e.TakeMu?
    ensures LockDiscipline(w, Next(w, e), Actor(e))
  {
  }

  lemma RunGitKeepsDiscipline(w: World, e: Event)
    requires IsEnabled(w, e) && e.RunGit?
    ensures LockDiscipline(w, Next(w, e), Actor(e))
  {
    GitKeepsDiscipline(w, e.t, e.ok, e.applied, CloneAt(w, DirOf(w, e.t)));
  }

  lemma StartSyncKeepsDiscipline(w: World, e: Event)
    requires IsEnabled(w, e) && e.StartSync?
    ensures LockDiscipline(w, Next(w, e), Actor(e))
  {
    hide Succeeds, Fails, GitResult, CloneAt;
  }

  lemma StartKeepsDiscipline(w: World, e: Event)
    requires IsEnabled(w, e) && (e.StartRead? || e.StartWrite?)
    ensures LockDiscipline(w, Next(w, e), Actor(e))
  {
    hide Succeeds, Fails, GitResult, CloneAt;
  }

  lemma WakeKeepsDiscipline(w: World, e: Event)
    requires IsEnabled(w, e) && (e.Wake? || e.Finish?)
    ensures LockDiscipline(w, Next(w, e), Actor(e))
  {
    hide Succeeds, Fails, GitResult, CloneAt;
  }

  lemma StopKeepsDiscipline(w: World, e: Event)
    requires IsEnabled(w, e) && (e.GiveUp? || e.ForeignPush?)
    ensures LockDiscipline(w, Next(w, e), Actor(e))
  {
    hide Succeeds, Fails, GitResult, CloneAt;
  }

  lemma StepKeepsDiscipline(w: World, e: Event)
    requires IsEnabled(w, e)
    ensures LockDiscipline(w, Next(w, e), Actor(e))
  {
    if e.RunGit? {
      RunGitKeepsDiscipline(w, e);
    } else if e.TakeMu? {
      TakeMuKeepsDiscipline(w, e);
    } else if e.TakeFlock? {
      TakeFlockKeepsDiscipline(w, e);
    } else if e.Release? {
      ReleaseKeepsDiscipline(w, e);
    } else if e.AcquireRead? || e.EndRead? {
      ReadKeepsDiscipline(w, e);
    } else if e.StartSync? {
      StartSyncKeepsDiscipline(w, e);
    } else if e.StartRead? || e.StartWrite? {
      StartKeepsDiscipline(w, e);
    } else if e.Wake? || e.Finish? {
      WakeKeepsDiscipline(w, e);
    } else {
      StopKeepsDiscipline(w, e);
    }
  }

  lemma DisciplineKeepsThread(w: World, w': World, a: nat, t: nat)
    requires LocksOk(w) && LockDiscipline(w, w', a)
    ensures ThreadLocked(w', t)
  {
    assert ThreadLocked(w, a) && MuOk(w, ProcessOf(w, a));
    assert ThreadLocked(w, t) && MuOk(w, ProcessOf(w, t));
  }

  lemma DisciplineKeepsMu(w: World, w': World, a: nat, p: nat)
    requires LocksOk(w) && LockDiscipline(w, w', a)
    ensures MuOk(w', p)
  {
    assert ThreadLocked(w, a) && MuOk(w, p);
  }

  lemma DisciplineKeepsLocks(w: World, w': World, a: nat)
    requires LocksOk(w) && LockDiscipline(w, w', a)
    ensures LocksOk(w')
  {
    assert ThreadLocked(w, a);
    forall t ensures ThreadLocked(w', t) { DisciplineKeepsThread(w, w', a, t); }
    forall d ensures FlockOk(w', d) { assert FlockOk(w, d); }
    forall p ensures MuOk(w', p) { DisciplineKeepsMu(w, w', a, p); }
  }

  // ---------------------------------------------------------------- single-flight syncs

  /** A thread leading a sync owns the open channel its process waits on. */
  ghost predicate LeaderOk(w: World, t: nat) {
    var phase, p := PhaseOf(w, t), ProcessOf(w, t);
    && (phase.AwaitSync? ==> phase.channel < |w.leaders|)
    && (ChannelOf(phase).Some? ==>
          var c := ChannelOf(phase).value;
          c < |w.leaders| && w.leaders[c] == t && c !in w.closed && p in w.inFlight && w.inFlight[p] == c)
  }

  /** Every channel ever opened is closed or still led by the thread that opened it. */
  ghost predicate ChannelOk(w: World, c: nat) {
    if c < |w.leaders| then c in w.closed || ChannelOf(PhaseOf(w, w.leaders[c])) == Some(c) else c !in w.closed
  }

  ghost predicate FlightOk(w: World, p: nat) {
    p in w.inFlight ==> w.inFlight[p] < |w.leaders| && w.inFlight[p] !in w.closed && ProcessOf(w, w.leaders[w.inFlight[p]]) == p
  }

  ghost predicate SyncsOk(w: World) {
    && (forall t :: LeaderOk(w, t)) && (forall c: nat :: ChannelOk(w, c)) && (forall p :: FlightOk(w, p))
  }

  /** What a step of thread a does to the syncs: it opens a fresh channel if none is in flight, or closes its own. */
  ghost predicate SyncDiscipline(w: World, w': World, a: nat) {
    var before, after := ChannelOf(PhaseOf(w, a)), ChannelOf(PhaseOf(w', a));
    var p, p' := ProcessOf(w, a), ProcessOf(w', a);
    && (forall t :: t != a ==> PhaseOf(w', t) == PhaseOf(w, t) && ProcessOf(w', t) == ProcessOf(w, t))
    && (before.Some? ==> p' == p)
    && (PhaseOf(w', a).AwaitSync? ==> PhaseOf(w', a) == PhaseOf(w, a) || (p' in w.inFlight && PhaseOf(w', a).channel == w.inFlight[p']))
    && (if before == after then w'.inFlight == w.inFlight && w'.leaders == w.leaders && w'.closed == w.closed
        else if before == None then
          p' !in w.inFlight && after == Some(|w.leaders|) && w'.leaders == w.leaders + [a] && w'.closed == w.closed
          && w'.inFlight == w.inFlight[p' := |w.leaders|]
        else
          after == None && w'.leaders == w.leaders && w'.closed == w.closed + {before.value}
          && w'.inFlight == if p in w.inFlight && w.inFlight[p] == before.value then w.inFlight - {p} else w.inFlight)
  }

  lemma StartSyncKeepsSyncs(w: World, e: Event)
    requires IsEnabled(w, e) && e.StartSync?
    ensures SyncDiscipline(w, Next(w, e), Actor(e))
  {
    hide Succeeds, Fails, GitResult, CloneAt, MuOf;
  }

  lemma GitKeepsSyncs(w: World, e: Event)
    requires IsEnabled(w, e) && (e.RunGit? || e.TakeMu?)
    ensures SyncDiscipline(w, Next(w, e), Actor(e))
  {
    hide Succeeds, Fails, CloneAt, MuOf, NextCommand, Resolved, OutcomeOf, FirstCommand;
  }

  lemma ReadOrWriteKeepsSyncs(w: World, e: Event)
    requires IsEnabled(w, e) && (e.StartRead? || e.AcquireRead? || e.EndRead? || e.StartWrite?)
    ensures SyncDiscipline(w, Next(w, e), Actor(e))
  {
    hide Succeeds, Fails, GitResult, CloneAt, MuOf;
  }

  lemma FlockKeepsSyncs(w: World, e: Event)
    requires IsEnabled(w, e) && (e.TakeFlock? || e.Release?)
    ensures SyncDiscipline(w, Next(w, e), Actor(e))
  {
    hide Succeeds, Fails, GitResult, CloneAt, MuOf;
  }

  lemma StopKeepsSyncs(w: World, e: Event)
    requires IsEnabled(w, e) && (e.Wake? || e.Finish? || e.GiveUp? || e.ForeignPush?)
    ensures SyncDiscipline(w, Next(w, e), Actor(e))
  {
    hide Succeeds, Fails, GitResult, CloneAt, MuOf;
  }

  lemma StepKeepsSyncs(w: World, e: Event)
    requires IsEnabled(w, e)
    ensures SyncDiscipline(w, Next(w, e), Actor(e))
  {
    if e.StartSync? {
      StartSyncKeepsSyncs(w, e);
    } else if e.RunGit? || e.TakeMu? {
      GitKeepsSyncs(w, e);
    } else if e.TakeFlock? || e.Release? {
      FlockKeepsSyncs(w, e);
    } else if e.StartRead? || e.AcquireRead? || e.EndRead? || e.StartWrite? {
      ReadOrWriteKeepsSyncs(w, e);
    } else {
      StopKeepsSyncs(w, e);
    }
  }

  lemma DisciplineKeepsLeader(w: World, w': World, a: nat, t: nat)
    requires SyncsOk(w) && SyncDiscipline(w, w', a)
    ensures LeaderOk(w', t)
  {
    assert LeaderOk(w, a) && LeaderOk(w, t) && FlightOk(w, ProcessOf(w', a));
    assert ChannelOk(w, |w.leaders|);
  }

  lemma DisciplineKeepsFlight(w: World, w': World, a: nat, p: nat)
    requires SyncsOk(w) && SyncDiscipline(w, w', a)
    ensures FlightOk(w', p)
  {
    assert LeaderOk(w, a) && FlightOk(w, p) && ChannelOk(w, |w.leaders|);
    if p in w.inFlight { assert ChannelOk(w, w.inFlight[p]) && LeaderOk(w, w.leaders[w.inFlight[p]]); }
  }

  lemma DisciplineKeepsSyncs(w: World, w': World, a: nat)
    requires SyncsOk(w) && SyncDiscipline(w, w', a)
    ensures SyncsOk(w')
  {
    assert LeaderOk(w, a);
    forall t ensures LeaderOk(w', t) { DisciplineKeepsLeader(w, w', a, t); }
    forall c: nat ensures ChannelOk(w', c) { assert ChannelOk(w, c); }
    forall p ensures FlightOk(w', p) { DisciplineKeepsFlight(w, w', a, p); }
  }

  // ---------------------------------------------------------------- what the clone holds inside a critical section

  /** The clone c as the thread running job finds it right before command. */
  ghost predicate SessionOk(remote: History, c: Clone, job: Job, command: Command) {
    match command
    case GitClone => true
    case SetUrl => true
    case Fetch => true
    case Checkout => c.origin != [] && c.origin <= remote
    case Reset => c.origin != [] && c.origin <= remote
    case Clean => c.head != [] && c.head <= remote && c.index == TreeOf(c.head) && HasTracked(c.work, c.index)
    case Callback => c.head != [] && c.head <= remote && c.work == TreeOf(c.head) && c.index == c.work && job.WriteJob?
    case Status => c.head != [] && c.head <= remote && job.WriteJob? && job.write.apply(TreeOf(c.head)) == Some(c.work)
    case Add =>
      c.head != [] && c.head <= remote && job.WriteJob? && job.write.apply(TreeOf(c.head)) == Some(c.work) && c.work != TreeOf(c.head)
    case MakeCommit =>
      c.head != [] && c.head <= remote && job.WriteJob? && job.write.apply(TreeOf(c.head)) == Some(c.index) && c.index != TreeOf(c.head)
    case Push => job.WriteJob? && IsProposal(remote, c.head, job.write) && TreeOf(c.head) != TreeOf(c.head[..|c.head| - 1])
  }

  /** proposed adds one commit to a part of the remote branch: the write applied to exactly the head before it. */
  ghost predicate IsProposal(remote: History, proposed: History, write: Write) {
    && |proposed| > 1
    && var base := proposed[..|proposed| - 1];
       var commit := proposed[|proposed| - 1];
       base <= remote && commit.write == Some(write) && write.apply(TreeOf(base)) == Some(commit.tree)
  }

  ghost predicate ThreadSession(w: World, t: nat) {
    var phase := PhaseOf(w, t);
    phase.Fetching? || phase.WantMu? || phase.InGit? ==>
      SessionOk(w.remote, CloneAt(w, DirOf(w, t)), phase.job, phase.command)
  }

  lemma SessionGrows(remote: History, remote': History, c: Clone, job: Job, command: Command)
    requires SessionOk(remote, c, job, command) && remote <= remote'
    ensures SessionOk(remote', c, job, command)
  {
  }

  /** One successful command establishes what the next one finds; leftovers of earlier failures are gone by then. */
  lemma CommandKeepsSession(command: Command, job: Job, remote: History, c: Clone, after: Clone)
    requires SessionOk(remote, c, job, command) && Succeeds(command, job, remote, c, after) && remote != []
    requires NextCommand(command, job, c).Some?
    ensures SessionOk(remote, after, job, NextCommand(command, job, c).value)
  {
    match command
    case Clean => assert after.work == TreeOf(c.head);
    case MakeCommit => assert after.head[..|after.head| - 1] == c.head;
    case _ =>
  }

  /** Only a push or somebody else changes the remote, and only by adding to it. */
  ghost predicate RemoteDiscipline(w: World, w': World, a: nat) {
    && w.remote <= w'.remote
    && (HoldsFlock(PhaseOf(w, a)) || w'.clones == w.clones)
    && (forall d :: d != DirOf(w, a) ==> CloneAt(w', d) == CloneAt(w, d))
  }

  lemma OthersKeepClones(w: World, e: Event)
    requires IsEnabled(w, e) && !e.RunGit?
    ensures Next(w, e).clones == w.clones && w.remote <= Next(w, e).remote
  {
    hide Succeeds, Fails, GitResult, CloneAt, MuOf;
  }

  lemma GitKeepsRemoteDiscipline(w: World, e: Event)
    requires IsEnabled(w, e) && e.RunGit?
    ensures RemoteDiscipline(w, Next(w, e), e.t)
  {
    hide Fails, MuOf, AfterGit, Resolved, OutcomeOf;
  }

  lemma StepKeepsRemoteDiscipline(w: World, e: Event)
    requires IsEnabled(w, e)
    ensures RemoteDiscipline(w, Next(w, e), Actor(e))
  {
    hide IsEnabled, Next;
    if e.RunGit? {
      GitKeepsRemoteDiscipline(w, e);
    } else {
      OthersKeepClones(w, e);
    }
  }

  lemma OtherKeepsSession(w: World, w': World, a: nat, t: nat)
    requires LocksOk(w) && ThreadSession(w, t) && t != a
    requires ThreadDiscipline(w, w', a) && RemoteDiscipline(w, w', a)
    ensures ThreadSession(w', t)
  {
    var phase := PhaseOf(w, t);
    if phase.Fetching? || phase.WantMu? || phase.InGit? {
      assert ThreadLocked(w, t) && ThreadLocked(w, a);
      assert CloneAt(w', DirOf(w, t)) == CloneAt(w, DirOf(w, t));
      SessionGrows(w.remote, w'.remote, CloneAt(w, DirOf(w, t)), phase.job, phase.command);
    }
  }

  lemma GitKeepsSession(w: World, e: Event)
    requires IsEnabled(w, e) && e.RunGit? && ThreadSession(w, e.t) && w.remote != []
    ensures ThreadSession(Next(w, e), e.t)
  {
    hide Succeeds, Fails, SessionOk, Resolved, OutcomeOf, FirstCommand, MuOf;
    var phase, c := PhaseOf(w, e.t), CloneAt(w, DirOf(w, e.t));
    if e.ok && NextCommand(phase.command, phase.job, c).Some? {
      CommandKeepsSession(phase.command, phase.job, w.remote, c, e.after);
    }
  }

  lemma FirstCommandFinds(remote: History, c: Clone, job: Job)
    ensures SessionOk(remote, c, job, FirstCommand(c)) && SessionOk(remote, c, job, SetUrl)
  {
  }

  lemma ActorKeepsSession(w: World, e: Event)
    requires IsEnabled(w, e) && !e.RunGit? && ThreadSession(w, Actor(e))
    ensures ThreadSession(Next(w, e), Actor(e))
  {
    hide Succeeds, Fails, GitResult, MuOf, SessionOk, FirstCommand;
    var phase := PhaseOf(w, Actor(e));
    if e.TakeFlock? {
      FirstCommandFinds(w.remote, CloneAt(w, DirOf(w, e.t)), phase.job);
    }
    if e.ForeignPush? && HasJob(phase) && !phase.WantFlock? && !phase.Leaving? {
      SessionGrows(w.remote, Next(w, e).remote, CloneAt(w, DirOf(w, 0)), phase.job, phase.command);
    }
  }

  lemma StepKeepsSessions(w: World, e: Event)
    requires LocksOk(w) && w.remote != [] && IsEnabled(w, e) && forall t :: ThreadSession(w, t)
    ensures forall t :: ThreadSession(Next(w, e), t)
  {
    StepKeepsDiscipline(w, e);
    StepKeepsRemoteDiscipline(w, e);
    forall t ensures ThreadSession(Next(w, e), t) {
      if t != Actor(e) {
        OtherKeepsSession(w, Next(w, e), Actor(e), t);
      } else if e.RunGit? {
        GitKeepsSession(w, e);
      } else {
        ActorKeepsSession(w, e);
      }
    }
  }

  // ---------------------------------------------------------------- no lost update

  ghost predicate HasDistinctWrites(h: History) {
    forall i, j :: 0 <= i < j < |h| && h[i].write.Some? && h[j].write.Some? ==> h[i].write.value.id != h[j].write.value.id
  }

  /** The branch is a fold: each write was applied to exactly the commit before it, and no write occurs twice. */
  ghost predicate IsFold(h: History) {
    && h != [] && h[0].write.None?
    && (forall i {:trigger h[i]} :: 0 < i < |h| && h[i].write.Some? ==> h[i].write.value.apply(h[i - 1].tree) == Some(h[i].tree))
    && HasDistinctWrites(h)
  }

  ghost predicate Contains(h: History, id: nat) {
    exists i :: 0 <= i < |h| && h[i].write.Some? && h[i].write.value.id == id
  }

  /** The result of a finished write tells whether its commit is on the branch. */
  ghost predicate WriteOk(w: World, id: nat) {
    if id in w.outcomes then
      && id < w.writes
      && (w.outcomes[id].Pushed? ==> Contains(w.remote, id))
      && (w.outcomes[id].Failed? || w.outcomes[id].Unchanged? ==> !Contains(w.remote, id))
    else !Contains(w.remote, id)
  }

  ghost predicate OpenWriteOk(w: World, t: nat) {
    var open := OpenWrite(PhaseOf(w, t));
    open.Some? ==>
      && open.value.id < w.writes && open.value.id !in w.outcomes
      && forall t' :: t' != t && OpenWrite(PhaseOf(w, t')).Some? ==> OpenWrite(PhaseOf(w, t')).value.id != open.value.id
  }

  ghost predicate WritesOk(w: World) {
    IsFold(w.remote) && (forall id :: WriteOk(w, id)) && (forall t :: OpenWriteOk(w, t))
  }

  /** What a step of thread a does to writes: it opens a fresh one, or resolves its own. */
  ghost predicate WriteDiscipline(w: World, w': World, a: nat) {
    var open, open' := OpenWrite(PhaseOf(w, a)), OpenWrite(PhaseOf(w', a));
    && (forall t :: t != a ==> PhaseOf(w', t) == PhaseOf(w, t))
    && (if open == open' then w'.outcomes == w.outcomes && w'.writes == w.writes && w'.remote == w.remote
        else if open == None then
          open'.value.id == w.writes && w'.writes == w.writes + 1 && w'.outcomes == w.outcomes && w'.remote == w.remote
        else
          && open' == None && w'.writes == w.writes && open.value.id in w'.outcomes
          && w'.outcomes == w.outcomes[open.value.id := w'.outcomes[open.value.id]]
          && if w'.outcomes[open.value.id].Failed? || w'.outcomes[open.value.id].Unchanged? then w'.remote == w.remote
             else IsProposal(w.remote, w'.remote, open.value) && w.remote <= w'.remote)
  }

  lemma PushKeepsWriteDiscipline(w: World, e: Event)
    requires IsEnabled(w, e) && e.RunGit? && e.ok && ThreadSession(w, e.t) && PhaseOf(w, e.t).command.Push?
    ensures WriteDiscipline(w, Next(w, e), e.t)
  {
    hide Fails, MuOf, HasTracked, TreeOf, IsProposal;
  }

  lemma SuccessKeepsWriteDiscipline(w: World, e: Event)
    requires IsEnabled(w, e) && e.RunGit? && e.ok && !PhaseOf(w, e.t).command.Push?
    ensures WriteDiscipline(w, Next(w, e), e.t)
  {
    hide Succeeds, Fails, MuOf, TreeOf, IsProposal;
  }

  lemma FailureKeepsWriteDiscipline(w: World, e: Event)
    requires IsEnabled(w, e) && e.RunGit? && !e.ok && ThreadSession(w, e.t)
    ensures WriteDiscipline(w, Next(w, e), e.t)
  {
    hide Succeeds, Fails, NextCommand, MuOf, TreeOf, HasTracked, IsProposal;
  }

  lemma GitKeepsWriteDiscipline(w: World, e: Event)
    requires IsEnabled(w, e) && e.RunGit? && ThreadSession(w, e.t)
    ensures WriteDiscipline(w, Next(w, e), e.t)
  {
    hide Next, Succeeds, Fails, WriteDiscipline, ThreadSession;
    if e.ok && PhaseOf(w, e.t).command.Push? {
      PushKeepsWriteDiscipline(w, e);
    } else if e.ok {
      SuccessKeepsWriteDiscipline(w, e);
    } else {
      FailureKeepsWriteDiscipline(w, e);
    }
  }

  lemma GiveUpKeepsWriteDiscipline(w: World, e: Event)
    requires IsEnabled(w, e) && e.GiveUp?
    ensures WriteDiscipline(w, Next(w, e), e.t)
  {
    hide Succeeds, Fails, GitResult, CloneAt, MuOf, IsProposal;
  }

  lemma LocksKeepWriteDiscipline(w: World, e: Event)
    requires IsEnabled(w, e) && (e.TakeFlock? || e.TakeMu? || e.Release?)
    ensures WriteDiscipline(w, Next(w, e), Actor(e))
  {
    hide Succeeds, Fails, GitResult, CloneAt, MuOf, Resolved, IsProposal;
  }

  lemma OthersKeepWriteDiscipline(w: World, e: Event)
    requires IsEnabled(w, e) && (e.StartRead? || e.AcquireRead? || e.EndRead? || e.StartWrite? || e.StartSync? || e.Wake? || e.Finish?)
    ensures WriteDiscipline(w, Next(w, e), Actor(e))
  {
    hide Succeeds, Fails, GitResult, CloneAt, MuOf, Resolved, IsProposal;
  }

  lemma StepKeepsWriteDiscipline(w: World, e: Event)
    requires IsEnabled(w, e) && !e.ForeignPush?
    requires e.RunGit? ==> ThreadSession(w, e.t)
    ensures WriteDiscipline(w, Next(w, e), Actor(e))
  {
    hide IsEnabled, Next, WriteDiscipline;
    if e.RunGit? {
      GitKeepsWriteDiscipline(w, e);
    } else if e.GiveUp? {
      GiveUpKeepsWriteDiscipline(w, e);
    } else if e.TakeFlock? || e.TakeMu? || e.Release? {
      LocksKeepWriteDiscipline(w, e);
    } else {
      OthersKeepWriteDiscipline(w, e);
    }
  }

  /** A proposal the remote accepts extends it by exactly one commit. */
  lemma AcceptedProposal(remote: History, remote': History, write: Write)
    requires IsFold(remote) && !Contains(remote, write.id) && remote <= remote' && IsProposal(remote, remote', write)
    ensures |remote'| == |remote| + 1 && IsFold(remote')
    ensures forall id :: Contains(remote', id) <==> Contains(remote, id) || id == write.id
  {
    var n := |remote'| - 1;
    assert remote'[..n] <= remote;
    assert remote'[..n] == remote;
    forall id ensures Contains(remote', id) <==> Contains(remote, id) || id == write.id {
      if Contains(remote, id) {
        var i :| 0 <= i < |remote| && remote[i].write.Some? && remote[i].write.value.id == id;
        assert remote'[i] == remote[i];
      }
      if id == write.id { assert remote'[n].write.value.id == id; }
      if Contains(remote', id) {
        var i :| 0 <= i < |remote'| && remote'[i].write.Some? && remote'[i].write.value.id == id;
        if i < n { assert remote[i] == remote'[i]; }
      }
    }
    forall i, j | 0 <= i < j < |remote'| && remote'[i].write.Some? && remote'[j].write.Some?
      ensures remote'[i].write.value.id != remote'[j].write.value.id
    {
      assert remote[i] == remote'[i];
      if j < n { assert remote[j] == remote'[j]; }
    }
    forall i | 0 < i < |remote'| && remote'[i].write.Some?
      ensures remote'[i].write.value.apply(remote'[i - 1].tree) == Some(remote'[i].tree)
    {
      assert remote[i - 1] == remote'[i - 1];
      if i < n { assert remote[i] == remote'[i]; }
    }
  }

  lemma DisciplineKeepsWrites(w: World, w': World, a: nat)
    requires WritesOk(w) && WriteDiscipline(w, w', a)
    ensures WritesOk(w')
  {
    var open, open' := OpenWrite(PhaseOf(w, a)), OpenWrite(PhaseOf(w', a));
    assert OpenWriteOk(w, a);
    assert open.Some? ==> WriteOk(w, open.value.id);
    assert WriteOk(w, w.writes);
    if open != open' && open.Some? && w'.remote != w.remote {
      AcceptedProposal(w.remote, w'.remote, open.value);
    }
    forall id ensures WriteOk(w', id) { assert WriteOk(w, id); }
    forall t ensures OpenWriteOk(w', t) {
      assert forall t' :: OpenWriteOk(w, t') ==> OpenWrite(PhaseOf(w, t')).Some? ==> OpenWrite(PhaseOf(w, t')).value.id < w.writes;
      assert OpenWriteOk(w, t);
    }
  }

  lemma ForeignPushKeepsWrites(w: World, e: Event)
    requires WritesOk(w) && IsEnabled(w, e) && e.ForeignPush?
    ensures WritesOk(Next(w, e))
  {
    var w' := Next(w, e);
    assert forall i :: 0 <= i < |w.remote| ==> w'.remote[i] == w.remote[i];
    forall id ensures Contains(w'.remote, id) <==> Contains(w.remote, id) {
      if Contains(w.remote, id) {
        var i :| 0 <= i < |w.remote| && w.remote[i].write.Some? && w.remote[i].write.value.id == id;
        assert w'.remote[i].write.value.id == id;
      }
    }
    forall id ensures WriteOk(w', id) { assert WriteOk(w, id); }
    assert forall t :: PhaseOf(w', t) == PhaseOf(w, t);
    forall t ensures OpenWriteOk(w', t) { assert OpenWriteOk(w, t); }
  }

  // ---------------------------------------------------------------- over whole runs

  ghost predicate AllOk(w: World) {
    LocksOk(w) && SyncsOk(w) && (forall t :: ThreadSession(w, t)) && WritesOk(w)
  }

  lemma StepKeepsAll(w: World, e: Event)
    requires AllOk(w) && IsEnabled(w, e)
    ensures AllOk(Next(w, e)) && w.remote <= Next(w, e).remote
  {
    var w' := Next(w, e);
    StepKeepsDiscipline(w, e);
    DisciplineKeepsLocks(w, w', Actor(e));
    StepKeepsSyncs(w, e);
    DisciplineKeepsSyncs(w, w', Actor(e));
    StepKeepsSessions(w, e);
    StepKeepsRemoteDiscipline(w, e);
    if e.ForeignPush? {
      ForeignPushKeepsWrites(w, e);
    } else {
      StepKeepsWriteDiscipline(w, e);
      DisciplineKeepsWrites(w, w', Actor(e));
    }
  }

  lemma {:induction false} RunKeepsAll(w: World, es: seq<Event>)
    requires AllOk(w) && IsRun(w, es)
    ensures AllOk(Final(w, es)) && w.remote <= Final(w, es).remote
    decreases |es|
  {
    if es != [] {
      StepKeepsAll(w, es[0]);
      RunKeepsAll(Next(w, es[0]), es[1..]);
    }
  }

  lemma InitialIsOk(w: World)
    requires IsInitial(w)
    ensures AllOk(w)
  {
  }

  /** The tree that results from applying a history's commits in order, from the tree before them. */
  ghost function Replay(base: Tree, commits: History): Option<Tree>
    decreases |commits|
  {
    if commits == [] then Some(base)
    else
      var last := commits[|commits| - 1];
      match Replay(base, commits[..|commits| - 1])
      case None => None
      case Some(before) => if last.write.Some? then last.write.value.apply(before) else Some(last.tree)
  }

  lemma {:induction false} FoldReplays(h: History, n: nat)
    requires IsFold(h) && 1 <= n <= |h|
    ensures Replay(h[0].tree, h[1..n]) == Some(h[n - 1].tree)
  {
    if n > 1 {
      FoldReplays(h, n - 1);
      assert h[1..n][..n - 2] == h[1..n - 1];
    }
  }

  /** No lost update. Over every interleaving of clones, failing commands, syncs and foreign pushes the branch only grows
      and is the replay of the accepted writes, each on exactly the head before it; a write that reported success with
      changes is on it exactly once, one that reported failure or no change never is. */
  lemma NoLostUpdate(w: World, es: seq<Event>, id: nat)
    requires IsInitial(w) && IsRun(w, es)
    ensures var w' := Final(w, es);
            && w.remote <= w'.remote && w'.remote != []
            && Replay(w'.remote[0].tree, w'.remote[1..]) == Some(TreeOf(w'.remote))
            && HasDistinctWrites(w'.remote)
            && (id in w'.outcomes && w'.outcomes[id].Pushed? ==> Contains(w'.remote, id))
            && (id in w'.outcomes && (w'.outcomes[id].Failed? || w'.outcomes[id].Unchanged?) ==> !Contains(w'.remote, id))
  {
    InitialIsOk(w);
    RunKeepsAll(w, es);
    var w' := Final(w, es);
    assert WriteOk(w', id);
    FoldReplays(w'.remote, |w'.remote|);
    assert w'.remote[1..|w'.remote|] == w'.remote[1..];
  }

  // ---------------------------------------------------------------- what an outcome tells the caller

  /** What the thread that ran e reports for its write: the branch after its commit, a callback that changed nothing on a
      head that is part of the branch, a command that failed or a lock that was not waited for, or a push whose reply was
      lost. */
  ghost predicate Reports(w: World, e: Event, write: Write, outcome: Outcome) {
    var head, tree := CloneAt(w, DirOf(w, Actor(e))).head, write.apply(TreeOf(w.remote));
    var committed := tree.Some? && tree.value != TreeOf(w.remote)
                     && PhaseOf(w, Actor(e)).InGit? && PhaseOf(w, Actor(e)).command == Push
                     && head == w.remote + [Commit(tree.value, Some(write))];
    match outcome
    case Pushed => e.RunGit? && e.ok && committed
    case Unchanged => e.RunGit? && e.ok && head != [] && head <= w.remote && write.apply(TreeOf(head)) == Some(TreeOf(head))
    case Failed => e.GiveUp? || (e.RunGit? && !e.ok && !e.applied)
    case Ambiguous => e.RunGit? && !e.ok && e.applied && committed
  }

  /** The thread's write, the last thing its critical section does being e, is reported as it went. */
  ghost predicate IsReported(w: World, e: Event, write: Write)
    requires IsEnabled(w, e)
  {
    var w' := Next(w, e);
    && write.id in w'.outcomes && Reports(w, e, write, w'.outcomes[write.id])
    && w'.remote == if w'.outcomes[write.id].Pushed? || w'.outcomes[write.id].Ambiguous?
                    then w.remote + [Commit(write.apply(TreeOf(w.remote)).value, Some(write))] else w.remote
  }

  lemma ProposalOnBranch(remote: History, head: History, write: Write)
    requires IsFold(remote) && !Contains(remote, write.id) && remote <= head && IsProposal(remote, head, write)
    ensures |head| > 1 && head[..|head| - 1] == remote
    ensures write.apply(TreeOf(remote)) == Some(TreeOf(head)) && head == remote + [Commit(TreeOf(head), Some(write))]
  {
    AcceptedProposal(remote, head, write);
    assert head[..|head| - 1] == remote;
    assert head == remote + [head[|head| - 1]];
  }

  lemma PushReports(w: World, e: Event)
    requires IsEnabled(w, e) && e.RunGit? && ThreadSession(w, e.t) && OpenWrite(PhaseOf(w, e.t)).Some?
    requires PhaseOf(w, e.t).command.Push? && FetchOnly(w, e.t)
    requires var write := OpenWrite(PhaseOf(w, e.t)).value; IsFold(w.remote) && !Contains(w.remote, write.id)
    ensures IsReported(w, e, OpenWrite(PhaseOf(w, e.t)).value)
  {
    hide MuOf, IsFold, Contains, HasTracked, TreeOf, IsProposal, Fails, CommandsLeft;
    var c, write := CloneAt(w, DirOf(w, e.t)), OpenWrite(PhaseOf(w, e.t)).value;
    if e.ok || e.applied { ProposalOnBranch(w.remote, c.head, write); }
  }

  lemma OtherGitReports(w: World, e: Event)
    requires IsEnabled(w, e) && e.RunGit? && ThreadSession(w, e.t) && OpenWrite(PhaseOf(w, e.t)).Some?
    requires PhaseOf(Next(w, e), e.t).Leaving? && !PhaseOf(w, e.t).command.Push?
    ensures IsReported(w, e, OpenWrite(PhaseOf(w, e.t)).value)
  {
    hide MuOf, Succeeds, Fails, HasTracked;
  }

  /** Whatever interleaves, the step that settles a write settles it with an outcome that tells what happened to it: success
      with changes is reported exactly with the push that puts its commit on top of the branch. */
  lemma OutcomeTellsWhatHappened(w0: World, es: seq<Event>, e: Event, id: nat)
    requires IsInitial(w0) && IsRun(w0, es) && IsEnabled(Final(w0, es), e)
    requires id !in Final(w0, es).outcomes && id in Next(Final(w0, es), e).outcomes
    ensures var w := Final(w0, es);
            var open := OpenWrite(PhaseOf(w, Actor(e)));
            open.Some? && open.value.id == id && IsReported(w, e, open.value)
  {
    hide IsEnabled, Next, LocksOk, SyncsOk, IsFold, IsReported, ThreadSession;
    InitialIsOk(w0);
    RunKeepsAll(w0, es);
    var w, a := Final(w0, es), Actor(e);
    assert FetchOnly(w, a) by { RunKeepsFetchOnly(w0, es); }
    StepSettles(w, e, id);
  }

  lemma StepSettles(w: World, e: Event, id: nat)
    requires WritesOk(w) && ThreadSession(w, Actor(e)) && FetchOnly(w, Actor(e)) && IsEnabled(w, e)
    requires id !in w.outcomes && id in Next(w, e).outcomes
    ensures var open := OpenWrite(PhaseOf(w, Actor(e)));
            open.Some? && open.value.id == id && IsReported(w, e, open.value)
  {
    hide Succeeds, Fails, ThreadSession, FetchOnly, IsFold, Contains, IsReported, TreeOf;
    assert OpenWriteOk(w, Actor(e));
    if e.RunGit? {
      SettledByGit(w, e, id);
      assert WriteOk(w, id);
      if PhaseOf(w, e.t).command.Push? { PushReports(w, e); } else { OtherGitReports(w, e); }
    } else {
      SettledByGivingUp(w, e, id);
    }
  }

  lemma SettledByGit(w: World, e: Event, id: nat)
    requires IsEnabled(w, e) && e.RunGit? && id !in w.outcomes && id in Next(w, e).outcomes
    ensures OpenWrite(PhaseOf(w, e.t)).Some? && OpenWrite(PhaseOf(w, e.t)).value.id == id && PhaseOf(Next(w, e), e.t).Leaving?
  {
    hide Succeeds, Fails, MuOf, CloneAt, NextCommand;
  }

  lemma SettledByGivingUp(w: World, e: Event, id: nat)
    requires IsEnabled(w, e) && !e.RunGit? && id !in w.outcomes && id in Next(w, e).outcomes
    ensures OpenWrite(PhaseOf(w, Actor(e))).Some? && OpenWrite(PhaseOf(w, Actor(e))).value.id == id
    ensures IsReported(w, e, OpenWrite(PhaseOf(w, Actor(e))).value)
  {
    hide Succeeds, Fails, MuOf, GitResult;
  }

  // ---------------------------------------------------------------- a write whose commands all succeed

  ghost predicate AllSucceed(es: seq<Event>, t: nat) {
    forall i :: 0 <= i < |es| ==> es[i].RunGit? && es[i].t == t && es[i].ok
  }

  /** What the thread finds before command as long as the branch does not move. */
  ghost predicate IsCurrent(remote: History, c: Clone, write: Write, command: Command) {
    var tree := write.apply(TreeOf(remote));
    && (command.GitClone? || c.isCloned)
    && match command
       case GitClone => true
       case SetUrl => true
       case Fetch => true
       case Checkout => c.origin == remote
       case Reset => c.origin == remote
       case Clean => c.head == remote && c.index == TreeOf(remote) && HasTracked(c.work, c.index)
       case Callback => c.head == remote && c.work == TreeOf(remote)
       case Status => c.head == remote && tree == Some(c.work)
       case Add => c.head == remote && tree == Some(c.work) && c.work != TreeOf(remote)
       case MakeCommit => c.head == remote && tree == Some(c.index) && c.index != TreeOf(remote)
       case Push => tree.Some? && tree.value != TreeOf(remote) && c.head == remote + [Commit(tree.value, Some(write))]
  }

  ghost predicate IsInSection(w: World, t: nat, write: Write) {
    var phase := PhaseOf(w, t);
    phase.InGit? && phase.job == WriteJob(write) && IsCurrent(w.remote, CloneAt(w, DirOf(w, t)), write, phase.command)
  }

  /** The branch was remote and now has the write's commit on top, reported as pushed; or the callback changed nothing,
      reported as unchanged. */
  ghost predicate IsWritten(remote: History, w: World, t: nat, write: Write) {
    var tree := write.apply(TreeOf(remote));
    && tree.Some? && write.id in w.outcomes && CloneAt(w, DirOf(w, t)).isCloned
    && if tree.value == TreeOf(remote) then w.outcomes[write.id] == Unchanged && w.remote == remote
       else w.outcomes[write.id] == Pushed && w.remote == remote + [Commit(tree.value, Some(write))]
  }

  /** How many commands are still to come, at most. */
  function CommandsLeft(command: Command): nat {
    match command
    case GitClone => 10 case SetUrl => 9 case Fetch => 8 case Checkout => 7 case Reset => 6 case Clean => 5
    case Callback => 4 case Status => 3 case Add => 2 case MakeCommit => 1 case Push => 0
  }

  lemma CommandKeepsCurrent(command: Command, write: Write, remote: History, c: Clone, after: Clone)
    requires IsCurrent(remote, c, write, command) && Succeeds(command, WriteJob(write), remote, c, after)
    requires NextCommand(command, WriteJob(write), c).Some?
    ensures var next := NextCommand(command, WriteJob(write), c).value;
            IsCurrent(remote, after, write, next) && CommandsLeft(next) < CommandsLeft(command)
  {
    if command.Clean? { assert after.work == TreeOf(remote); }
  }

  lemma LastCommandWrites(command: Command, write: Write, remote: History, c: Clone, after: Clone)
    requires IsCurrent(remote, c, write, command) && Succeeds(command, WriteJob(write), remote, c, after)
    requires NextCommand(command, WriteJob(write), c) == None
    ensures var tree := write.apply(TreeOf(remote));
            && after.isCloned && tree.Some?
            && if command.Push? then tree.value != TreeOf(remote) && c.head == remote + [Commit(tree.value, Some(write))]
               else tree.value == TreeOf(remote)
  {
  }

  lemma SuccessStep(w: World, e: Event, write: Write)
    requires IsEnabled(w, e) && e.RunGit? && e.ok && IsInSection(w, e.t, write)
    ensures var w' := Next(w, e);
            || (&& IsInSection(w', e.t, write) && w'.remote == w.remote
                && CommandsLeft(PhaseOf(w', e.t).command) < CommandsLeft(PhaseOf(w, e.t).command))
            || (PhaseOf(w', e.t).Leaving? && IsWritten(w.remote, w', e.t, write))
  {
    hide Succeeds, Fails, IsCurrent, CommandsLeft, MuOf, TreeOf;
    var phase, c := PhaseOf(w, e.t), CloneAt(w, DirOf(w, e.t));
    if NextCommand(phase.command, phase.job, c).Some? {
      PushIsLast(phase.command, phase.job, c);
      CommandKeepsCurrent(phase.command, write, w.remote, c, e.after);
    } else {
      LastCommandWrites(phase.command, write, w.remote, c, e.after);
    }
  }

  lemma PushIsLast(command: Command, job: Job, c: Clone)
    requires NextCommand(command, job, c).Some?
    ensures !command.Push?
  {
  }

  lemma {:induction false} SectionWrites(w: World, es: seq<Event>, t: nat, write: Write)
    requires IsInSection(w, t, write) && IsRun(w, es) && AllSucceed(es, t) && PhaseOf(Final(w, es), t).Leaving?
    ensures IsWritten(w.remote, Final(w, es), t, write)
    decreases |es|
  {
    hide Next, IsWritten, IsCurrent, CommandsLeft, Succeeds, Fails;
    if es != [] {
      SuccessStep(w, es[0], write);
      var w', rest := Next(w, es[0]), es[1..];
      assert AllSucceed(rest, t);
      if PhaseOf(w', t).Leaving? {
        assert rest == [];
      } else {
        SectionWrites(w', rest, t, write);
      }
    }
  }

  /** The clone after a successful command. */
  ghost function Succeeded(command: Command, write: Write, remote: History, c: Clone): Clone {
    match command
    case GitClone => Clone(true, remote, remote, TreeOf(remote), TreeOf(remote))
    case SetUrl => c
    case Fetch => c.(origin := remote)
    case Checkout => c.(head := c.origin)
    case Reset => c.(head := c.origin, index := TreeOf(c.origin), work := c.work + TreeOf(c.origin))
    case Clean => c.(work := map path | path in c.work && path in c.index :: c.work[path])
    case Callback => if write.apply(c.work).Some? then c.(work := write.apply(c.work).value) else c
    case Status => c
    case Add => c.(index := c.work)
    case MakeCommit => c.(head := c.head + [Commit(c.index, Some(write))])
    case Push => c.(origin := c.head)
  }

  lemma CanSucceed(command: Command, write: Write, remote: History, c: Clone)
    requires IsCurrent(remote, c, write, command) && write.apply(TreeOf(remote)).Some?
    ensures Succeeds(command, WriteJob(write), remote, c, Succeeded(command, write, remote, c))
  {
  }

  lemma {:induction false} SectionCanSucceed(w: World, t: nat, write: Write) returns (es: seq<Event>)
    requires IsInSection(w, t, write) && write.apply(TreeOf(w.remote)).Some?
    ensures IsRun(w, es) && AllSucceed(es, t) && PhaseOf(Final(w, es), t).Leaving?
    decreases CommandsLeft(PhaseOf(w, t).command)
  {
    hide Next, IsWritten, IsCurrent, CommandsLeft, Succeeds, Fails, Succeeded, TreeOf;
    var phase, c := PhaseOf(w, t), CloneAt(w, DirOf(w, t));
    var e := RunGit(t, true, false, Succeeded(phase.command, write, w.remote, c));
    CanSucceed(phase.command, write, w.remote, c);
    assert IsEnabled(w, e);
    SuccessStep(w, e, write);
    var rest := [];
    if !PhaseOf(Next(w, e), t).Leaving? {
      rest := SectionCanSucceed(Next(w, e), t, write);
    }
    es := [e] + rest;
    assert es[1..] == rest;
  }

  /** Somebody may start a write and take both locks at once. */
  ghost predicate CanEnter(w: World, t: nat, p: nat, apply: Tree -> Option<Tree>, upToDate: bool) {
    && IsEnabled(w, StartWrite(t, p, apply))
    && var w1 := Next(w, StartWrite(t, p, apply));
    && IsEnabled(w1, TakeFlock(t)) && IsEnabled(Next(w1, TakeFlock(t)), TakeMu(t, upToDate))
  }

  ghost function Entered(w: World, t: nat, p: nat, apply: Tree -> Option<Tree>, upToDate: bool): World
    requires CanEnter(w, t, p, apply, upToDate)
  {
    Next(Next(Next(w, StartWrite(t, p, apply)), TakeFlock(t)), TakeMu(t, upToDate))
  }

  lemma EnteredIsInSection(w: World, t: nat, p: nat, apply: Tree -> Option<Tree>, upToDate: bool)
    requires CanEnter(w, t, p, apply, upToDate)
    ensures var w' := Entered(w, t, p, apply, upToDate);
            w'.remote == w.remote && IsInSection(w', t, Write(w.writes, apply))
  {
    hide Succeeds, Fails, GitResult, TreeOf, HasTracked;
  }

  lemma EntersWhenFree(w: World, t: nat, p: nat, apply: Tree -> Option<Tree>, upToDate: bool)
    requires PhaseOf(w, t).Idle? && w.cloneOf(p) !in w.flock && MuOf(w, p) == RWLock(None, {})
    ensures CanEnter(w, t, p, apply, upToDate)
  {
    hide Succeeds, Fails, GitResult, TreeOf, CloneAt;
  }

  /** From any state, whatever is left in the directory: a write that takes its locks and whose commands all succeed, nobody
      else moving meanwhile, ends with its commit on top of the branch and reports that it was pushed; only a callback that
      leaves the tree as it is ends without one, reported as unchanged. */
  lemma UndisturbedWriteIsPushed(w: World, t: nat, p: nat, apply: Tree -> Option<Tree>, upToDate: bool, es: seq<Event>)
    requires CanEnter(w, t, p, apply, upToDate) && IsRun(Entered(w, t, p, apply, upToDate), es) && AllSucceed(es, t)
    requires PhaseOf(Final(Entered(w, t, p, apply, upToDate), es), t).Leaving?
    ensures IsWritten(w.remote, Final(Entered(w, t, p, apply, upToDate), es), t, Write(w.writes, apply))
  {
    hide CanEnter, Entered, IsWritten, IsInSection, Next, IsEnabled;
    EnteredIsInSection(w, t, p, apply, upToDate);
    SectionWrites(Entered(w, t, p, apply, upToDate), es, t, Write(w.writes, apply));
  }

  /** And there is such a run whenever thread and locks are free and the callback accepts the branch's tree. */
  lemma WriteCanBePushed(w: World, t: nat, p: nat, apply: Tree -> Option<Tree>, upToDate: bool) returns (es: seq<Event>)
    requires PhaseOf(w, t).Idle? && w.cloneOf(p) !in w.flock && MuOf(w, p) == RWLock(None, {})
    requires apply(TreeOf(w.remote)).Some?
    ensures CanEnter(w, t, p, apply, upToDate) && IsRun(Entered(w, t, p, apply, upToDate), es) && AllSucceed(es, t)
    ensures PhaseOf(Final(Entered(w, t, p, apply, upToDate), es), t).Leaving?
  {
    hide CanEnter, Entered, IsInSection, Next, IsEnabled, TreeOf;
    EntersWhenFree(w, t, p, apply, upToDate);
    EnteredIsInSection(w, t, p, apply, upToDate);
    es := SectionCanSucceed(Entered(w, t, p, apply, upToDate), t, Write(w.writes, apply));
  }

  /** The commands that touch the worktree. */
  predicate TouchesWorktree(command: Command) {
    command.GitClone? || command.Checkout? || command.Reset? || command.Clean? || command.Callback?
  }

  /** While a thread runs a write callback or refreshes the worktree, no other thread of its process does, and none reads;
      and no thread of any process works in the same directory. */
  lemma WorktreeIsExclusive(w: World, es: seq<Event>, t: nat, other: nat)
    requires IsInitial(w) && IsRun(w, es) && t != other
    requires var phase := PhaseOf(Final(w, es), t);
             (phase.InGit? || phase.Fetching?) && TouchesWorktree(phase.command)
    ensures var w' := Final(w, es);
            && PhaseOf(w', t).InGit?
            && (ProcessOf(w', other) == ProcessOf(w', t) ==> !PhaseOf(w', other).Reading?)
            && (DirOf(w', other) == DirOf(w', t) ==> !HoldsFlock(PhaseOf(w', other)))
  {
    InitialIsOk(w);
    RunKeepsAll(w, es);
    var w' := Final(w, es);
    assert ThreadLocked(w', t) && ThreadLocked(w', other) && MuOk(w', ProcessOf(w', t));
    assert FetchOnly(w', t) by { RunKeepsFetchOnly(w, es); }
  }

  /** Outside the in-process lock only the remote settings and the remote-tracking branch are touched. */
  ghost predicate FetchOnly(w: World, t: nat) {
    PhaseOf(w, t).Fetching? ==> PhaseOf(w, t).command.SetUrl? || PhaseOf(w, t).command.Fetch?
  }

  lemma StepKeepsFetchOnly(w: World, e: Event, t: nat)
    requires IsEnabled(w, e) && FetchOnly(w, t)
    ensures FetchOnly(Next(w, e), t)
  {
  }

  lemma {:induction false} RunKeepsFetchOnly(w: World, es: seq<Event>)
    requires IsRun(w, es) && forall t :: FetchOnly(w, t)
    ensures forall t :: FetchOnly(Final(w, es), t)
    decreases |es|
  {
    if es != [] {
      forall t ensures FetchOnly(Next(w, es[0]), t) { StepKeepsFetchOnly(w, es[0], t); }
      RunKeepsFetchOnly(Next(w, es[0]), es[1..]);
    }
  }

  /** No other process works in the same directory as p. */
  ghost predicate IsSole(w: World, p: nat) {
    forall p' :: w.cloneOf(p') == w.cloneOf(p) ==> p' == p
  }

  ghost predicate ReaderOk(w: World, t: nat) {
    PhaseOf(w, t).Reading? && IsSole(w, ProcessOf(w, t)) ==> CloneAt(w, DirOf(w, t)).work == PhaseOf(w, t).seen
  }

  lemma FetchKeepsWork(command: Command, job: Job, remote: History, c: Clone, after: Clone)
    requires command.SetUrl? || command.Fetch?
    requires Succeeds(command, job, remote, c, after) || Fails(command, c, after)
    ensures after.work == c.work
  {
  }

  lemma WorkChangesInGit(w: World, e: Event, d: nat)
    requires IsEnabled(w, e) && FetchOnly(w, Actor(e))
    requires CloneAt(Next(w, e), d).work != CloneAt(w, d).work
    ensures PhaseOf(w, Actor(e)).InGit? && DirOf(w, Actor(e)) == d
  {
    hide Succeeds, Fails, GitResult, MuOf;
    if !e.RunGit? {
      OthersKeepClones(w, e);
    } else if PhaseOf(w, e.t).Fetching? {
      var phase := PhaseOf(w, e.t);
      FetchKeepsWork(phase.command, phase.job, w.remote, CloneAt(w, DirOf(w, e.t)), e.after);
    }
  }

  lemma OtherKeepsReader(w: World, e: Event, t: nat)
    requires LocksOk(w) && IsEnabled(w, e) && FetchOnly(w, Actor(e)) && ReaderOk(w, t) && t != Actor(e)
    ensures ReaderOk(Next(w, e), t)
  {
    hide IsEnabled, Next;
    var w', a := Next(w, e), Actor(e);
    StepKeepsDiscipline(w, e);
    assert ThreadLocked(w, t) && ThreadLocked(w, a) && MuOk(w, ProcessOf(w, t));
    if PhaseOf(w', t).Reading? && CloneAt(w', DirOf(w, t)).work != CloneAt(w, DirOf(w, t)).work {
      WorkChangesInGit(w, e, DirOf(w, t));
    }
  }

  lemma GitIsNoReader(w: World, e: Event)
    requires IsEnabled(w, e) && e.RunGit?
    ensures !PhaseOf(Next(w, e), e.t).Reading?
  {
    hide Succeeds, Fails, NextCommand, Resolved, OutcomeOf, MuOf, CloneAt;
  }

  lemma ActorKeepsReader(w: World, e: Event)
    requires IsEnabled(w, e) && !e.RunGit? && ReaderOk(w, Actor(e))
    ensures ReaderOk(Next(w, e), Actor(e))
  {
    hide Succeeds, Fails, GitResult, Resolved, FirstCommand, MuOf;
  }

  lemma StepKeepsReader(w: World, e: Event, t: nat)
    requires LocksOk(w) && IsEnabled(w, e) && FetchOnly(w, Actor(e)) && ReaderOk(w, t)
    ensures ReaderOk(Next(w, e), t)
  {
    hide IsEnabled, Next, LocksOk;
    if t == Actor(e) {
      if e.RunGit? { GitIsNoReader(w, e); } else { ActorKeepsReader(w, e); }
    } else {
      OtherKeepsReader(w, e, t);
    }
  }
  lemma {:induction false} RunKeepsReaders(w: World, es: seq<Event>)
    requires AllOk(w) && IsRun(w, es) && forall t :: FetchOnly(w, t) && ReaderOk(w, t)
    ensures forall t :: ReaderOk(Final(w, es), t)
    decreases |es|
  {
    if es != [] {
      var w' := Next(w, es[0]);
      StepKeepsAll(w, es[0]);
      forall t ensures FetchOnly(w', t) && ReaderOk(w', t) {
        StepKeepsFetchOnly(w, es[0], t);
        StepKeepsReader(w, es[0], t);
      }
      RunKeepsReaders(w', es[1..]);
    }
  }

  /** A reader whose process has the directory to itself sees one tree from the moment it takes the lock to the end. */
  lemma ReadersSeeOneTree(w: World, es: seq<Event>, t: nat)
    requires IsInitial(w) && IsRun(w, es)
    requires PhaseOf(Final(w, es), t).Reading? && IsSole(Final(w, es), ProcessOf(Final(w, es), t))
    ensures CloneAt(Final(w, es), DirOf(Final(w, es), t)).work == PhaseOf(Final(w, es), t).seen
  {
    InitialIsOk(w);
    RunKeepsReaders(w, es);
    assert ReaderOk(Final(w, es), t);
  }

  lemma StepDisturbsReaders(w: World, e: Event, t: nat)
    requires LocksOk(w) && IsEnabled(w, e) && FetchOnly(w, Actor(e))
    requires PhaseOf(w, t).Reading? && PhaseOf(Next(w, e), t).Reading?
    requires CloneAt(Next(w, e), DirOf(w, t)).work != CloneAt(w, DirOf(w, t)).work
    ensures PhaseOf(w, Actor(e)).InGit? && DirOf(w, Actor(e)) == DirOf(w, t) && ProcessOf(w, Actor(e)) != ProcessOf(w, t)
  {
    hide IsEnabled, Next;
    WorkChangesInGit(w, e, DirOf(w, t));
    assert ThreadLocked(w, t) && ThreadLocked(w, Actor(e)) && MuOk(w, ProcessOf(w, t));
  }

  /** In a directory that processes share, only a command of another process changes the tree under a reader. */
  lemma WhoDisturbsReaders(w: World, es: seq<Event>, e: Event, t: nat)
    requires IsInitial(w) && IsRun(w, es) && IsEnabled(Final(w, es), e)
    requires var w' := Final(w, es);
             && PhaseOf(w', t).Reading? && PhaseOf(Next(w', e), t).Reading?
             && CloneAt(Next(w', e), DirOf(w', t)).work != CloneAt(w', DirOf(w', t)).work
    ensures var w', a := Final(w, es), Actor(e);
            PhaseOf(w', a).InGit? && DirOf(w', a) == DirOf(w', t) && ProcessOf(w', a) != ProcessOf(w', t)
  {
    hide IsEnabled, Next, LocksOk, SyncsOk, WritesOk, ThreadSession;
    InitialIsOk(w);
    RunKeepsAll(w, es);
    assert FetchOnly(Final(w, es), Actor(e)) by { RunKeepsFetchOnly(w, es); }
    StepDisturbsReaders(Final(w, es), e, t);
  }

  /** A process has at most one sync leader, and its channel is open until it closes it. */
  lemma SingleFlight(w: World, es: seq<Event>, a: nat, b: nat)
    requires IsInitial(w) && IsRun(w, es)
    requires var w' := Final(w, es);
             ChannelOf(PhaseOf(w', a)).Some? && ChannelOf(PhaseOf(w', b)).Some? && ProcessOf(w', a) == ProcessOf(w', b)
    ensures a == b && ChannelOf(PhaseOf(Final(w, es), a)).value !in Final(w, es).closed
  {
    InitialIsOk(w);
    RunKeepsAll(w, es);
    assert LeaderOk(Final(w, es), a) && LeaderOk(Final(w, es), b);
  }

  /** A sync that finds one of its process in flight runs no command: in the background it is dropped, otherwise it waits for
      the one that is running. A sync that finds none leads one on a channel of its own. */
  lemma SyncsAreJoined(w: World, es: seq<Event>, t: nat, p: nat, background: bool)
    requires IsInitial(w) && IsRun(w, es) && IsEnabled(Final(w, es), StartSync(t, p, background))
    ensures var w' := Final(w, es);
            var phase := PhaseOf(Next(w', StartSync(t, p, background)), t);
            if p in w'.inFlight then
              var c := w'.inFlight[p];
              && c < |w'.leaders| && ChannelOf(PhaseOf(w', w'.leaders[c])) == Some(c) && ProcessOf(w', w'.leaders[c]) == p
              && (background ==> phase == Idle) && (!background ==> phase == AwaitSync(c))
            else
              && (background ==> phase == WantFlock(BackgroundJob(|w'.leaders|)))
              && (!background ==> phase == WantFlock(SyncJob(|w'.leaders|)))
  {
    hide LocksOk, WritesOk, ThreadSession, IsFold;
    InitialIsOk(w);
    RunKeepsAll(w, es);
    var w' := Final(w, es);
    assert FlightOk(w', p);
    if p in w'.inFlight { assert ChannelOk(w', w'.inFlight[p]); }
  }

  /** Every channel a waiter sleeps on is closed already or will be by the thread leading it. */
  lemma WaitersHaveALeader(w: World, es: seq<Event>, t: nat)
    requires IsInitial(w) && IsRun(w, es) && PhaseOf(Final(w, es), t).AwaitSync?
    ensures var w' := Final(w, es);
            var c := PhaseOf(w', t).channel;
            c in w'.closed || exists leader :: ChannelOf(PhaseOf(w', leader)) == Some(c)
  {
    InitialIsOk(w);
    RunKeepsAll(w, es);
    var w' := Final(w, es);
    assert LeaderOk(w', t) && ChannelOk(w', PhaseOf(w', t).channel);
  }

  // ---------------------------------------------------------------- no deadlock

  /** A step of thread t other than giving up. */
  ghost predicate CanProceed(w: World, t: nat) {
    exists e :: IsEnabled(w, e) && Actor(e) == t && !e.GiveUp? && !e.ForeignPush?
  }

  /** A thread that waits for nothing: it runs a callback or a command, or is on its way out. */
  predicate IsRunning(phase: Phase) {
    phase.Reading? || phase.InGit? || phase.Fetching? || phase.Leaving? || phase.Finishing?
  }

  lemma RunningProceeds(w: World, t: nat)
    requires IsRunning(PhaseOf(w, t))
    ensures CanProceed(w, t)
  {
    match PhaseOf(w, t)
    case Reading(_) => assert IsEnabled(w, EndRead(t));
    case InGit(_, _) => assert IsEnabled(w, RunGit(t, false, false, CloneAt(w, DirOf(w, t))));
    case Fetching(_, _) => assert IsEnabled(w, RunGit(t, false, false, CloneAt(w, DirOf(w, t))));
    case Leaving(_) => assert IsEnabled(w, Release(t));
    case Finishing(_) => assert IsEnabled(w, Finish(t));
    case _ => assert false;
  }

  /** The thread that a waiting thread waits for, or itself if its lock is free. */
  lemma HolderProceeds(w: World, t: nat) returns (u: nat)
    requires LocksOk(w) && SyncsOk(w) && !PhaseOf(w, t).Idle?
    ensures CanProceed(w, u)
    decreases if PhaseOf(w, t).AwaitSync? then 3 else if PhaseOf(w, t).WantFlock? then 2 else if IsRunning(PhaseOf(w, t)) then 0 else 1
  {
    var phase, mu := PhaseOf(w, t), MuOf(w, ProcessOf(w, t));
    assert ThreadLocked(w, t) && MuOk(w, ProcessOf(w, t));
    u := t;
    if IsRunning(phase) {
      RunningProceeds(w, t);
    } else if (phase.WantMu? || phase.WantRead?) && mu.writer.Some? {
      u := HolderProceeds(w, mu.writer.value);
    } else if phase.WantMu? && mu.readers != {} {
      var r :| r in mu.readers;
      u := HolderProceeds(w, r);
    } else if phase.WantMu? {
      assert IsEnabled(w, TakeMu(t, false));
    } else if phase.WantRead? {
      assert IsEnabled(w, AcquireRead(t));
    } else if phase.WantFlock? {
      assert FlockOk(w, DirOf(w, t));
      if DirOf(w, t) in w.flock {
        u := HolderProceeds(w, w.flock[DirOf(w, t)]);
      } else {
        assert IsEnabled(w, TakeFlock(t));
      }
    } else {
      assert LeaderOk(w, t) && ChannelOk(w, phase.channel);
      if phase.channel in w.closed {
        assert IsEnabled(w, Wake(t));
      } else {
        u := HolderProceeds(w, w.leaders[phase.channel]);
      }
    }
  }

  /** The lock order leaves no deadlock: whenever a call is in progress, some thread can take a step that is not a timeout,
      a cancellation, or a refusal to wait. */
  lemma NoDeadlock(w: World, es: seq<Event>, t: nat) returns (u: nat)
    requires IsInitial(w) && IsRun(w, es) && !PhaseOf(Final(w, es), t).Idle?
    ensures CanProceed(Final(w, es), u)
  {
    InitialIsOk(w);
    RunKeepsAll(w, es);
    u := HolderProceeds(Final(w, es), t);
  }
}
