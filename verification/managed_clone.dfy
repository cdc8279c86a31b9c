/** The critical section of one write or sync as the code runs it on a clone in place, both locks held and nobody else
    pushing meanwhile (gitops/repository.go); interleavings are the subject of ManagedRepository. */
module ManagedClone {
  import opened Text
  import opened ManagedRepository

  /** How the next git command ends: it may fail, leaving parts of `left` in the clone; a push may reach the remote and
      fail all the same. */
  datatype Answer = Answer(ok: bool, applied: bool, left: Clone)

  /** The clone after a failed command, as far as the command may touch it. */
  function Leftover(command: Command, c: Clone, left: Clone): Clone {
    match command
    case GitClone => left
    case SetUrl => c
    case Fetch => c.(origin := left.origin)
    case Checkout => c.(head := left.head, index := left.index, work := left.work)
    case Reset => c.(head := left.head, index := left.index, work := left.work)
    case Clean => c.(work := left.work)
    case Callback => c.(work := left.work)
    case Status => c
    case Add => c.(index := left.index)
    case MakeCommit => c.(head := left.head)
    case Push => c.(origin := left.origin)
  }

  /** The clone after a successful command other than the callback and the push. */
  function Done(command: Command, job: Job, remote: History, c: Clone, left: Clone): Clone {
    match command
    case GitClone => Clone(true, remote, remote, TreeOf(remote), TreeOf(remote))
    case Fetch => c.(origin := remote)
    case Checkout => c.(head := c.origin, index := left.index, work := left.work)
    // Untracked files stay, wherever they came from.
    case Reset => c.(head := c.origin, index := TreeOf(c.origin), work := left.work + TreeOf(c.origin))
    case Clean => c.(work := map path | path in c.work && path in c.index :: c.work[path])
    case Add => c.(index := c.work)
    case MakeCommit => if job.WriteJob? then c.(head := c.head + [Commit(c.index, Some(job.write))]) else c
    case _ => c
  }

  /** The commit a write adds to a branch. */
  function CommitOf(h: History, write: Write): Option<Commit> {
    match write.apply(TreeOf(h))
    case None => None
    case Some(tree) => Some(Commit(tree, Some(write)))
  }

  /** The clone holds exactly the remote branch, down to the worktree. */
  ghost predicate IsFresh(c: Clone, remote: History) {
    c.isCloned && c.head == c.origin == remote && c.index == c.work == TreeOf(remote)
  }

  /** Every command succeeds from now on, as many as are asked for. */
  ghost predicate NeverFails(answers: seq<Answer>, commands: nat) {
    |answers| >= commands && forall i :: 0 <= i < |answers| ==> answers[i].ok
  }

  class Repository {
    var remote: History
    var clone: Clone
    var answers: seq<Answer>

    constructor (remote: History, clone: Clone, answers: seq<Answer>)
      ensures this.remote == remote && this.clone == clone && this.answers == answers
    {
      this.remote, this.clone, this.answers := remote, clone, answers;
    }

    /** One git command, or the callback, with the next answer. */
    method RunGit(command: Command, job: Job) returns (ok: bool)
      requires command.Callback? || command.MakeCommit? ==> job.WriteJob?
      // Not forced, so only a head that contains the remote branch is accepted; a refusal is a failed command.
      requires command.Push? ==> remote <= clone.head
      modifies this
      ensures ok ==> Succeeds(command, job, old(remote), old(clone), clone)
      ensures !ok ==> Fails(command, old(clone), clone)
      ensures remote == old(remote) || (command.Push? && remote == old(clone).head)
      ensures command.Push? && ok ==> remote == old(clone).head
      ensures ok <==> |old(answers)| > 0 && old(answers)[0].ok && (command.Callback? ==> job.write.apply(old(clone).work).Some?)
      ensures answers == if |old(answers)| > 0 then old(answers)[1..] else []
    {
      var answer := if |answers| > 0 then answers[0] else Answer(false, false, clone);
      answers := if |answers| > 0 then answers[1..] else [];
      ok := answer.ok;
      if ok && command.Callback? {
        var result := job.write.apply(clone.work);
        if result.Some? {
          clone := clone.(work := result.value);
        } else {
          ok, clone := false, Leftover(command, clone, answer.left);
        }
      } else if command.Push? {
        remote := if ok || answer.applied then clone.head else remote;
        clone := if ok then clone.(origin := clone.head) else Leftover(command, clone, answer.left);
      } else {
        clone := if ok then Done(command, job, remote, clone, answer.left) else Leftover(command, clone, answer.left);
      }
    }

    method SyncRemote(job: Job) returns (ok: bool)
      modifies this
      ensures remote == old(remote) && (ok ==> clone == old(clone).(origin := remote))
      ensures NeverFails(old(answers), 2) ==> ok && answers == old(answers)[2..]
    {
      ok := RunGit(SetUrl, job);
      if !ok { return; }
      ok := RunGit(Fetch, job);
    }

    /** Whatever the clone was left with, a refresh that succeeds makes head, index and worktree those of the
        remote-tracking branch. */
    method RefreshWorktree(job: Job) returns (ok: bool)
      modifies this
      ensures remote == old(remote)
      ensures var branch := old(clone).origin;
              ok ==> clone == Clone(old(clone).isCloned, branch, branch, TreeOf(branch), TreeOf(branch))
      ensures NeverFails(old(answers), 3) ==> ok && answers == old(answers)[3..]
    {
      ok := RunGit(Checkout, job);
      if !ok { return; }
      ok := RunGit(Reset, job);
      if !ok { return; }
      ok := RunGit(Clean, job);
      if ok {
        assert clone.work == TreeOf(old(clone).origin);
      }
    }

    method SyncLocked(force: bool, upToDate: bool, job: Job) returns (ok: bool)
      modifies this
      ensures remote == old(remote)
      ensures !force && upToDate ==> ok && clone == old(clone)
      ensures ok && (force || !upToDate) ==> IsFresh(clone, remote)
      ensures NeverFails(old(answers), 6) ==> ok && |answers| >= |old(answers)| - 6 && NeverFails(answers, 0)
    {
      if !force && upToDate {
        return true;
      }
      if !clone.isCloned {
        ok := RunGit(GitClone, job);
        if !ok { return; }
      }
      ok := SyncRemote(job);
      if !ok { return; }
      ok := RefreshWorktree(job);
    }

    /** One write, from any clone at all: the branch gains exactly the write's commit on top of its head, or nothing. Only
        a failed push leaves open which. */
    method WithWrite(write: Write, upToDate: bool) returns (outcome: Outcome)
      modifies this
      ensures remote == old(remote)
              || (CommitOf(old(remote), write).Some? && remote == old(remote) + [CommitOf(old(remote), write).value])
      ensures outcome.Pushed? ==> remote != old(remote)
      ensures outcome.Unchanged? ==> remote == old(remote) && write.apply(TreeOf(remote)) == Some(TreeOf(remote))
      ensures outcome.Pushed? || outcome.Unchanged? ==> IsFresh(clone, remote)
      // If no command fails, a callback that changes the tree ends in a push of its commit.
      ensures NeverFails(old(answers), 11) && write.apply(TreeOf(old(remote))).Some? ==>
                var tree := write.apply(TreeOf(old(remote))).value;
                if tree == TreeOf(old(remote)) then outcome == Unchanged && remote == old(remote)
                else outcome == Pushed && remote == old(remote) + [Commit(tree, Some(write))]
      ensures outcome.Pushed? || outcome.Unchanged? || outcome.Failed?
    {
      var job := WriteJob(write);
      var ok := SyncLocked(true, upToDate, job);
      if !ok { return Failed; }
      ok := RunGit(Callback, job);
      if !ok { return Failed; }
      ok := RunGit(Status, job);
      if !ok { return Failed; }
      var changed := clone.work != TreeOf(clone.head);
      if !changed {
        return Unchanged;
      }
      ok := Publish(write);
      return if ok then Pushed else Failed;
    }

    /** Commits the worktree on top of the branch and pushes. */
    method Publish(write: Write) returns (ok: bool)
      requires clone.head == remote
      modifies this
      ensures var after := old(remote) + [Commit(old(clone).work, Some(write))];
              && (remote == old(remote) || remote == after)
              && (ok ==> remote == after && clone == old(clone).(index := old(clone).work, head := after, origin := after))
      ensures NeverFails(old(answers), 3) ==> ok
    {
      var job := WriteJob(write);
      ok := RunGit(Add, job);
      if !ok { return; }
      ok := RunGit(MakeCommit, job);
      if !ok { return; }
      ok := RunGit(Push, job);
    }
  }

  /** What a write leaves is a fold again: no other write is lost, and this one is on the branch once. */
  lemma WriteExtendsFold(remote: History, write: Write)
    requires IsFold(remote) && !Contains(remote, write.id) && CommitOf(remote, write).Some?
    ensures var after := remote + [CommitOf(remote, write).value];
            && IsFold(after) && forall id :: Contains(after, id) <==> Contains(remote, id) || id == write.id
  {
    var after := remote + [CommitOf(remote, write).value];
    assert after[..|after| - 1] == remote;
    AcceptedProposal(remote, after, write);
  }
}
