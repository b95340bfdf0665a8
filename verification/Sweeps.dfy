/** The descendant sweep of a cancellation: why one pass in order of depth stops exactly the subtree. */
module Sweeps {
  import opened States
  import opened Wrappers
  import opened Vaults
  import opened Records
  import opened Evolution
  import opened RunTransactions

  /** The Runs of a list that hang below `root`, and `root` itself. */
  ghost function Reached(runs: map<Id, Run>, root: Id, order: seq<Id>): set<Id>
    requires root in runs
  {
    {root} + set r | r in order && Below(runs, root, r)
  }

  ghost function StoppingIn(runs: map<Id, Run>, ids: set<Id>): set<Id>
    requires ids <= runs.Keys
  {
    set r | r in ids && !runs[r].status.Terminal() && !runs[r].status.Cancelling?
  }

  /** The list holds every Run of the owner that has a parent, shallow ones first. */
  ghost predicate ByDepth(runs: map<Id, Run>, owner: Owner, order: seq<Id>) {
    && (forall r :: r in order <==> r in runs && runs[r].parent.Some? && runs[r].owner == owner)
    && (forall i, j :: 0 <= i < j < |order| ==> order[i] != order[j] && runs[order[i]].depth <= runs[order[j]].depth)
  }

  lemma {:induction false} BelowSameOwner(s: Store, root: Id, r: Id)
    requires Sound(s) && root in s.runs && Below(s.runs, root, r)
    ensures s.runs[r].owner == s.runs[root].owner
    ensures s.runs[root].depth <= s.runs[r].depth
            && (r != root ==> s.runs[r].parent.Some? && s.runs[root].depth < s.runs[r].depth)
    decreases s.runs[r].depth
  {
    if r != root {
      assert ParentOk(s, r);
      BelowSameOwner(s, root, s.runs[r].parent.value);
    }
  }

  /** When the sweep comes to a Run, its parent has been reached exactly if the Run is in the subtree. */
  lemma ParentReachedIffBelow(s: Store, root: Id, order: seq<Id>, k: nat)
    requires Sound(s) && root in s.runs && ByDepth(s.runs, s.runs[root].owner, order) && k < |order|
    ensures order[k] in s.runs && s.runs[order[k]].parent.Some?
    ensures s.runs[order[k]].parent.value in Reached(s.runs, root, order[..k]) <==>
              Below(s.runs, root, order[k]) && order[k] != root
  {
    var c := order[k];
    assert c in order;
    var p := s.runs[c].parent.value;
    assert ParentOk(s, c);
    if p in Reached(s.runs, root, order[..k]) {
      assert Below(s.runs, root, p);
      BelowSameOwner(s, root, p);
    }
    if Below(s.runs, root, c) && c != root && p != root {
      BelowSameOwner(s, root, p);
      assert p in order;
      var i :| 0 <= i < |order| && order[i] == p;
      assert i < k;
      assert p == order[..k][i];
    }
  }

  /** Everything below the root is in the list, so the whole list reaches the whole subtree. */
  lemma WholeListReachesSubtree(s: Store, root: Id, order: seq<Id>)
    requires Sound(s) && root in s.runs && ByDepth(s.runs, s.runs[root].owner, order)
    ensures StoppingIn(s.runs, Reached(s.runs, root, order)) == Stopping(s.runs, root)
  {
    forall r | r in s.runs && Below(s.runs, root, r) ensures r in Reached(s.runs, root, order) {
      BelowSameOwner(s, root, r);
    }
  }

  /** What has been reached so far is part of the subtree. */
  lemma ReachedIsBelow(s: Store, root: Id, order: seq<Id>)
    requires root in s.runs && Reached(s.runs, root, order) <= s.runs.Keys
    ensures StoppingIn(s.runs, Reached(s.runs, root, order)) <= Stopping(s.runs, root)
  {
  }

  lemma ReachedGrows(s: Store, root: Id, order: seq<Id>, k: nat)
    requires root in s.runs && k < |order|
    ensures Reached(s.runs, root, order[..k + 1])
         == Reached(s.runs, root, order[..k]) + (if Below(s.runs, root, order[k]) then {order[k]} else {})
  {
    assert order[..k + 1] == order[..k] + [order[k]];
  }

  /** The sweep comes to every Run at most once, so it finds the status the Run had before. */
  lemma NotStoppedYet(s: Store, root: Id, order: seq<Id>, k: nat)
    requires Sound(s) && root in s.runs && ByDepth(s.runs, s.runs[root].owner, order) && k < |order|
    requires Reached(s.runs, root, order[..k]) <= s.runs.Keys
    ensures order[k] in s.runs && s.runs[order[k]].parent.Some?
    ensures var now := StopRuns(s.runs, StoppingIn(s.runs, Reached(s.runs, root, order[..k])));
      && order[k] in now && now[order[k]].parent == s.runs[order[k]].parent
      && (order[k] != root ==>
            && order[k] !in Reached(s.runs, root, order[..k])
            && order[k] !in StoppingIn(s.runs, Reached(s.runs, root, order[..k]))
            && now[order[k]].status == s.runs[order[k]].status)
  {
    hide Sound, Below;
    assert order[k] in order;
  }

  /** Before the pass only the root has been reached. */
  lemma RootReached(runs: map<Id, Run>, root: Id, order: seq<Id>)
    requires root in runs && !runs[root].status.Terminal() && !runs[root].status.Cancelling?
    ensures Reached(runs, root, order[..0]) == {root} && StoppingIn(runs, {root}) == {root}
  {
  }

  lemma StoppingGrows(runs: map<Id, Run>, ids: set<Id>, r: Id)
    requires ids <= runs.Keys && r in runs && r !in ids
    ensures StoppingIn(runs, ids + {r})
         == if runs[r].status.Terminal() || runs[r].status.Cancelling? then StoppingIn(runs, ids)
         else StoppingIn(runs, ids) + {r}
  {
  }

  // ---- Stopping one more Run ----

  lemma StopOneMoreRun(runs: map<Id, Run>, stopped: set<Id>, r: Id)
    requires r in runs && r !in stopped
    ensures StopRuns(runs, stopped)[r := Stopped(StopRuns(runs, stopped)[r])] == StopRuns(runs, stopped + {r})
  {
  }

  lemma SweepOneMoreRun(actions: map<Id, Action>, swept: set<Id>, r: Id)
    ensures SweepActions(SweepActions(actions, swept), {r}) == SweepActions(actions, swept + {r})
  {
  }

  lemma OneMoreFresh(jobs: map<Id, Job>, stopped: set<Id>, jobOf: map<Id, Id>, now: nat, r: Id)
    requires FreshJobs(jobs, stopped, jobOf) && r !in stopped
    ensures r in jobOf && jobOf[r] !in CancelJobs(jobs, stopped, jobOf, now) <==> FreshJobs(jobs, stopped + {r}, jobOf)
  {
    if r in jobOf && jobOf[r] !in CancelJobs(jobs, stopped, jobOf, now) {
      forall q | q in stopped ensures jobOf[q] != jobOf[r] {
        assert jobOf[q] in CancelJobs(jobs, stopped, jobOf, now);
      }
    }
    if FreshJobs(jobs, stopped + {r}, jobOf) {
      assert r in stopped + {r};
    }
  }

  lemma MergeUpdate(jobs: map<Id, Job>, more: map<Id, Job>, k: Id, job: Job)
    ensures (jobs + more)[k := job] == jobs + more[k := job]
  {
  }

  /** The cancel jobs themselves. */
  ghost function Forked(stopped: set<Id>, jobOf: map<Id, Id>, now: nat): map<Id, Job>
    requires stopped <= jobOf.Keys && forall q, r :: q in stopped && r in stopped && jobOf[q] == jobOf[r] ==> q == r
  {
    map q | q in stopped :: jobOf[q] := NewJob(CancelRun, q, None, now)
  }

  lemma CancelJobsAreForked(jobs: map<Id, Job>, stopped: set<Id>, jobOf: map<Id, Id>, now: nat)
    requires FreshJobs(jobs, stopped, jobOf)
    ensures CancelJobs(jobs, stopped, jobOf, now) == jobs + Forked(stopped, jobOf, now)
  {
  }

  lemma OneMoreForked(stopped: set<Id>, jobOf: map<Id, Id>, now: nat, r: Id)
    requires stopped + {r} <= jobOf.Keys
    requires forall p, q :: p in stopped + {r} && q in stopped + {r} && jobOf[p] == jobOf[q] ==> p == q
    ensures Forked(stopped + {r}, jobOf, now) ==
              Forked(stopped, jobOf, now)[jobOf[r] := NewJob(CancelRun, r, None, now)]
  {
    hide NewJob;
    assert r in stopped + {r};
    var before, after := Forked(stopped, jobOf, now), Forked(stopped + {r}, jobOf, now);
    var one := before[jobOf[r] := NewJob(CancelRun, r, None, now)];
    forall q | q in stopped ensures jobOf[q] in before && jobOf[q] in after && after[jobOf[q]] == before[jobOf[q]] {
      assert q in stopped + {r};
    }
    assert jobOf[r] in after && after[jobOf[r]] == NewJob(CancelRun, r, None, now);
    assert after.Keys == one.Keys;
  }

  lemma OneMoreCancelJob(jobs: map<Id, Job>, stopped: set<Id>, jobOf: map<Id, Id>, now: nat, r: Id)
    requires FreshJobs(jobs, stopped, jobOf) && FreshJobs(jobs, stopped + {r}, jobOf)
    ensures CancelJobs(jobs, stopped, jobOf, now)[jobOf[r] := NewJob(CancelRun, r, None, now)]
         == CancelJobs(jobs, stopped + {r}, jobOf, now)
  {
    hide CancelJobs, Forked, NewJob;
    CancelJobsAreForked(jobs, stopped, jobOf, now);
    CancelJobsAreForked(jobs, stopped + {r}, jobOf, now);
    assert r in stopped + {r};
    OneMoreForked(stopped, jobOf, now, r);
    MergeUpdate(jobs, Forked(stopped, jobOf, now), jobOf[r], NewJob(CancelRun, r, None, now));
  }

  lemma FreshSubset(jobs: map<Id, Job>, some: set<Id>, all: set<Id>, jobOf: map<Id, Id>)
    requires some <= all && FreshJobs(jobs, all, jobOf)
    ensures FreshJobs(jobs, some, jobOf)
  {
  }

  // ---- What a cancellation leaves ----

  /**
   A Run that was live in the subtree: stopping, told so by one event and one new cancel job, with nothing
   left to dispatch.
   */
  ghost predicate NewlyStopping(s: Store, s': Store, r: Id)
    requires r in s.runs && r in s'.runs
  {
    && s'.runs[r].status.Cancelling?
    && s'.runs[r].events == s.runs[r].events + [Event(s.runs[r].eventSeq + 1, RunCancellationRequested, None)]
    && (exists j :: CancelJobFor(s, s', r, j))
    && (forall j, k :: CancelJobFor(s, s', r, j) && CancelJobFor(s, s', r, k) ==> j == k)
    && (forall a :: a in s'.actions && s'.actions[a].slot.run == r ==> !s'.actions[a].status.Undispatched())
  }

  predicate CancelJobFor(s: Store, s': Store, r: Id, j: Id) {
    j in s'.jobs && j !in s.jobs && s'.jobs[j].kind.CancelRun? && s'.jobs[j].run == r && s'.jobs[j].status.Ready?
  }

  lemma CancelJobsAreOnePerRun(s: Store, s': Store, root: Id, jobOf: map<Id, Id>, r: Id)
    requires FreshJobs(s.jobs, Stopping(s.runs, root), jobOf) && r in Stopping(s.runs, root)
    requires s'.jobs == CancelJobs(s.jobs, Stopping(s.runs, root), jobOf, s.now)
    ensures CancelJobFor(s, s', r, jobOf[r])
    ensures forall j :: CancelJobFor(s, s', r, j) ==> j == jobOf[r]
  {
    hide Below;
    assert jobOf[r] in s'.jobs;
  }

  lemma SubtreeStops(s: Store, s': Store, root: Id, jobOf: map<Id, Id>)
    requires FreshJobs(s.jobs, Stopping(s.runs, root), jobOf)
    requires s' == StopSubtree(s, root, jobOf).(admissions := s'.admissions)
    ensures forall r :: r in s.runs && Below(s.runs, root, r) ==>
              r in s'.runs && (s'.runs[r].status.Terminal() || s'.runs[r].status.Cancelling?)
    ensures forall r :: r in Stopping(s.runs, root) ==> NewlyStopping(s, s', r)
  {
    hide CancelJobs;
    forall r | r in Stopping(s.runs, root) ensures NewlyStopping(s, s', r) {
      CancelJobsAreOnePerRun(s, s', root, jobOf, r);
      assert CancelJobFor(s, s', r, jobOf[r]);
    }
  }

  lemma OthersUntouched(s: Store, s': Store, root: Id, jobOf: map<Id, Id>)
    requires FreshJobs(s.jobs, Stopping(s.runs, root), jobOf)
    requires s' == StopSubtree(s, root, jobOf).(admissions := s'.admissions)
    ensures s'.runs.Keys == s.runs.Keys
    ensures forall r :: r in s.runs && r !in Stopping(s.runs, root) ==> s'.runs[r] == s.runs[r]
    ensures forall a :: a in s.actions && s.actions[a].slot.run !in Stopping(s.runs, root) ==>
              a in s'.actions && s'.actions[a] == s.actions[a]
    ensures forall j :: j in s.jobs ==> j in s'.jobs && s'.jobs[j] == s.jobs[j]
  {
    hide Below;
  }

  /**
   A first cancellation of a live Run: afterwards its whole subtree is over or stopping; every Run that
   was live there has one new event, one new cancel job and nothing left to dispatch; everything else,
   Runs outside, their Actions and all older jobs, is as it was.
   */
  lemma CancellationReachesExactlyTheSubtree(s: Store, owner: Owner, root: Id, key: nat, hash: nat, jobOf: map<Id, Id>)
    requires RequestCancellation(s, owner, root, key, hash, jobOf).result == Ok(Accepted(root, false))
    requires !s.runs[root].status.Cancelling?
    ensures var s' := RequestCancellation(s, owner, root, key, hash, jobOf).store;
      && s'.runs.Keys == s.runs.Keys
      && (forall r :: r in s.runs && Below(s.runs, root, r) ==>
          s'.runs[r].status.Terminal() || s'.runs[r].status.Cancelling?)
      && (forall r :: r in Stopping(s.runs, root) ==> NewlyStopping(s, s', r))
      && (forall r :: r in s.runs && r !in Stopping(s.runs, root) ==> s'.runs[r] == s.runs[r])
      && (forall a :: a in s.actions && s.actions[a].slot.run !in Stopping(s.runs, root) ==>
          a in s'.actions && s'.actions[a] == s.actions[a])
      && (forall j :: j in s.jobs ==> j in s'.jobs && s'.jobs[j] == s.jobs[j])
  {
    var s' := RequestCancellation(s, owner, root, key, hash, jobOf).store;
    SubtreeStops(s, s', root, jobOf);
    OthersUntouched(s, s', root, jobOf);
  }

  /** The sweep never stops at the transition table, whatever the statuses in the tree. */
  lemma CancellationNeverMeetsTheTable(s: Store, owner: Owner, root: Id, key: nat, hash: nat, jobOf: map<Id, Id>)
    ensures var result := RequestCancellation(s, owner, root, key, hash, jobOf).result;
      result.Err? ==> result.error in {NotFound, IdempotencyConflict, AlreadyTerminal, DuplicateKey}
    ensures forall r :: r in Stopping(s.runs, root) ==> s.runs[r].status.CanBecome(RunStatus.Cancelling)
  {
    hide Below;
  }
}
