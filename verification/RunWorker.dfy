/**
 The worker's way through a cancellation: confirm it, or first confirm from their receipts the effects that
 did happen.
 */
module RunWorkers {
  import opened States
  import opened Wrappers
  import opened Vaults
  import opened Records
  import opened ActionProtocol
  import opened Evolution
  import opened Attempts
  import opened RunControllers
  import opened ResourceStores
  import Runs = RunTransactions
  import Acts = ActionTransactions

  /** The Action still runs, and the ledger holds the receipt of its effect. */
  predicate Provable(s: Store, v: Vault, owner: Owner, a: Id, claim: Claim) {
    && a in s.actions && s.actions[a].slot.run == claim.run && s.actions[a].status.Running?
    && Acts.ReconcileLocal(s, v, owner, a, claim).result == Ok(true)
  }

  /** What both states agree on: everything but the rows of these Actions and the Runs' logs. */
  predicate SameBut(s: Store, s': Store, changed: set<Id>) {
    && s'.now == s.now && s'.jobs == s.jobs && s'.runs.Keys == s.runs.Keys && s'.actions.Keys == s.actions.Keys
    && (forall r :: r in s.runs ==>
          s'.runs[r].status == s.runs[r].status && s'.runs[r].owner == s.runs[r].owner
            && s'.runs[r].parent == s.runs[r].parent)
    && (forall a :: a in s.actions && a !in changed ==> s'.actions[a] == s.actions[a])
  }

  /** The Actions whose receipts have been read are closed as succeeded. */
  predicate Confirmed(s: Store, s': Store, v: Vault, owner: Owner, read: set<Id>, claim: Claim) {
    && SameBut(s, s', set a | a in read && Provable(s, v, owner, a, claim))
    && (forall a :: a in read && Provable(s, v, owner, a, claim) ==>
          a in s'.actions && s'.actions[a].slot == s.actions[a].slot && s'.actions[a].status.Succeeded?)
  }

  /** Reading a receipt depends on nothing the others changed. */
  lemma ReadsAlike(s: Store, s': Store, v: Vault, owner: Owner, a: Id, claim: Claim, changed: set<Id>)
    requires SameBut(s, s', changed) && a !in changed && a in s.actions
    ensures Acts.ReconcileLocal(s', v, owner, a, claim).result == Acts.ReconcileLocal(s, v, owner, a, claim).result
  {
  }

  /** It closes the Action exactly when it succeeds, and touches nothing else. */
  lemma ReadsOne(s: Store, v: Vault, owner: Owner, a: Id, claim: Claim)
    requires a in s.actions && s.actions[a].status.Running?
    ensures var c := Acts.ReconcileLocal(s, v, owner, a, claim);
      && (c.result == Ok(true) ==>
            SameBut(s, c.store, {a}) && c.store.actions[a].slot == s.actions[a].slot
              && c.store.actions[a].status.Succeeded?)
      && (c.result != Ok(true) ==> c.store == s)
  {
  }

  /** While a cancellation is under way and the ledger of attempts agrees, reading a receipt does not fail. */
  lemma ReadsCleanly(s: Store, v: Vault, owner: Owner, a: Id, claim: Claim)
    requires Sound(s) && LedgersAgree(s) && s.Fence(Some(claim), CancelRun, claim.run) && s.Owns(owner, claim.run)
    requires a in s.actions && s.actions[a].slot.run == claim.run && s.actions[a].status.Running?
    ensures var r := Acts.ReconcileLocal(s, v, owner, a, claim).result;
      r.Ok? || (r == Err(VersionConflict) && !s.runs[claim.run].status.Cancelling?)
  {
    assert ActionRefsOk(s, a);
    assert LedgerAgrees(ViewOf(s, a));
    LatestIsLast(s.actions[a].attempts);
  }

  /** One more receipt has been read. */
  lemma ConfirmedOne(s: Store, s': Store, v: Vault, owner: Owner, read: set<Id>, a: Id, claim: Claim)
    requires Confirmed(s, s', v, owner, read, claim) && a in s.actions && a !in read
    requires s.actions[a].slot.run == claim.run && s.actions[a].status.Running?
    ensures var c := Acts.ReconcileLocal(s', v, owner, a, claim);
      && c.result == Acts.ReconcileLocal(s, v, owner, a, claim).result
      && Confirmed(s, c.store, v, owner, read + {a}, claim)
  {
    var changed := set b | b in read && Provable(s, v, owner, b, claim);
    ReadsAlike(s, s', v, owner, a, claim, changed);
    ReadsOne(s', v, owner, a, claim);
    var c := Acts.ReconcileLocal(s', v, owner, a, claim);
    assert Provable(s, v, owner, a, claim) <==> c.result == Ok(true);
    hide Acts.ReconcileLocal, Provable, SameBut;
    if c.result == Ok(true) {
      AddProved(s, s', c.store, v, owner, read, a, claim);
    } else {
      assert (set b | b in read + {a} && Provable(s, v, owner, b, claim)) == changed;
    }
  }

  lemma AddProved(s: Store, s': Store, s'': Store, v: Vault, owner: Owner, read: set<Id>, a: Id, claim: Claim)
    requires Confirmed(s, s', v, owner, read, claim) && a in s.actions && a !in read && Provable(s, v, owner, a, claim)
    requires SameBut(s', s'', {a}) && a in s''.actions
    requires s''.actions[a].slot == s.actions[a].slot && s''.actions[a].status.Succeeded?
    ensures Confirmed(s, s'', v, owner, read + {a}, claim)
  {
    hide Provable;
    var changed := set b | b in read && Provable(s, v, owner, b, claim);
    SameInTurn(s, s', s'', changed, {a});
    assert (set b | b in read + {a} && Provable(s, v, owner, b, claim)) == changed + {a};
    assert forall b :: b in s'.actions && b != a ==> b in s''.actions && s''.actions[b] == s'.actions[b];
    hide SameBut;
  }

  lemma SameInTurn(s: Store, s': Store, s'': Store, some: set<Id>, more: set<Id>)
    requires SameBut(s, s', some) && SameBut(s', s'', more)
    ensures SameBut(s, s'', some + more)
  {
  }

  /** A Run of which every unresolved Action is proved has none left. */
  lemma ResolvedIffProvable(s: Store, s': Store, v: Vault, owner: Owner, claim: Claim)
    requires Confirmed(s, s', v, owner, s.actions.Keys, claim)
    ensures s'.HasUnresolvedActions(claim.run)
       <==> exists a :: a in s.actions && s.actions[a].slot.run == claim.run && !s.actions[a].status.Settled()
                        && !Provable(s, v, owner, a, claim)
    ensures s'.HasNonterminalChildren(claim.run) <==> s.HasNonterminalChildren(claim.run)
  {
    hide Provable;
  }

  /** Of Actions that are not running nothing is read. */
  lemma NothingRead(s: Store, v: Vault, owner: Owner, read: set<Id>, claim: Claim)
    requires read <= s.actions.Keys
    requires forall a :: a in read && s.actions[a].slot.run == claim.run ==> !s.actions[a].status.Running?
    ensures Confirmed(s, s, v, owner, read, claim)
  {
    hide Acts.ReconcileLocal;
    assert (set a | a in read && Provable(s, v, owner, a, claim)) == {};
  }

  /** Only a cancelling Run has provable Actions, so a list cut short elsewhere misses nothing. */
  lemma NothingMissed(s: Store, s': Store, v: Vault, owner: Owner, read: set<Id>, all: set<Id>, claim: Claim)
    requires Confirmed(s, s', v, owner, read, claim) && claim.run in s.runs && !s.runs[claim.run].status.Cancelling?
    ensures Confirmed(s, s', v, owner, all, claim)
  {
    NothingProvable(s, v, owner, claim);
    hide Provable;
    assert (set a | a in read && Provable(s, v, owner, a, claim)) == {} ==
             (set a | a in all && Provable(s, v, owner, a, claim));
  }

  lemma NothingProvable(s: Store, v: Vault, owner: Owner, claim: Claim)
    requires claim.run in s.runs && !s.runs[claim.run].status.Cancelling?
    ensures forall a :: !Provable(s, v, owner, a, claim)
  {
  }

  /** Every Action of the Run that is not settled has its receipt in the ledger. */
  predicate AllProvable(s: Store, v: Vault, owner: Owner, claim: Claim) {
    forall a :: a in s.actions && s.actions[a].slot.run == claim.run && !s.actions[a].status.Settled() ==>
      Provable(s, v, owner, a, claim)
  }

  /** Provable effects are recorded as succeeded; no other Action changes. */
  predicate Confirms(s: Store, s': Store, v: Vault, owner: Owner, claim: Claim) {
    && s'.actions.Keys == s.actions.Keys
    && (forall a :: a in s.actions ==>
          if Provable(s, v, owner, a, claim) then s'.actions[a].status.Succeeded? else s'.actions[a] == s.actions[a])
  }

  class RunWorker {
    const controller: RunController
    const store: ResourceStore

    constructor (controller: RunController, store: ResourceStore)
      ensures this.controller == controller && this.store == store
    {
      this.controller, this.store := controller, store;
    }

    /** Read the receipts of all Actions of the Run that are still running; stop at the first conflict. */
    method ReadReceipts(owner: Owner, claim: Claim) returns (ok: bool)
      requires Sound(controller.State()) && LedgersAgree(controller.State())
      requires controller.State().Fence(Some(claim), CancelRun, claim.run) && controller.State().Owns(owner, claim.run)
      modifies controller
      ensures Confirmed(old(controller.State()), controller.State(), store.State(), owner, old(controller.actions).Keys,
                        claim)
      ensures !ok ==> !old(controller.State()).runs[claim.run].status.Cancelling?
    {
      hide Acts.ReconcileLocal, Provable, Confirmed, SameBut, Sound, LedgersAgree, Store.Fence;
      ghost var s, v := controller.State(), store.State();
      var left := set a | a in controller.actions && controller.actions[a].slot.run == claim.run
        && controller.actions[a].status.Running?;
      ghost var listed := left;
      NothingRead(s, v, owner, s.actions.Keys - left, claim);
      while left != {}
        invariant left <= listed && store.State() == v
        invariant Confirmed(s, controller.State(), v, owner, s.actions.Keys - left, claim)
        decreases left
      {
        var a :| a in left;
        ConfirmedOne(s, controller.State(), v, owner, s.actions.Keys - left, a, claim);
        ReadsCleanly(s, v, owner, a, claim);
        var read := controller.ReconcileLocal(store.State(), owner, a, claim);
        assert s.actions.Keys - left + {a} == s.actions.Keys - (left - {a});
        left := left - {a};
        if read.Err? {
          NothingMissed(s, controller.State(), v, owner, s.actions.Keys - left, s.actions.Keys, claim);
          return false;
        }
      }
      assert s.actions.Keys - left == s.actions.Keys;
      ok := true;
    }

    /**
     Confirm the cancellation; where that conflicts, first confirm what the receipts prove, and try again.
     The second try succeeds exactly when every Action still unresolved had its receipt and no child is
     live. Either way all provable effects are recorded as succeeded, and nothing else has changed.
     */
    method FinishCancellation(owner: Owner, claim: Claim) returns (r: Result<RunStatus>)
      requires Sound(controller.State()) && LedgersAgree(controller.State())
      modifies controller
      ensures var s, s', v := old(controller.State()), controller.State(), store.State();
        var first := Runs.FinalizeCancellation(s, owner, claim.run, Some(claim));
        if first.result != Err(VersionConflict) then Commit(s', r) == first
        else
          && Confirms(s, s', v, owner, claim)
          && (r == Ok(RunStatus.Cancelled) || r == Err(VersionConflict))
          && (r.Ok? <==> claim.run in s.runs && s.runs[claim.run].status.Cancelling? && AllProvable(s, v, owner, claim)
                         && !s.HasNonterminalChildren(claim.run))
          && (r.Ok? ==> claim.run in s'.runs && s'.runs[claim.run].status.Cancelled?)
    {
      hide Acts.ReconcileLocal, Provable, Sound, LedgersAgree, LeaseMatches, Store.HasUnresolvedActions,
           Store.HasNonterminalChildren;
      ghost var s, v := controller.State(), store.State();
      r := controller.FinalizeCancellation(owner, claim.run, Some(claim));
      if r != Err(VersionConflict) { return r; }
      var read := ReadReceipts(owner, claim);
      if !read { return Err(VersionConflict); }
      ResolvedIffProvable(s, controller.State(), v, owner, claim);
      r := controller.FinalizeCancellation(owner, claim.run, Some(claim));
    }
  }
}
