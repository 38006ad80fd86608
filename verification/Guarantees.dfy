/** What holds in every reachable state, under every interleaving. */
module Guarantees {
  import opened Types
  import opened Packing
  import opened Errors
  import opened Fees
  import opened Tasks
  import opened Protocol

  /** As long as no client has dropped its request with the send in flight, and unless the token
      has fired in a world where one poll can both get the nonce and sign, the log carries
      `n0, n0 + 1, n0 + 2, ...` in order: no gap after a failed send, no repeat, and only from
      submitting requests, each of which appears at most once. */
  lemma NoncesInOrder(w: World, s: State)
    requires Reachable(w, s) && !Orphaned(s) && !(Hasty(w) && s.cancelled)
    ensures s.pending == w.firstNonce + |s.log|
    ensures forall k :: 0 <= k < |s.log| ==> s.log[k].tx.nonce == w.firstNonce + k
    ensures forall k :: 0 <= k < |s.log| ==>
              s.log[k].task < |s.tasks| && s.tasks[s.log[k].task].request.submit
    ensures forall j, k :: 0 <= j < k < |s.log| ==> s.log[j].task != s.log[k].task
  {
    hide Sound, StageOk, Reachable;
    ReachableInv(w, s);
    forall k | 0 <= k < |s.log|
      ensures s.log[k].task < |s.tasks| && s.tasks[s.log[k].task].request.submit
    {
      assert TaskOk(w.config, s.tasks[s.log[k].task]);
    }
  }

  lemma NoOrphans(w: World, s: State)
    requires Reachable(w, s) && !w.dropsSends
    ensures !Orphaned(s)
  {
    hide Reachable;
    ReachableInv(w, s);
  }

  /** The lock is held exactly by the submitting request between acquiring it and leaving the
      send; in particular never during the receipt wait, and by nobody once all are done. */
  lemma LockDiscipline(w: World, s: State)
    requires Reachable(w, s)
    ensures s.lock.Some? ==> s.lock.value < |s.tasks|
    ensures forall i :: 0 <= i < |s.tasks| ==> (s.lock == Some(i) <==> Critical(s.tasks[i]))
    ensures (forall i :: 0 <= i < |s.tasks| ==> s.tasks[i].stage.Receipt? || s.tasks[i].stage.Done?) ==> s.lock.None?
  {
    hide Sound, StageOk, Reachable, LogOk, NonceOk, CancelOk, DropOk;
    ReachableInv(w, s);
    forall i | 0 <= i < |s.tasks| ensures s.lock == Some(i) <==> Critical(s.tasks[i]) {
      assert TaskOk(w.config, s.tasks[i]);
    }
  }

  /** A finished request told its client the truth: at most one broadcast, none in sign-only
      mode or under a code that promises silence; a transaction hash in an error, or a
      successful submit, means the execution layer has accepted exactly that transaction.
      A response's hash `i` was asked about the packing of operation `i`. It never panicked
      and never complained about the range of the outer fees. */
  lemma HonestOutcome(w: World, s: State, i: nat)
    requires Reachable(w, s) && i < |s.tasks|
    ensures var t := s.tasks[i];
            && t.sends <= 1
            && (!t.request.submit ==> t.sends == 0)
            && (t.stage.Done? ==>
                  && !t.stage.outcome.Panicked?
                  && (t.stage.outcome.Returned? ==>
                        match t.stage.outcome.result
                        case Ok(resp) =>
                          && SoundResponse(w.config, t.request, resp)
                          && (t.request.submit ==> Entry(i, resp.hash) in s.log)
                        case Err(e) =>
                          && (NothingSentCode(Classify(e).code) ==> t.sends == 0)
                          && (Classify(e).txHash.Some? ==> Entry(i, Classify(e).txHash.value) in s.log)
                          && !(e.InvalidUserOp? && !e.reason.TipAboveCap?)))
  {
    hide Sound, Planned, Absorbed, Examining, NonceOk, DropOk, SoundResponse, Reachable;
    ReachableInv(w, s);
    assert TaskOk(w.config, s.tasks[i]);
  }

  lemma AcceptedSound(w: World, s: State, k: nat)
    requires Reachable(w, s) && k < |s.log|
    ensures s.log[k].task < |s.tasks| && Sound(w.config, s.tasks[s.log[k].task].request, s.log[k].tx)
  {
    hide Sound, StageOk, NonceOk, Reachable;
    ReachableInv(w, s);
    assert TaskOk(w.config, s.tasks[s.log[k].task]);
  }

  /** Every accepted transaction, in every run, wraps exactly the packed operations of its
      request, and at every base fee costs the sequencer per gas at most what each of
      those operations pays, as decoded from the packed bytes. */
  lemma AcceptedReimburses(w: World, s: State, k: nat, j: nat, b: nat)
    requires Reachable(w, s) && k < |s.log| && j < |s.log[k].tx.ops|
    ensures var tx := s.log[k].tx;
            && s.log[k].task < |s.tasks|
            && |tx.ops| == |s.tasks[s.log[k].task].request.ops|
            && Pack(s.tasks[s.log[k].task].request.ops[j]) == Ok(tx.ops[j])
            && var (tip, cap) := UnpackUints(tx.ops[j].gasFees);
               PriceAt(tx.maxFeePerGas, tx.maxPriorityFeePerGas, b) <= PriceAt(cap, tip, b)
  {
    AcceptedSound(w, s, k);
    SoundReimburses(w.config, s.tasks[s.log[k].task].request, s.log[k].tx, j, b);
  }
}
