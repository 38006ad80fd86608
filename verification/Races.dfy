/** Runs that break the nonce discipline, and exactly which worlds have them. */
module Races {
  import opened Types
  import BigEndian
  import opened Packing
  import opened Validation
  import opened Errors
  import opened Fees
  import opened Prefund
  import opened Pipeline
  import opened Tasks
  import opened Protocol
  import opened Viability
  import opened LastPoll
  import Guarantees

  ghost predicate DistinctNonces(s: State) {
    forall j, k :: 0 <= j < k < |s.log| ==> s.log[j].tx.nonce != s.log[k].tx.nonce
  }

  ghost predicate AlwaysDistinct(w: World) {
    forall s :: Reachable(w, s) ==> DistinctNonces(s)
  }

  /** The configuration admits some batch at all. */
  predicate Usable(c: Config) {
    c.maxBatchSize >= 1 && c.minPriorityFee < TWO_128
  }

  /** The cheapest acceptable operation, in submit mode. */
  function Probe(c: Config): Request {
    Request([Bid(c.minPriorityFee, c.minPriorityFee)], c.chainId, true)
  }

  function ProbePacked(c: Config): PackedUserOp
    requires Usable(c)
  {
    ProbePacks(c);
    Pack(Probe(c).ops[0]).value
  }

  lemma ProbePacks(c: Config)
    requires Usable(c)
    ensures var op := Probe(c).ops[0];
            && Pack(op).Ok?
            && QuotePrefund(op, Pack(op).value) == Ok(PrefundQuote(ZERO_ADDRESS, 0))
  {
    hide PackPair, RequiredPrefund, BigEndian.ToBE, BigEndian.FromBE, BigEndian.BitLen;
    var op := Probe(c).ops[0];
    PackSucceedsIff(op);
    RequiredPrefundExact(op, 0, 0);
    assert EffectivePaymasterAndData(op) == Ok([]);
  }

  function ProbePlan(c: Config): Plan
    requires Usable(c)
  {
    Plan(Quote(0, 0, 0),
         Batch([ProbePacked(c)], [UserOpHash(ProbePacked(c), NO_HASH)],
               Some(c.minPriorityFee), Some(c.minPriorityFee)),
         0, GasWithMargin(0, c.gasMarginPct), c.minPriorityFee, c.minPriorityFee)
  }

  /** The probe inside a poll, at a given stage, before anything is sent. */
  function ProbeAt(c: Config, stage: Stage, guard: bool): Task {
    Task(Probe(c), stage, true, true, guard, NotSent, 0)
  }

  /** The same at the beginning of a poll. */
  function ProbePolled(c: Config, stage: Stage, guard: bool): Task {
    ProbeAt(c, stage, guard).(issuedNow := false)
  }

  lemma ProbeBuilds(c: Config)
    requires Usable(c)
    ensures var q, p := Quote(0, 0, 0), ProbePacked(c);
            var due := PrefundQuote(ZERO_ADDRESS, 0);
            var full := ProbePlan(c).batch;
            && Deliver(c, Polled(NewTask(Probe(c)), false), Started) == ProbeAt(c, BaseFee, false)
            && Deliver(c, ProbePolled(c, BaseFee, false), BaseFeeIs(Ok(0))) == ProbeAt(c, SuggestedTip(0), false)
            && Deliver(c, ProbePolled(c, SuggestedTip(0), false), TipIs(Ok(0), 0)) ==
               ProbeAt(c, Deposit(q, EMPTY_BATCH, p, due), false)
            && Deliver(c, ProbePolled(c, Deposit(q, EMPTY_BATCH, p, due), false), DepositIs(Ok(0))) ==
               ProbeAt(c, Simulation(q, EMPTY_BATCH, p), false)
            && Deliver(c, ProbePolled(c, Simulation(q, EMPTY_BATCH, p), false), SimulationIs(Ok(NO_INFO))) ==
               ProbeAt(c, OpHash(q, EMPTY_BATCH, p), false)
            && Deliver(c, ProbePolled(c, OpHash(q, EMPTY_BATCH, p), false), HashIs(Ok(UserOpHash(p, NO_HASH)))) ==
               ProbeAt(c, GasEstimate(q, full), false)
            && Deliver(c, ProbePolled(c, GasEstimate(q, full), false), EstimateIs(Ok(0))) ==
               ProbeAt(c, LockWait(ProbePlan(c)), false)
  {
    hide Pack, QuotePrefund, Simulate, GasWithMargin;
    ProbePacks(c);
    AcceptsIff(NO_INFO, 0);
    var hash := UserOpHash(ProbePacked(c), NO_HASH);
    assert Admit(EMPTY_BATCH, Probe(c).ops[0], ProbePacked(c), hash) == ProbePlan(c).batch;
  }

  /** A poll ends and the next one begins. */
  lemma Repoll(w: World, s: State, i: nat)
    requires Reachable(w, s) && !s.cancelled && i < |s.tasks| && s.tasks[i].running && !s.tasks[i].stage.Done?
    ensures Reachable(w, s.(tasks := s.tasks[i := s.tasks[i].(issuedNow := false)]))
  {
    hide Reachable;
    var t := s.tasks[i];
    var left := s.(tasks := s.tasks[i := t.(running := false)]);
    var back := s.(tasks := s.tasks[i := t.(issuedNow := false)]);
    ReachStep(w, s, Suspend(i));
    assert Apply(w, s, Suspend(i)) == left;
    ReachStep(w, left, Poll(i));
    assert Apply(w, left, Poll(i)) == back;
  }

  /** One event of the probe, in a poll of its own, lifted to the whole system. */
  lemma ProbeStep(w: World, s: State, i: nat, ev: Event, stage: Stage, t': Task)
    requires i < |s.tasks| && !s.cancelled && !ev.LockGranted? && !stage.Done?
    requires Expects(ProbePolled(w.config, stage, false), ev)
    requires Reachable(w, s.(tasks := s.tasks[i := ProbeAt(w.config, stage, false)]))
    requires Deliver(w.config, ProbePolled(w.config, stage, false), ev) == t' && !t'.guard
    ensures Reachable(w, s.(tasks := s.tasks[i := t']))
  {
    hide Deliver, Reachable;
    var before := s.(tasks := s.tasks[i := ProbeAt(w.config, stage, false)]);
    var polled := s.(tasks := s.tasks[i := ProbePolled(w.config, stage, false)]);
    Repoll(w, before, i);
    assert before.tasks[i := ProbePolled(w.config, stage, false)] == polled.tasks;
    ReachStep(w, polled, Run(i, ev));
    assert polled.tasks[i := t'] == s.tasks[i := t'];
  }

  lemma ProbeStarts(w: World, s: State, i: nat)
    requires Reachable(w, s) && Usable(w.config) && !s.cancelled
    requires i < |s.tasks| && s.tasks[i] == NewTask(Probe(w.config))
    ensures Reachable(w, s.(tasks := s.tasks[i := ProbeAt(w.config, BaseFee, false)]))
  {
    hide Deliver, Reachable, ProbePlan, ProbePacked;
    ProbeBuilds(w.config);
    var polled := s.(tasks := s.tasks[i := Polled(s.tasks[i], false)]);
    ReachStep(w, s, Poll(i));
    assert Apply(w, s, Poll(i)) == polled;
    ReachStep(w, polled, Run(i, Started));
    assert polled.tasks[i := ProbeAt(w.config, BaseFee, false)] == s.tasks[i := ProbeAt(w.config, BaseFee, false)];
  }

  /** In every world the probe can get from its arrival to the lock. */
  lemma ProbeReachesLock(w: World, s: State, i: nat)
    requires Reachable(w, s) && Usable(w.config) && !s.cancelled
    requires i < |s.tasks| && s.tasks[i] == NewTask(Probe(w.config))
    ensures Reachable(w, s.(tasks := s.tasks[i := ProbeAt(w.config, LockWait(ProbePlan(w.config)), false)]))
  {
    hide Deliver, Reachable, ProbePlan, ProbePacked;
    var c := w.config;
    var q, p, due, full := Quote(0, 0, 0), ProbePacked(c), PrefundQuote(ZERO_ADDRESS, 0), ProbePlan(c).batch;
    var deposit, simulation := Deposit(q, EMPTY_BATCH, p, due), Simulation(q, EMPTY_BATCH, p);
    var hash, estimate, lock := OpHash(q, EMPTY_BATCH, p), GasEstimate(q, full), LockWait(ProbePlan(c));
    ProbeBuilds(c);
    ProbeStarts(w, s, i);
    ProbeStep(w, s, i, BaseFeeIs(Ok(0)), BaseFee, ProbeAt(c, SuggestedTip(0), false));
    ProbeStep(w, s, i, TipIs(Ok(0), 0), SuggestedTip(0), ProbeAt(c, deposit, false));
    ProbeStep(w, s, i, DepositIs(Ok(0)), deposit, ProbeAt(c, simulation, false));
    ProbeStep(w, s, i, SimulationIs(Ok(NO_INFO)), simulation, ProbeAt(c, hash, false));
    ProbeStep(w, s, i, HashIs(Ok(UserOpHash(p, NO_HASH))), hash, ProbeAt(c, estimate, false));
    ProbeStep(w, s, i, EstimateIs(Ok(0)), estimate, ProbeAt(c, lock, false));
  }

  function ProbeTx(c: Config, nonce: nat): Tx
    requires Usable(c)
  {
    OuterTx(c, ProbePlan(c), nonce)
  }

  /** The probe right after its broadcast. */
  function ProbeSent(c: Config, nonce: nat): Task
    requires Usable(c)
  {
    var tx := ProbeTx(c, nonce);
    Task(Probe(c), Sending(ProbePlan(c), tx), true, true, true, InFlight(tx), 1)
  }

  lemma ProbeSigns(c: Config, nonce: nat, issuedNow: bool)
    requires Usable(c)
    ensures var plan, tx := ProbePlan(c), ProbeTx(c, nonce);
            var asked := ProbeAt(c, NonceRead(plan, Some(nonce)), true).(issuedNow := issuedNow);
            var signing := ProbeAt(c, Signing(plan, tx), true).(issuedNow := issuedNow);
            && Deliver(c, ProbeAt(c, LockWait(plan), false), LockGranted) == ProbeAt(c, NonceRead(plan, None), true)
            && Deliver(c, asked, NonceTaken) == ProbeAt(c, Signing(plan, tx), true)
            && Deliver(c, signing, Signed) == ProbeSent(c, nonce)
  {
    hide ProbePacked, GasWithMargin;
  }

  /** The probe takes a free lock, and the node answers its nonce query at once. */
  lemma ProbeTakesLock(w: World, s: State, i: nat)
    requires Reachable(w, s) && Usable(w.config) && s.lock.None?
    requires i < |s.tasks| && s.tasks[i] == ProbeAt(w.config, LockWait(ProbePlan(w.config)), false)
    ensures var asked := ProbeAt(w.config, NonceRead(ProbePlan(w.config), Some(s.pending)), true);
            Reachable(w, s.(tasks := s.tasks[i := asked], lock := Some(i)))
  {
    hide Reachable, ProbePlan;
    var c, plan := w.config, ProbePlan(w.config);
    ProbeSigns(c, s.pending, true);
    hide Deliver;
    var locked := s.(tasks := s.tasks[i := ProbeAt(c, NonceRead(plan, None), true)], lock := Some(i));
    var answered := s.(tasks := s.tasks[i := ProbeAt(c, NonceRead(plan, Some(s.pending)), true)], lock := Some(i));
    ReachStep(w, s, Run(i, LockGranted));
    assert Apply(w, s, Run(i, LockGranted)) == locked;
    ReachStep(w, locked, NodeReads(i));
    assert Apply(w, locked, NodeReads(i)) == answered;
  }

  /** With the answer at hand it takes the nonce. */
  lemma ProbeTakesNonce(w: World, s: State, i: nat, nonce: nat)
    requires Reachable(w, s) && Usable(w.config) && i < |s.tasks| && (s.tasks[i].issuedNow ==> NonceCall in w.eager)
    requires s.tasks[i] ==
             ProbeAt(w.config, NonceRead(ProbePlan(w.config), Some(nonce)), true).(issuedNow := s.tasks[i].issuedNow)
    ensures var signing := ProbeAt(w.config, Signing(ProbePlan(w.config), ProbeTx(w.config, nonce)), true);
            Reachable(w, s.(tasks := s.tasks[i := signing]))
  {
    hide Reachable, ProbePlan;
    ProbeSigns(w.config, nonce, s.tasks[i].issuedNow);
    hide Deliver;
    ReachStep(w, s, Run(i, NonceTaken));
  }

  /** With the signature at hand it broadcasts. */
  lemma ProbeSends(w: World, s: State, i: nat, nonce: nat)
    requires Reachable(w, s) && Usable(w.config) && i < |s.tasks| && (s.tasks[i].issuedNow ==> SignCall in w.eager)
    requires var signing := ProbeAt(w.config, Signing(ProbePlan(w.config), ProbeTx(w.config, nonce)), true);
             s.tasks[i] == signing.(issuedNow := s.tasks[i].issuedNow)
    ensures Reachable(w, s.(tasks := s.tasks[i := ProbeSent(w.config, nonce)]))
  {
    hide Reachable, ProbePlan, ProbeTx;
    ProbeSigns(w.config, nonce, s.tasks[i].issuedNow);
    hide Deliver;
    ReachStep(w, s, Run(i, Signed));
  }

  /** From a free lock to a broadcast at the pending nonce: always before the token fires, and
      afterwards in a hasty world. */
  lemma ProbeBroadcasts(w: World, s: State, i: nat)
    requires Reachable(w, s) && Usable(w.config) && s.lock.None? && (s.cancelled ==> Hasty(w))
    requires i < |s.tasks| && s.tasks[i] == ProbeAt(w.config, LockWait(ProbePlan(w.config)), false)
    ensures Reachable(w, s.(tasks := s.tasks[i := ProbeSent(w.config, s.pending)], lock := Some(i)))
  {
    hide Reachable, ProbePlan, ProbeTx;
    var c, n := w.config, s.pending;
    var asked := ProbeAt(c, NonceRead(ProbePlan(c), Some(n)), true);
    var signing := ProbeAt(c, Signing(ProbePlan(c), ProbeTx(c, n)), true);
    var sent := s.(tasks := s.tasks[i := ProbeSent(c, n)], lock := Some(i));
    var s1 := s.(tasks := s.tasks[i := asked], lock := Some(i));
    var s2 := s.(tasks := s.tasks[i := signing], lock := Some(i));
    ProbeTakesLock(w, s, i);
    if s.cancelled {
      ProbeTakesNonce(w, s1, i, n);
      assert s1.tasks[i := signing] == s2.tasks;
      ProbeSends(w, s2, i, n);
      assert s2.tasks[i := ProbeSent(c, n)] == sent.tasks;
    } else {
      var s1', s2' := s1.(tasks := s.tasks[i := asked.(issuedNow := false)]),
                      s2.(tasks := s.tasks[i := signing.(issuedNow := false)]);
      Repoll(w, s1, i);
      assert s1.tasks[i := asked.(issuedNow := false)] == s1'.tasks;
      ProbeTakesNonce(w, s1', i, n);
      assert s1'.tasks[i := signing] == s2.tasks;
      Repoll(w, s2, i);
      assert s2.tasks[i := signing.(issuedNow := false)] == s2'.tasks;
      ProbeSends(w, s2', i, n);
      assert s2'.tasks[i := ProbeSent(c, n)] == sent.tasks;
    }
  }

  /** Two probes have arrived; the first has broadcast and been left waiting for the answer. */
  lemma FirstSends(w: World)
    requires Usable(w.config)
    ensures Reachable(w, State([ProbeSent(w.config, w.firstNonce).(running := false), NewTask(Probe(w.config))],
                               Some(0), false, w.firstNonce, []))
  {
    hide Reachable, ProbePlan;
    var c, n := w.config, w.firstNonce;
    var idle, waiting, sent := NewTask(Probe(c)), ProbeAt(c, LockWait(ProbePlan(c)), false), ProbeSent(c, n);
    EmptyReachable(w);
    assert [] + [idle] == [idle] && [idle] + [idle] == [idle, idle];
    ReachStep(w, Init(w), Arrive(Probe(c)));
    ReachStep(w, State([idle], None, false, n, []), Arrive(Probe(c)));
    ProbeReachesLock(w, State([idle, idle], None, false, n, []), 0);
    assert [idle, idle][0 := waiting] == [waiting, idle];
    ProbeBroadcasts(w, State([waiting, idle], None, false, n, []), 0);
    assert [waiting, idle][0 := sent] == [sent, idle];
    ReachStep(w, State([sent, idle], Some(0), false, n, []), Suspend(0));
    assert [sent, idle][0 := sent.(running := false)] == [sent.(running := false), idle];
  }

  /** In a hasty world, a token that fires while another request is inside its poll can free the
      lock under an unsettled send, and the nonce is used twice. */
  lemma CancelRace(w: World) returns (s: State)
    requires Hasty(w) && Usable(w.config)
    ensures Reachable(w, s) && !DistinctNonces(s)
  {
    hide Reachable, ProbePlan;
    var c, n := w.config, w.firstNonce;
    var waiting, sent := ProbeAt(c, LockWait(ProbePlan(c)), false), ProbeSent(c, n);
    var idle, suspended := NewTask(Probe(c)), sent.(running := false);
    var dropped := Fail(suspended, Cancelled);
    FirstSends(w);
    ProbeReachesLock(w, State([suspended, idle], Some(0), false, n, []), 1);
    assert [suspended, idle][1 := waiting] == [suspended, waiting];
    ReachStep(w, State([suspended, waiting], Some(0), false, n, []), Cancel);
    ReachStep(w, State([suspended, waiting], Some(0), true, n, []), Poll(0));
    assert [suspended, waiting][0 := dropped] == [dropped, waiting];
    ProbeBroadcasts(w, State([dropped, waiting], None, true, n, []), 1);
    assert [dropped, waiting][1 := sent] == [dropped, sent];
    s := BothAccepted(w, dropped, sent, true);
  }

  /** A client that drops its request with the send in flight frees the lock the same way, with
      no cancellation and whatever completes when: the next submit uses the nonce again. */
  lemma DropRace(w: World) returns (s: State)
    requires w.dropsSends && Usable(w.config)
    ensures Reachable(w, s) && !s.cancelled && !DistinctNonces(s)
  {
    hide Reachable, ProbePlan;
    var c, n := w.config, w.firstNonce;
    var waiting, sent := ProbeAt(c, LockWait(ProbePlan(c)), false), ProbeSent(c, n);
    var idle, suspended := NewTask(Probe(c)), sent.(running := false);
    var dropped := Dropped(suspended);
    FirstSends(w);
    ReachStep(w, State([suspended, idle], Some(0), false, n, []), Drop(0));
    assert [suspended, idle][0 := dropped] == [dropped, idle];
    ProbeReachesLock(w, State([dropped, idle], None, false, n, []), 1);
    assert [dropped, idle][1 := waiting] == [dropped, waiting];
    ProbeBroadcasts(w, State([dropped, waiting], None, false, n, []), 1);
    assert [dropped, waiting][1 := sent] == [dropped, sent];
    s := BothAccepted(w, dropped, sent, false);
  }

  lemma BothAccepted(w: World, a: Task, b: Task, cancelled: bool) returns (s: State)
    requires a.flight.InFlight? && b.flight.InFlight? && a.flight.tx.nonce == b.flight.tx.nonce
    requires Reachable(w, State([a, b], Some(1), cancelled, w.firstNonce, [])) && !a.guard && b.guard
    ensures Reachable(w, s) && s.cancelled == cancelled && !DistinctNonces(s)
  {
    hide Reachable;
    var start := State([a, b], Some(1), cancelled, w.firstNonce, []);
    var one := Apply(w, start, NodeAccepts(0));
    ReachStep(w, start, NodeAccepts(0));
    ReachStep(w, one, NodeAccepts(1));
    s := Apply(w, one, NodeAccepts(1));
    assert s.log[0].tx.nonce == s.log[1].tx.nonce;
  }

  lemma UnusableSendsNothing(w: World, s: State)
    requires Reachable(w, s) && !Usable(w.config)
    ensures s.log == []
  {
    if s.log != [] {
      Guarantees.AcceptedSound(w, s, 0);
      assert false;
    }
  }

  /** Accepted nonces are distinct in every run exactly when neither race is possible: no
      poll can both get the nonce and sign, and no client drops its request with the send in
      flight (or no batch can be accepted at all). No other call matters. */
  lemma DistinctIff(w: World)
    ensures AlwaysDistinct(w) <==> !((Hasty(w) || w.dropsSends) && Usable(w.config))
  {
    if Hasty(w) && Usable(w.config) {
      var s := CancelRace(w);
    } else if w.dropsSends && Usable(w.config) {
      var s := DropRace(w);
    } else {
      forall s | Reachable(w, s) ensures DistinctNonces(s) {
        if Usable(w.config) {
          Guarantees.NoOrphans(w, s);
          Guarantees.NoncesInOrder(w, s);
        } else {
          UnusableSendsNothing(w, s);
        }
      }
    }
  }

  /** One probe, past the lock, polled again with its nonce answered. */
  lemma ProbeAsks(w: World)
    requires Usable(w.config)
    ensures var c := w.config;
            Reachable(w, State([ProbePolled(c, NonceRead(ProbePlan(c), Some(w.firstNonce)), true)],
                               Some(0), false, w.firstNonce, []))
  {
    hide Reachable, ProbePlan;
    var c, n := w.config, w.firstNonce;
    var idle, waiting := NewTask(Probe(c)), ProbeAt(c, LockWait(ProbePlan(c)), false);
    var asked, polled := ProbeAt(c, NonceRead(ProbePlan(c), Some(n)), true),
                         ProbePolled(c, NonceRead(ProbePlan(c), Some(n)), true);
    EmptyReachable(w);
    assert [] + [idle] == [idle];
    ReachStep(w, Init(w), Arrive(Probe(c)));
    ProbeReachesLock(w, State([idle], None, false, n, []), 0);
    assert [idle][0 := waiting] == [waiting];
    ProbeTakesLock(w, State([waiting], None, false, n, []), 0);
    assert [waiting][0 := asked] == [asked];
    Repoll(w, State([asked], Some(0), false, n, []), 0);
    assert [asked][0 := polled] == [polled];
  }

  /** The token does not stop a poll in progress: it can fire while a request is polled with its
      nonce answered, and that request can still take the nonce, sign and broadcast if the
      signer answers at once, and even return a response if send and receipt do too. */
  lemma LateBroadcast(w: World) returns (s: State)
    requires Usable(w.config)
    ensures Reachable(w, s) && s.cancelled && |s.tasks| == 1
    ensures s.tasks[0].stage.NonceRead? && s.tasks[0].sends == 0
    ensures MaySend(w, s, 0) <==> SignCall in w.eager
    ensures MaySucceed(w, s, 0) <==> {SignCall, SendCall, ReceiptCall} <= w.eager
  {
    hide Reachable, ProbePlan, MaySend, MaySucceed, MayAnswer;
    var c, n := w.config, w.firstNonce;
    var polled := ProbePolled(c, NonceRead(ProbePlan(c), Some(n)), true);
    ProbeAsks(w);
    ReachStep(w, State([polled], Some(0), false, n, []), Cancel);
    s := State([polled], Some(0), true, n, []);
    AfterCancel(w, s, 0);
  }

  /** With a signer that takes its time the same happens one await later, in every world. */
  lemma LateSignature(w: World) returns (s: State)
    requires Usable(w.config)
    ensures Reachable(w, s) && s.cancelled && |s.tasks| == 1
    ensures s.tasks[0].stage.Signing? && s.tasks[0].sends == 0 && MaySend(w, s, 0)
    ensures MaySucceed(w, s, 0) <==> {SendCall, ReceiptCall} <= w.eager
  {
    hide Reachable, ProbePlan, ProbeTx, MaySend, MaySucceed, MayAnswer;
    var c, n := w.config, w.firstNonce;
    var asked := ProbePolled(c, NonceRead(ProbePlan(c), Some(n)), true);
    var signing, polled := ProbeAt(c, Signing(ProbePlan(c), ProbeTx(c, n)), true),
                           ProbePolled(c, Signing(ProbePlan(c), ProbeTx(c, n)), true);
    ProbeAsks(w);
    ProbeTakesNonce(w, State([asked], Some(0), false, n, []), 0, n);
    assert [asked][0 := signing] == [signing];
    Repoll(w, State([signing], Some(0), false, n, []), 0);
    assert [signing][0 := polled] == [polled];
    ReachStep(w, State([polled], Some(0), false, n, []), Cancel);
    s := State([polled], Some(0), true, n, []);
    AfterCancel(w, s, 0);
  }
}
