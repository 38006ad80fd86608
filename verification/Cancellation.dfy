/** What the cancellation token guarantees to whoever is not inside a poll when it fires. */
module Cancellation {
  import opened Tasks
  import opened Protocol

  /** From `a` to `b` nothing but the outside world moved: the node may have answered a nonce
      query or settled a send that were already outstanding, and the request may have been
      dropped, as cancelled or by its client. It read no nonce, signed nothing and broadcast nothing. */
  ghost predicate Frozen(a: Task, b: Task) {
    && b.request == a.request && b.sends == a.sends && !b.running
    && (|| b.stage == a.stage
        || ((WasCancelled(b) || WasAbandoned(b)) && !a.stage.Done?)
        || (a.stage.NonceRead? && b.stage.NonceRead? && b.stage.plan == a.stage.plan))
    && (|| b.flight == a.flight
        || (a.flight.InFlight? && (b.flight == Accepted(a.flight.tx) || b.flight == Refused(a.flight.tx))))
  }

  lemma FrozenStep(w: World, s: State, step: Step, i: nat)
    requires s.cancelled && Enabled(w, s, step) && i < |s.tasks| && !s.tasks[i].running
    ensures var s' := Apply(w, s, step);
            s'.cancelled && i < |s'.tasks| && Frozen(s.tasks[i], s'.tasks[i])
  {
    hide Deliver;
  }

  lemma FrozenTransitive(a: Task, b: Task, c: Task)
    requires Frozen(a, b) && Frozen(b, c)
    ensures Frozen(a, c)
  {
  }

  /** A request that is not inside a poll when the token has fired stays frozen forever; if it
      was unfinished it can only end as cancelled, or dropped by its own client first. */
  lemma {:induction false} FrozenForever(w: World, s: State, steps: seq<Step>, i: nat)
    requires s.cancelled && ValidRun(w, s, steps) && i < |s.tasks| && !s.tasks[i].running
    ensures var s' := End(w, s, steps);
            && s'.cancelled && i < |s'.tasks|
            && Frozen(s.tasks[i], s'.tasks[i])
            && (!s.tasks[i].stage.Done? && s'.tasks[i].stage.Done? ==>
                  WasCancelled(s'.tasks[i]) || WasAbandoned(s'.tasks[i]))
    decreases |steps|
  {
    hide Apply, Enabled;
    if steps != [] {
      var next := Apply(w, s, steps[0]);
      FrozenStep(w, s, steps[0], i);
      FrozenForever(w, next, steps[1..], i);
      FrozenTransitive(s.tasks[i], next.tasks[i], End(w, s, steps).tasks[i]);
    }
  }

  /** Once the token has fired no poll begins any work: whoever is inside a poll later was
      inside one already. */
  lemma {:induction false} PollsOnlyEnd(w: World, s: State, steps: seq<Step>, i: nat)
    requires s.cancelled && ValidRun(w, s, steps) && i < |End(w, s, steps).tasks|
    ensures End(w, s, steps).tasks[i].running ==> i < |s.tasks| && s.tasks[i].running
    decreases |steps|
  {
    hide Apply, Enabled;
    if steps != [] {
      var next := Apply(w, s, steps[0]);
      NoPollBegins(w, s, steps[0], i);
      PollsOnlyEnd(w, next, steps[1..], i);
    }
  }

  lemma NoPollBegins(w: World, s: State, step: Step, i: nat)
    requires s.cancelled && Enabled(w, s, step)
    ensures var s' := Apply(w, s, step);
            s'.cancelled && (i < |s'.tasks| && s'.tasks[i].running ==> i < |s.tasks| && s.tasks[i].running)
  {
    hide Deliver;
  }

  /** No poll is in progress. */
  ghost predicate Quiet(s: State) {
    forall i :: 0 <= i < |s.tasks| ==> !s.tasks[i].running
  }

  lemma QuietStep(w: World, s: State, step: Step)
    requires s.cancelled && Quiet(s) && Enabled(w, s, step)
    ensures var s' := Apply(w, s, step);
            && s'.cancelled && Quiet(s')
            && |s'.tasks| == |s.tasks| + (if step.Arrive? then 1 else 0)
            && (step.Arrive? ==> s'.tasks[|s.tasks|] == NewTask(step.request))
            && (s'.log == s.log
                || (&& step.NodeAccepts? && step.i < |s.tasks| && s.tasks[step.i].flight.InFlight?
                    && s'.log == s.log + [Entry(step.i, s.tasks[step.i].flight.tx)]))
  {
    hide Deliver;
  }

  /** From `s` to `s'` there is only aftermath: requests that arrived meanwhile were never
      started, and the log grew only by sends that were already in flight. */
  ghost predicate Aftermath(s: State, s': State) {
    && |s.tasks| <= |s'.tasks| && |s.log| <= |s'.log| && s'.log[..|s.log|] == s.log
    && (forall i :: |s.tasks| <= i < |s'.tasks| ==>
          s'.tasks[i].flight.NotSent? &&
          (s'.tasks[i].stage.Arrived? || WasCancelled(s'.tasks[i]) || WasAbandoned(s'.tasks[i])))
    && (forall k :: |s.log| <= k < |s'.log| ==>
          s'.log[k].task < |s.tasks| && s.tasks[s'.log[k].task].flight == InFlight(s'.log[k].tx))
  }

  /** Once the polls in progress when the token fired have ended, no poll ever works again and
      everything that follows is aftermath. */
  lemma {:induction false} QuietForever(w: World, s: State, steps: seq<Step>)
    requires s.cancelled && Quiet(s) && ValidRun(w, s, steps)
    ensures var s' := End(w, s, steps);
            s'.cancelled && Quiet(s') && Aftermath(s, s')
    decreases |steps|
  {
    hide Apply, Enabled, Aftermath;
    if steps == [] {
      NoAftermath(s);
    } else {
      QuietStep(w, s, steps[0]);
      QuietForever(w, Apply(w, s, steps[0]), steps[1..]);
      AftermathPrepend(w, s, steps);
    }
  }

  lemma NoAftermath(s: State)
    ensures Aftermath(s, s)
  {
  }

  lemma AftermathPrepend(w: World, s: State, steps: seq<Step>)
    requires s.cancelled && Quiet(s) && ValidRun(w, s, steps) && steps != []
    requires Aftermath(Apply(w, s, steps[0]), End(w, s, steps))
    ensures Aftermath(s, End(w, s, steps))
  {
    hide Apply, Enabled;
    var next, s' := Apply(w, s, steps[0]), End(w, s, steps);
    QuietStep(w, s, steps[0]);
    if steps[0].Arrive? {
      FrozenForever(w, next, steps[1..], |s.tasks|);
    }
    forall k | |s.log| <= k < |s'.log|
      ensures s'.log[k].task < |s.tasks| && s.tasks[s'.log[k].task].flight == InFlight(s'.log[k].tx)
    {
      if k < |next.log| {
        assert s'.log[k] == s'.log[..|next.log|][k];
      } else if s'.log[k].task < |s.tasks| {
        FrozenStep(w, s, steps[0], s'.log[k].task);
      }
    }
  }
}
