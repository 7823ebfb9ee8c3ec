/** How a record can be lost, told from the actions of a run and the phases they meet. */
module LedgerLosses {
  import opened LedgerBatcher
  import opened LedgerRuns

  /** A drain's write fails when the drain's time is up. */
  predicate GivesUp(s: State, a: Action) {
    s.phase.DrainWriting? && a.Attempt? && a.write.Fails? && a.write.pastDeadline
  }

  /** The n-th action of a run is such a write. */
  ghost predicate GivesUpAt(c: Config, table: Table, actions: seq<Action>, n: nat)
    requires IsRun(c, table, actions) && n < |actions|
  {
    PrefixIsRun(c, table, actions, n);
    GivesUp(Run(c, table, actions[..n]).state, actions[n])
  }

  lemma {:induction false} PrefixIsRun(c: Config, table: Table, actions: seq<Action>, n: nat)
    requires IsRun(c, table, actions) && n <= |actions|
    ensures IsRun(c, table, actions[..n])
  {
    if n == |actions| {
      assert actions[..n] == actions;
    } else {
      var init := actions[..|actions| - 1];
      PrefixIsRun(c, table, init, n);
      assert init[..n] == actions[..n];
    }
  }

  /** A write that fails otherwise leaves batch and phase as they are, to be written again. */
  lemma FailedWriteIsRetried(c: Config, w: World, landed: bool, late: bool)
    requires IsWriting(w.state.phase) && !GivesUp(w.state, Attempt(Fails(landed, late)))
    ensures var v := Step(c, w, Attempt(Fails(landed, late)));
            v.state == w.state.(table := v.state.table) && v.fates == w.fates
  {
  }

  /** A write that succeeds ends the batch and loses nothing. */
  lemma SuccessWrites(c: Config, w: World)
    requires IsWriting(w.state.phase)
    ensures var v := Step(c, w, Attempt(Succeeds));
            && v.state.batch == [] && !IsWriting(v.state.phase)
            && v.fates == w.fates + Fates(w.state.batch, true, true) && v.state.dropped == w.state.dropped
  {
  }

  /** Only giving up lets a batch leave unwritten, and it loses exactly that batch. */
  lemma LossOfStep(c: Config, w: World, a: Action)
    requires Enabled(w.state, a)
    ensures Lost(Step(c, w, a).fates) == Lost(w.fates) + if GivesUp(w.state, a) then |w.state.batch| else 0
  {
    if a.Attempt? {
      LostAppend(w.fates, w.state.batch, a.write.Succeeds?, w.landed || Lands(a.write));
    }
  }

  /** The records in hand whenever the run gives up. */
  ghost function GivenUp(c: Config, table: Table, actions: seq<Action>): nat
    requires IsRun(c, table, actions)
  {
    if actions == [] then 0
    else
      var init, a := actions[..|actions| - 1], actions[|actions| - 1];
      var s := Run(c, table, init).state;
      GivenUp(c, table, init) + if GivesUp(s, a) then |s.batch| else 0
  }

  /**
   * In every run the records lost after they were accepted are exactly those in hand when a drain's write failed
   * past its deadline: no other failure, and no cancellation, ever loses one. The drop counter shows these and
   * the records a full queue turned away.
   */
  lemma {:induction false} OnlyDeadlinesLose(c: Config, table: Table, actions: seq<Action>)
    requires IsRun(c, table, actions)
    ensures var w := Run(c, table, actions);
            Lost(w.fates) == GivenUp(c, table, actions) && w.state.dropped == w.full + GivenUp(c, table, actions)
  {
    if actions == [] {
    } else {
      var init := actions[..|actions| - 1];
      OnlyDeadlinesLose(c, table, init);
      LossOfStep(c, Run(c, table, init), actions[|actions| - 1]);
    }
    LedgerConservation(c, table, actions);
  }

  lemma {:induction false} NoneGivenUp(c: Config, table: Table, actions: seq<Action>)
    requires IsRun(c, table, actions)
    ensures GivenUp(c, table, actions) == 0 <==> forall n: nat :: n < |actions| ==> !GivesUpAt(c, table, actions, n)
  {
    if actions == [] {
    } else {
      var last := |actions| - 1;
      var init := actions[..last];
      NoneGivenUp(c, table, init);
      if GivesUp(Run(c, table, init).state, actions[last]) {
        GivingUpLoses(c, table, init, actions[last]);
      }
      forall n: nat | n < last
        ensures GivesUpAt(c, table, init, n) <==> GivesUpAt(c, table, actions, n)
      {
        PrefixGivesUp(c, table, actions, last, n);
      }
      assert GivesUpAt(c, table, actions, last) <==> GivesUp(Run(c, table, init).state, actions[last]);
    }
  }

  lemma GivingUpLoses(c: Config, table: Table, actions: seq<Action>, a: Action)
    requires IsRun(c, table, actions) && GivesUp(Run(c, table, actions).state, a)
    ensures |Run(c, table, actions).state.batch| > 0
  {
    LedgerConservation(c, table, actions);
  }

  lemma PrefixGivesUp(c: Config, table: Table, actions: seq<Action>, m: nat, n: nat)
    requires IsRun(c, table, actions) && n < m <= |actions| && IsRun(c, table, actions[..m])
    ensures GivesUpAt(c, table, actions[..m], n) <==> GivesUpAt(c, table, actions, n)
  {
    assert actions[..m][..n] == actions[..n];
  }

  /** Every record taken off the queue is written, or in hand, iff no drain's write fails past its deadline. */
  lemma EverythingIsWrittenIff(c: Config, table: Table, actions: seq<Action>)
    requires IsRun(c, table, actions)
    ensures (forall f :: f in Run(c, table, actions).fates ==> f.written)
            <==> forall n: nat :: n < |actions| ==> !GivesUpAt(c, table, actions, n)
    ensures Run(c, table, actions).state.dropped == Run(c, table, actions).full
            <==> forall n: nat :: n < |actions| ==> !GivesUpAt(c, table, actions, n)
  {
    OnlyDeadlinesLose(c, table, actions);
    NoneGivenUp(c, table, actions);
    NoneLost(Run(c, table, actions).fates);
  }

  // ---------------------------------------------------------------------------------------------
  // Room in the queue, size of a batch, and the way out
  // ---------------------------------------------------------------------------------------------

  /** In every run a record offered is accepted iff the batcher is open and what it has in hand leaves room. */
  lemma AcceptedIff(c: Config, table: Table, actions: seq<Action>, r: Record)
    requires IsRun(c, table, actions)
    ensures var w := Run(c, table, actions);
            var v := Step(c, w, Enqueue(r));
            var waiting := |w.accepted| - |w.fates| - |w.state.batch|;
            v.accepted == if !w.state.closed && (c.queueMax <= 0 || waiting < c.queueMax) then w.accepted + [r]
                          else w.accepted
  {
    LedgerConservation(c, table, actions);
  }

  ghost predicate BatchFits(c: Config, s: State) {
    && (s.phase.Filling? ==> |s.batch| < c.batchSize)
    && (IsWriting(s.phase) ==> |s.batch| <= (if c.batchSize <= 1 then 1 else c.batchSize))
    && (s.phase.DrainWriting? ==> (s.phase.partial <==> |s.batch| < c.batchSize))
  }

  lemma StepKeepsFit(c: Config, w: World, a: Action)
    requires PhaseInv(w) && BatchFits(c, w.state) && Enabled(w.state, a)
    ensures BatchFits(c, Step(c, w, a).state)
  {
  }

  /** In every run a batch is written before it exceeds its size, and a drain's partial batch is one short of it. */
  lemma {:induction false} BatchesFit(c: Config, table: Table, actions: seq<Action>)
    requires IsRun(c, table, actions)
    ensures BatchFits(c, Run(c, table, actions).state)
  {
    if actions == [] {
    } else {
      var init := actions[..|actions| - 1];
      BatchesFit(c, table, init);
      LedgerConservation(c, table, init);
      StepKeepsFit(c, Run(c, table, init), actions[|actions| - 1]);
    }
  }

  /** Past its cancellation. */
  predicate WindsDown(p: Phase) {
    p.LastWriting? || p.Draining? || p.DrainWriting? || p.Stopped?
  }

  lemma StepWindsDown(c: Config, s: State, a: Action)
    requires Enabled(s, a)
    ensures WindsDown(Next(c, s, a).phase) <==> WindsDown(s.phase) || a.Cancel?
  {
  }

  /** Once cancelled, in whatever phase, the writer never takes up its loop again; before, it never leaves it. */
  lemma {:induction false} CancelWindsDown(c: Config, table: Table, actions: seq<Action>)
    requires IsRun(c, table, actions)
    ensures WindsDown(Run(c, table, actions).state.phase) <==> exists i :: 0 <= i < |actions| && actions[i].Cancel?
  {
    if actions == [] {
    } else {
      var n := |actions| - 1;
      var init := actions[..n];
      CancelWindsDown(c, table, init);
      StepWindsDown(c, Run(c, table, init).state, actions[n]);
      assert forall i :: 0 <= i < n ==> init[i] == actions[i];
    }
  }
}
