/** Concrete runs of the worker system that go wrong, and when the workers block for want of capacity. */
module WorkerRuns {
  import opened Prelude
  import opened Slots
  import opened Stock
  import opened Admission
  import opened Watermarks
  import opened RegistrationCircuit
  import opened Workers
  import opened WorkerWeights
  import opened WorkerPermits
  import opened WorkerTheorems

  // ---------------------------------------------------------------- a discarded envelope

  lemma {:induction false} ExecSnoc(c: Cfg, s: Sys, run: seq<Step>, m: Sys, st: Step)
    requires Exec(c, s, run) == Some(m)
    ensures Exec(c, s, run + [st]) == Next(c, m, st)
    decreases |run|
  {
    hide Next;
    if run == [] {
      assert run + [st] == [st];
      assert Next(c, m, st).Some? ==> Exec(c, Next(c, m, st).value, []) == Next(c, m, st);
    } else {
      assert (run + [st])[1..] == run[1..] + [st];
      ExecSnoc(c, Next(c, s, run[0]).value, run[1..], m, st);
    }
  }

  const TOKENS_ONLY :=
    Cfg(1, 1, 1, None, 1, Marks(0, 1, 0, 1), 1, false, false, 300.0, 120.0)

  const ONE_S_WORKER := Launch(1, 0, 0, 60.0, 60.0, 3.0)

  lemma TokenSolved() returns (run: seq<Step>, s: Sys)
    ensures Exec(TOKENS_ONLY, Begin(TOKENS_ONLY, ONE_S_WORKER), run) == Some(s)
    ensures s.actors == [Mint(Slot(300.0))]
    ensures s.shared.store == Store(Pool(1, {}), Pool(1, {}), Shelf([], []), 0)
  {
    var c, go := TOKENS_ONLY, Step(0, Run, 0.0, 0.0);
    var s0 := Begin(c, ONE_S_WORKER);
    assert s0.actors == [SIdle];
    var s1 := Next(c, s0, go).value;
    ExecSnoc(c, s0, [], s0, go);
    assert s1 == s0.(actors := [SGate]);
    var s2 := Next(c, s1, go).value;
    ExecSnoc(c, s0, [go], s1, go);
    assert s2.actors == [Mint(Solving)] && s2.shared.store == s0.shared.store;
    s := Next(c, s2, go).value;
    ExecSnoc(c, s0, [go, go], s2, go);
    run := [go, go, go];
    assert [] + [go] == [go] && [go] + [go] == [go, go] && [go, go] + [go] == run;
  }

  lemma TokenStored() returns (run: seq<Step>, s: Sys)
    ensures Exec(TOKENS_ONLY, Begin(TOKENS_ONLY, ONE_S_WORKER), run) == Some(s)
    ensures s.actors == [Mint(Notify(Item(0, Some(300.0))))]
    ensures s.shared.store.tPool == Pool(0, {0})
    ensures s.shared.store.shelf.t == [Item(0, Some(300.0))]
  {
    hide Begin;
    var c, go, s0 := TOKENS_ONLY, Step(0, Run, 0.0, 0.0), Begin(TOKENS_ONLY, ONE_S_WORKER);
    var run3, s3 := TokenSolved();
    var s4 := Next(c, s3, go).value;
    ExecSnoc(c, s0, run3, s3, go);
    assert s4.actors == [Mint(Put(Item(0, Some(300.0))))];
    assert s4.shared.store == s3.shared.store.NewT();
    s := Next(c, s4, go).value;
    ExecSnoc(c, s0, run3 + [go], s4, go);
    run := run3 + [go] + [go];
  }

  /** An S worker cancelled in `notify_changed` gives its slot back while its T is in stock. */
  lemma DiscardHappens() returns (run: seq<Step>, s: Sys)
    ensures Exec(TOKENS_ONLY, Begin(TOKENS_ONLY, ONE_S_WORKER), run) == Some(s)
    ensures s.shared.store.tPool == Pool(1, {})
    ensures s.shared.store.shelf.t == [Item(0, Some(300.0))]
  {
    hide Begin;
    var stored, s5 := TokenStored();
    var stop := Step(0, Cancel, 0.0, 0.0);
    s := Next(TOKENS_ONLY, s5, stop).value;
    ExecSnoc(TOKENS_ONLY, Begin(TOKENS_ONLY, ONE_S_WORKER), stored, s5, stop);
    run := stored + [stop];
  }

  // ---------------------------------------------------------------- lost permits

  const TWO_REQUESTS :=
    Cfg(1, 2, 2, Some(1), 1, Marks(0, 1, 0, 2), 2, false, false, 300.0, 120.0)

  const ONE_P_WORKER := Launch(0, 1, 0, 60.0, 60.0, 3.0)

  const GO := Step(0, Run, 0.0, 0.0)

  const STOP := Step(0, Cancel, 0.0, 0.0)

  /** The run takes the worker to that stage, with those permits and two requests in flight. */
  ghost predicate Arrives(run: seq<Step>, s: Sys, a: Actor, p: Permits)
  {
    && Exec(TWO_REQUESTS, Begin(TWO_REQUESTS, ONE_P_WORKER), run) == Some(s)
    && s.actors == [a] && s.shared.permits == p && s.shared.lobby.gate.qInflight == 2
  }

  /** The next step of the worker, from one stage to another. */
  lemma Goes(run: seq<Step>, s: Sys, a: Actor, st: Step, b: Actor, p: Permits) returns (t: Sys)
    requires Arrives(run, s, a, s.shared.permits) && st.i == 0
    requires Act(TWO_REQUESTS, s.shared, a, st) == Some(WithPermits(s.shared, p, b))
    ensures Arrives(run + [st], t, b, p)
  {
    hide Begin, Act;
    t := Next(TWO_REQUESTS, s, st).value;
    ExecSnoc(TWO_REQUESTS, Begin(TWO_REQUESTS, ONE_P_WORKER), run, s, st);
  }

  lemma BatchGranted() returns (run: seq<Step>, s: Sys)
    ensures Arrives(run, s, Batch(0, 0, Acquire(2)), Permits(2, 1, 1, 0, 0, 0, 0))
  {
    var c, s0 := TWO_REQUESTS, Begin(TWO_REQUESTS, ONE_P_WORKER);
    assert s0.actors == [PIdle];
    ExecSnoc(c, s0, [], s0, GO);
    var s1 := Next(c, s0, GO).value;
    assert s1.actors == [PGate] && [] + [GO] == [GO];
    ExecSnoc(c, s0, [GO], s1, GO);
    run, s := [GO] + [GO], Next(c, s1, GO).value;
  }

  lemma BatchReserved() returns (run: seq<Step>, s: Sys)
    ensures Arrives(run, s, Batch(0, 2, Mailbox(2)), Permits(0, 1, 1, 0, 0, 0, 0))
  {
    hide Begin, Exec;
    run, s := BatchGranted();
    s := Goes(run, s, Batch(0, 0, Acquire(2)), GO, Batch(0, 1, Acquire(1)), Permits(1, 1, 1, 0, 0, 0, 0));
    run := run + [GO];
    s := Goes(run, s, Batch(0, 1, Acquire(1)), GO, Batch(0, 2, Mailbox(2)), Permits(0, 1, 1, 0, 0, 0, 0));
    run := run + [GO];
  }

  lemma PageClosing() returns (run: seq<Step>, s: Sys)
    ensures Arrives(run, s, Batch(0, 2, Closing(Sent)), Permits(0, 0, 0, 0, 0, 0, 0))
  {
    hide Begin, Exec;
    run, s := BatchReserved();
    s := Goes(run, s, Batch(0, 2, Mailbox(2)), GO, Batch(0, 2, Mailbox(1)), Permits(0, 1, 1, 0, 0, 0, 0));
    run := run + [GO];
    s := Goes(run, s, Batch(0, 2, Mailbox(1)), GO, Batch(0, 2, SendPermit), Permits(0, 1, 1, 0, 0, 0, 0));
    run := run + [GO];
    s := Goes(run, s, Batch(0, 2, SendPermit), GO, Batch(0, 2, PhysicalP), Permits(0, 0, 1, 0, 0, 0, 0));
    run := run + [GO];
    s := Goes(run, s, Batch(0, 2, PhysicalP), GO, Batch(0, 2, Page), Permits(0, 0, 0, 0, 0, 0, 0));
    run := run + [GO];
    s := Goes(run, s, Batch(0, 2, Page), GO, Batch(0, 2, Sending), Permits(0, 0, 0, 0, 0, 0, 0));
    run := run + [GO];
    s := Goes(run, s, Batch(0, 2, Sending), GO, Batch(0, 2, Closing(Sent)), Permits(0, 0, 0, 0, 0, 0, 0));
    run := run + [GO];
  }

  lemma ClosingStopped(s: Shared)
    requires s.permits == Permits(0, 0, 0, 0, 0, 0, 0)
    ensures Act(TWO_REQUESTS, s, Batch(0, 2, Closing(Sent)), STOP)
            == Some(WithPermits(s, Permits(1, 0, 0, 0, 0, 1, 1), Batch(0, 1, UndoRel(true))))
  {
  }

  /** A P worker cancelled while it closes its page keeps its physical and its send permit for ever. */
  lemma PageLossHappens() returns (run: seq<Step>, s: Sys)
    ensures Exec(TWO_REQUESTS, Begin(TWO_REQUESTS, ONE_P_WORKER), run) == Some(s)
    ensures Lost(PageLoss, s.shared.permits) == 1 && Lost(SendLoss, s.shared.permits) == 1
  {
    hide Begin, Exec, Act, Next;
    run, s := PageClosing();
    ClosingStopped(s.shared);
    s := Goes(run, s, Batch(0, 2, Closing(Sent)), STOP, Batch(0, 1, UndoRel(true)), Permits(1, 0, 0, 0, 0, 1, 1));
    run := run + [STOP];
  }

  /** A settle task cancelled while polling keeps its pending permit. */
  lemma KeptLossHappens() returns (run: seq<Step>, s: Sys)
    ensures Exec(TWO_REQUESTS, Begin(TWO_REQUESTS, ONE_P_WORKER), run) == Some(s)
    ensures Lost(KeptLoss, s.shared.permits) == 1
  {
    hide Begin, Exec;
    var c, s0 := TWO_REQUESTS, Begin(TWO_REQUESTS, ONE_P_WORKER);
    var sent, t := PageClosing();
    t := Goes(sent, t, Batch(0, 2, Closing(Sent)), GO, Batch(0, 2, Results), Permits(0, 1, 1, 0, 0, 0, 0));
    sent := sent + [GO];
    var u := Next(c, t, GO).value;
    ExecSnoc(c, s0, sent, t, GO);
    assert u.actors == [Batch(0, 1, Results), Settle(0, PollCode)];
    var stop := Step(1, Cancel, 0.0, 0.0);
    s := Next(c, u, stop).value;
    ExecSnoc(c, s0, sent + [GO], u, stop);
    run := sent + [GO] + [stop];
  }

  /** A P worker cancelled again in the handler of its cancellation keeps the pending permits that it has
      not given back yet. */
  lemma PendingLossHappens() returns (run: seq<Step>, s: Sys)
    ensures Exec(TWO_REQUESTS, Begin(TWO_REQUESTS, ONE_P_WORKER), run) == Some(s)
    ensures Lost(PendingLoss, s.shared.permits) == 1
    ensures s.actors == [Dead] && s.shared.lobby.gate.qInflight == 2
  {
    hide Begin, Exec;
    run, s := BatchReserved();
    s := Goes(run, s, Batch(0, 2, Mailbox(2)), STOP, Batch(0, 1, UndoRel(true)), Permits(1, 1, 1, 0, 0, 0, 0));
    run := run + [STOP];
    s := Goes(run, s, Batch(0, 1, UndoRel(true)), STOP, Dead, Permits(1, 1, 1, 0, 1, 0, 0));
    run := run + [STOP];
  }

  // ---------------------------------------------------------------- no capacity at all

  predicate Acquiring(s: Sys, i: nat) { i < |s.actors| && s.actors[i].Batch? && s.actors[i].b.Acquire? }

  /** With no pending permit at all the gate still grants a batch, and the worker stands before an empty
      semaphore. */
  lemma NoCapacityBlocks(c: Cfg, l: Launch) returns (run: seq<Step>, s: Sys)
    requires c.pendCap == 0 && c.maxBatch > 0 && c.marks.Valid() && l.pWorkers > 0
    ensures Exec(c, Begin(c, l), run) == Some(s) && Acquiring(s, l.sWorkers) && s.shared.permits.pend == 0
  {
    var s0, go := Begin(c, l), Step(l.sWorkers, Run, 0.0, 0.0);
    assert s0.actors[go.i] == PIdle;
    ExecSnoc(c, s0, [], s0, go);
    var s1 := Next(c, s0, go).value;
    assert s1.actors == s0.actors[go.i := PGate] && [] + [go] == [go];
    ExecSnoc(c, s0, [go], s1, go);
    s := Next(c, s1, go).value;
    run := [go] + [go];
  }

  /** It waits there for ever: no run, whatever the others do, gets it further, unless it is cancelled. */
  lemma {:induction false} BlockedForEver(c: Cfg, s: Sys, run: seq<Step>, s': Sys, i: nat)
    requires Inv(c, s) && c.pendCap == 0 && Acquiring(s, i) && Exec(c, s, run) == Some(s')
    requires forall st | st in run :: st.i == i ==> !st.ev.Cancel?
    ensures Acquiring(s', i) && s'.actors[i] == s.actors[i]
    decreases |run|
  {
    hide Inv, Next;
    if run != [] {
      var st, n := run[0], Next(c, s, run[0]).value;
      NothingPending(c, s);
      InvStep(c, s, st, n);
      assert st in run;
      if st.i == i {
        NoRunWithout(c, s, st, i);
      }
      OthersStay(c, s, st, n, i);
      BlockedForEver(c, n, run[1..], s', i);
    }
  }

  lemma NothingPending(c: Cfg, s: Sys)
    requires Inv(c, s) && c.pendCap == 0
    ensures s.shared.permits.pend == 0
  {
  }

  lemma NoRunWithout(c: Cfg, s: Sys, st: Step, i: nat)
    requires Acquiring(s, i) && s.shared.permits.pend == 0 && st.i == i && !st.ev.Cancel?
    ensures Next(c, s, st).None?
  {
  }

  /** With the watermarks that `main` derives, for any integer settings: no worker behind the gate ever stands
      before an empty semaphore if and only if there is at least one pending permit. */
  lemma CapacityIff(c: Cfg, physicalCap: int, sWorkers: int, settings: Settings)
    requires c.marks == AtStartUp(physicalCap, sWorkers, c.browserMint, settings)
    requires c.pendCap == settings.qPending && c.maxBatch > 0
    ensures (forall s, i | Reachable(c, s) && Acquiring(s, i) :: s.shared.permits.pend > 0) <==> c.pendCap >= 1
  {
    MarksWithinCaps(physicalCap, sWorkers, c.browserMint, settings);
    hide Reachable, AtStartUp;
    if c.pendCap >= 1 {
      forall s, i | Reachable(c, s) && Acquiring(s, i)
        ensures s.shared.permits.pend > 0
      {
        AcquireNeverBlocks(c, s, i);
      }
    } else {
      var l := Launch(0, 1, 0, 60.0, 60.0, 3.0);
      var run, s := NoCapacityBlocks(c, l);
      assert Reachable(c, s) by {
        ReachedBy(c, l, run, s);
      }
      assert Acquiring(s, 0);
    }
  }

  lemma ReachedBy(c: Cfg, l: Launch, run: seq<Step>, s: Sys)
    requires Exec(c, Begin(c, l), run) == Some(s)
    ensures Reachable(c, s)
  {
  }
}
