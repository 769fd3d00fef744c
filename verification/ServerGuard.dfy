/** Where the guard of `finalize`, as written, breaks the protocol, and exactly for which uploads
    it does not. */
module ServerGuard {
  import opened TaskGroups
  import TaskGroupInvariant
  import opened Fanout
  import opened FanoutTheorems
  import opened Server
  import opened ServerInvariant
  import opened ServerTheorems
  import opened CheckRuns
  import opened ServerCounterexample
  import opened ServerCrash

  /** The guard as written and the intended one take the same branch. */
  predicate GuardsAgree(s: State, e: Event) {
    e.FinStep? && e.p < |s.procs| && s.procs[e.p].fin.AtGuard? ==>
      var x := s.procs[e.p];
      Enters(AsWritten, x, e.p) == Enters(OwnerOnly, x, e.p)
      && (Enters(OwnerOnly, x, e.p) ==> Commits(AsWritten, x) == Commits(OwnerOnly, x))
  }

  predicate AllAgree(uploads: seq<Upload>, s: State, events: seq<Event>)
    requires LegalEvents(AsWritten, uploads, s, events)
    decreases |events|
  {
    events == []
    || (AllAgree(uploads, s, events[..|events| - 1])
        && GuardsAgree(StateAfter(AsWritten, uploads, s, events[..|events| - 1]), events[|events| - 1]))
  }

  lemma AgreeingStep(uploads: seq<Upload>, s: State, e: Event)
    requires EventEnabled(uploads, s, e) && GuardsAgree(s, e)
    ensures Next(AsWritten, uploads, s, e) == Next(OwnerOnly, uploads, s, e)
  {
    hide Perform, CheckNext;
  }

  /** Runs of the code as written are safe as long as no `finalize` enters its block without
      owning the hash, or to commit what it never staged. */
  lemma {:induction false} RunsAsWrittenAreSafe(uploads: seq<Upload>, events: seq<Event>)
    requires AllFit(uploads) && LegalEvents(AsWritten, uploads, InitState(uploads), events)
    requires AllAgree(uploads, InitState(uploads), events)
    ensures Safe(uploads, StateAfter(AsWritten, uploads, InitState(uploads), events))
  {
    hide Safe, AllFit;
    if events == [] {
      InitSafe(uploads);
    } else {
      var before, e := events[..|events| - 1], events[|events| - 1];
      RunsAsWrittenAreSafe(uploads, before);
      var s := StateAfter(AsWritten, uploads, InitState(uploads), before);
      AgreeingStep(uploads, s, e);
      NextIsSafe(uploads, s, e);
    }
  }

  /** `finalize` of upload `p` from start to end, nobody interfering. */
  function Finalize(rule: Rule, uploads: seq<Upload>, s: State, p: nat): State
    requires |s.procs| == |uploads| && p < |uploads| && s.procs[p].run.group.callbacks != []
    decreases FinRank(s.procs[p]), if s.crashed then 0 else 1
  {
    if s.crashed || s.procs[p].fin.Finalized? then s
    else
      var s' := FinNext(rule, uploads, s, p);
      if s'.crashed then s' else Finalize(rule, uploads, s', p)
  }

  /** The server goes on correctly: nothing crashed and every live owner has its entry. */
  ghost predicate Protocol(uploads: seq<Upload>, s: State) {
    |s.procs| == |uploads| && !s.crashed && RegistryOk(uploads, s)
  }

  /** The condition under which the guard as written does no harm as long as nobody interferes: no
      notifier was taken, or this upload owns its hash and commits something, or it failed while
      nobody owns the hash. */
  predicate GuardHolds(uploads: seq<Upload>, s: State, p: nat)
    requires p < |s.procs| == |uploads|
  {
    var x := s.procs[p];
    || x.notifier.None?
    || (x.notifier == Some(p) && (Succeeded(x) ==> x.run.staged))
    || (x.notifier != Some(p) && !Succeeded(x) && uploads[p].hash !in s.registry)
  }

  lemma NoCrash(uploads: seq<Upload>, s: State)
    requires Safe(uploads, s)
    ensures |s.procs| == |uploads| && !s.crashed
  {
  }

  /** A step of `finalize` leaves the upload's run alone and comes nearer the end. */
  lemma FinStepEffect(rule: Rule, uploads: seq<Upload>, s: State, p: nat)
    requires EventEnabled(uploads, s, FinStep(p))
    ensures var s' := FinNext(rule, uploads, s, p);
      |s'.procs| == |s.procs| && s'.procs[p].run == s.procs[p].run
      && (!s'.crashed ==> FinRank(s'.procs[p]) < FinRank(s.procs[p]))
  {
  }

  lemma {:induction false} OwnerFinalizeIsSafe(uploads: seq<Upload>, s: State, p: nat)
    requires Safe(uploads, s) && AllFit(uploads) && p < |uploads| && s.procs[p].run.group.callbacks != []
    ensures Safe(uploads, Finalize(OwnerOnly, uploads, s, p))
    decreases FinRank(s.procs[p])
  {
    hide Safe, AllFit;
    NoCrash(uploads, s);
    if !s.procs[p].fin.Finalized? {
      FinStepEffect(OwnerOnly, uploads, s, p);
      NextIsSafe(uploads, s, FinStep(p));
      hide FinNext;
      NoCrash(uploads, FinNext(OwnerOnly, uploads, s, p));
      OwnerFinalizeIsSafe(uploads, FinNext(OwnerOnly, uploads, s, p), p);
    }
  }

  /** Past the guard both rules do the same. */
  lemma {:induction false} RulesAgreeLater(uploads: seq<Upload>, s: State, p: nat)
    requires |s.procs| == |uploads| && p < |uploads| && s.procs[p].run.group.callbacks != [] && !s.procs[p].fin.AtGuard?
    ensures Finalize(AsWritten, uploads, s, p) == Finalize(OwnerOnly, uploads, s, p)
    decreases FinRank(s.procs[p])
  {
    if s.crashed || s.procs[p].fin.Finalized? || FinNext(AsWritten, uploads, s, p).crashed {
    } else {
      RulesAgreeLater(uploads, FinNext(AsWritten, uploads, s, p), p);
    }
  }

  /** Started by an upload that does not own its hash, or has nothing staged, a success runs
      into the null staged folder. */
  lemma UnstagedCommitCrashes(uploads: seq<Upload>, s: State, p: nat)
    requires |s.procs| == |uploads| && p < |uploads| && !s.crashed && s.procs[p].fin.AtGuard?
    requires s.procs[p].notifier.Some? && Succeeded(s.procs[p]) && !s.procs[p].run.staged
    ensures Finalize(AsWritten, uploads, s, p).crashed
  {
    var s1 := FinNext(AsWritten, uploads, s, p);
    assert s1.procs[p].fin.AtCommit?;
  }

  /** Started by an upload that failed, it erases the entry of whoever owns the hash. */
  lemma FailedWaiterErases(uploads: seq<Upload>, s: State, p: nat)
    requires |s.procs| == |uploads| && p < |uploads| && !s.crashed && s.procs[p].fin.AtGuard?
    requires s.procs[p].notifier.Some? && s.procs[p].run.group.callbacks != [] && !Succeeded(s.procs[p])
    ensures var s', x := Finalize(AsWritten, uploads, s, p), s.procs[p];
      && !s'.crashed && s'.registry == s.registry - {uploads[p].hash}
      && s'.procs == s.procs[p := x.(fin := Finalized, replied := Some(false))]
  {
    var s1 := FinNext(AsWritten, uploads, s, p);
    var s2 := FinNext(AsWritten, uploads, s1, p);
    var s3 := FinNext(AsWritten, uploads, s2, p);
    var s4 := FinNext(AsWritten, uploads, s3, p);
    assert s1.procs[p].fin.AtErase? && s2.procs[p].fin.AtNotify? && s3.procs[p].fin.AtHook? && s4.procs[p].fin.Finalized?;
    assert Finalize(AsWritten, uploads, s4, p) == s4;
    assert Finalize(AsWritten, uploads, s3, p) == s4;
    assert Finalize(AsWritten, uploads, s2, p) == s4;
    assert Finalize(AsWritten, uploads, s1, p) == s4;
  }

  /** Exactly when `finalize`, with the guard as written and nobody interfering, leaves the server in
      order. */
  lemma FinalizeAloneIsExact(uploads: seq<Upload>, s: State, p: nat)
    requires Safe(uploads, s) && AllFit(uploads) && p < |uploads|
    requires s.procs[p].fin.AtGuard? && s.procs[p].run.group.callbacks != []
    ensures Protocol(uploads, Finalize(AsWritten, uploads, s, p)) <==> GuardHolds(uploads, s, p)
  {
    hide RunOk, DataOk, StoreOk;
    var x := s.procs[p];
    assert ProcOk(uploads, s, p) && |s.procs| == |uploads| && !s.crashed && RegistryOk(uploads, s);
    if Succeeded(x) { SuccessIsStagedOrFound(uploads[p].job, x, p); }
    if x.notifier.None? || (x.notifier == Some(p) && (Succeeded(x) ==> x.run.staged)) {
      assert FinNext(AsWritten, uploads, s, p) == FinNext(OwnerOnly, uploads, s, p);
      RulesAgreeLater(uploads, FinNext(AsWritten, uploads, s, p), p);
      OwnerFinalizeIsSafe(uploads, s, p);
    } else if Succeeded(x) {
      UnstagedCommitCrashes(uploads, s, p);
    } else {
      FailedWaiterErases(uploads, s, p);
      FailedWaiterIsExact(uploads, s, Finalize(AsWritten, uploads, s, p), p);
    }
  }

  lemma FailedWaiterIsExact(uploads: seq<Upload>, s: State, s': State, p: nat)
    requires |s.procs| == |uploads| && p < |uploads| && RegistryOk(uploads, s) && !Owner(s, p)
    requires s'.registry == s.registry - {uploads[p].hash}
    requires s'.procs == s.procs[p := s.procs[p].(fin := Finalized, replied := Some(false))]
    ensures RegistryOk(uploads, s') <==> uploads[p].hash !in s.registry
  {
    forall o: nat ensures o < |uploads| ==> Owns(s', o) == Owns(s, o) {
    }
    if uploads[p].hash in s.registry {
      assert Owns(s', s.registry[uploads[p].hash]);
    }
  }

  // ---------------------------------------------------------------- interrupted

  /** With somebody interfering that condition is not enough: a waiter that failed while nobody
      owned the hash passes the guard, another upload becomes the owner, and the first then erases
      the entry of the second. */
  lemma InterruptedFinalize(uploads: seq<Upload>) returns (s: State, s': State)
    requires |uploads| == 4 && forall p: nat | p < 4 :: uploads[p].hash == uploads[0].hash
    ensures Reaches(uploads, s) && |s.procs| == 4 && s.procs[1].fin.AtGuard? && s.procs[1].run.group.callbacks != []
    ensures GuardHolds(uploads, s, 1)
    ensures Reaches(uploads, s') && |s'.procs| == 4 && s'.procs[1] == s.procs[1].(fin := AtNotify) && !s'.crashed
    ensures !Protocol(uploads, s')
  {
    s := WaiterFailed(uploads);
    var job, h := uploads[1].job, uploads[0].hash;
    assert GuardHolds(uploads, s, 1);
    var s1 := Put(s, 1, Failed(job, LookAfterWait, Some(0), AtErase));
    var s2 := Put(s1, 2, Checks(uploads[2].job, LookAgain, Some(2))).(registry := s1.registry[h := 2], raised := s1.raised + {2});
    s' := Put(s2, 1, Failed(job, LookAfterWait, Some(0), AtNotify)).(registry := s2.registry - {h});
    hide Reaches, RegistryOk;
    Take(uploads, s, FinStep(1));
    assert FinNext(AsWritten, uploads, s, 1) == s1;
    BecomesOwner(uploads, s1, 2);
    Take(uploads, s2, FinStep(1));
    assert FinNext(AsWritten, uploads, s2, 1) == s';
    EntryMissing(uploads, s', 2);
  }

  lemma EntryMissing(uploads: seq<Upload>, s: State, p: nat)
    requires |s.procs| == |uploads| && p < |uploads| && Owns(s, p) && uploads[p].hash !in s.registry
    ensures !RegistryOk(uploads, s)
  {
  }

  // ---------------------------------------------------------------- the exact condition

  predicate DistinctHashes(uploads: seq<Upload>) {
    forall p: nat, q: nat | p < q < |uploads| :: uploads[p].hash != uploads[q].hash
  }

  lemma StoredIsOwn(uploads: seq<Upload>, s: State, p: nat)
    requires Safe(uploads, s) && DistinctHashes(uploads) && p < |uploads| && uploads[p].hash in s.data
    ensures s.procs[p].run.isNew
  {
    hide RunOk, RegistryOk, RaisedOk, ProcOk;
    assert s.author[uploads[p].hash] == p;
  }

  /** Among distinct images nobody finds another's folder: what succeeds was staged. */
  lemma DistinctSuccessIsStaged(uploads: seq<Upload>, s: State, p: nat)
    requires Safe(uploads, s) && DistinctHashes(uploads) && p < |uploads| && Succeeded(s.procs[p])
    ensures s.procs[p].run.staged
  {
    assert ProcOk(uploads, s, p);
    SuccessIsStagedOrFound(uploads[p].job, s.procs[p], p);
    assert s.procs[p].answer.Some? ==> uploads[p].hash in s.data;
    hide Safe, ProcOk, DistinctHashes;
    if uploads[p].hash in s.data { StoredIsOwn(uploads, s, p); }
  }

  /** And nobody waits, so both guards take the same branch. */
  lemma DistinctAgree(uploads: seq<Upload>, s: State, e: Event)
    requires Safe(uploads, s) && DistinctHashes(uploads) && EventEnabled(uploads, s, e)
    ensures GuardsAgree(s, e)
  {
    hide RunOk, RegistryOk, RaisedOk, DataOk, PhaseOk, StoreOk, GroupOk;
    if e.FinStep? && s.procs[e.p].fin.AtGuard? {
      assert ProcOk(uploads, s, e.p);
      assert s.procs[e.p].notifier.Some? ==> s.procs[e.p].notifier.value == e.p;
      hide Safe, ProcOk;
      if Succeeded(s.procs[e.p]) { DistinctSuccessIsStaged(uploads, s, e.p); }
    }
  }

  lemma {:induction false} DistinctRunsAgree(uploads: seq<Upload>, events: seq<Event>)
    requires AllFit(uploads) && DistinctHashes(uploads) && LegalEvents(AsWritten, uploads, InitState(uploads), events)
    ensures AllAgree(uploads, InitState(uploads), events)
  {
    hide Safe, AllFit, DistinctHashes, EventEnabled, Next, GuardsAgree;
    if events == [] {
    } else {
      var before, e := events[..|events| - 1], events[|events| - 1];
      DistinctRunsAgree(uploads, before);
      RunsAsWrittenAreSafe(uploads, before);
      DistinctAgree(uploads, StateAfter(AsWritten, uploads, InitState(uploads), before), e);
    }
  }

  lemma {:induction false} AgreeingRunIsOwners(uploads: seq<Upload>, events: seq<Event>)
    requires LegalEvents(AsWritten, uploads, InitState(uploads), events) && AllAgree(uploads, InitState(uploads), events)
    ensures LegalEvents(OwnerOnly, uploads, InitState(uploads), events)
    ensures StateAfter(OwnerOnly, uploads, InitState(uploads), events) == StateAfter(AsWritten, uploads, InitState(uploads), events)
  {
    hide Next, EventEnabled, GuardsAgree;
    if events == [] {
    } else {
      var before, e := events[..|events| - 1], events[|events| - 1];
      AgreeingRunIsOwners(uploads, before);
      AgreeingStep(uploads, StateAfter(AsWritten, uploads, InitState(uploads), before), e);
    }
  }

  /** For distinct images the runs of the code as written are runs of the intended protocol. */
  lemma DistinctReachesAreReachable(uploads: seq<Upload>, s: State)
    requires AllFit(uploads) && DistinctHashes(uploads) && Reaches(uploads, s)
    ensures Reachable(uploads, s)
  {
    hide AllFit, DistinctHashes;
    var events: seq<Event> :| LegalEvents(AsWritten, uploads, InitState(uploads), events)
                              && StateAfter(AsWritten, uploads, InitState(uploads), events) == s;
    DistinctRunsAgree(uploads, events);
    AgreeingRunIsOwners(uploads, events);
  }

  /** No run of the code as written leaves the protocol. */
  ghost predicate StaysInOrder(uploads: seq<Upload>) {
    forall s | Reaches(uploads, s) :: Protocol(uploads, s)
  }

  lemma DistinctStaysInOrder(uploads: seq<Upload>)
    requires AllFit(uploads) && DistinctHashes(uploads)
    ensures StaysInOrder(uploads)
  {
    hide AllFit, DistinctHashes, ProcOk, RaisedOk, DataOk, RegistryOk;
    forall s | Reaches(uploads, s) ensures Protocol(uploads, s) {
      var events: seq<Event> :| LegalEvents(AsWritten, uploads, InitState(uploads), events)
                                && StateAfter(AsWritten, uploads, InitState(uploads), events) == s;
      DistinctRunsAgree(uploads, events);
      RunsAsWrittenAreSafe(uploads, events);
    }
  }

  /** The code as written keeps the protocol in all its runs, and does not crash, exactly for
      uploads of distinct images: as soon as two have the same hash, some run in which nothing else
      goes wrong dereferences a null staged folder. */
  lemma GuardAsWrittenIsExact(uploads: seq<Upload>)
    requires AllFit(uploads)
    ensures StaysInOrder(uploads) <==> DistinctHashes(uploads)
    ensures CanCrash(uploads) <==> !DistinctHashes(uploads)
  {
    hide AllFit, RegistryOk, Reaches;
    if DistinctHashes(uploads) {
      DistinctStaysInOrder(uploads);
    } else {
      var p: nat, q: nat :| p < q < |uploads| && uploads[p].hash == uploads[q].hash;
      TwoUploadsCrash(uploads, p, q);
    }
  }
}
