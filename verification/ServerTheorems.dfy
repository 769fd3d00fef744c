/** Safety of the server over every run: one owner per hash, folders written once and complete,
    and waiters that see the commit. */
module ServerTheorems {
  import opened TaskGroups
  import TaskGroupInvariant
  import opened Fanout
  import opened FanoutTheorems
  import opened Server
  import opened ServerInvariant

  lemma {:induction false} RunsAreSafe(uploads: seq<Upload>, events: seq<Event>)
    requires AllFit(uploads) && LegalEvents(OwnerOnly, uploads, InitState(uploads), events)
    ensures Safe(uploads, StateAfter(OwnerOnly, uploads, InitState(uploads), events))
  {
    hide Safe, AllFit, Next;
    if events == [] {
      InitSafe(uploads);
    } else {
      var before := events[..|events| - 1];
      RunsAreSafe(uploads, before);
      NextIsSafe(uploads, StateAfter(OwnerOnly, uploads, InitState(uploads), before), events[|events| - 1]);
    }
  }

  /** Some run of the server under the ownership rule leads to `s`. */
  ghost predicate Reachable(uploads: seq<Upload>, s: State) {
    exists events ::
      LegalEvents(OwnerOnly, uploads, InitState(uploads), events) && StateAfter(OwnerOnly, uploads, InitState(uploads), events) == s
  }

  lemma ReachableIsSafe(uploads: seq<Upload>, s: State)
    requires AllFit(uploads) && Reachable(uploads, s)
    ensures Safe(uploads, s) && |s.procs| == |uploads|
  {
    var events :| LegalEvents(OwnerOnly, uploads, InitState(uploads), events)
                  && StateAfter(OwnerOnly, uploads, InitState(uploads), events) == s;
    RunsAreSafe(uploads, events);
    hide AllFit, ProcOk, RegistryOk, RaisedOk, DataOk;
  }

  /** Each hash has at most one live owner. */
  lemma OneOwner(uploads: seq<Upload>, s: State, p: nat, q: nat)
    requires AllFit(uploads) && Reachable(uploads, s) && p < |uploads| == |s.procs| && q < |uploads|
    requires uploads[p].hash == uploads[q].hash
    requires Owns(s, p) && Owns(s, q)
    ensures p == q
  {
    hide RunOk, AllFit, Reachable;
    ReachableIsSafe(uploads, s);
  }

  /** From its second look into the data directory until its commit, the owner of a new image
      finds the target of the rename absent. */
  lemma RecheckStaysValid(uploads: seq<Upload>, s: State, p: nat)
    requires AllFit(uploads) && Reachable(uploads, s) && p < |uploads| == |s.procs| && s.procs[p].run.isNew
    requires s.procs[p].fin.AtGuard? || s.procs[p].fin.AtCommit?
    ensures uploads[p].hash !in s.data
  {
    hide RunOk, AllFit, Reachable;
    ReachableIsSafe(uploads, s);
    assert ProcOk(uploads, s, p);
  }

  /** A folder of the data directory is never changed or removed. */
  lemma StepWritesOnce(rule: Rule, uploads: seq<Upload>, s: State, e: Event, h: Hash)
    requires EventEnabled(uploads, s, e) && h in s.data
    ensures h in Next(rule, uploads, s, e).data && Next(rule, uploads, s, e).data[h] == s.data[h]
  {
    hide Perform;
  }

  lemma {:induction false} WriteOnce(rule: Rule, uploads: seq<Upload>, s: State, events: seq<Event>, h: Hash)
    requires LegalEvents(rule, uploads, s, events) && h in s.data
    ensures var s' := StateAfter(rule, uploads, s, events); h in s'.data && s'.data[h] == s.data[h]
  {
    hide Next, EventEnabled;
    if events == [] {
    } else {
      var before := events[..|events| - 1];
      WriteOnce(rule, uploads, s, before, h);
      StepWritesOnce(rule, uploads, StateAfter(rule, uploads, s, before), events[|events| - 1], h);
    }
  }

  /** A folder appears complete: it is the sequential result of an upload of that hash whose
      group succeeded. A run that reports only errors leaves the data directory empty. */
  lemma FoldersAreComplete(uploads: seq<Upload>, s: State, h: Hash)
    requires AllFit(uploads) && Reachable(uploads, s) && h in s.data
    ensures exists p: nat ::
      p < |uploads| == |s.procs| && uploads[p].hash == h && Succeeded(s.procs[p]) && s.procs[p].run.isNew
      && s.data[h] == TreeOf(uploads[p].job, |uploads[p].job.sizes|)
  {
    hide RunOk, AllFit, Reachable;
    ReachableIsSafe(uploads, s);
    assert s.author[h] < |uploads|;
  }

  /** A waiter whose owner succeeded finds the data: the throw after the wait happens only if
      the owner's group ended in an error. */
  lemma WaiterSeesCommit(uploads: seq<Upload>, s: State, p: nat)
    requires AllFit(uploads) && Reachable(uploads, s) && p < |uploads| == |s.procs| && CheckOf(s.procs[p]) == Some(LookAfterWait)
    ensures s.procs[p].notifier.Some? && s.procs[p].notifier.value < |uploads|
    ensures var owner := s.procs[s.procs[p].notifier.value];
      owner.run.group.callbacks != [] && (Succeeded(owner) ==> uploads[p].hash in s.data)
  {
    hide RunOk, AllFit, Reachable;
    ReachableIsSafe(uploads, s);
    assert ProcOk(uploads, s, p);
    var q := s.procs[p].notifier.value;
    assert ProcOk(uploads, s, q);
  }

  /** A notifier that still holds true belongs to a group whose `finalize` has not finished,
      so nobody waits on an upload that is over. */
  lemma RaisedMeansUnfinished(uploads: seq<Upload>, s: State, p: nat)
    requires AllFit(uploads) && Reachable(uploads, s) && p in s.raised
    ensures p < |uploads| == |s.procs| && s.procs[p].replied.None?
  {
    hide RunOk, AllFit, Reachable;
    ReachableIsSafe(uploads, s);
    assert ProcOk(uploads, s, p);
  }

  /** What an upload reports is true: after a success its hash is stored and complete. */
  lemma SuccessIsStored(uploads: seq<Upload>, s: State, p: nat)
    requires AllFit(uploads) && Reachable(uploads, s) && p < |uploads| == |s.procs| && s.procs[p].replied == Some(true)
    ensures uploads[p].hash in s.data
  {
    hide RunOk, AllFit, Reachable;
    ReachableIsSafe(uploads, s);
    assert ProcOk(uploads, s, p);
    SuccessIsStagedOrFound(uploads[p].job, s.procs[p], p);
  }

  /** How many steps of `finalize` are left. */
  function FinRank(x: Proc): nat {
    match x.fin
    case AtGuard => 5
    case AtCommit => 4
    case AtErase => 3
    case AtNotify => 2
    case AtHook => 1
    case Finalized => 0
  }
}
