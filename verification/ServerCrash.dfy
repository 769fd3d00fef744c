/** The commonest failure of the guard as written: two uploads of one image, both of which go well.
    The first owns the hash and commits; the second waits, finds the folder, and then commits a
    staged folder it never had. */
module ServerCrash {
  import opened TaskGroups
  import opened Fanout
  import FanoutInvariant
  import opened FanoutTheorems
  import opened FanoutSuccess
  import opened Server
  import opened CheckRuns
  import ServerInvariant
  import SchedulerTermination
  import opened ServerCounterexample

  // ---------------------------------------------------------------- the uploads' own runs

  /** Whatever the guard, every upload's own run keeps its invariant. */
  ghost predicate RunsOk(uploads: seq<Upload>, s: State) {
    |s.procs| == |uploads| && forall p: nat | p < |uploads| :: RunOk(uploads[p].job, s.procs[p].run)
  }

  /** What an event does to its upload's run. */
  lemma EventActs(rule: Rule, uploads: seq<Upload>, s: State, e: Event)
    requires EventEnabled(uploads, s, e)
    ensures var s' := Next(rule, uploads, s, e);
      && |s'.procs| == |s.procs| && s'.procs == s.procs[e.p := s'.procs[e.p]]
      && (s'.procs[e.p].run == s.procs[e.p].run
          || exists act :: ActEnabled(uploads[e.p].job, s.procs[e.p].run, act)
                           && s'.procs[e.p].run == Perform(uploads[e.p].job, s.procs[e.p].run, act))
  {
    hide Perform, ActEnabled, CheckNext, SchedulerTermination.CheckAct;
    match e
    case Work(p, act) =>
    case CheckStep(p) =>
      SchedulerTermination.CheckActIs(uploads, s, p);
      CheckMovesOne(uploads, s, p);
    case CheckFails(p) => SchedulerTermination.LooksMayFail(uploads[p].job, s.procs[p]);
    case FinStep(p) =>
  }

  lemma CheckMovesOne(uploads: seq<Upload>, s: State, p: nat)
    requires EventEnabled(uploads, s, CheckStep(p))
    ensures var s' := CheckNext(uploads, s, p); |s'.procs| == |s.procs| && s'.procs == s.procs[p := s'.procs[p]]
  {
    hide Perform;
  }

  lemma NextKeepsRuns(rule: Rule, uploads: seq<Upload>, s: State, e: Event)
    requires ServerInvariant.AllFit(uploads) && RunsOk(uploads, s) && EventEnabled(uploads, s, e)
    ensures RunsOk(uploads, Next(rule, uploads, s, e))
  {
    EventActs(rule, uploads, s, e);
    assert Fits(uploads[e.p].job);
    hide RunOk, Perform, ActEnabled, Next, Fits;
    var r, s' := s.procs[e.p].run, Next(rule, uploads, s, e);
    if s'.procs[e.p].run != r {
      var act :| ActEnabled(uploads[e.p].job, r, act) && s'.procs[e.p].run == Perform(uploads[e.p].job, r, act);
      ActKeepsRunOk(uploads[e.p].job, r, act);
    }
  }

  lemma {:induction false} LegalKeepsRuns(uploads: seq<Upload>, events: seq<Event>)
    requires ServerInvariant.AllFit(uploads) && LegalEvents(AsWritten, uploads, InitState(uploads), events)
    ensures RunsOk(uploads, StateAfter(AsWritten, uploads, InitState(uploads), events))
  {
    hide ServerInvariant.AllFit, Next, EventEnabled, RunOk;
    if events == [] {
      forall p: nat | p < |uploads| ensures RunOk(uploads[p].job, InitState(uploads).procs[p].run) {
        InitRunOk(uploads[p].job);
      }
    } else {
      var before := events[..|events| - 1];
      LegalKeepsRuns(uploads, before);
      hide RunsOk;
      NextKeepsRuns(AsWritten, uploads, StateAfter(AsWritten, uploads, InitState(uploads), before), events[|events| - 1]);
    }
  }

  lemma ReachedRuns(uploads: seq<Upload>, s: State)
    requires ServerInvariant.AllFit(uploads) && Reaches(uploads, s)
    ensures RunsOk(uploads, s)
  {
    var events: seq<Event> :| LegalEvents(AsWritten, uploads, InitState(uploads), events)
                              && StateAfter(AsWritten, uploads, InitState(uploads), events) == s;
    hide ServerInvariant.AllFit, RunsOk;
    LegalKeepsRuns(uploads, events);
  }

  // ---------------------------------------------------------------- an upload's work, uninterrupted

  lemma {:induction false} WorkReaches(uploads: seq<Upload>, s: State, p: nat, acts: seq<Act>)
    requires Reaches(uploads, s) && !s.crashed && |s.procs| == |uploads| && p < |uploads|
    requires LegalRun(uploads[p].job, s.procs[p].run, acts) && AllWork(acts)
    ensures Reaches(uploads, Put(s, p, s.procs[p].(run := EndOf(uploads[p].job, s.procs[p].run, acts))))
  {
    hide Reaches, Perform, ActEnabled, IsWork;
    var job, r := uploads[p].job, s.procs[p].run;
    if acts == [] {
      assert Put(s, p, s.procs[p].(run := r)) == s;
    } else {
      var before, act := acts[..|acts| - 1], acts[|acts| - 1];
      WorkReaches(uploads, s, p, before);
      var s1 := Put(s, p, s.procs[p].(run := EndOf(job, r, before)));
      assert act == acts[|acts| - 1] && IsWork(act);
      Take(uploads, s1, Server.Work(p, act));
      assert Next(AsWritten, uploads, s1, Server.Work(p, act)) == Put(s, p, s.procs[p].(run := EndOf(job, r, acts)));
    }
  }

  /** An upload whose check has made its decision goes on to its success. */
  lemma Succeeds(uploads: seq<Upload>, s: State, p: nat) returns (r: Run)
    requires ServerInvariant.AllFit(uploads) && Reaches(uploads, s) && !s.crashed && |s.procs| == |uploads| && p < |uploads|
    requires Healthy(s.procs[p].run)
    ensures Reaches(uploads, Put(s, p, s.procs[p].(run := r)))
    ensures RunOk(uploads[p].job, r) && r.group.callbacks == [OnFinish] && r.isNew == s.procs[p].run.isNew
  {
    hide Reaches, Healthy, RunOk, Fits;
    ReachedRuns(uploads, s);
    assert Fits(uploads[p].job);
    var acts := CanSucceed(uploads[p].job, s.procs[p].run);
    WorkReaches(uploads, s, p, acts);
    r := EndOf(uploads[p].job, s.procs[p].run, acts);
  }

  lemma SuccessIsStaged(job: Job, r: Run)
    requires RunOk(job, r) && r.group.callbacks == [OnFinish]
    ensures r.staged <==> r.isNew
  {
    assert OnFinish in r.group.callbacks;
    if r.isNew {
      FinishedMeansAllDone(job, r);
      FanoutInvariant.InWorkOf(|job.sizes|, |job.Formats()|);
      assert Load in FanoutInvariant.WorkOf(|job.sizes|, |job.Formats()|);
    }
  }

  // ---------------------------------------------------------------- the steps of the story

  /** The first owns the hash, and the second waits for it. */
  lemma OneWaits(uploads: seq<Upload>, p: nat, q: nat) returns (s: State)
    requires p < |uploads| && q < |uploads| && p != q && uploads[p].hash == uploads[q].hash
    ensures Reaches(uploads, s) && |s.procs| == |uploads| && !s.crashed
    ensures s.registry == map[uploads[p].hash := p] && s.raised == {p} && s.data == map[] && s.author == map[]
    ensures s.procs[p] == Checks(uploads[p].job, LookAgain, Some(p))
    ensures s.procs[q] == Checks(uploads[q].job, Waiting, Some(p))
  {
    var h, s0 := uploads[p].hash, InitState(uploads);
    assert Reaches(uploads, s0) by {
      assert LegalEvents(AsWritten, uploads, s0, []) && StateAfter(AsWritten, uploads, s0, []) == s0;
    }
    hide Reaches, Checks;
    BecomesOwner(uploads, s0, p);
    var s1 := Put(s0, p, Checks(uploads[p].job, LookAgain, Some(p))).(registry := map[h := p], raised := {p});
    assert s0.registry[h := p] == s1.registry && s0.raised + {p} == s1.raised;
    BecomesWaiter(uploads, s1, q, p);
    s := Put(s1, q, Checks(uploads[q].job, Waiting, Some(p)));
  }

  lemma DecidedIsHealthy(job: Job, to: Stage)
    requires to.CheckAdds? || to.Ended?
    ensures Healthy(OnlyTask(job, Body, to, to.CheckAdds?))
  {
  }

  /** The owner's second look finds nothing. */
  lemma OwnerGoesOn(uploads: seq<Upload>, s: State, p: nat) returns (y: Proc)
    requires Reaches(uploads, s) && !s.crashed && |s.procs| == |uploads| && p < |uploads|
    requires s.procs[p] == Checks(uploads[p].job, LookAgain, Some(p)) && uploads[p].hash !in s.data
    ensures Reaches(uploads, Put(s, p, y)) && y == s.procs[p].(run := OnlyTask(uploads[p].job, Body, CheckAdds, true))
  {
    DecideLeads(uploads[p].job, LookAgain, CheckAdds);
    y := s.procs[p].(run := OnlyTask(uploads[p].job, Body, CheckAdds, true));
    hide Reaches, Perform;
    Take(uploads, s, CheckStep(p));
    assert Next(AsWritten, uploads, s, CheckStep(p)) == Put(s, p, y);
  }

  /** Its upload goes well. */
  lemma OwnerSucceeds(uploads: seq<Upload>, s: State, p: nat) returns (x: Proc)
    requires ServerInvariant.AllFit(uploads) && Reaches(uploads, s) && !s.crashed && |s.procs| == |uploads| && p < |uploads|
    requires s.procs[p] == Checks(uploads[p].job, LookAgain, Some(p)) && uploads[p].hash !in s.data
    ensures Reaches(uploads, Put(s, p, x))
    ensures x.fin.AtGuard? && x.notifier == Some(p) && Succeeded(x) && x.run.staged
  {
    DecidedIsHealthy(uploads[p].job, CheckAdds);
    hide Reaches, Healthy, ServerInvariant.AllFit, RunOk;
    var y := OwnerGoesOn(uploads, s, p);
    var r := Succeeds(uploads, Put(s, p, y), p);
    SuccessIsStaged(uploads[p].job, r);
    x := y.(run := r);
    assert Put(Put(s, p, y), p, x) == Put(s, p, x);
  }

  /** It commits, erases its entry and notifies. */
  lemma OwnerCommits(uploads: seq<Upload>, s: State, p: nat)
    requires Reaches(uploads, s) && !s.crashed && |s.procs| == |uploads| && p < |uploads|
    requires var x := s.procs[p]; x.fin.AtGuard? && x.notifier == Some(p) && Succeeded(x) && x.run.staged
    requires uploads[p].hash !in s.data
    ensures var x, h := s.procs[p], uploads[p].hash;
      Reaches(uploads, Put(s, p, x.(fin := AtHook)).(data := s.data[h := x.run.tree], author := s.author[h := p],
                                                     registry := s.registry - {h}, raised := s.raised - {p}))
  {
    var x, h := s.procs[p], uploads[p].hash;
    var s1 := Put(s, p, x.(fin := AtCommit));
    var s2 := Put(s, p, x.(fin := AtErase)).(data := s.data[h := x.run.tree], author := s.author[h := p]);
    var s3 := Put(s2, p, x.(fin := AtNotify)).(registry := s.registry - {h});
    var s4 := Put(s3, p, x.(fin := AtHook)).(raised := s.raised - {p});
    hide Reaches;
    Take(uploads, s, FinStep(p));
    assert FinNext(AsWritten, uploads, s, p) == s1;
    Take(uploads, s1, FinStep(p));
    assert FinNext(AsWritten, uploads, s1, p) == s2;
    Take(uploads, s2, FinStep(p));
    assert FinNext(AsWritten, uploads, s2, p) == s3;
    Take(uploads, s3, FinStep(p));
    assert FinNext(AsWritten, uploads, s3, p) == s4;
    assert s4.procs == s.procs[p := x.(fin := AtHook)];
  }

  /** The waiter wakes up and finds the folder. */
  lemma WaiterFinds(uploads: seq<Upload>, s: State, q: nat, p: nat) returns (y: Proc)
    requires Reaches(uploads, s) && !s.crashed && |s.procs| == |uploads| && q < |uploads|
    requires s.procs[q] == Checks(uploads[q].job, Waiting, Some(p)) && p !in s.raised && uploads[q].hash in s.data
    ensures Reaches(uploads, Put(s, q, y))
    ensures y == Checks(uploads[q].job, LookAfterWait, Some(p)).(
                   run := OnlyTask(uploads[q].job, Body, Ended, false), answer := Some(s.data[uploads[q].hash]))
  {
    var job := uploads[q].job;
    LookLeads(job, Waiting, LookAfterWait, Some(p));
    DecideLeads(job, LookAfterWait, Ended);
    var y1 := Checks(job, LookAfterWait, Some(p));
    y := y1.(run := OnlyTask(job, Body, Ended, false), answer := Some(s.data[uploads[q].hash]));
    hide Reaches, Perform, Server.Go;
    Take(uploads, s, CheckStep(q));
    assert Next(AsWritten, uploads, s, CheckStep(q)) == Put(s, q, y1);
    Take(uploads, Put(s, q, y1), CheckStep(q));
    assert Put(Put(s, q, y1), q, y) == Put(s, q, y);
  }

  /** Its upload goes well too. */
  lemma WaiterSucceeds(uploads: seq<Upload>, s: State, q: nat, p: nat) returns (x: Proc)
    requires ServerInvariant.AllFit(uploads) && Reaches(uploads, s) && !s.crashed && |s.procs| == |uploads| && q < |uploads|
    requires s.procs[q] == Checks(uploads[q].job, Waiting, Some(p)) && p !in s.raised && uploads[q].hash in s.data
    ensures Reaches(uploads, Put(s, q, x))
    ensures x.fin.AtGuard? && x.notifier == Some(p) && Succeeded(x) && !x.run.staged
  {
    DecidedIsHealthy(uploads[q].job, Ended);
    hide Reaches, Healthy, ServerInvariant.AllFit, RunOk, OnlyTask, Looking;
    var y := WaiterFinds(uploads, s, q, p);
    var r := Succeeds(uploads, Put(s, q, y), q);
    SuccessIsStaged(uploads[q].job, r);
    assert !y.run.isNew by { DecidedIsOld(uploads[q].job); }
    x := y.(run := r);
    assert Put(Put(s, q, y), q, x) == Put(s, q, x);
  }

  lemma DecidedIsOld(job: Job)
    ensures !OnlyTask(job, Body, Ended, false).isNew
  {
  }

  /** It has a notifier, so it commits its null staged folder. */
  lemma WaiterCrashes(uploads: seq<Upload>, s: State, q: nat)
    requires Reaches(uploads, s) && !s.crashed && |s.procs| == |uploads| && q < |uploads|
    requires var x := s.procs[q]; x.fin.AtGuard? && x.notifier.Some? && Succeeded(x) && !x.run.staged
    ensures Reaches(uploads, Put(s, q, s.procs[q].(fin := AtCommit)).(crashed := true))
  {
    var s1 := Put(s, q, s.procs[q].(fin := AtCommit));
    hide Reaches;
    Take(uploads, s, FinStep(q));
    assert FinNext(AsWritten, uploads, s, q) == s1;
    Take(uploads, s1, FinStep(q));
    assert FinNext(AsWritten, uploads, s1, q) == s1.(crashed := true);
  }

  ghost predicate CanCrash(uploads: seq<Upload>) {
    exists s :: Reaches(uploads, s) && s.crashed
  }

  /** For any two uploads of one image, whatever the others are. */
  lemma TwoUploadsCrash(uploads: seq<Upload>, p: nat, q: nat)
    requires ServerInvariant.AllFit(uploads) && p < |uploads| && q < |uploads| && p != q
    requires uploads[p].hash == uploads[q].hash
    ensures CanCrash(uploads)
  {
    hide Reaches, ServerInvariant.AllFit, Checks, Succeeded;
    var s1 := OneWaits(uploads, p, q);
    var x := OwnerSucceeds(uploads, s1, p);
    var s2 := Put(s1, p, x);
    OwnerCommits(uploads, s2, p);
    var h := uploads[p].hash;
    var s3 := Put(s2, p, x.(fin := AtHook)).(data := s2.data[h := x.run.tree], author := s2.author[h := p],
                                             registry := s2.registry - {h}, raised := s2.raised - {p});
    var y := WaiterSucceeds(uploads, s3, q, p);
    WaiterCrashes(uploads, Put(s3, q, y), q);
    var s4 := Put(Put(s3, q, y), q, y.(fin := AtCommit)).(crashed := true);
    assert Reaches(uploads, s4);
  }
}
