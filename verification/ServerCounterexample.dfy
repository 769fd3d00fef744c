/** A run of the server as written in which one hash gets two live owners. */
module ServerCounterexample {
  import opened TaskGroups
  import opened Fanout
  import opened Server
  import opened CheckRuns
  import ServerInvariant

  ghost predicate Reaches(uploads: seq<Upload>, s: State) {
    exists events: seq<Event> ::
      LegalEvents(AsWritten, uploads, InitState(uploads), events)
      && StateAfter(AsWritten, uploads, InitState(uploads), events) == s
  }

  lemma Take(uploads: seq<Upload>, s: State, e: Event)
    requires Reaches(uploads, s) && EventEnabled(uploads, s, e)
    ensures Reaches(uploads, Next(AsWritten, uploads, s, e))
  {
    var events: seq<Event> :| LegalEvents(AsWritten, uploads, InitState(uploads), events)
                              && StateAfter(AsWritten, uploads, InitState(uploads), events) == s;
    hide Next, EventEnabled;
    assert (events + [e])[..|events|] == events;
    assert LegalEvents(AsWritten, uploads, InitState(uploads), events + [e]);
    assert StateAfter(AsWritten, uploads, InitState(uploads), events + [e]) == Next(AsWritten, uploads, s, e);
  }

  function CheckGroup(state: GroupState, pc: Pc<Work>, winner: Winner<Work>, callbacks: seq<Callback>): Group<Work> {
    Group(state, if IsCounted(pc) then 1 else 0, map[Check := pc], Finished, false, winner, callbacks, {})
  }

  /** A run whose only task is the check. */
  function CheckRun(job: Job, group: Group<Work>, pc: CheckPc): Run {
    Run(group, map[Check := Checking(pc)], false, false, job.extension, [], map[])
  }

  function Checks(job: Job, pc: CheckPc, notifier: Option<nat>): Proc {
    Proc(Looking(job, Body, pc), notifier, None, AtGuard, None)
  }

  function Failed(job: Job, pc: CheckPc, notifier: Option<nat>, fin: Finalizing): Proc {
    Proc(CheckRun(job, CheckGroup(DoneError, Done(Errored), Won(Check), [OnError]), pc), notifier, None, fin, None)
  }

  lemma Moves(uploads: seq<Upload>, s: State, p: nat, x: Proc, act: Act, r': Run)
    requires !s.crashed && |s.procs| == |uploads| && p < |uploads| && Reaches(uploads, Put(s, p, x))
    requires Leads(uploads[p].job, x.run, act, r')
    ensures Reaches(uploads, Put(s, p, x.(run := r')))
  {
    hide Perform, ActEnabled, Reaches;
    Take(uploads, Put(s, p, x), Server.Work(p, act));
    assert Put(Put(s, p, x), p, x.(run := r')) == Put(s, p, x.(run := r'));
  }

  /** An upload arrives and a worker starts its check. */
  lemma Starts(uploads: seq<Upload>, s: State, p: nat)
    requires Reaches(uploads, s) && !s.crashed && |s.procs| == |uploads| && p < |uploads|
    requires s.procs[p] == InitProc(uploads[p].job)
    ensures Reaches(uploads, Put(s, p, Checks(uploads[p].job, FirstLook, None)))
  {
    var job, x := uploads[p].job, s.procs[p];
    CallerLeads(job);
    PopLeads(job);
    assert Put(s, p, x) == s;
    hide Reaches, Leads, Called, CountedRun, Looking;
    Moves(uploads, s, p, x, Inner(CallerLoad), Called(job, Loaded));
    Moves(uploads, s, p, x.(run := Called(job, Loaded)), Inner(CallerFetch(Check)), CountedRun(job));
    Moves(uploads, s, p, x.(run := CountedRun(job)), Inner(CallerPush), Looking(job, Queued, FirstLook));
    Moves(uploads, s, p, x.(run := Looking(job, Queued, FirstLook)), Inner(Pop(Check)), Looking(job, Starting, FirstLook));
    Moves(uploads, s, p, x.(run := Looking(job, Starting, FirstLook)), Inner(Wrapper(Check)), Looking(job, Body, FirstLook));
    assert x.(run := Looking(job, Body, FirstLook)) == Checks(job, FirstLook, None);
  }

  // ---------------------------------------------------------------- a check that throws

  function Throwing(job: Job, pc: CheckPc, at: Pc<Work>): Run {
    var won := at != Caught;
    CheckRun(job, CheckGroup(if won then DoneError else TaskGroups.Running, at, if won then Won(Check) else Nobody, []), pc)
  }

  lemma ThrowLeads(job: Job, pc: CheckPc)
    ensures Leads(job, Throwing(job, pc, Caught), Inner(Wrapper(Check)), Throwing(job, pc, CaughtDecrement(true)))
    ensures Perform(job, Checks(job, pc, None).run, Fail(Check)) == Throwing(job, pc, Caught)
  {
    assert Perform(job, Checks(job, pc, None).run, Fail(Check)).group.tasks == Throwing(job, pc, Caught).group.tasks;
    assert WrapperStep(Throwing(job, pc, Caught).group, Check).tasks == Throwing(job, pc, CaughtDecrement(true)).group.tasks;
  }

  lemma ReportLeads(job: Job, pc: CheckPc)
    ensures Leads(job, Throwing(job, pc, CaughtDecrement(true)), Inner(Wrapper(Check)), Throwing(job, pc, Reporting(true)))
  {
    assert WrapperStep(Throwing(job, pc, CaughtDecrement(true)).group, Check).tasks == Throwing(job, pc, Reporting(true)).group.tasks;
  }

  lemma FailedLeads(job: Job, pc: CheckPc)
    ensures Leads(job, Throwing(job, pc, Reporting(true)), Inner(Wrapper(Check)), Failed(job, pc, None, AtGuard).run)
  {
    assert WrapperStep(Throwing(job, pc, Reporting(true)).group, Check).tasks == Failed(job, pc, None, AtGuard).run.group.tasks;
  }

  /** After an exception in its check, an upload's group ends in an error. */
  lemma Fails(uploads: seq<Upload>, s: State, p: nat, pc: CheckPc, notifier: Option<nat>)
    requires !s.crashed && |s.procs| == |uploads| && p < |uploads|
    requires Reaches(uploads, Put(s, p, Checks(uploads[p].job, pc, notifier).(run := Throwing(uploads[p].job, pc, Caught))))
    ensures Reaches(uploads, Put(s, p, Failed(uploads[p].job, pc, notifier, AtGuard)))
  {
    var job := uploads[p].job;
    var x := Checks(job, pc, notifier);
    ThrowLeads(job, pc);
    ReportLeads(job, pc);
    FailedLeads(job, pc);
    assert Failed(job, pc, notifier, AtGuard) == x.(run := Failed(job, pc, None, AtGuard).run);
    hide Reaches, Leads, Throwing, Failed;
    Moves(uploads, s, p, x.(run := Throwing(job, pc, Caught)), Inner(Wrapper(Check)), Throwing(job, pc, CaughtDecrement(true)));
    Moves(uploads, s, p, x.(run := Throwing(job, pc, CaughtDecrement(true))), Inner(Wrapper(Check)),
          Throwing(job, pc, Reporting(true)));
    Moves(uploads, s, p, x.(run := Throwing(job, pc, Reporting(true))), Inner(Wrapper(Check)), Failed(job, pc, None, AtGuard).run);
  }

  // ---------------------------------------------------------------- the steps of the story

  lemma LookLeads(job: Job, pc: CheckPc, to: CheckPc, notifier: Option<nat>)
    ensures InCheck(Checks(job, pc, notifier)) && Go(job, Checks(job, pc, notifier), to) == Checks(job, to, notifier)
  {
    DecideLeads(job, pc, Checking(to));
    hide Perform;
  }

  /** An upload arrives and finds neither data nor an owner. */
  lemma BecomesOwner(uploads: seq<Upload>, s: State, p: nat)
    requires Reaches(uploads, s) && !s.crashed && |s.procs| == |uploads| && p < |uploads|
    requires s.procs[p] == InitProc(uploads[p].job) && uploads[p].hash !in s.data && uploads[p].hash !in s.registry
    ensures Reaches(uploads, Put(s, p, Checks(uploads[p].job, LookAgain, Some(p)))
                             .(registry := s.registry[uploads[p].hash := p], raised := s.raised + {p}))
  {
    var job := uploads[p].job;
    Starts(uploads, s, p);
    LookLeads(job, FirstLook, Emplacing, None);
    LookLeads(job, Emplacing, LookAgain, None);
    hide Reaches, Server.Go;
    Take(uploads, Put(s, p, Checks(job, FirstLook, None)), CheckStep(p));
    assert Put(Put(s, p, Checks(job, FirstLook, None)), p, Checks(job, Emplacing, None)) == Put(s, p, Checks(job, Emplacing, None));
    Take(uploads, Put(s, p, Checks(job, Emplacing, None)), CheckStep(p));
    assert s.procs[p := Checks(job, Emplacing, None)][p := Checks(job, LookAgain, Some(p))]
        == s.procs[p := Checks(job, LookAgain, Some(p))];
  }

  /** An upload arrives while `q` owns the hash, and waits. */
  lemma BecomesWaiter(uploads: seq<Upload>, s: State, p: nat, q: nat)
    requires Reaches(uploads, s) && !s.crashed && |s.procs| == |uploads| && p < |uploads|
    requires s.procs[p] == InitProc(uploads[p].job) && uploads[p].hash !in s.data
    requires uploads[p].hash in s.registry && s.registry[uploads[p].hash] == q
    ensures Reaches(uploads, Put(s, p, Checks(uploads[p].job, Waiting, Some(q))))
  {
    var job := uploads[p].job;
    Starts(uploads, s, p);
    LookLeads(job, FirstLook, Emplacing, None);
    LookLeads(job, Emplacing, Waiting, None);
    hide Reaches, Server.Go;
    Take(uploads, Put(s, p, Checks(job, FirstLook, None)), CheckStep(p));
    assert Put(Put(s, p, Checks(job, FirstLook, None)), p, Checks(job, Emplacing, None)) == Put(s, p, Checks(job, Emplacing, None));
    Take(uploads, Put(s, p, Checks(job, Emplacing, None)), CheckStep(p));
    assert s.procs[p := Checks(job, Emplacing, None)][p := Checks(job, Waiting, Some(q))]
        == s.procs[p := Checks(job, Waiting, Some(q))];
  }

  /** The owner's second look fails, and its group ends in an error. */
  lemma OwnerFails(uploads: seq<Upload>, s: State, p: nat)
    requires Reaches(uploads, s) && !s.crashed && |s.procs| == |uploads| && p < |uploads|
    requires s.procs[p] == Checks(uploads[p].job, LookAgain, Some(p))
    ensures Reaches(uploads, Put(s, p, Failed(uploads[p].job, LookAgain, Some(p), AtGuard)))
  {
    ThrowLeads(uploads[p].job, LookAgain);
    assert Checks(uploads[p].job, LookAgain, Some(p)).run == Checks(uploads[p].job, LookAgain, None).run;
    hide Reaches, Perform;
    Take(uploads, s, CheckFails(p));
    Fails(uploads, s, p, LookAgain, Some(p));
  }

  /** The waiter wakes up, finds nothing and throws. */
  lemma WaiterFails(uploads: seq<Upload>, s: State, p: nat, q: nat)
    requires Reaches(uploads, s) && !s.crashed && |s.procs| == |uploads| && p < |uploads|
    requires s.procs[p] == Checks(uploads[p].job, Waiting, Some(q)) && q !in s.raised && uploads[p].hash !in s.data
    ensures Reaches(uploads, Put(s, p, Failed(uploads[p].job, LookAfterWait, Some(q), AtGuard)))
  {
    var job := uploads[p].job;
    LookLeads(job, Waiting, LookAfterWait, Some(q));
    ThrowLeads(job, LookAfterWait);
    assert Checks(job, LookAfterWait, Some(q)).run == Checks(job, LookAfterWait, None).run;
    hide Reaches, Perform, Server.Go;
    Take(uploads, s, CheckStep(p));
    Take(uploads, Put(s, p, Checks(job, LookAfterWait, Some(q))), CheckStep(p));
    var x := Checks(job, LookAfterWait, Some(q)).(run := Throwing(job, LookAfterWait, Caught));
    assert Put(Put(s, p, Checks(job, LookAfterWait, Some(q))), p, x) == Put(s, p, x);
    Fails(uploads, s, p, LookAfterWait, Some(q));
  }

  /** A failed upload with a notifier enters its guarded block, erases, and notifies. */
  lemma FailedErases(uploads: seq<Upload>, s: State, p: nat, pc: CheckPc, q: nat)
    requires Reaches(uploads, s) && !s.crashed && |s.procs| == |uploads| && p < |uploads|
    requires s.procs[p] == Failed(uploads[p].job, pc, Some(q), AtGuard)
    ensures Reaches(uploads, Put(s, p, Failed(uploads[p].job, pc, Some(q), AtHook))
                             .(registry := s.registry - {uploads[p].hash}, raised := s.raised - {q}))
  {
    var job, h := uploads[p].job, uploads[p].hash;
    var s1 := Put(s, p, Failed(job, pc, Some(q), AtErase));
    var s2 := Put(s, p, Failed(job, pc, Some(q), AtNotify)).(registry := s.registry - {h});
    var s3 := Put(s, p, Failed(job, pc, Some(q), AtHook)).(registry := s.registry - {h}, raised := s.raised - {q});
    hide Reaches;
    Take(uploads, s, FinStep(p));
    assert FinNext(AsWritten, uploads, s, p) == s1;
    Take(uploads, s1, FinStep(p));
    assert FinNext(AsWritten, uploads, s1, p) == s2;
    Take(uploads, s2, FinStep(p));
    assert FinNext(AsWritten, uploads, s2, p) == s3;
  }

  predicate SameHash(uploads: seq<Upload>) {
    |uploads| == 4 && forall p: nat | p < 4 :: uploads[p].hash == uploads[0].hash
  }

  /** The first upload owns the hash, the second waits, and the first fails. */
  lemma OwnerFailed(uploads: seq<Upload>) returns (s: State)
    requires SameHash(uploads)
    ensures Reaches(uploads, s) && |s.procs| == 4 && !s.crashed
    ensures s.registry == map[uploads[0].hash := 0] && s.raised == {0} && s.data == map[]
    ensures s.procs[0] == Failed(uploads[0].job, LookAgain, Some(0), AtGuard)
    ensures s.procs[1] == Checks(uploads[1].job, Waiting, Some(0))
    ensures s.procs[2] == InitProc(uploads[2].job) && s.procs[3] == InitProc(uploads[3].job)
  {
    var h, s0 := uploads[0].hash, InitState(uploads);
    assert Reaches(uploads, s0) by {
      assert LegalEvents(AsWritten, uploads, s0, []) && StateAfter(AsWritten, uploads, s0, []) == s0;
    }
    hide Reaches, Checks, Failed;
    BecomesOwner(uploads, s0, 0);
    var s1 := Put(s0, 0, Checks(uploads[0].job, LookAgain, Some(0))).(registry := map[h := 0], raised := {0});
    assert s0.registry[h := 0] == s1.registry && s0.raised + {0} == s1.raised;
    BecomesWaiter(uploads, s1, 1, 0);
    var s2 := Put(s1, 1, Checks(uploads[1].job, Waiting, Some(0)));
    OwnerFails(uploads, s2, 0);
    s := Put(s2, 0, Failed(uploads[0].job, LookAgain, Some(0), AtGuard));
  }

  /** The second fails too; nobody owns the hash. */
  lemma WaiterFailed(uploads: seq<Upload>) returns (s: State)
    requires SameHash(uploads)
    ensures Reaches(uploads, s) && |s.procs| == 4 && !s.crashed
    ensures s.registry == map[] && s.raised == {} && s.data == map[]
    ensures s.procs[1] == Failed(uploads[1].job, LookAfterWait, Some(0), AtGuard)
    ensures s.procs[2] == InitProc(uploads[2].job) && s.procs[3] == InitProc(uploads[3].job)
  {
    var s3 := OwnerFailed(uploads);
    hide Reaches, Checks, Failed;
    FailedErases(uploads, s3, 0, LookAgain, 0);
    var s4 := Put(s3, 0, Failed(uploads[0].job, LookAgain, Some(0), AtHook)).(registry := map[], raised := {});
    assert s3.registry - {uploads[0].hash} == s4.registry && s3.raised - {0} == s4.raised;
    WaiterFails(uploads, s4, 1, 0);
    s := Put(s4, 1, Failed(uploads[1].job, LookAfterWait, Some(0), AtGuard));
  }

  /** The third becomes the owner, and the second erases its entry. */
  lemma EntryErased(uploads: seq<Upload>) returns (s: State)
    requires SameHash(uploads)
    ensures Reaches(uploads, s) && |s.procs| == 4 && !s.crashed
    ensures s.registry == map[] && s.raised == {2} && s.data == map[]
    ensures s.procs[2] == Checks(uploads[2].job, LookAgain, Some(2)) && s.procs[3] == InitProc(uploads[3].job)
  {
    var s0 := WaiterFailed(uploads);
    var h := uploads[0].hash;
    hide Reaches, Checks, Failed;
    BecomesOwner(uploads, s0, 2);
    var s1 := Put(s0, 2, Checks(uploads[2].job, LookAgain, Some(2))).(registry := map[h := 2], raised := {2});
    assert s0.registry[h := 2] == s1.registry && s0.raised + {2} == s1.raised;
    FailedErases(uploads, s1, 1, LookAfterWait, 0);
    s := Put(s1, 1, Failed(uploads[1].job, LookAfterWait, Some(0), AtHook)).(registry := map[], raised := {2});
    assert s1.registry - {h} == s.registry && s1.raised - {0} == s.raised;
  }

  /** Four uploads of one image. The first owns the hash and fails; the second, which waited
      for it, fails too; the third becomes the owner in between, and the second erases its
      entry; so the fourth becomes an owner as well. Whatever the image, and in the code as
      written, two uploads then process the same hash at the same time. */
  lemma TwoOwners(uploads: seq<Upload>)
    requires |uploads| == 4 && forall p: nat | p < 4 :: uploads[p].hash == uploads[0].hash
    ensures exists s: State ::
      Reaches(uploads, s) && |s.procs| == 4 && ServerInvariant.Owns(s, 2) && ServerInvariant.Owns(s, 3)
  {
    var s2 := EntryErased(uploads);
    hide Reaches;
    BecomesOwner(uploads, s2, 3);
  }
}
