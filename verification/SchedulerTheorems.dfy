/** Progress of the server with its tight bound: on `n` workers no run gets stuck exactly if
    fewer than `n` of the uploads repeat the hash of another. */
module SchedulerTheorems {
  import opened TaskGroups
  import opened Fanout
  import FanoutInvariant
  import opened Server
  import opened ServerInvariant
  import opened Scheduler
  import opened SchedulerProgress
  import SchedulerRuns
  import opened SchedulerDeadlock

  // ---------------------------------------------------------------- runs that end, end well

  /** A run that cannot go on, with a worker not blocked, has answered every upload. */
  lemma MaximalRunsAnswerAll(n: nat, uploads: seq<Upload>, events: seq<Event>)
    requires AllFit(uploads) && LegalSched(n, uploads, InitSched(uploads), events)
    requires var c := SchedAfter(n, uploads, InitSched(uploads), events);
      !CanMove(n, uploads, c) && |Blocked(c.server)| < n
    ensures AllReplied(SchedAfter(n, uploads, InitSched(uploads), events).server)
  {
    SchedulerRuns.RunsAreOk(n, uploads, events);
    var c := SchedAfter(n, uploads, InitSched(uploads), events);
    hide Safe, QueueOk, CanMove, Blocked;
    if !AllReplied(c.server) { Progress(n, uploads, c); }
  }

  function Hashes(uploads: seq<Upload>): set<Hash> {
    set p | 0 <= p < |uploads| :: uploads[p].hash
  }

  lemma {:induction false} ImageIsSmaller(uploads: seq<Upload>, ps: set<nat>, hs: set<Hash>)
    requires forall p | p in ps :: p < |uploads|
    requires forall h | h in hs :: exists p :: p in ps && uploads[p].hash == h
    ensures |hs| <= |ps|
  {
    if hs == {} {
    } else {
      var h :| h in hs;
      var p :| p in ps && uploads[p].hash == h;
      forall g | g in hs - {h} ensures exists q :: q in ps - {p} && uploads[q].hash == g {
        var q :| q in ps && uploads[q].hash == g;
        assert q in ps - {p};
      }
      ImageIsSmaller(uploads, ps - {p}, hs - {h});
    }
  }

  /** A blocked upload's owner is itself not blocked: of each hash, one upload is not. */
  lemma UnblockedOfHash(uploads: seq<Upload>, s: State, p: nat)
    requires Safe(uploads, s) && p < |uploads|
    ensures exists q: nat :: q < |uploads| && uploads[q].hash == uploads[p].hash && q !in Blocked(s)
  {
    hide FanoutTheorems.RunOk;
    assert ProcOk(uploads, s, p);
    if p in Blocked(s) {
      var q := s.procs[p].notifier.value;
      OwnerIsUnanswered(uploads, s, q);
      assert q !in Blocked(s) && uploads[q].hash == uploads[p].hash;
    }
  }

  function Indices(k: nat): set<nat> {
    if k == 0 then {} else Indices(k - 1) + {k - 1}
  }

  lemma {:induction false} IndicesAre(k: nat)
    ensures |Indices(k)| == k && forall p: nat :: p in Indices(k) <==> p < k
  {
    if k == 0 {
    } else {
      IndicesAre(k - 1);
    }
  }

  /** No more uploads are blocked than repeat another's hash. */
  lemma BlockedBound(uploads: seq<Upload>, s: State)
    requires Safe(uploads, s)
    ensures |Blocked(s)| + |Hashes(uploads)| <= |uploads|
  {
    IndicesAre(|uploads|);
    hide Indices;
    var free := Indices(|uploads|) - Blocked(s);
    assert Blocked(s) <= Indices(|uploads|);
    forall h | h in Hashes(uploads) ensures exists q :: q in free && uploads[q].hash == h {
      var p :| 0 <= p < |uploads| && uploads[p].hash == h;
      UnblockedOfHash(uploads, s, p);
      var q: nat :| q < |uploads| && uploads[q].hash == uploads[p].hash && q !in Blocked(s);
      assert q in free;
    }
    hide Safe, Blocked;
    ImageIsSmaller(uploads, free, Hashes(uploads));
    assert |free| == |Indices(|uploads|)| - |Blocked(s)|;
  }

  /** In every reachable state all uploads are answered or a step can be taken. */
  ghost predicate NeverStuck(n: nat, uploads: seq<Upload>) {
    forall c :: Reached(n, uploads, c) ==> AllReplied(c.server) || CanMove(n, uploads, c)
  }

  lemma FewRepeatsNeverStuck(n: nat, uploads: seq<Upload>)
    requires AllFit(uploads) && |uploads| < n + |Hashes(uploads)|
    ensures NeverStuck(n, uploads)
  {
    forall c | Reached(n, uploads, c) ensures AllReplied(c.server) || CanMove(n, uploads, c) {
      var events :| LegalSched(n, uploads, InitSched(uploads), events) && SchedAfter(n, uploads, InitSched(uploads), events) == c;
      SchedulerRuns.RunsAreOk(n, uploads, events);
      BlockedBound(uploads, c.server);
      hide Safe, QueueOk, CanMove, Blocked;
      if !AllReplied(c.server) { Progress(n, uploads, c); }
    }
  }

  // ---------------------------------------------------------------- the states on the way to the deadlock

  /** Every upload of `c` stands where `kinds` says, and the owners are registered. */
  ghost predicate Standing(uploads: seq<Upload>, c: Sched, kinds: seq<Kind>) {
    && |kinds| == |uploads| == |c.server.procs| && !c.server.crashed && c.server.data == map[]
    && (forall i: nat | i < |kinds| :: c.server.procs[i] == ProcOf(uploads[i].job, i, kinds[i]))
    && (forall i: nat :: i in c.server.raised <==> i < |kinds| && kinds[i].Spawned?)
    && (forall h | h in c.server.registry ::
         var q := c.server.registry[h]; q < |kinds| && kinds[q].Spawned? && uploads[q].hash == h)
    && (forall i: nat | i < |kinds| && kinds[i].Spawned? :: uploads[i].hash in c.server.registry)
    && (forall i: nat | i < |kinds| && kinds[i].Parked? :: kinds[i].owner < |kinds| && kinds[kinds[i].owner].Spawned?)
  }

  function ParkedOnes(kinds: seq<Kind>): set<nat> {
    set i: nat | 0 <= i < |kinds| && kinds[i].Parked?
  }

  lemma SlotsOf(job: Job, p: nat, kind: Kind)
    ensures ProcSlots(ProcOf(job, p, kind), p) == if kind.Parked? then {TaskSlot(p, Check)} else {}
  {
    var x := ProcOf(job, p, kind);
    assert forall w | w in x.run.group.tasks :: w == Check || w == Load;
    assert !Finalizes(x);
  }

  lemma {:induction false} IsBusySlot(procs: seq<Proc>, slot: Slot)
    requires slot.p < |procs| && slot in ProcSlots(procs[slot.p], slot.p)
    ensures slot in BusySlots(procs)
  {
    if slot.p < |procs| - 1 { IsBusySlot(procs[..|procs| - 1], slot); }
  }

  /** The busy workers are those of the parked uploads. */
  lemma BusyAreParked(uploads: seq<Upload>, c: Sched, kinds: seq<Kind>)
    requires Standing(uploads, c, kinds)
    ensures |BusySlots(c.server.procs)| == |ParkedOnes(kinds)|
  {
    var slots := set p | p in ParkedOnes(kinds) :: TaskSlot(p, Check);
    forall slot ensures slot in BusySlots(c.server.procs) <==> slot in slots {
      if slot.p < |kinds| { SlotsOf(uploads[slot.p].job, slot.p, kinds[slot.p]); }
      if slot in slots { IsBusySlot(c.server.procs, slot); }
      if slot in BusySlots(c.server.procs) { InBusySlots(c.server.procs, slot); }
    }
    assert BusySlots(c.server.procs) == slots;
    BlockedSlotsSize(ParkedOnes(kinds));
  }

  // ---------------------------------------------------------------- nobody can move

  lemma ReadyIsIdle(uploads: seq<Upload>, s: State, e: Event)
    requires e.p < |uploads| == |s.procs| && s.procs[e.p] == ProcOf(uploads[e.p].job, e.p, Ready) && EventEnabled(uploads, s, e)
    ensures IsPop(e)
  {
    assert e.Work?;
  }

  lemma SpawnedIsIdle(uploads: seq<Upload>, s: State, e: Event)
    requires e.p < |uploads| == |s.procs| && s.procs[e.p] == ProcOf(uploads[e.p].job, e.p, Spawned) && EventEnabled(uploads, s, e)
    ensures IsPop(e)
  {
    assert e.Work?;
  }

  lemma ParkedIsIdle(uploads: seq<Upload>, s: State, e: Event, q: nat)
    requires e.p < |uploads| == |s.procs| && s.procs[e.p] == ProcOf(uploads[e.p].job, e.p, Parked(q)) && q in s.raised
    ensures !EventEnabled(uploads, s, e)
  {
    match e
    case Work(p, act) =>
    case CheckStep(p) =>
    case CheckFails(p) =>
    case FinStep(p) =>
  }

  /** With all uploads called and `n` of them parked nothing moves any more. */
  lemma ParkedIsStuck(n: nat, uploads: seq<Upload>, c: Sched, kinds: seq<Kind>)
    requires Standing(uploads, c, kinds) && |ParkedOnes(kinds)| == n && uploads != []
    requires forall i: nat | i < |kinds| :: !kinds[i].Fresh?
    ensures !CanMove(n, uploads, c) && !AllReplied(c.server)
  {
    BusyAreParked(uploads, c, kinds);
    hide BusySlots, ParkedOnes;
    forall e ensures !SchedEnabled(n, uploads, c, e) {
      if SchedEnabled(n, uploads, c, e) {
        match kinds[e.p]
        case Ready => ReadyIsIdle(uploads, c.server, e);
        case Spawned => SpawnedIsIdle(uploads, c.server, e);
        case Parked(q) => ParkedIsIdle(uploads, c.server, e, q);
      }
    }
    assert c.server.procs[0].replied.None?;
  }

  // ---------------------------------------------------------------- the run to the deadlock

  function Checks(ps: seq<nat>): seq<(nat, Fanout.Work)> {
    seq(|ps|, i requires 0 <= i < |ps| => (ps[i], Check))
  }

  function Loads(ps: seq<nat>): seq<(nat, Fanout.Work)> {
    seq(|ps|, i requires 0 <= i < |ps| => (ps[i], Load))
  }

  ghost predicate Distinct(ps: seq<nat>) {
    forall i, j :: 0 <= i < j < |ps| ==> ps[i] != ps[j]
  }

  lemma ReadyStands(uploads: seq<Upload>, c: Sched, kinds: seq<Kind>, p: nat, queue: seq<(nat, Fanout.Work)>)
    requires Standing(uploads, c, kinds) && p < |kinds| && kinds[p].Fresh?
    ensures Standing(uploads, With(c, p, ProcOf(uploads[p].job, p, Ready), queue), kinds[p := Ready])
  {
    hide ProcOf;
  }

  lemma SpawnedStands(uploads: seq<Upload>, c: Sched, kinds: seq<Kind>, p: nat, queue: seq<(nat, Fanout.Work)>)
    requires Standing(uploads, c, kinds) && p < |kinds| && kinds[p].Ready? && uploads[p].hash !in c.server.registry
    ensures var c' := Owned(c, uploads[p].hash, p, []);
      Standing(uploads, With(c', p, ProcOf(uploads[p].job, p, Spawned), queue), kinds[p := Spawned])
  {
    hide ProcOf;
  }

  lemma ParkedStands(uploads: seq<Upload>, c: Sched, kinds: seq<Kind>, p: nat, queue: seq<(nat, Fanout.Work)>)
    requires Standing(uploads, c, kinds) && p < |kinds| && kinds[p].Ready? && uploads[p].hash in c.server.registry
    ensures var kind := Parked(c.server.registry[uploads[p].hash]);
      Standing(uploads, With(c, p, ProcOf(uploads[p].job, p, kind), queue), kinds[p := kind])
  {
    hide ProcOf;
  }

  lemma InitStands(n: nat, uploads: seq<Upload>)
    ensures Reached(n, uploads, InitSched(uploads)) && Standing(uploads, InitSched(uploads), seq(|uploads|, _ => Fresh))
  {
    assert LegalSched(n, uploads, InitSched(uploads), []) && SchedAfter(n, uploads, InitSched(uploads), []) == InitSched(uploads);
  }

  /** All uploads hand their checks to the pool, in the given order. */
  lemma {:induction false} CallAll(n: nat, uploads: seq<Upload>, order: seq<nat>, k: nat) returns (c: Sched, kinds: seq<Kind>)
    requires k <= |order| && Distinct(order) && forall p | p in order :: p < |uploads|
    ensures Reached(n, uploads, c) && Standing(uploads, c, kinds) && c.queue == Checks(order[..k])
    ensures forall i: nat | i < |kinds| :: kinds[i] == if i in order[..k] then Ready else Fresh
  {
    hide Reached, ProcOf;
    if k == 0 {
      InitStands(n, uploads);
      c, kinds := InitSched(uploads), seq(|uploads|, _ => Fresh);
    } else {
      var p := order[k - 1];
      c, kinds := CallAll(n, uploads, order, k - 1);
      assert p in order && p !in order[..k - 1] && order[..k] == order[..k - 1] + [p];
      CallOne(n, uploads, c, p);
      var queue := c.queue + [(p, Check)];
      assert queue == Checks(order[..k]);
      ReadyStands(uploads, c, kinds, p, queue);
      hide Standing;
      c, kinds := With(c, p, ProcOf(uploads[p].job, p, Ready), queue), kinds[p := Ready];
    }
  }

  ghost predicate Owners(uploads: seq<Upload>, ps: seq<nat>) {
    forall i, j :: 0 <= i < j < |ps| && ps[i] < |uploads| && ps[j] < |uploads| ==> uploads[ps[i]].hash != uploads[ps[j]].hash
  }

  /** The uploads of `order`, all different, all called. */
  ghost predicate OrderOk(uploads: seq<Upload>, order: seq<nat>) {
    Distinct(order) && (forall p | p in order :: p < |uploads|) && (forall p: nat | p < |uploads| :: p in order)
  }

  /** The queue after the first `d` uploads of `order` have spawned and the next `k` are parked. */
  function QueueAfter(order: seq<nat>, d: nat, k: nat): seq<(nat, Fanout.Work)>
    requires d + k <= |order|
  {
    Checks(order[d + k..]) + Loads(order[..d])
  }

  lemma SpawnQueue(order: seq<nat>, k: nat)
    requires 0 < k <= |order|
    ensures QueueAfter(order, k - 1, 0) == [(order[k - 1], Check)] + (Checks(order[k..]) + Loads(order[..k - 1]))
    ensures QueueAfter(order, k, 0) == Checks(order[k..]) + Loads(order[..k - 1]) + [(order[k - 1], Load)]
  {
    assert Checks(order[k - 1..]) == [(order[k - 1], Check)] + Checks(order[k..]);
    assert Loads(order[..k]) == Loads(order[..k - 1]) + [(order[k - 1], Load)];
  }

  lemma ParkQueue(order: seq<nat>, d: nat, k: nat)
    requires 0 < k && d + k <= |order|
    ensures QueueAfter(order, d, k - 1) == [(order[d + k - 1], Check)] + QueueAfter(order, d, k)
  {
    assert Checks(order[d + k - 1..]) == [(order[d + k - 1], Check)] + Checks(order[d + k..]);
  }

  /** The owners run their checks, one after the other, up to the end. */
  lemma {:induction false} SpawnAll(n: nat, uploads: seq<Upload>, order: seq<nat>, k: nat) returns (c: Sched, kinds: seq<Kind>)
    requires 0 < n && k <= |order| && OrderOk(uploads, order) && Owners(uploads, order[..k])
    ensures Reached(n, uploads, c) && Standing(uploads, c, kinds) && c.queue == QueueAfter(order, k, 0)
    ensures forall i: nat | i < |kinds| :: kinds[i] == if i in order[..k] then Spawned else Ready
  {
    hide Reached, ProcOf, BusySlots, QueueAfter;
    if k == 0 {
      c, kinds := CallAll(n, uploads, order, |order|);
      assert order[..|order|] == order[0..] == order;
      assert QueueAfter(order, 0, 0) == Checks(order) by { EmptyLoads(order); }
    } else {
      var p := order[k - 1];
      assert p in order && order[..k] == order[..k - 1] + [p] && p !in order[..k - 1];
      assert order[..k - 1] == order[..k][..k - 1];
      c, kinds := SpawnAll(n, uploads, order, k - 1);
      BusyAreParked(uploads, c, kinds);
      assert ParkedOnes(kinds) == {};
      NotRegistered(uploads, c, kinds, order, k);
      SpawnQueue(order, k);
      var queue := Checks(order[k..]) + Loads(order[..k - 1]);
      SpawnOne(n, uploads, c, p, queue);
      SpawnedStands(uploads, c, kinds, p, queue + [(p, Load)]);
      hide Standing;
      c := With(Owned(c, uploads[p].hash, p, queue), p, ProcOf(uploads[p].job, p, Spawned), queue + [(p, Load)]);
      kinds := kinds[p := Spawned];
    }
  }

  lemma EmptyLoads(order: seq<nat>)
    ensures QueueAfter(order, 0, 0) == Checks(order)
  {
    assert order[0..] == order && Loads(order[..0]) == [];
  }

  lemma NotRegistered(uploads: seq<Upload>, c: Sched, kinds: seq<Kind>, order: seq<nat>, k: nat)
    requires Standing(uploads, c, kinds) && 0 < k <= |order| && OrderOk(uploads, order) && Owners(uploads, order[..k])
    requires forall i: nat | i < |kinds| :: kinds[i] == if i in order[..k - 1] then Spawned else Ready
    ensures order[k - 1] in order && uploads[order[k - 1]].hash !in c.server.registry
  {
    hide ProcOf;
    assert order[k - 1] in order;
    forall q: nat | q < |kinds| && kinds[q].Spawned? ensures uploads[q].hash != uploads[order[k - 1]].hash {
      var i :| 0 <= i < k - 1 && order[..k - 1][i] == q;
      assert order[..k][i] == q && order[..k][k - 1] == order[k - 1];
    }
  }

  /** Every hash has its owner among the first `d` of `order`. */
  ghost predicate HasOwner(uploads: seq<Upload>, order: seq<nat>, d: nat, p: nat)
    requires OrderOk(uploads, order) && d <= |order| && p < |uploads|
  {
    exists i: nat :: i < d && order[i] in order && uploads[order[i]].hash == uploads[p].hash
  }

  ghost predicate AllOwned(uploads: seq<Upload>, order: seq<nat>, d: nat)
    requires OrderOk(uploads, order) && d <= |order|
  {
    forall p: nat | p < |uploads| :: HasOwner(uploads, order, d, p)
  }

  /** The first `d` of `order` have spawned, the next `k` are parked, the others are ready. */
  ghost predicate ParkedUpTo(kinds: seq<Kind>, order: seq<nat>, d: nat, k: nat) {
    forall i: nat | i < |order| :: order[i] < |kinds|
      && (i < d ==> kinds[order[i]].Spawned?)
      && (d <= i < d + k ==> kinds[order[i]].Parked?)
      && (d + k <= i ==> kinds[order[i]].Ready?)
  }

  lemma SpawnedIsParkedUpToNone(uploads: seq<Upload>, kinds: seq<Kind>, order: seq<nat>, d: nat)
    requires OrderOk(uploads, order) && d <= |order| && |kinds| == |uploads|
    requires forall i: nat | i < |kinds| :: kinds[i] == if i in order[..d] then Spawned else Ready
    ensures ParkedUpTo(kinds, order, d, 0) && |ParkedOnes(kinds)| == 0
  {
    forall i: nat | i < |order| ensures order[i] < |kinds| && kinds[order[i]] == if i < d then Spawned else Ready {
      assert order[i] in order;
      if i < d { assert order[..d][i] == order[i]; }
    }
    assert ParkedOnes(kinds) == {};
  }

  lemma OneMoreParked(kinds: seq<Kind>, order: seq<nat>, d: nat, k: nat, kind: Kind)
    requires 0 < k && d + k <= |order| && Distinct(order) && ParkedUpTo(kinds, order, d, k - 1) && kind.Parked?
    ensures var p := order[d + k - 1];
      && p < |kinds| && kinds[p].Ready? && ParkedUpTo(kinds[p := kind], order, d, k)
      && |ParkedOnes(kinds[p := kind])| == |ParkedOnes(kinds)| + 1
  {
    var p := order[d + k - 1];
    assert p < |kinds| && kinds[p].Ready?;
    assert ParkedOnes(kinds[p := kind]) == ParkedOnes(kinds) + {p} && p !in ParkedOnes(kinds);
  }

  lemma HashIsRegistered(uploads: seq<Upload>, c: Sched, kinds: seq<Kind>, order: seq<nat>, d: nat, k: nat, p: nat)
    requires Standing(uploads, c, kinds) && OrderOk(uploads, order) && d <= |order| && AllOwned(uploads, order, d)
    requires ParkedUpTo(kinds, order, d, k) && p < |uploads|
    ensures uploads[p].hash in c.server.registry
  {
    hide ProcOf;
    assert HasOwner(uploads, order, d, p);
    var i: nat :| i < d && order[i] in order && uploads[order[i]].hash == uploads[p].hash;
    assert kinds[order[i]].Spawned?;
  }

  /** Then `k` of the others start, find their hash registered, and wait. */
  lemma {:induction false} ParkAll(n: nat, uploads: seq<Upload>, order: seq<nat>, d: nat, k: nat) returns (c: Sched, kinds: seq<Kind>)
    requires 0 < n && d + k <= |order| && k <= n
    requires OrderOk(uploads, order) && Owners(uploads, order[..d]) && AllOwned(uploads, order, d)
    ensures Reached(n, uploads, c) && Standing(uploads, c, kinds) && c.queue == QueueAfter(order, d, k)
    ensures ParkedUpTo(kinds, order, d, k) && |ParkedOnes(kinds)| == k
  {
    hide Reached, ProcOf, BusySlots, QueueAfter, ParkedUpTo, ParkedOnes, AllOwned;
    if k == 0 {
      c, kinds := SpawnAll(n, uploads, order, d);
      SpawnedIsParkedUpToNone(uploads, kinds, order, d);
    } else {
      var p := order[d + k - 1];
      assert p in order;
      c, kinds := ParkAll(n, uploads, order, d, k - 1);
      BusyAreParked(uploads, c, kinds);
      HashIsRegistered(uploads, c, kinds, order, d, k - 1, p);
      ParkQueue(order, d, k);
      var kind, queue := Parked(c.server.registry[uploads[p].hash]), QueueAfter(order, d, k);
      OneMoreParked(kinds, order, d, k, kind);
      ParkOne(n, uploads, c, p, queue);
      ParkedStands(uploads, c, kinds, p, queue);
      hide Standing;
      c, kinds := With(c, p, ProcOf(uploads[p].job, p, kind), queue), kinds[p := kind];
    }
  }

  // ---------------------------------------------------------------- who goes first

  predicate IsFirst(uploads: seq<Upload>, p: nat)
    requires p < |uploads|
  {
    forall q: nat | q < p :: uploads[q].hash != uploads[p].hash
  }

  /** The first uploads of their hashes below `k`, and the others. */
  function Firsts(uploads: seq<Upload>, k: nat): seq<nat>
    requires k <= |uploads|
  {
    if k == 0 then [] else Firsts(uploads, k - 1) + if IsFirst(uploads, k - 1) then [k - 1] else []
  }

  function Repeats(uploads: seq<Upload>, k: nat): seq<nat>
    requires k <= |uploads|
  {
    if k == 0 then [] else Repeats(uploads, k - 1) + if IsFirst(uploads, k - 1) then [] else [k - 1]
  }

  lemma {:induction false} FirstsAre(uploads: seq<Upload>, k: nat)
    requires k <= |uploads|
    ensures forall p: nat :: p in Firsts(uploads, k) <==> p < k && IsFirst(uploads, p)
    ensures Distinct(Firsts(uploads, k)) && Owners(uploads, Firsts(uploads, k))
  {
    if k == 0 {
    } else {
      FirstsAre(uploads, k - 1);
      forall p | p in Firsts(uploads, k - 1) && IsFirst(uploads, k - 1) ensures uploads[p].hash != uploads[k - 1].hash {
      }
    }
  }

  lemma {:induction false} RepeatsAre(uploads: seq<Upload>, k: nat)
    requires k <= |uploads|
    ensures forall p: nat :: p in Repeats(uploads, k) <==> p < k && !IsFirst(uploads, p)
    ensures Distinct(Repeats(uploads, k)) && |Firsts(uploads, k)| + |Repeats(uploads, k)| == k
  {
    if k == 0 {
    } else {
      RepeatsAre(uploads, k - 1);
    }
  }

  function Order(uploads: seq<Upload>): seq<nat> {
    Firsts(uploads, |uploads|) + Repeats(uploads, |uploads|)
  }

  lemma OrderIsOk(uploads: seq<Upload>)
    ensures OrderOk(uploads, Order(uploads)) && |Order(uploads)| == |uploads|
    ensures |Firsts(uploads, |uploads|)| <= |Order(uploads)|
    ensures Order(uploads)[..|Firsts(uploads, |uploads|)|] == Firsts(uploads, |uploads|)
  {
    FirstsAre(uploads, |uploads|);
    RepeatsAre(uploads, |uploads|);
    hide Firsts, Repeats;
    var firsts, repeats := Firsts(uploads, |uploads|), Repeats(uploads, |uploads|);
    forall i, j | 0 <= i < j < |firsts + repeats| ensures (firsts + repeats)[i] != (firsts + repeats)[j] {
      if i < |firsts| <= j {
        assert firsts[i] in firsts && repeats[j - |firsts|] in repeats;
      }
    }
    forall p: nat | p < |uploads| ensures p in firsts + repeats {
      assert p in firsts || p in repeats;
    }
  }

  lemma {:induction false} SomeFirst(uploads: seq<Upload>, p: nat) returns (q: nat)
    requires p < |uploads|
    ensures q < |uploads| && IsFirst(uploads, q) && uploads[q].hash == uploads[p].hash
  {
    if IsFirst(uploads, p) {
      q := p;
    } else {
      var o: nat :| o < p && uploads[o].hash == uploads[p].hash;
      q := SomeFirst(uploads, o);
    }
  }

  lemma FirstsOwnAll(uploads: seq<Upload>)
    requires OrderOk(uploads, Order(uploads)) && |Firsts(uploads, |uploads|)| <= |Order(uploads)|
    ensures AllOwned(uploads, Order(uploads), |Firsts(uploads, |uploads|)|)
  {
    FirstsAre(uploads, |uploads|);
    var d, order := |Firsts(uploads, |uploads|)|, Order(uploads);
    forall p: nat | p < |uploads| ensures HasOwner(uploads, order, d, p) {
      var q := SomeFirst(uploads, p);
      var i :| 0 <= i < d && Firsts(uploads, |uploads|)[i] == q;
      assert order[i] == q;
    }
  }

  lemma FirstsAreHashes(uploads: seq<Upload>)
    ensures |Firsts(uploads, |uploads|)| == |Hashes(uploads)|
  {
    FirstsHash(uploads, |uploads|);
    assert HashesOf(uploads, |uploads|) == Hashes(uploads);
  }

  function HashesOf(uploads: seq<Upload>, k: nat): set<Hash>
    requires k <= |uploads|
  {
    set p | 0 <= p < k :: uploads[p].hash
  }

  lemma {:induction false} FirstsHash(uploads: seq<Upload>, k: nat)
    requires k <= |uploads|
    ensures |Firsts(uploads, k)| == |HashesOf(uploads, k)|
  {
    if k == 0 {
    } else {
      FirstsHash(uploads, k - 1);
      assert HashesOf(uploads, k) == HashesOf(uploads, k - 1) + {uploads[k - 1].hash};
      assert uploads[k - 1].hash in HashesOf(uploads, k - 1) <==> !IsFirst(uploads, k - 1);
    }
  }

  // ---------------------------------------------------------------- the exact bound

  lemma NoneFresh(uploads: seq<Upload>, kinds: seq<Kind>, order: seq<nat>, d: nat, k: nat)
    requires OrderOk(uploads, order) && |kinds| == |uploads| && ParkedUpTo(kinds, order, d, k)
    ensures forall p: nat | p < |kinds| :: !kinds[p].Fresh?
  {
    forall p: nat | p < |kinds| ensures !kinds[p].Fresh? {
      assert p in order;
      var i: nat :| i < |order| && order[i] == p;
      assert i < d || d <= i < d + k || d + k <= i;
    }
  }

  lemma AllReady(uploads: seq<Upload>, kinds: seq<Kind>, order: seq<nat>)
    requires OrderOk(uploads, order) && |kinds| == |uploads|
    requires forall i: nat | i < |kinds| :: kinds[i] == if i in order[..|order|] then Ready else Fresh
    ensures |ParkedOnes(kinds)| == 0 && forall p: nat | p < |kinds| :: !kinds[p].Fresh?
  {
    assert order[..|order|] == order;
    assert ParkedOnes(kinds) == {};
  }

  /** With as many repeats as workers, the repeats can take all workers while the owners' loads
      are still queued. */
  lemma ManyRepeatsGetStuck(n: nat, uploads: seq<Upload>)
    requires uploads != [] && n + |Hashes(uploads)| <= |uploads|
    ensures !NeverStuck(n, uploads)
  {
    OrderIsOk(uploads);
    FirstsOwnAll(uploads);
    FirstsAre(uploads, |uploads|);
    FirstsAreHashes(uploads);
    var order, d := Order(uploads), |Hashes(uploads)|;
    hide Order, Firsts, Hashes, CanMove, Standing, Reached, ParkedOnes, AllReplied;
    var c: Sched;
    var kinds: seq<Kind>;
    if n == 0 {
      c, kinds := CallAll(n, uploads, order, |order|);
      AllReady(uploads, kinds, order);
    } else {
      c, kinds := ParkAll(n, uploads, order, d, n);
      NoneFresh(uploads, kinds, order, d, n);
    }
    ParkedIsStuck(n, uploads, c, kinds);
  }

  /** Runs are free of deadlock exactly if fewer uploads than there are workers repeat the hash
      of another upload; with one hash, exactly if there are at most `n` uploads. */
  lemma DeadlockBoundIsExact(n: nat, uploads: seq<Upload>)
    requires AllFit(uploads) && uploads != []
    ensures NeverStuck(n, uploads) <==> |uploads| < n + |Hashes(uploads)|
  {
    if |uploads| < n + |Hashes(uploads)| {
      FewRepeatsNeverStuck(n, uploads);
    } else {
      ManyRepeatsGetStuck(n, uploads);
    }
  }
}
