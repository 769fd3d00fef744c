/** Uploads and the connections they came in on: every upload of the server is started by the
    request of one connection, and the last step of its `finalize` calls that connection's hook. */
module UploadRequests {
  import opened TaskGroups
  import TaskGroupInvariant
  import opened Fanout
  import FanoutTheorems
  import opened Server
  import ServerInvariant
  import ServerTheorems
  import ServerCounterexample
  import ServerCrash
  import ServerGuard
  import ServerFaults
  import H = HttpConnections

  /** Connection `p` carries upload `p`. */
  datatype World = World(server: State, conns: seq<H.Conn>)

  datatype Event =
    | OfServer(e: Server.Event)             // a step of an upload, other than its hook
    | OfConn(p: nat, step: H.Event)         // a step of a connection, other than being called back
    | Replies(p: nat, outcome: H.Outcome)   // the end of `finalize`: the ready hook is called

  function InitWorld(uploads: seq<Upload>): World {
    World(InitState(uploads), seq(|uploads|, _ => H.Init()))
  }

  predicate IsHook(s: State, e: Server.Event) {
    e.FinStep? && e.p < |s.procs| && s.procs[e.p].fin.AtHook?
  }

  /** `load_image` ended the group by throwing where the image is decoded, between the writing of
      the original and the listing of the sizes: that is the `image_loading_error`. */
  predicate DecodeFailed(x: Proc) {
    x.run.group.winner == Won(Load) && Load in x.run.stages && x.run.stages[Load] == LoadPushes(0)
  }

  /** What the hook answers: no error exactly if the group succeeded, and `image_loading_error` is
      told apart from all other exceptions. */
  function ReplyOf(x: Proc): H.Outcome {
    if Succeeded(x) then H.Uploaded else if DecodeFailed(x) then H.InvalidImage else H.InternalError
  }

  predicate Enabled(uploads: seq<Upload>, w: World, e: Event) {
    |w.conns| == |uploads| && match e
    case OfServer(e) => EventEnabled(uploads, w.server, e) && !IsHook(w.server, e) && w.conns[e.p].uploading
    case OfConn(p, step) => p < |uploads| && H.Enabled(w.conns[p], step) && !step.CallBack?
    case Replies(p, o) =>
      && EventEnabled(uploads, w.server, FinStep(p)) && IsHook(w.server, FinStep(p))
      && ReplyOf(w.server.procs[p]) == o && H.Enabled(w.conns[p], H.CallBack(o))
  }

  function Next(uploads: seq<Upload>, w: World, e: Event): World
    requires Enabled(uploads, w, e)
  {
    match e
    case OfServer(e) => w.(server := Server.Next(OwnerOnly, uploads, w.server, e))
    case OfConn(p, step) => w.(conns := w.conns[p := H.Step(w.conns[p], step)])
    case Replies(p, o) =>
      World(Server.Next(OwnerOnly, uploads, w.server, FinStep(p)), w.conns[p := H.Step(w.conns[p], H.CallBack(o))])
  }

  predicate Legal(uploads: seq<Upload>, w: World, run: seq<Event>)
    decreases |run|, 0
  {
    run == []
    || (Legal(uploads, w, run[..|run| - 1]) && Enabled(uploads, Final(uploads, w, run[..|run| - 1]), run[|run| - 1]))
  }

  function Final(uploads: seq<Upload>, w: World, run: seq<Event>): World
    requires Legal(uploads, w, run)
    decreases |run|, 1
  {
    if run == [] then w else Next(uploads, Final(uploads, w, run[..|run| - 1]), run[|run| - 1])
  }

  // ---------------------------------------------------------------- the two projections

  /** What the uploads do, the connections' steps left out. */
  function ServerSide(run: seq<Event>): seq<Server.Event> {
    if run == [] then [] else
    ServerSide(run[..|run| - 1])
      + (match run[|run| - 1]
         case OfServer(e) => [e]
         case OfConn(_, _) => []
         case Replies(p, _) => [FinStep(p)])
  }

  lemma OneMoreEvent(uploads: seq<Upload>, s: State, events: seq<Server.Event>, e: Server.Event)
    requires LegalEvents(OwnerOnly, uploads, s, events) && EventEnabled(uploads, StateAfter(OwnerOnly, uploads, s, events), e)
    ensures LegalEvents(OwnerOnly, uploads, s, events + [e])
    ensures StateAfter(OwnerOnly, uploads, s, events + [e])
         == Server.Next(OwnerOnly, uploads, StateAfter(OwnerOnly, uploads, s, events), e)
  {
    hide Server.Next, EventEnabled;
    assert (events + [e])[..|events|] == events;
  }

  /** Whatever the connections do, the uploads make a run of the server, and leave the server as
      that run does. */
  lemma {:induction false} ServerSideIsARun(uploads: seq<Upload>, w: World, run: seq<Event>)
    requires Legal(uploads, w, run)
    ensures LegalEvents(OwnerOnly, uploads, w.server, ServerSide(run))
    ensures Final(uploads, w, run).server == StateAfter(OwnerOnly, uploads, w.server, ServerSide(run))
  {
    hide Server.Next, EventEnabled, H.Step, H.Enabled;
    if run == [] {
    } else {
      var before := run[..|run| - 1];
      ServerSideIsARun(uploads, w, before);
      match run[|run| - 1]
      case OfServer(e) => OneMoreEvent(uploads, w.server, ServerSide(before), e);
      case OfConn(p, step) => assert ServerSide(run) == ServerSide(before);
      case Replies(p, o) => OneMoreEvent(uploads, w.server, ServerSide(before), FinStep(p));
    }
  }

  /** What happens to one connection. */
  function ConnSide(run: seq<Event>, p: nat): seq<H.Event> {
    if run == [] then [] else
    ConnSide(run[..|run| - 1], p)
      + (match run[|run| - 1]
         case OfServer(_) => []
         case OfConn(q, step) => if q == p then [step] else []
         case Replies(q, o) => if q == p then [H.CallBack(o)] else [])
  }

  lemma OneMoreStep(c: H.Conn, run: seq<H.Event>, e: H.Event)
    requires H.Legal(c, run) && H.Enabled(H.Final(c, run), e)
    ensures H.Legal(c, run + [e]) && H.Final(c, run + [e]) == H.Step(H.Final(c, run), e)
  {
    hide H.Step, H.Enabled;
    assert (run + [e])[..|run|] == run;
  }

  /** So what is proved of one connection holds of every connection of the server. */
  lemma {:induction false} ConnSideIsARun(uploads: seq<Upload>, w: World, run: seq<Event>, p: nat)
    requires Legal(uploads, w, run) && p < |w.conns| == |uploads|
    ensures H.Legal(w.conns[p], ConnSide(run, p)) && |Final(uploads, w, run).conns| == |uploads|
    ensures Final(uploads, w, run).conns[p] == H.Final(w.conns[p], ConnSide(run, p))
  {
    hide Server.Next, EventEnabled, H.Step, H.Enabled;
    if run == [] {
    } else {
      var before, e := run[..|run| - 1], run[|run| - 1];
      ConnSideIsARun(uploads, w, before, p);
      assert Final(uploads, w, run) == Next(uploads, Final(uploads, w, before), e);
      match e
      case OfServer(_) => assert ConnSide(run, p) == ConnSide(before, p);
      case OfConn(q, step) =>
        if q == p { OneMoreStep(w.conns[p], ConnSide(before, p), step); } else { assert ConnSide(run, p) == ConnSide(before, p); }
      case Replies(q, o) =>
        EventInside(uploads, Final(uploads, w, before).server, FinStep(q));
        if q == p { OneMoreStep(w.conns[p], ConnSide(before, p), H.CallBack(o)); }
        else { assert ConnSide(run, p) == ConnSide(before, p); }
    }
  }

  // ---------------------------------------------------------------- what a response means

  /** The outcome a handler is about to answer. */
  predicate Carries(pc: H.Pc, o: H.Outcome) {
    H.IsBusy(pc) && pc.outcome == o
  }

  /** Who may answer what, and what the hook's answers say about the upload. */
  ghost predicate LinkOk(job: Job, x: Proc, c: H.Conn) {
    && (c.calledBack <==> x.fin.Finalized?) && (x.replied.Some? <==> x.fin.Finalized?)
    && (!c.uploading ==> x == InitProc(job))
    && (H.IsBusy(c.hook) ==> x.replied.Some? && (if x.replied.value then c.hook.outcome.Uploaded?
                                                 else c.hook.outcome.InvalidImage? || c.hook.outcome.InternalError?))
    && (H.IsBusy(c.deadline) ==> c.deadline.outcome.TimedOut?)
    && (H.IsBusy(c.request) ==> c.request.outcome.Refused?)
    && (forall o | o in c.winner ::
         && (o.Uploaded? ==> x.replied == Some(true))
         && (o.InvalidImage? || o.InternalError? ==> x.replied == Some(false)))
  }

  ghost predicate LinksOk(uploads: seq<Upload>, w: World) {
    && |w.conns| == |uploads| == |w.server.procs|
    && forall p: nat | p < |uploads| :: LinkOk(uploads[p].job, w.server.procs[p], w.conns[p])
  }

  /** Only the hook ends `finalize`. */
  lemma EventKeepsReply(uploads: seq<Upload>, s: State, e: Server.Event, p: nat)
    requires EventEnabled(uploads, s, e) && !IsHook(s, e) && p < |s.procs|
    ensures var s' := Server.Next(OwnerOnly, uploads, s, e);
      && |s'.procs| == |s.procs| && s'.procs[p].replied == s.procs[p].replied
      && (s'.procs[p].fin.Finalized? <==> s.procs[p].fin.Finalized?)
      && (p != e.p ==> s'.procs[p] == s.procs[p])
  {
    hide Perform, CheckNext, FinNext;
    match e
    case Work(q, act) =>
    case CheckStep(q) => CheckKeepsReply(uploads, s, q, p);
    case CheckFails(q) =>
    case FinStep(q) => FinKeepsReply(uploads, s, q, p);
  }

  lemma CheckKeepsReply(uploads: seq<Upload>, s: State, q: nat, p: nat)
    requires EventEnabled(uploads, s, CheckStep(q)) && p < |s.procs|
    ensures var s' := CheckNext(uploads, s, q);
      && |s'.procs| == |s.procs| && s'.procs[p].replied == s.procs[p].replied && s'.procs[p].fin == s.procs[p].fin
      && (p != q ==> s'.procs[p] == s.procs[p])
  {
    hide Perform;
    match s.procs[q].run.stages[Check].pc
    case FirstLook =>
    case Emplacing =>
    case Waiting =>
    case LookAfterWait =>
    case LookAgain =>
  }

  lemma FinKeepsReply(uploads: seq<Upload>, s: State, q: nat, p: nat)
    requires EventEnabled(uploads, s, FinStep(q)) && !s.procs[q].fin.AtHook? && p < |s.procs|
    ensures var s' := FinNext(OwnerOnly, uploads, s, q);
      && |s'.procs| == |s.procs| && s'.procs[p].replied == s.procs[p].replied
      && (s'.procs[p].fin.Finalized? <==> s.procs[p].fin.Finalized?)
      && (p != q ==> s'.procs[p] == s.procs[p])
  {
  }

  lemma AdvanceKeepsLink(job: Job, x: Proc, c: H.Conn, who: H.Who)
    requires LinkOk(job, x, c) && H.Enabled(c, H.Advance(who))
    ensures LinkOk(job, x, H.Go(c, who))
  {
    H.HandlerKeepsOutcome(c, who);
    H.HandlerWins(c, who);
    H.OthersKeepPc(c, who);
    var c' := H.Go(c, who);
    hide H.Go;
    assert H.PcOf(c', H.Hook) == c'.hook && H.PcOf(c', H.Deadline) == c'.deadline && H.PcOf(c', H.Request) == c'.request;
    match who
    case Request =>
    case Hook =>
    case Deadline =>
  }

  lemma ConnKeepsLink(job: Job, x: Proc, c: H.Conn, step: H.Event)
    requires LinkOk(job, x, c) && H.Enabled(c, step) && !step.CallBack?
    ensures LinkOk(job, x, H.Step(c, step))
  {
    if step.Advance? { AdvanceKeepsLink(job, x, c, step.who); hide H.Go; }
  }

  lemma ReplyKeepsLink(job: Job, x: Proc, c: H.Conn, o: H.Outcome)
    requires LinkOk(job, x, c) && x.fin.AtHook? && ReplyOf(x) == o && H.Enabled(c, H.CallBack(o))
    ensures LinkOk(job, x.(fin := Finalized, replied := Some(Succeeded(x))), H.Step(c, H.CallBack(o)))
  {
  }

  lemma HookEffect(uploads: seq<Upload>, s: State, p: nat)
    requires EventEnabled(uploads, s, FinStep(p)) && s.procs[p].fin.AtHook?
    ensures Server.Next(OwnerOnly, uploads, s, FinStep(p))
         == Put(s, p, s.procs[p].(fin := Finalized, replied := Some(Succeeded(s.procs[p]))))
  {
  }

  lemma NextKeepsLinks(uploads: seq<Upload>, w: World, e: Event)
    requires LinksOk(uploads, w) && Enabled(uploads, w, e)
    ensures LinksOk(uploads, Next(uploads, w, e))
  {
    hide Server.Next, H.Step, EventEnabled, H.Enabled, LinkOk, ReplyOf;
    var w' := Next(uploads, w, e);
    match e
    case OfServer(e1) =>
      EventInside(uploads, w.server, e1);
      EventKeepsReply(uploads, w.server, e1, e1.p);
      forall p: nat | p < |uploads| ensures LinkOk(uploads[p].job, w'.server.procs[p], w.conns[p]) {
        EventKeepsReply(uploads, w.server, e1, p);
        assert LinkOk(uploads[p].job, w.server.procs[p], w.conns[p]);
        if p == e1.p { ServerKeepsLink(uploads[p].job, w.server.procs[p], w'.server.procs[p], w.conns[p]); }
      }
    case OfConn(p, step) => ConnKeepsLink(uploads[p].job, w.server.procs[p], w.conns[p], step);
    case Replies(p, o) =>
      EventInside(uploads, w.server, FinStep(p));
      HookEffect(uploads, w.server, p);
      ReplyKeepsLink(uploads[p].job, w.server.procs[p], w.conns[p], o);
  }

  lemma EventInside(uploads: seq<Upload>, s: State, e: Server.Event)
    requires EventEnabled(uploads, s, e)
    ensures e.p < |uploads| == |s.procs|
  {
  }

  lemma ServerKeepsLink(job: Job, x: Proc, x': Proc, c: H.Conn)
    requires LinkOk(job, x, c) && c.uploading && x'.replied == x.replied && (x'.fin.Finalized? <==> x.fin.Finalized?)
    ensures LinkOk(job, x', c)
  {
  }

  lemma {:induction false} RunKeepsLinks(uploads: seq<Upload>, run: seq<Event>)
    requires Legal(uploads, InitWorld(uploads), run)
    ensures LinksOk(uploads, Final(uploads, InitWorld(uploads), run))
  {
    if run == [] {
    } else {
      hide LinksOk, Next, Enabled;
      RunKeepsLinks(uploads, run[..|run| - 1]);
      NextKeepsLinks(uploads, Final(uploads, InitWorld(uploads), run[..|run| - 1]), run[|run| - 1]);
    }
  }

  /** What a client is told is true. A response that reports success means that the hash is stored,
      with the complete sequential result of an upload of that hash; one that reports an error of
      the processing means that this upload failed. */
  lemma ResponsesAreTrue(uploads: seq<Upload>, run: seq<Event>, p: nat)
    requires ServerInvariant.AllFit(uploads) && Legal(uploads, InitWorld(uploads), run) && p < |uploads|
    ensures var w := Final(uploads, InitWorld(uploads), run);
      && p < |w.conns| == |uploads| == |w.server.procs|
      && (w.conns[p].sent == [[H.Uploaded]] ==>
           var h := uploads[p].hash;
           && w.server.procs[p].replied == Some(true) && h in w.server.data
           && exists q: nat :: q < |uploads| && uploads[q].hash == h
                               && w.server.data[h] == TreeOf(uploads[q].job, |uploads[q].job.sizes|))
      && (w.conns[p].sent == [[H.InvalidImage]] || w.conns[p].sent == [[H.InternalError]] ==>
           w.server.procs[p].replied == Some(false))
  {
    hide ServerInvariant.AllFit, TreeOf, FanoutTheorems.RunOk, Next, Enabled, H.Step, H.Enabled;
    var w := Final(uploads, InitWorld(uploads), run);
    RunKeepsLinks(uploads, run);
    ServerSideIsARun(uploads, InitWorld(uploads), run);
    ConnSideIsARun(uploads, InitWorld(uploads), run, p);
    H.AtMostOneResponse(ConnSide(run, p));
    assert ServerTheorems.Reachable(uploads, w.server);
    assert LinkOk(uploads[p].job, w.server.procs[p], w.conns[p]);
    if w.conns[p].sent == [[H.Uploaded]] {
      assert w.conns[p].winner == [H.Uploaded] && H.Uploaded in w.conns[p].winner;
      ServerTheorems.SuccessIsStored(uploads, w.server, p);
      ServerTheorems.FoldersAreComplete(uploads, w.server, uploads[p].hash);
    } else if w.conns[p].sent == [[H.InvalidImage]] {
      assert H.InvalidImage in w.conns[p].winner;
    } else if w.conns[p].sent == [[H.InternalError]] {
      assert H.InternalError in w.conns[p].winner;
    }
  }

  lemma {:induction false} ConnSideIsInRun(run: seq<Event>, p: nat, step: H.Event)
    requires step in ConnSide(run, p)
    ensures if step.CallBack? then Replies(p, step.outcome) in run || OfConn(p, step) in run else OfConn(p, step) in run
  {
    var before := run[..|run| - 1];
    if step in ConnSide(before, p) { ConnSideIsInRun(before, p, step); }
  }

  lemma {:induction false} OnlyRepliesCallBack(uploads: seq<Upload>, w: World, run: seq<Event>, p: nat, o: H.Outcome)
    requires Legal(uploads, w, run)
    ensures OfConn(p, H.CallBack(o)) !in run
  {
    hide Next;
    if run != [] {
      OnlyRepliesCallBack(uploads, w, run[..|run| - 1], p, o);
      assert run == run[..|run| - 1] + [run[|run| - 1]];
    }
  }

  /** The same of every connection of the server: what it was answered with is the error it was
      refused with, or that its deadline passed, or what its own upload's hook reported. */
  lemma ResponsesHaveCauses(uploads: seq<Upload>, run: seq<Event>, p: nat, o: H.Outcome)
    requires Legal(uploads, InitWorld(uploads), run) && p < |uploads|
    ensures p < |Final(uploads, InitWorld(uploads), run).conns|
    ensures [o] in Final(uploads, InitWorld(uploads), run).conns[p].sent ==>
      if o.Refused? then OfConn(p, H.Refuse(o.error)) in run
      else if o.TimedOut? then OfConn(p, H.StopExpires) in run
      else Replies(p, o) in run
  {
    ConnSideIsARun(uploads, InitWorld(uploads), run, p);
    if [o] in Final(uploads, InitWorld(uploads), run).conns[p].sent {
      hide Legal, Final, H.Legal, H.Final;
      H.ResponseHasItsCause(ConnSide(run, p), o);
      var step := if o.Refused? then H.Refuse(o.error) else if o.TimedOut? then H.StopExpires else H.CallBack(o);
      ConnSideIsInRun(run, p, step);
      OnlyRepliesCallBack(uploads, InitWorld(uploads), run, p, o);
    }
  }

  lemma {:induction false} ReplyWasMade(uploads: seq<Upload>, w: World, run: seq<Event>, p: nat, o: H.Outcome) returns (k: nat)
    requires Legal(uploads, w, run) && Replies(p, o) in run
    ensures k < |run| && run[k] == Replies(p, o) && Legal(uploads, w, run[..k])
    ensures Enabled(uploads, Final(uploads, w, run[..k]), Replies(p, o))
  {
    hide Next, Enabled;
    var before := run[..|run| - 1];
    if run[|run| - 1] == Replies(p, o) {
      k := |run| - 1;
    } else {
      assert run == before + [run[|run| - 1]];
      k := ReplyWasMade(uploads, w, before, p, o);
      assert before[..k] == run[..k];
    }
  }

  /** Whose fault it was: a client is told of an invalid image exactly if, when its hook was called,
      the group had been ended by the decoding in `load_image`, and of an internal error if it had
      been ended by anything else. */
  lemma ErrorsAreToldApart(uploads: seq<Upload>, run: seq<Event>, p: nat, o: H.Outcome) returns (k: nat)
    requires Legal(uploads, InitWorld(uploads), run) && p < |uploads| && (o.InvalidImage? || o.InternalError?)
    requires p < |Final(uploads, InitWorld(uploads), run).conns| && [o] in Final(uploads, InitWorld(uploads), run).conns[p].sent
    ensures k < |run| && run[k] == Replies(p, o) && Legal(uploads, InitWorld(uploads), run[..k])
    ensures var w := Final(uploads, InitWorld(uploads), run[..k]);
      && p < |w.server.procs| && w.server.procs[p].fin.AtHook? && !Succeeded(w.server.procs[p])
      && (o.InvalidImage? <==> w.server.procs[p].run.group.winner == Won(Load) && Load in w.server.procs[p].run.stages
                               && w.server.procs[p].run.stages[Load] == LoadPushes(0))
  {
    ResponsesHaveCauses(uploads, run, p, o);
    k := ReplyWasMade(uploads, InitWorld(uploads), run, p, o);
    hide Legal, Final, H.Enabled, Succeeded;
  }

  /** A client that was told of an error was told because of an exception, in its own upload or in
      one of the same image that it waited for. */
  lemma ErrorResponsesHaveFaults(uploads: seq<Upload>, run: seq<Event>, p: nat) returns (k: nat, q: nat)
    requires ServerInvariant.AllFit(uploads) && Legal(uploads, InitWorld(uploads), run) && p < |uploads|
    requires p < |Final(uploads, InitWorld(uploads), run).conns|
    requires var sent := Final(uploads, InitWorld(uploads), run).conns[p].sent;
      sent == [[H.InvalidImage]] || sent == [[H.InternalError]]
    ensures var events := ServerSide(run);
      k < |events| && q < |uploads| && uploads[q].hash == uploads[p].hash && ServerFaults.IsFault(events[k], q)
  {
    hide ServerInvariant.AllFit, TreeOf, Legal, LegalEvents, StateAfter, Final, ServerFaults.Blamed, ServerFaults.IsFault;
    ResponsesAreTrue(uploads, run, p);
    ServerSideIsARun(uploads, InitWorld(uploads), run);
    ServerFaults.ErrorIsExact(uploads, ServerSide(run), p);
    k, q := ServerFaults.FailureHasAFault(uploads, ServerSide(run), p);
  }

  lemma {:induction false} ServerSideOfPrefix(run: seq<Event>, n: nat)
    requires n <= |run|
    ensures |ServerSide(run[..n])| <= |ServerSide(run)| && ServerSide(run)[..|ServerSide(run[..n])|] == ServerSide(run[..n])
  {
    if n == |run| {
      assert run[..n] == run;
    } else {
      ServerSideOfPrefix(run[..|run| - 1], n);
      assert run[..|run| - 1][..n] == run[..n];
    }
  }

  /** A client is told of an invalid image only if `load_image` of its own upload threw where it
      decodes the image. */
  lemma InvalidImageWasNotDecoded(uploads: seq<Upload>, run: seq<Event>, p: nat) returns (k: nat)
    requires ServerInvariant.AllFit(uploads) && Legal(uploads, InitWorld(uploads), run) && p < |uploads|
    requires p < |Final(uploads, InitWorld(uploads), run).conns|
    requires [H.InvalidImage] in Final(uploads, InitWorld(uploads), run).conns[p].sent
    ensures ServerFaults.LoadThrowsAt(uploads, ServerSide(run), k, p, LoadPushes(0))
  {
    hide ServerInvariant.AllFit, LegalEvents, StateAfter, Final, ServerFaults.ThrewAt, Succeeded,
      ServerFaults.LoadThrowsAt, FanoutTheorems.RunOk, ServerInvariant.Safe, ServerInvariant.GroupOk,
      ServerInvariant.PhaseOk, ServerInvariant.StoreOk, ServerInvariant.NotifierOk;
    var n := ErrorsAreToldApart(uploads, run, p, H.InvalidImage);
    var early := run[..n];
    ServerSideIsARun(uploads, InitWorld(uploads), early);
    var s := StateAfter(OwnerOnly, uploads, InitState(uploads), ServerSide(early));
    ServerTheorems.RunsAreSafe(uploads, ServerSide(early));
    ServerFaults.SafeRun(uploads, s, p);
    HookMeansError(uploads, s, p);
    ServerFaults.WonByLoad(uploads[p].job, s.procs[p].run);
    k := ServerFaults.LoadThrewOnce(uploads, ServerSide(early), p, LoadPushes(0));
    ServerSideOfPrefix(run, n);
    LongerThrows(uploads, ServerSide(early), ServerSide(run), k, p);
  }

  lemma LongerThrows(uploads: seq<Upload>, early: seq<Server.Event>, events: seq<Server.Event>, k: nat, p: nat)
    requires ServerFaults.LoadThrowsAt(uploads, early, k, p, LoadPushes(0)) && |early| <= |events| && events[..|early|] == early
    ensures ServerFaults.LoadThrowsAt(uploads, events, k, p, LoadPushes(0))
  {
    hide LegalEvents, StateAfter;
    assert early[..k] == events[..k] && early[k] == events[k];
  }

  lemma HookMeansError(uploads: seq<Upload>, s: State, p: nat)
    requires p < |s.procs| == |uploads| && ServerInvariant.GroupOk(uploads[p].job, s.procs[p]) && !Succeeded(s.procs[p])
    requires s.procs[p].run.group.winner == Won(Load) && s.procs[p].fin.AtHook? && ServerInvariant.PhaseOk(s.procs[p], p)
    ensures s.procs[p].run.group.state.DoneError?
  {
    TaskGroupInvariantHolds(uploads[p].job, s.procs[p]);
  }

  lemma TaskGroupInvariantHolds(job: Job, x: Proc)
    requires ServerInvariant.GroupOk(job, x)
    ensures TaskGroupInvariant.Inv(x.run.group)
  {
  }

  // ---------------------------------------------------------------- connections stop nothing

  /** The step of the world that takes a step of the server. */
  function Lifted(s: State, e: Server.Event): Event {
    if IsHook(s, e) then Replies(e.p, ReplyOf(s.procs[e.p])) else OfServer(e)
  }

  /** Once its request has started it, no state of an upload's connection, answered, timed out or
      closed, keeps the upload from any step that it could take otherwise. */
  lemma ConnectionsStopNothing(uploads: seq<Upload>, run: seq<Event>, e: Server.Event)
    requires Legal(uploads, InitWorld(uploads), run)
    ensures var w := Final(uploads, InitWorld(uploads), run);
      EventEnabled(uploads, w.server, e) && e.p < |w.conns| && w.conns[e.p].uploading ==>
      Enabled(uploads, w, Lifted(w.server, e))
      && Next(uploads, w, Lifted(w.server, e)).server == Server.Next(OwnerOnly, uploads, w.server, e)
  {
    hide Server.Next, H.Step, Next, Legal;
    var w := Final(uploads, InitWorld(uploads), run);
    RunKeepsLinks(uploads, run);
    if EventEnabled(uploads, w.server, e) && e.p < |w.conns| && w.conns[e.p].uploading {
      EventInside(uploads, w.server, e);
      assert LinkOk(uploads[e.p].job, w.server.procs[e.p], w.conns[e.p]);
      hide LinksOk, EventEnabled;
      LiftedIsEnabled(uploads, w, e);
    }
  }

  lemma LiftedIsEnabled(uploads: seq<Upload>, w: World, e: Server.Event)
    requires EventEnabled(uploads, w.server, e) && e.p < |w.conns| == |uploads| && w.conns[e.p].uploading
    requires w.conns[e.p].calledBack <==> w.server.procs[e.p].fin.Finalized?
    ensures Enabled(uploads, w, Lifted(w.server, e))
    ensures Next(uploads, w, Lifted(w.server, e)).server == Server.Next(OwnerOnly, uploads, w.server, e)
  {
    hide Server.Next, H.Step;
  }

  // ---------------------------------------------------------------- everybody timed out

  /** A connection `k` steps on the way to its answer `TimedOut`, its upload not yet begun. */
  function GivingUp(k: nat): H.Conn {
    H.Conn(k >= 5,
           if k <= 2 then H.Armed else H.Cancelled,
           if k == 0 then H.Unarmed else if k == 1 then H.Armed else H.Expired,
           if k == 0 then H.NotCalled else H.Returned,
           H.NotCalled,
           if k <= 1 then H.NotCalled else if k == 2 then H.CancelsKill(H.TimedOut) else if k == 3 then H.CancelsStop(H.TimedOut)
           else if k == 4 then H.Exchanges(H.TimedOut) else if k == 5 then H.Fills(H.TimedOut)
           else if k == 6 then H.Sends(H.TimedOut) else H.Returned,
           k >= 1, false, if k >= 6 then [H.TimedOut] else [], k >= 7, if k >= 5 then [H.TimedOut] else [],
           if k >= 7 then [[H.TimedOut]] else [])
  }

  function GivingUpBy(k: nat): H.Event {
    if k == 0 then H.StartUpload else if k == 1 then H.StopExpires else H.Advance(H.Deadline)
  }

  lemma GivesUp(k: nat)
    requires k < 7
    ensures H.Enabled(GivingUp(k), GivingUpBy(k)) && H.Step(GivingUp(k), GivingUpBy(k)) == GivingUp(k + 1)
  {
  }

  /** Once that answer is written nothing keeps the connection alive: the processing, which goes on,
      has nobody to report to. */
  lemma GivenUpIsGone()
    ensures H.Enabled(GivingUp(7), H.Written) && H.IsAlive(GivingUp(7)) && !H.IsAlive(H.Step(GivingUp(7), H.Written))
  {
  }

  lemma OneMore(uploads: seq<Upload>, w: World, run: seq<Event>, e: Event)
    requires Legal(uploads, w, run) && Enabled(uploads, Final(uploads, w, run), e)
    ensures Legal(uploads, w, run + [e]) && Final(uploads, w, run + [e]) == Next(uploads, Final(uploads, w, run), e)
  {
    hide Next, Enabled;
    assert (run + [e])[..|run|] == run;
  }

  lemma ConnMoves(uploads: seq<Upload>, w: World, run: seq<Event>, p: nat, step: H.Event, c: H.Conn)
    requires Legal(uploads, w, run) && p < |uploads| == |Final(uploads, w, run).conns|
    requires H.Enabled(Final(uploads, w, run).conns[p], step) && !step.CallBack? && H.Step(Final(uploads, w, run).conns[p], step) == c
    ensures Legal(uploads, w, run + [OfConn(p, step)])
    ensures var v := Final(uploads, w, run); Final(uploads, w, run + [OfConn(p, step)]) == v.(conns := v.conns[p := c])
  {
    hide H.Step, H.Enabled;
    OneMore(uploads, w, run, OfConn(p, step));
  }

  /** The upload is started, and its deadline passes and is answered. */
  lemma TimesOut(uploads: seq<Upload>, w: World, run: seq<Event>, p: nat) returns (longer: seq<Event>)
    requires Legal(uploads, w, run) && p < |uploads| == |Final(uploads, w, run).conns|
    requires Final(uploads, w, run).conns[p] == H.Init()
    ensures Legal(uploads, w, longer) && ServerSide(longer) == ServerSide(run)
    ensures var v := Final(uploads, w, run); Final(uploads, w, longer) == v.(conns := v.conns[p := GivingUp(7)])
  {
    hide H.Step, H.Enabled, Legal, Final, ServerSide, GivingUp;
    var v, k := Final(uploads, w, run), 0;
    longer := run;
    assert H.Init() == GivingUp(0) by { NotGivenUp(); }
    assert v.conns[p := GivingUp(0)] == v.conns;
    while k < 7
      invariant k <= 7 && Legal(uploads, w, longer) && ServerSide(longer) == ServerSide(run)
      invariant Final(uploads, w, longer) == v.(conns := v.conns[p := GivingUp(k)])
    {
      GivesUp(k);
      longer := ConnGoes(uploads, w, longer, p, GivingUpBy(k), GivingUp(k + 1));
      assert v.conns[p := GivingUp(k)][p := GivingUp(k + 1)] == v.conns[p := GivingUp(k + 1)];
      k := k + 1;
    }
  }

  lemma NotGivenUp()
    ensures GivingUp(0) == H.Init()
  {
  }

  lemma ConnGoes(uploads: seq<Upload>, w: World, run: seq<Event>, p: nat, step: H.Event, c: H.Conn) returns (longer: seq<Event>)
    requires Legal(uploads, w, run) && p < |uploads| == |Final(uploads, w, run).conns|
    requires H.Enabled(Final(uploads, w, run).conns[p], step) && !step.CallBack? && H.Step(Final(uploads, w, run).conns[p], step) == c
    ensures Legal(uploads, w, longer) && ServerSide(longer) == ServerSide(run)
    ensures var v := Final(uploads, w, run); Final(uploads, w, longer) == v.(conns := v.conns[p := c])
  {
    hide H.Step, H.Enabled;
    ConnMoves(uploads, w, run, p, step, c);
    longer := run + [OfConn(p, step)];
    assert longer[..|run|] == run;
  }

  /** All clients of the first `n` uploads are told that they timed out, before anything is done. */
  lemma {:induction false} AllTimeOut(uploads: seq<Upload>, n: nat) returns (run: seq<Event>)
    requires n <= |uploads|
    ensures Legal(uploads, InitWorld(uploads), run) && ServerSide(run) == []
    ensures var w := Final(uploads, InitWorld(uploads), run);
      && w.server == InitState(uploads) && |w.conns| == |uploads|
      && forall p: nat | p < |uploads| :: w.conns[p] == if p < n then GivingUp(7) else H.Init()
  {
    hide H.Step, H.Enabled, Next, Enabled;
    if n == 0 {
      run := [];
    } else {
      var before := AllTimeOut(uploads, n - 1);
      hide Legal, Final, ServerSide;
      run := TimesOut(uploads, InitWorld(uploads), before, n - 1);
    }
  }

  /** Every client has its answer, and it is that the upload timed out. */
  ghost predicate AllGaveUp(uploads: seq<Upload>, w: World) {
    && |w.conns| == |uploads| == |w.server.procs|
    && forall p: nat | p < |uploads| ::
         && w.conns[p].sent == [[H.TimedOut]] && w.conns[p].uploading
         && (w.conns[p].calledBack <==> w.server.procs[p].fin.Finalized?)
  }

  lemma LiftedKeepsGivenUp(uploads: seq<Upload>, w: World, e: Server.Event)
    requires AllGaveUp(uploads, w) && EventEnabled(uploads, w.server, e) && Enabled(uploads, w, Lifted(w.server, e))
    ensures AllGaveUp(uploads, Next(uploads, w, Lifted(w.server, e)))
  {
    EventInside(uploads, w.server, e);
    if IsHook(w.server, e) {
      HookEffect(uploads, w.server, e.p);
      hide Server.Next;
    } else {
      hide Server.Next, EventEnabled, IsHook;
      EventKeepsReply(uploads, w.server, e, e.p);
      forall p: nat | p < |uploads| ensures
        w.server.procs[p].fin.Finalized? <==> Server.Next(OwnerOnly, uploads, w.server, e).procs[p].fin.Finalized?
      {
        EventKeepsReply(uploads, w.server, e, p);
      }
    }
  }

  /** The deadline answers the client and stops nothing: everything the uploads can do, they can do
      after every client has been told that its upload timed out. Every run of the server is what
      the uploads do in such a run of the world, so the same folders are committed. */
  lemma {:induction false} TimedOutIsStillProcessed(uploads: seq<Upload>, events: seq<Server.Event>) returns (run: seq<Event>)
    requires LegalEvents(OwnerOnly, uploads, InitState(uploads), events)
    ensures Legal(uploads, InitWorld(uploads), run) && ServerSide(run) == events
    ensures AllGaveUp(uploads, Final(uploads, InitWorld(uploads), run))
    ensures Final(uploads, InitWorld(uploads), run).server == StateAfter(OwnerOnly, uploads, InitState(uploads), events)
  {
    hide Server.Next, EventEnabled, H.Step, H.Enabled, Next, Enabled;
    if events == [] {
      run := AllTimeOut(uploads, |uploads|);
    } else {
      var before, e := events[..|events| - 1], events[|events| - 1];
      var shorter := TimedOutIsStillProcessed(uploads, before);
      var w := Final(uploads, InitWorld(uploads), shorter);
      EventInside(uploads, w.server, e);
      LiftedIsEnabled(uploads, w, e);
      LiftedKeepsGivenUp(uploads, w, e);
      OneMore(uploads, InitWorld(uploads), shorter, Lifted(w.server, e));
      run := shorter + [Lifted(w.server, e)];
      LiftedIsE(shorter, w.server, e);
      assert events == before + [e];
    }
  }

  lemma LiftedIsE(run: seq<Event>, s: State, e: Server.Event)
    ensures ServerSide(run + [Lifted(s, e)]) == ServerSide(run) + [e]
  {
    assert (run + [Lifted(s, e)])[..|run|] == run;
  }

  /** The owner of a hash can commit its folder. */
  lemma CanCommit(uploads: seq<Upload>, p: nat) returns (s: State)
    requires ServerInvariant.AllFit(uploads) && p < |uploads|
    ensures ServerCounterexample.Reaches(uploads, s) && uploads[p].hash in s.data
  {
    var h, s0 := uploads[p].hash, InitState(uploads);
    assert ServerCounterexample.Reaches(uploads, s0) by {
      assert LegalEvents(AsWritten, uploads, s0, []) && StateAfter(AsWritten, uploads, s0, []) == s0;
    }
    hide ServerCounterexample.Reaches, ServerInvariant.AllFit, ServerCounterexample.Checks;
    ServerCounterexample.BecomesOwner(uploads, s0, p);
    var s1 := Put(s0, p, ServerCounterexample.Checks(uploads[p].job, LookAgain, Some(p)))
              .(registry := s0.registry[h := p], raised := s0.raised + {p});
    var x := ServerCrash.OwnerSucceeds(uploads, s1, p);
    var s2 := Put(s1, p, x);
    ServerCrash.OwnerCommits(uploads, s2, p);
    s := Put(s2, p, x.(fin := AtHook)).(data := s2.data[h := x.run.tree], author := s2.author[h := p],
                                        registry := s2.registry - {h}, raised := s2.raised - {p});
  }

  /** In particular, for distinct images, an upload whose client has been told that it timed out
      can still commit its complete folder. */
  lemma TimedOutCanBeCommitted(uploads: seq<Upload>, p: nat)
    requires ServerInvariant.AllFit(uploads) && ServerGuard.DistinctHashes(uploads) && p < |uploads|
    ensures exists run ::
      && Legal(uploads, InitWorld(uploads), run)
      && var w, h := Final(uploads, InitWorld(uploads), run), uploads[p].hash;
         && AllGaveUp(uploads, w) && h in w.server.data
         && w.server.data[h] == TreeOf(uploads[p].job, |uploads[p].job.sizes|)
  {
    var s := CanCommit(uploads, p);
    hide ServerInvariant.AllFit, AllGaveUp, TreeOf, ServerCounterexample.Reaches;
    ServerGuard.DistinctReachesAreReachable(uploads, s);
    ServerTheorems.FoldersAreComplete(uploads, s, uploads[p].hash);
    var events :| LegalEvents(OwnerOnly, uploads, InitState(uploads), events)
                  && StateAfter(OwnerOnly, uploads, InitState(uploads), events) == s;
    var run := TimedOutIsStillProcessed(uploads, events);
  }
}
