/** The respond-once machine of src/http_connection.hpp: the request handler, the processing's
    ready hook and the processing deadline race to answer one connection. */
module HttpConnections {

  /** What a handler wants to answer. `Refused` stands for the errors found before processing. */
  datatype Outcome = Uploaded | InvalidImage | InternalError | TimedOut | Refused(error: string)

  /** Where a handler is in `respond_ok` or `respond_with_error`. */
  datatype Pc =
    | NotCalled
    | CancelsKill(outcome: Outcome)
    | CancelsStop(outcome: Outcome)
    | Exchanges(outcome: Outcome)
    | Fills(outcome: Outcome)
    | Sends(outcome: Outcome)
    | Returned

  /** A timer; cancelling it has no effect once it has expired. */
  datatype Timer = Unarmed | Armed | Cancelled | Expired

  datatype Who = Request | Hook | Deadline

  /** `winner` and `sent` are history: the outcome that won the exchange, and the responses
      whose sending was started, with the content they were started with. */
  datatype Conn = Conn(
    responded: bool,
    kill: Timer,
    stop: Timer,
    request: Pc,
    hook: Pc,
    deadline: Pc,
    uploading: bool,
    calledBack: bool,
    body: seq<Outcome>,
    writing: bool,
    winner: seq<Outcome>,
    sent: seq<seq<Outcome>>)

  datatype Event =
    | Refuse(error: string)      // the request is bad, unauthorized, too large, ...
    | StartUpload                // arms the processing deadline and runs the processor
    | CallBack(outcome: Outcome) // the ready hook, on a worker
    | StopExpires                // the processing deadline
    | KillExpires                // closes the socket
    | Advance(who: Who)          // the next step of a handler
    | Written                    // the response has been written

  function Init(): Conn {
    Conn(false, Armed, Unarmed, NotCalled, NotCalled, NotCalled, false, false, [], false, [], [])
  }

  function PcOf(c: Conn, who: Who): Pc {
    match who
    case Request => c.request
    case Hook => c.hook
    case Deadline => c.deadline
  }

  function WithPc(c: Conn, who: Who, pc: Pc): Conn {
    match who
    case Request => c.(request := pc)
    case Hook => c.(hook := pc)
    case Deadline => c.(deadline := pc)
  }

  predicate IsBusy(pc: Pc) {
    !pc.NotCalled? && !pc.Returned?
  }

  /** Who holds a `shared_ptr` to the connection: the pending read, running handlers, armed
      timers, and the pending write. */
  predicate IsAlive(c: Conn) {
    !c.request.Returned? || IsBusy(c.hook) || IsBusy(c.deadline) || c.kill.Armed? || c.stop.Armed? || c.writing
  }

  predicate IsHookOutcome(o: Outcome) {
    o.Uploaded? || o.InvalidImage? || o.InternalError?
  }

  predicate Enabled(c: Conn, e: Event) {
    match e
    case Refuse(error) => c.request.NotCalled?
    case StartUpload => c.request.NotCalled?
    case CallBack(o) => c.uploading && !c.calledBack && IsHookOutcome(o)
    case StopExpires => c.stop.Armed?
    case KillExpires => c.kill.Armed?
    case Advance(who) => IsBusy(PcOf(c, who))
    case Written => c.writing
  }

  function Cancel(t: Timer): Timer {
    if t.Armed? then Cancelled else t
  }

  function Step(c: Conn, e: Event): Conn
    requires Enabled(c, e)
  {
    match e
    case Refuse(error) => c.(request := CancelsKill(Refused(error)))
    case StartUpload => c.(request := Returned, stop := Armed, uploading := true)
    case CallBack(o) =>
      // the hook holds a weak_ptr: nothing is left to answer when the connection is gone
      c.(calledBack := true, hook := if IsAlive(c) then CancelsKill(o) else Returned)
    case StopExpires => c.(stop := Expired, deadline := CancelsKill(TimedOut))
    case KillExpires => c.(kill := Expired)
    case Advance(who) => Go(c, who)
    case Written => c.(writing := false)
  }

  /** `start_response`, then the filling and the sending of the response. */
  function Go(c: Conn, who: Who): Conn
    requires IsBusy(PcOf(c, who))
  {
    match PcOf(c, who)
    case CancelsKill(o) => WithPc(c, who, CancelsStop(o)).(kill := Cancel(c.kill))
    case CancelsStop(o) => WithPc(c, who, Exchanges(o)).(stop := Cancel(c.stop))
    case Exchanges(o) =>
      if c.responded then WithPc(c, who, Returned)
      else WithPc(c, who, Fills(o)).(responded := true, winner := c.winner + [o])
    case Fills(o) => WithPc(c, who, Sends(o)).(body := c.body + [o])
    case Sends(o) => WithPc(c, who, Returned).(sent := c.sent + [c.body], writing := true)
  }

  predicate Legal(c: Conn, run: seq<Event>)
    decreases |run|, 0
  {
    run == [] || (Legal(c, run[..|run| - 1]) && Enabled(Final(c, run[..|run| - 1]), run[|run| - 1]))
  }

  function Final(c: Conn, run: seq<Event>): Conn
    requires Legal(c, run)
    decreases |run|, 1
  {
    if run == [] then c else Step(Final(c, run[..|run| - 1]), run[|run| - 1])
  }

  // ---------------------------------------------------------------- invariant

  predicate HasWon(pc: Pc) {
    pc.Fills? || pc.Sends?
  }

  /** At most one handler is past the exchange, with the outcome that won; it alone writes the
      body, once, and sends it. */
  ghost predicate WinOk(c: Conn) {
    && |c.winner| == (if c.responded then 1 else 0)
    && (forall who :: HasWon(PcOf(c, who)) ==> c.responded && PcOf(c, who).outcome == c.winner[0] && c.sent == [])
    && (forall a, b :: HasWon(PcOf(c, a)) && HasWon(PcOf(c, b)) ==> a == b)
    && (!c.responded ==> c.body == [] && c.sent == [])
    && (forall who :: PcOf(c, who).Fills? ==> c.body == [])
    && (forall who :: PcOf(c, who).Sends? ==> c.body == c.winner)
    && (c.responded ==> c.sent == [c.winner] || exists who :: HasWon(PcOf(c, who)))
  }

  /** A handler returns only after some exchange, unless it had nothing to answer; and while an
      upload is neither answered nor called back, its deadline keeps the connection alive. */
  ghost predicate LifeOk(c: Conn) {
    && (c.deadline.Returned? ==> c.responded)
    && (c.hook.Returned? ==> c.responded)
    && (c.request.Returned? && !c.uploading ==> c.responded)
    && (c.uploading ==> c.request.Returned? && !c.stop.Unarmed?)
    && (!c.uploading ==> c.stop.Unarmed? && c.hook.NotCalled? && c.deadline.NotCalled?)
    && (c.stop.Cancelled? ==> c.responded || exists who :: PcOf(c, who).Exchanges?)
    && (c.stop.Expired? <==> !c.deadline.NotCalled?)
    && (!c.calledBack <==> c.hook.NotCalled?)
  }

  ghost predicate Inv(c: Conn) {
    WinOk(c) && LifeOk(c)
  }

  lemma InitInv()
    ensures Inv(Init())
  {
  }

  lemma OthersKeepPc(c: Conn, who: Who)
    requires IsBusy(PcOf(c, who))
    ensures forall w | w != who :: PcOf(Go(c, who), w) == PcOf(c, w)
  {
  }

  lemma ExchangeKeepsWin(c: Conn, who: Who)
    requires WinOk(c) && PcOf(c, who).Exchanges?
    ensures WinOk(Go(c, who))
  {
    OthersKeepPc(c, who);
    var c' := Go(c, who);
    if c.responded {
      assert !HasWon(PcOf(c', who));
    } else {
      assert HasWon(PcOf(c', who)) && c'.winner == [PcOf(c, who).outcome];
    }
  }

  lemma SendKeepsWin(c: Conn, who: Who)
    requires WinOk(c) && HasWon(PcOf(c, who))
    ensures WinOk(Go(c, who))
  {
    OthersKeepPc(c, who);
    var c' := Go(c, who);
    match PcOf(c, who)
    case Fills(o) => assert HasWon(PcOf(c', who)) && c'.body == c.winner;
    case Sends(o) => assert c'.sent == [c.winner];
  }

  lemma CancelKeepsWin(c: Conn, who: Who)
    requires WinOk(c) && (PcOf(c, who).CancelsKill? || PcOf(c, who).CancelsStop?)
    ensures WinOk(Go(c, who))
  {
    OthersKeepPc(c, who);
    assert !HasWon(PcOf(Go(c, who), who));
  }

  lemma AdvanceKeepsLife(c: Conn, who: Who)
    requires Inv(c) && IsBusy(PcOf(c, who))
    ensures LifeOk(Go(c, who))
  {
    OthersKeepPc(c, who);
    var c' := Go(c, who);
    match PcOf(c, who)
    case CancelsKill(o) =>
    case CancelsStop(o) => assert PcOf(c', who).Exchanges?;
    case Exchanges(o) =>
    case Fills(o) =>
    case Sends(o) =>
  }

  lemma AdvanceKeepsInv(c: Conn, who: Who)
    requires Inv(c) && Enabled(c, Advance(who))
    ensures Inv(Go(c, who))
  {
    AdvanceKeepsLife(c, who);
    hide WinOk, LifeOk, Go;
    match PcOf(c, who)
    case CancelsKill(o) => CancelKeepsWin(c, who);
    case CancelsStop(o) => CancelKeepsWin(c, who);
    case Exchanges(o) => ExchangeKeepsWin(c, who);
    case Fills(o) => SendKeepsWin(c, who);
    case Sends(o) => SendKeepsWin(c, who);
  }

  /** When the connection is gone, the answer has been given. */
  lemma DeadMeansAnswered(c: Conn)
    requires Inv(c) && c.uploading && !IsAlive(c)
    ensures c.responded && c.sent == [c.winner]
  {
    forall who ensures !IsBusy(PcOf(c, who)) || (who.Hook? && IsBusy(c.hook)) {
      match who
      case Request =>
      case Hook =>
      case Deadline =>
    }
  }

  lemma CallBackKeepsInv(c: Conn, o: Outcome)
    requires Inv(c) && Enabled(c, CallBack(o))
    ensures Inv(Step(c, CallBack(o)))
  {
    var c' := Step(c, CallBack(o));
    if !IsAlive(c) { DeadMeansAnswered(c); }
    assert forall w | w != Hook :: PcOf(c', w) == PcOf(c, w);
    assert forall w :: PcOf(c, w).Exchanges? || HasWon(PcOf(c, w)) ==> w != Hook;
  }

  lemma OthersKeepInv(c: Conn, e: Event)
    requires Inv(c) && Enabled(c, e) && !e.Advance? && !e.CallBack?
    ensures Inv(Step(c, e))
  {
    var c' := Step(c, e);
    assert forall w :: PcOf(c, w).Exchanges? || HasWon(PcOf(c, w)) ==> PcOf(c', w) == PcOf(c, w);
    assert forall w :: HasWon(PcOf(c', w)) ==> PcOf(c', w) == PcOf(c, w);
  }

  lemma StepKeepsInv(c: Conn, e: Event)
    requires Inv(c) && Enabled(c, e)
    ensures Inv(Step(c, e))
  {
    hide Inv;
    match e
    case Advance(who) => AdvanceKeepsInv(c, who);
    case CallBack(o) => CallBackKeepsInv(c, o);
    case _ => OthersKeepInv(c, e);
  }

  lemma {:induction false} RunsKeepInv(run: seq<Event>)
    requires Legal(Init(), run)
    ensures Inv(Final(Init(), run))
  {
    hide Inv, Step, Enabled;
    if run == [] {
      InitInv();
    } else {
      RunsKeepInv(run[..|run| - 1]);
      StepKeepsInv(Final(Init(), run[..|run| - 1]), run[|run| - 1]);
    }
  }

  // ---------------------------------------------------------------- theorems

  /** At most one response is started, with nothing but the outcome that won the exchange in
      it. */
  lemma AtMostOneResponse(run: seq<Event>)
    requires Legal(Init(), run)
    ensures var c := Final(Init(), run);
      && |c.sent| <= 1 && |c.winner| <= 1
      && (c.sent != [] ==> c.sent == [c.winner] && |c.winner| == 1)
  {
    RunsKeepInv(run);
    var c := Final(Init(), run);
    if who :| HasWon(PcOf(c, who)) {
      assert c.sent == [];
    }
  }

  /** Once a handler, of the processing, its deadline or a refusal, has returned, somebody has
      won; and once no handler is at work any more, exactly one response has been started. */
  lemma ExactlyOneResponse(run: seq<Event>)
    requires Legal(Init(), run)
    requires var c := Final(Init(), run);
      c.hook.Returned? || c.deadline.Returned? || (c.request.Returned? && !c.uploading)
    ensures var c := Final(Init(), run);
      && c.responded && |c.winner| == 1
      && ((forall who :: !IsBusy(PcOf(c, who))) ==> c.sent == [c.winner])
  {
    RunsKeepInv(run);
  }

  /** The winner is never replaced: a processing that ends after the deadline has answered does
      not change the answer. */
  lemma {:induction false} WinnerIsFinal(c: Conn, run: seq<Event>)
    requires Inv(c) && c.responded && Legal(c, run)
    ensures Inv(Final(c, run)) && Final(c, run).responded && Final(c, run).winner == c.winner
  {
    hide Inv;
    if run == [] {
    } else {
      WinnerIsFinal(c, run[..|run| - 1]);
      StepKeepsInv(Final(c, run[..|run| - 1]), run[|run| - 1]);
      StepKeepsWinner(Final(c, run[..|run| - 1]), run[|run| - 1]);
    }
  }

  lemma StepKeepsWinner(c: Conn, e: Event)
    requires c.responded && Enabled(c, e)
    ensures Step(c, e).responded && Step(c, e).winner == c.winner
  {
  }

  /** If the connection is gone when the processing calls back, it has been answered already, so
      dropping the result loses nothing. */
  lemma DroppedResultWasAnswered(run: seq<Event>, o: Outcome)
    requires Legal(Init(), run) && Enabled(Final(Init(), run), CallBack(o)) && !IsAlive(Final(Init(), run))
    ensures var c := Final(Init(), run); |c.winner| == 1 && c.sent == [c.winner]
  {
    RunsKeepInv(run);
    DeadMeansAnswered(Final(Init(), run));
  }

  // ---------------------------------------------------------------- the timers

  /** A handler has cancelled the timer of the socket, and that of the processing. */
  predicate PastKill(pc: Pc) {
    pc.CancelsStop? || pc.Exchanges? || HasWon(pc)
  }

  predicate PastStop(pc: Pc) {
    pc.Exchanges? || HasWon(pc)
  }

  ghost predicate TimersOk(c: Conn) {
    && (c.responded ==> !c.kill.Armed? && !c.stop.Armed? && !c.request.NotCalled?)
    && (forall who :: PastKill(PcOf(c, who)) ==> !c.kill.Armed?)
    && (forall who :: PastStop(PcOf(c, who)) ==> !c.stop.Armed?)
  }

  lemma AdvanceKeepsTimers(c: Conn, who: Who)
    requires TimersOk(c) && IsBusy(PcOf(c, who)) && !c.request.NotCalled?
    ensures TimersOk(Go(c, who))
  {
    OthersKeepPc(c, who);
    match PcOf(c, who)
    case CancelsKill(o) =>
    case CancelsStop(o) =>
    case Exchanges(o) =>
    case Fills(o) =>
    case Sends(o) =>
  }

  /** Before the request is handled no handler is at work. */
  lemma NobodyIsBusy(c: Conn, who: Who)
    requires LifeOk(c) && c.request.NotCalled?
    ensures PcOf(c, who).NotCalled?
  {
    match who
    case Request =>
    case Hook =>
    case Deadline =>
  }

  lemma StepKeepsTimers(c: Conn, e: Event)
    requires LifeOk(c) && TimersOk(c) && Enabled(c, e)
    ensures TimersOk(Step(c, e))
  {
    if e.Advance? {
      if c.request.NotCalled? { NobodyIsBusy(c, e.who); }
      AdvanceKeepsTimers(c, e.who);
      hide Go, LifeOk;
    } else {
      forall who | c.request.NotCalled? ensures PcOf(c, who).NotCalled? {
        NobodyIsBusy(c, who);
      }
      hide LifeOk;
      var c' := Step(c, e);
      assert forall who :: PastKill(PcOf(c', who)) ==> PcOf(c', who) == PcOf(c, who);
    }
  }

  lemma {:induction false} RunsKeepTimers(run: seq<Event>)
    requires Legal(Init(), run)
    ensures TimersOk(Final(Init(), run))
  {
    hide TimersOk, Step, Enabled, WinOk, LifeOk;
    if run == [] {
      StartsWithTimers();
    } else {
      RunsKeepTimers(run[..|run| - 1]);
      RunsKeepInv(run[..|run| - 1]);
      StepKeepsTimers(Final(Init(), run[..|run| - 1]), run[|run| - 1]);
    }
  }

  lemma StartsWithTimers()
    ensures TimersOk(Init())
  {
    assert forall who :: PcOf(Init(), who).NotCalled?;
  }

  /** Once a response has been started neither timer is running any more: the socket is not closed
      under it, and no timeout is reported after it. */
  lemma AnsweredStopsTimers(run: seq<Event>)
    requires Legal(Init(), run) && Final(Init(), run).sent != []
    ensures var c := Final(Init(), run); !c.kill.Armed? && !c.stop.Armed? && !Enabled(c, KillExpires) && !Enabled(c, StopExpires)
  {
    RunsKeepTimers(run);
    RunsKeepInv(run);
    hide Legal, Final;
  }

  // ---------------------------------------------------------------- what is answered, and why

  /** The event that gives a handler its outcome has happened. */
  predicate Caused(run: seq<Event>, o: Outcome) {
    match o
    case Refused(error) => Refuse(error) in run
    case TimedOut => StopExpires in run
    case _ => CallBack(o) in run
  }

  /** Every handler at work, and every winner, has an outcome with a cause. */
  ghost predicate CausesOk(run: seq<Event>, c: Conn) {
    && (forall who :: IsBusy(PcOf(c, who)) ==> Caused(run, PcOf(c, who).outcome))
    && (forall o | o in c.winner :: Caused(run, o))
  }

  lemma NewOutcome(c: Conn, e: Event, who: Who)
    requires Enabled(c, e) && !e.Advance? && IsBusy(PcOf(Step(c, e), who))
    ensures PcOf(Step(c, e), who) == PcOf(c, who) || Caused([e], PcOf(Step(c, e), who).outcome)
  {
    match e
    case Refuse(error) =>
    case StartUpload =>
    case CallBack(o) =>
    case StopExpires =>
    case KillExpires =>
    case Written =>
  }

  lemma WinnersStay(c: Conn, e: Event)
    requires Enabled(c, e) && !e.Advance?
    ensures Step(c, e).winner == c.winner
  {
  }

  /** A handler keeps the outcome it was called with. */
  lemma HandlerKeepsOutcome(c: Conn, who: Who)
    requires IsBusy(PcOf(c, who))
    ensures IsBusy(PcOf(Go(c, who), who)) ==> PcOf(Go(c, who), who).outcome == PcOf(c, who).outcome
  {
  }

  lemma WithPcKeeps(c: Conn, who: Who, pc: Pc)
    ensures var c' := WithPc(c, who, pc);
      c'.calledBack == c.calledBack && c'.uploading == c.uploading && c'.winner == c.winner
  {
  }

  /** It can only add that outcome to the winners. */
  lemma HandlerWins(c: Conn, who: Who)
    requires IsBusy(PcOf(c, who))
    ensures var c' := Go(c, who);
      && c'.calledBack == c.calledBack && c'.uploading == c.uploading
      && (c'.winner == c.winner || c'.winner == c.winner + [PcOf(c, who).outcome])
  {
    hide WithPc, PcOf;
    match PcOf(c, who)
    case CancelsKill(o) => WithPcKeeps(c, who, CancelsStop(o));
    case CancelsStop(o) => WithPcKeeps(c, who, Exchanges(o));
    case Exchanges(o) => WithPcKeeps(c, who, Returned); WithPcKeeps(c, who, Fills(o));
    case Fills(o) => WithPcKeeps(c, who, Sends(o));
    case Sends(o) => WithPcKeeps(c, who, Returned);
  }

  lemma StepKeepsCauses(run: seq<Event>, c: Conn, e: Event)
    requires CausesOk(run, c) && Enabled(c, e)
    ensures CausesOk(run + [e], Step(c, e))
  {
    hide Step, Caused, Go, PcOf;
    var c' := Step(c, e);
    forall o | Caused(run, o) || Caused([e], o) ensures Caused(run + [e], o) {
      CauseInEither(run, e, o);
    }
    if e.Advance? {
      AdvanceIs(c, e.who);
      HandlerKeepsOutcome(c, e.who);
      HandlerWins(c, e.who);
      OthersKeepPc(c, e.who);
    } else {
      WinnersStay(c, e);
      forall who | IsBusy(PcOf(c', who)) ensures Caused(run + [e], PcOf(c', who).outcome) {
        NewOutcome(c, e, who);
      }
    }
  }

  lemma AdvanceIs(c: Conn, who: Who)
    requires Enabled(c, Advance(who))
    ensures Step(c, Advance(who)) == Go(c, who) && IsBusy(PcOf(c, who))
  {
  }

  lemma CauseInEither(run: seq<Event>, e: Event, o: Outcome)
    requires Caused(run, o) || Caused([e], o)
    ensures Caused(run + [e], o)
  {
  }

  lemma {:induction false} RunsKeepCauses(run: seq<Event>)
    requires Legal(Init(), run)
    ensures CausesOk(run, Final(Init(), run))
  {
    if run == [] {
      assert forall who :: !IsBusy(PcOf(Init(), who));
    } else {
      hide CausesOk, Step, Enabled;
      RunsKeepCauses(run[..|run| - 1]);
      StepKeepsCauses(run[..|run| - 1], Final(Init(), run[..|run| - 1]), run[|run| - 1]);
      assert run == run[..|run| - 1] + [run[|run| - 1]];
    }
  }

  /** A response says what has happened: a refusal carries the error the request was refused with, a
      timeout means that the processing deadline passed, and any other answer is the one that the
      processing called back with. */
  lemma ResponseHasItsCause(run: seq<Event>, o: Outcome)
    requires Legal(Init(), run) && [o] in Final(Init(), run).sent
    ensures o.Refused? ==> Refuse(o.error) in run
    ensures o.TimedOut? ==> StopExpires in run
    ensures o.Uploaded? || o.InvalidImage? || o.InternalError? ==> CallBack(o) in run
  {
    RunsKeepCauses(run);
    AtMostOneResponse(run);
    var c := Final(Init(), run);
    assert c.sent == [c.winner] && [o] == c.winner && o in c.winner;
    hide Legal, Final;
  }

  // ---------------------------------------------------------------- the object

  /** The connection's own fields, with the handlers run one after the other. */
  class HttpConnection {
    var responded: bool
    var kill: Timer
    var stop: Timer
    var response: seq<Outcome>
    var sent: seq<seq<Outcome>>

    ghost predicate Valid()
      reads this
    {
      sent == (if responded then [response] else []) && |response| == if responded then 1 else 0
    }

    constructor ()
      ensures Valid() && !responded && kill == Armed && stop == Unarmed
    {
      responded, kill, stop, response, sent := false, Armed, Unarmed, [], [];
    }

    /** Whether the caller is the one to respond. */
    method StartResponse() returns (first: bool)
      modifies `responded, `kill, `stop
      ensures first == !old(responded) && responded
      ensures kill == if old(kill) == Armed then Cancelled else old(kill)
      ensures stop == if old(stop) == Armed then Cancelled else old(stop)
    {
      kill := Cancel(kill);
      stop := Cancel(stop);
      first := !responded;
      responded := true;
    }

    /** `respond_ok` and `respond_with_error`. */
    method Respond(outcome: Outcome)
      requires Valid()
      modifies this
      ensures Valid() && responded
      ensures response == if old(responded) then old(response) else [outcome]
      ensures sent == if old(responded) then old(sent) else [[outcome]]
      ensures kill == if old(kill) == Armed then Cancelled else old(kill)
      ensures stop == if old(stop) == Armed then Cancelled else old(stop)
    {
      var first := StartResponse();
      if !first { return; }
      response := response + [outcome];
      sent := sent + [response];
    }
  }
}
