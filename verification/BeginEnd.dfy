/** One request through the v1 handler: `BeginProcessRequest` races with the callback it handed to
    the user's begin operation. Every step is one access to the shared payload or one call out. */
module BeginEnd {
  import opened Options
  import opened Statuses

  /** A context is the user's, or the dummy that Begin makes when it fails on its own. */
  datatype Ctx = UserCtx(id: nat) | DummyCtx

  datatype BeginResult = BeginFailed(status: Status) | Started(ctx: Ctx)

  /** What the user's begin operation returns, and the context of each invocation of the callback,
      in the order in which they start, at any time from when begin is entered, on any thread. */
  datatype User = User(result: BeginResult, calls: seq<Ctx>)

  /** Either begin fails and never invokes the callback, or it succeeds with a context and invokes
      the callback once, with that context. */
  predicate Honest(user: User) {
    match user.result
    case BeginFailed(_) => user.calls == []
    case Started(ctx) => user.calls == [ctx]
  }

  /** Rejected: the header is empty or unreadable, or no route. Routed: the end operation found and the user. */
  datatype Request = Rejected(status: Status) | Routed(endOp: nat, user: User)

  /** A rejection or failure carries a failing status, and only Begin makes dummies. */
  predicate Proper(req: Request) {
    match req
    case Rejected(status) => status.Failed()
    case Routed(_, user) =>
      && (user.result.BeginFailed? ==> user.result.status.Failed())
      && (user.result.Started? ==> user.result.ctx.UserCtx?)
      && (forall ctx :: ctx in user.calls ==> ctx.UserCtx?)
  }

  predicate HonestRequest(req: Request) {
    req.Routed? ==> Honest(req.user)
  }

  /** Begin itself will invoke the callback. */
  predicate BeginFails(req: Request) {
    req.Rejected? || req.user.result.BeginFailed?
  }

  datatype Payload = Payload(endOp: Option<nat>, beginStatus: Status, innerCtx: Option<Ctx>) {
    /** The context is set once; a second call must bring the same one. */
    function SetInnerCtx(ctx: Ctx): Payload {
      if innerCtx.None? then this.(innerCtx := Some(ctx)) else this
    }

    predicate MaySet(ctx: Ctx) {
      innerCtx.None? || innerCtx == Some(ctx)
    }
  }

  /** The program counter of one run of the callback's Invoke. */
  datatype InvokePc = SetCtx | Fire | Release | Done

  datatype Call = Call(ctx: Ctx, pc: InvokePc)

  datatype BeginPc =
    | Routing | InUserBegin | Succeeding(ctx: Ctx) | Failing(status: Status) | Invoking(pc: InvokePc) | Returned

  /** wrapped: the callback still owns the wrapper context. sound: no assert has failed. */
  datatype State = State(
    begin: BeginPc, calls: seq<Call>, payload: Payload, wrapped: bool, fires: nat, sound: bool)

  const INITIAL := State(Routing, [], Payload(None, SUCCESS, None), true, 0, true)

  datatype Step = BeginStep | StartCall | CallStep(k: nat)

  predicate UserEntered(s: State) {
    !s.begin.Routing?
  }

  predicate Enabled(req: Request, s: State, step: Step) {
    match step
    case BeginStep => s.begin != Returned && s.begin != Invoking(Done)
    case StartCall => req.Routed? && UserEntered(s) && |s.calls| < |req.user.calls|
    case CallStep(k) => k < |s.calls| && s.calls[k].pc != Done
  }

  /** One step of the callback's Invoke with context ctx. */
  function InvokeStep(s: State, ctx: Ctx, pc: InvokePc): State {
    match pc
    case SetCtx =>
      s.(payload := s.payload.SetInnerCtx(ctx), sound := s.sound && s.wrapped && s.payload.MaySet(ctx))
    case Fire => s.(fires := s.fires + 1, sound := s.sound && s.wrapped)
    case Release => s.(wrapped := false)
    case Done => s
  }

  function After(pc: InvokePc): InvokePc {
    match pc
    case SetCtx => Fire
    case Fire => Release
    case Release => Done
    case Done => Done
  }

  function Next(req: Request, s: State, step: Step): State
    requires Enabled(req, s, step)
  {
    match step
    case BeginStep => (
      match s.begin
      case Routing => (
        match req
        case Rejected(status) => s.(begin := Failing(status))
        case Routed(endOp, _) => s.(begin := InUserBegin, payload := s.payload.(endOp := Some(endOp))))
      case InUserBegin => (
        match req
        case Routed(_, User(BeginFailed(status), _)) => s.(begin := Failing(status))
        case Routed(_, User(Started(ctx), _)) => s.(begin := Succeeding(ctx))
        case Rejected(_) => s)
      case Succeeding(ctx) =>
        s.(begin := Returned, payload := s.payload.SetInnerCtx(ctx), sound := s.sound && s.payload.MaySet(ctx))
      case Failing(status) =>
        s.(begin := Invoking(SetCtx), payload := s.payload.(beginStatus := status))
      case Invoking(pc) =>
        InvokeStep(s, DummyCtx, pc).(begin := if After(pc) == Done then Returned else Invoking(After(pc)))
      case Returned => s)
    case StartCall =>
      s.(calls := s.calls + [Call(req.user.calls[|s.calls|], SetCtx)])
    case CallStep(k) =>
      var call := s.calls[k];
      InvokeStep(s, call.ctx, call.pc).(calls := s.calls[k := Call(call.ctx, After(call.pc))])
  }

  function Run(req: Request, steps: seq<Step>): Option<State> {
    if steps == [] then Some(INITIAL)
    else
      match Run(req, steps[..|steps| - 1])
      case None => None
      case Some(s) =>
        if Enabled(req, s, steps[|steps| - 1]) then Some(Next(req, s, steps[|steps| - 1])) else None
  }

  /** Every invocation of the callback has been made and has ended. */
  predicate CallsDone(req: Request, s: State) {
    && (req.Routed? ==> |s.calls| == |req.user.calls|)
    && (forall k :: 0 <= k < |s.calls| ==> s.calls[k].pc == Done)
  }

  /** Nothing is left to do. */
  predicate Complete(req: Request, s: State) {
    s.begin == Returned && CallsDone(req, s)
  }

  /** What EndProcessRequest reads from the payload: an error to send, or the user's end operation
      with the context to run it on. AssertFails when one of them is missing. */
  datatype EndView = SendError(status: Status) | RunEnd(endOp: nat, ctx: Ctx) | AssertFails

  function ReadPayload(p: Payload): EndView {
    if p.beginStatus.Failed() then SendError(p.beginStatus)
    else if p.endOp.Some? && p.innerCtx.Some? then RunEnd(p.endOp.value, p.innerCtx.value)
    else AssertFails
  }

  /** What End should read, from the request alone. */
  function Expected(req: Request): EndView {
    match req
    case Rejected(status) => SendError(status)
    case Routed(_, User(BeginFailed(status), _)) => SendError(status)
    case Routed(endOp, User(Started(ctx), _)) => RunEnd(endOp, ctx)
  }

  // ----- What every run keeps, whatever the user does -----

  /** How many invocations have fired the transport's callback. */
  function Fired(calls: seq<Call>): nat {
    if calls == [] then 0
    else Fired(calls[..|calls| - 1]) + if calls[|calls| - 1].pc == Release ||
      calls[|calls| - 1].pc == Done then 1 else 0
  }

  lemma {:induction false} FiredUpdate(calls: seq<Call>, k: nat, call: Call)
    requires k < |calls|
    ensures Fired(calls[k := call]) == Fired(calls)
      - (if calls[k].pc == Release || calls[k].pc == Done then 1 else 0)
      + (if call.pc == Release || call.pc == Done then 1 else 0)
  {
    var n := |calls| - 1;
    if k == n {
      assert calls[k := call][..n] == calls[..n];
    } else {
      FiredUpdate(calls[..n], k, call);
      assert calls[k := call][..n] == calls[..n][k := call];
    }
  }

  lemma FiredAppend(calls: seq<Call>, call: Call)
    ensures Fired(calls + [call]) == Fired(calls) + if call.pc == Release || call.pc == Done then 1 else 0
  {
    assert (calls + [call])[..|calls|] == calls;
  }

  lemma {:induction false} FiredAll(calls: seq<Call>)
    requires forall k :: 0 <= k < |calls| ==> calls[k].pc == Done
    ensures Fired(calls) == |calls|
  {
    if calls == [] {
    } else {
      FiredAll(calls[..|calls| - 1]);
    }
  }

  /** Begin's program counter fits the request. */
  ghost predicate Placed(req: Request, s: State) {
    match s.begin
    case Routing => s.calls == []
    case InUserBegin => req.Routed?
    case Succeeding(ctx) => req.Routed? && req.user.result == Started(ctx)
    case Failing(status) => req == Rejected(status) || (req.Routed? && req.user.result == BeginFailed(status))
    case Invoking(pc) => BeginFails(req) && pc != Done
    case Returned => true
  }

  ghost predicate Counted(req: Request, s: State) {
    s.fires == Fired(s.calls) +
      (if s.begin == Invoking(Release) || (s.begin == Returned && BeginFails(req)) then 1 else 0)
  }

  /** While no assert has failed, the inner context is the one everybody who set it brought. */
  ghost predicate Agreed(req: Request, s: State) {
    s.sound ==>
      && (forall k :: 0 <= k < |s.calls| && s.calls[k].pc != SetCtx ==> s.payload.innerCtx == Some(s.calls[k].ctx))
      && (s.begin == Returned && !BeginFails(req) ==> s.payload.innerCtx == Some(req.user.result.ctx))
  }

  /** The invocations so far are the first ones of the user's. */
  ghost predicate CallsStarted(req: Request, s: State) {
    && (req.Rejected? ==> s.calls == [])
    && (req.Routed? ==> |s.calls| <= |req.user.calls|)
    && (req.Routed? ==> forall k :: 0 <= k < |s.calls| ==> s.calls[k].ctx == req.user.calls[k])
  }

  ghost predicate Faithful(req: Request, s: State) {
    Placed(req, s) && Counted(req, s) && Agreed(req, s) && CallsStarted(req, s)
  }

  lemma BeginCounted(req: Request, s: State)
    requires Placed(req, s) && Counted(req, s) && Enabled(req, s, BeginStep)
    ensures Counted(req, Next(req, s, BeginStep))
  {
  }

  lemma BeginFaithful(req: Request, s: State)
    requires Faithful(req, s) && Enabled(req, s, BeginStep)
    ensures Faithful(req, Next(req, s, BeginStep))
  {
    BeginCounted(req, s);
  }

  lemma StartCounted(req: Request, s: State)
    requires Counted(req, s) && Enabled(req, s, StartCall)
    ensures Counted(req, Next(req, s, StartCall))
  {
    FiredAppend(s.calls, Call(req.user.calls[|s.calls|], SetCtx));
  }

  lemma StartAgreed(req: Request, s: State)
    requires Agreed(req, s) && CallsStarted(req, s) && Enabled(req, s, StartCall)
    ensures Agreed(req, Next(req, s, StartCall)) && CallsStarted(req, Next(req, s, StartCall))
  {
  }

  lemma StartFaithful(req: Request, s: State)
    requires Faithful(req, s) && Enabled(req, s, StartCall)
    ensures Faithful(req, Next(req, s, StartCall))
  {
    StartCounted(req, s);
    StartAgreed(req, s);
  }

  lemma CallFaithful(req: Request, s: State, k: nat)
    requires Faithful(req, s) && Enabled(req, s, CallStep(k))
    ensures Faithful(req, Next(req, s, CallStep(k)))
  {
    FiredUpdate(s.calls, k, Call(s.calls[k].ctx, After(s.calls[k].pc)));
  }

  lemma FaithfulStep(req: Request, s: State, step: Step)
    requires Faithful(req, s) && Enabled(req, s, step)
    ensures Faithful(req, Next(req, s, step))
  {
    match step
    case BeginStep => BeginFaithful(req, s);
    case StartCall => StartFaithful(req, s);
    case CallStep(k) => CallFaithful(req, s, k);
  }

  lemma {:induction false} RunFaithful(req: Request, steps: seq<Step>)
    requires Run(req, steps).Some?
    ensures Faithful(req, Run(req, steps).value)
  {
    if steps == [] {
    } else {
      RunFaithful(req, steps[..|steps| - 1]);
      FaithfulStep(req, Run(req, steps[..|steps| - 1]).value, steps[|steps| - 1]);
    }
  }

  /** A run is complete exactly when no step is enabled any more. */
  lemma CompleteMeansStuck(req: Request, steps: seq<Step>, s: State)
    requires Run(req, steps) == Some(s)
    ensures Complete(req, s) <==> forall step :: !Enabled(req, s, step)
  {
    RunFaithful(req, steps);
    if !Complete(req, s) && s.begin == Returned && (req.Routed? ==> |s.calls| == |req.user.calls|) {
      var k: nat :| k < |s.calls| && s.calls[k].pc != Done;
      assert Enabled(req, s, CallStep(k));
    } else if !Complete(req, s) && s.begin == Returned {
      assert Enabled(req, s, StartCall);
    } else if !Complete(req, s) {
      assert Enabled(req, s, BeginStep);
    }
  }

  lemma RunExtend(req: Request, steps: seq<Step>, s: State, step: Step)
    requires Run(req, steps) == Some(s) && Enabled(req, s, step)
    ensures Run(req, steps + [step]) == Some(Next(req, s, step))
  {
    assert (steps + [step])[..|steps|] == steps;
  }

  // ----- Every run ends, and can only end completed -----

  function InvokeRank(pc: InvokePc): nat {
    match pc
    case SetCtx => 3
    case Fire => 2
    case Release => 1
    case Done => 0
  }

  function BeginRank(pc: BeginPc): nat {
    match pc
    case Routing => 6
    case InUserBegin => 5
    case Failing(_) => 4
    case Invoking(p) => InvokeRank(p)
    case Succeeding(_) => 1
    case Returned => 0
  }

  function CallsRank(calls: seq<Call>): nat {
    if calls == [] then 0 else CallsRank(calls[..|calls| - 1]) + InvokeRank(calls[|calls| - 1].pc)
  }

  function Invocations(req: Request): nat {
    if req.Routed? then |req.user.calls| else 0
  }

  /** The steps still possible; calls that have not started count four each. */
  function Work(req: Request, s: State): int {
    BeginRank(s.begin) + CallsRank(s.calls) + 4 * (Invocations(req) - |s.calls|)
  }

  lemma {:induction false} CallsRankUpdate(calls: seq<Call>, k: nat, call: Call)
    requires k < |calls|
    ensures CallsRank(calls[k := call]) == CallsRank(calls) - InvokeRank(calls[k].pc) + InvokeRank(call.pc)
  {
    var n := |calls| - 1;
    if k == n {
      assert calls[k := call][..n] == calls[..n];
    } else {
      CallsRankUpdate(calls[..n], k, call);
      assert calls[k := call][..n] == calls[..n][k := call];
    }
  }

  lemma WorkShrinks(req: Request, s: State, step: Step)
    requires Faithful(req, s) && Enabled(req, s, step)
    ensures Work(req, Next(req, s, step)) < Work(req, s)
  {
    match step
    case BeginStep =>
    case StartCall => assert Next(req, s, StartCall).calls[..|s.calls|] == s.calls;
    case CallStep(k) => CallsRankUpdate(s.calls, k, Call(s.calls[k].ctx, After(s.calls[k].pc)));
  }

  /** No run is longer than this, whatever the user does. */
  lemma {:induction false} EveryRunEnds(req: Request, steps: seq<Step>)
    requires Run(req, steps).Some?
    ensures |steps| + Work(req, Run(req, steps).value) <= 6 + 4 * Invocations(req)
    ensures Work(req, Run(req, steps).value) >= 0
  {
    RunFaithful(req, steps);
    if steps == [] {
    } else {
      var before := steps[..|steps| - 1];
      EveryRunEnds(req, before);
      RunFaithful(req, before);
      WorkShrinks(req, Run(req, before).value, steps[|steps| - 1]);
    }
  }

  lemma OneMoreStep(req: Request, steps: seq<Step>, s: State) returns (steps': seq<Step>, s': State)
    requires Run(req, steps) == Some(s) && !Complete(req, s)
    ensures steps < steps' && Run(req, steps') == Some(s') && 0 <= Work(req, s') < Work(req, s)
  {
    CompleteMeansStuck(req, steps, s);
    var step :| Enabled(req, s, step);
    RunExtend(req, steps, s, step);
    RunFaithful(req, steps);
    WorkShrinks(req, s, step);
    steps', s' := steps + [step], Next(req, s, step);
    EveryRunEnds(req, steps');
  }

  /** Neither side can be left waiting: every run can be finished, and finishing takes only a bounded
      number of steps, of which some is always possible. */
  lemma {:induction false} EveryRunCompletes(req: Request, steps: seq<Step>, s: State)
    returns (all: seq<Step>, s': State)
    requires Run(req, steps) == Some(s)
    ensures steps <= all && Run(req, all) == Some(s') && Complete(req, s')
    decreases Work(req, s)
  {
    if Complete(req, s) {
      all, s' := steps, s;
    } else {
      var steps1, s1 := OneMoreStep(req, steps, s);
      all, s' := EveryRunCompletes(req, steps1, s1);
    }
  }

  // ----- What every run keeps when the user is honest -----

  ghost predicate Safe(req: Request, s: State) {
    && s.sound && Faithful(req, s)
    && (if BeginFails(req) then SafeFailing(req, s) else SafeStarted(req, s))
  }

  ghost predicate SafeFailing(req: Request, s: State)
    requires BeginFails(req)
  {
    var status := if req.Rejected? then req.status else req.user.result.status;
    && s.calls == []
    && (match s.begin
        case Invoking(pc) =>
          && s.payload.beginStatus == status && s.wrapped
          && s.payload.innerCtx == (if pc == SetCtx then None else Some(DummyCtx))
        case Returned => s.payload.beginStatus == status && !s.wrapped
        case _ => s.payload.innerCtx == None && s.wrapped)
  }

  ghost predicate SafeStarted(req: Request, s: State)
    requires !BeginFails(req)
  {
    && |s.calls| <= 1
    && s.payload.beginStatus == SUCCESS
    && (s.begin != Routing ==> s.payload.endOp == Some(req.endOp))
    && (s.payload.innerCtx == None || s.payload.innerCtx == Some(req.user.result.ctx))
    && (s.calls == [] ==> s.wrapped)
    && (s.calls != [] ==> (s.wrapped <==> s.calls[0].pc != Done))
  }

  lemma SafeStep(req: Request, s: State, step: Step)
    requires Proper(req) && HonestRequest(req) && Safe(req, s) && Enabled(req, s, step)
    ensures Safe(req, Next(req, s, step))
  {
    FaithfulStep(req, s, step);
  }

  lemma {:induction false} RunSafe(req: Request, steps: seq<Step>)
    requires Proper(req) && HonestRequest(req) && Run(req, steps).Some?
    ensures Safe(req, Run(req, steps).value)
  {
    if steps == [] {
    } else {
      RunSafe(req, steps[..|steps| - 1]);
      SafeStep(req, Run(req, steps[..|steps| - 1]).value, steps[|steps| - 1]);
    }
  }

  /** Race safety: with an honest user no interleaving fails an assert, fires the transport's callback
      twice, or fires it before End can run: from the moment it fires, End reads exactly what the
      request alone determines, whichever side went first. */
  lemma RaceSafe(req: Request, steps: seq<Step>, s: State)
    requires Proper(req) && HonestRequest(req) && Run(req, steps) == Some(s)
    ensures s.sound && s.fires <= 1
    ensures s.fires == 1 ==> ReadPayload(s.payload) == Expected(req) && Expected(req) != AssertFails
    ensures Complete(req, s) ==> s.fires == 1 && !s.wrapped
  {
    RunSafe(req, steps);
    if s.calls != [] {
      assert s.calls[..|s.calls| - 1] == [];
      assert Fired(s.calls[..|s.calls| - 1]) == 0;
    }
  }

  /** The contract is exact: a complete run passes its asserts and fires once if and only if the
      user was honest. */
  lemma FiresOnceExactlyWhenHonest(req: Request, steps: seq<Step>, s: State)
    requires Proper(req) && Run(req, steps) == Some(s) && Complete(req, s)
    ensures s.sound && s.fires == 1 <==> HonestRequest(req)
  {
    if HonestRequest(req) {
      RaceSafe(req, steps, s);
    } else {
      RunFaithful(req, steps);
      FiredAll(s.calls);
    }
  }
}
