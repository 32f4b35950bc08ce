/** The reference counts of the v1 handler's objects along every run with an honest user. Counts are
    changed where the code calls AddRef and Release; the pointers that justify them are read off the state. */
module Ownership {
  import opened Options
  import opened BeginEnd

  /** The wrapper context, the callback, the user's context and the dummy context. */
  datatype Obj = Wrapper | Callback | Inner | Dummy

  datatype Counts = Counts(wrapper: int, callback: int, inner: int, dummy: int) {
    function Of(o: Obj): int {
      match o
      case Wrapper => wrapper
      case Callback => callback
      case Inner => inner
      case Dummy => dummy
    }

    function Add(w: int, f: int, c: int, d: int): Counts {
      Counts(wrapper + w, callback + f, inner + c, dummy + d)
    }
  }

  /** backRef: the user's context stores the callback. kept: invocations for which the user still
      holds its context and the callback. held: the transport owns the returned wrapper. */
  datatype Heap = Heap(
    s: State, counts: Counts, alive: set<Obj>, backRef: bool, kept: nat, held: bool)

  function Initial(backRef: bool): Heap {
    Heap(BeginEnd.INITIAL, Counts(2, 1, 0, 0), {Wrapper, Callback}, backRef, 0, false)
  }

  datatype Action = Protocol(step: Step) | UserDrops | TransportDrops | Free(obj: Obj)

  predicate Enabled(req: Request, h: Heap, a: Action) {
    match a
    case Protocol(step) => BeginEnd.Enabled(req, h.s, step)
    case UserDrops => h.kept > 0 && UserEntered(h.s) && CallsDone(req, h.s)
    case TransportDrops => h.held && h.s.fires > 0
    case Free(obj) => obj in h.alive && h.counts.Of(obj) == 0
  }

  function One(b: bool): int {
    if b then 1 else 0
  }

  /** Begin's steps: entering the user's begin creates the user's context and the user's own
      references; leaving drops the locals and hands the wrapper to the transport. */
  function BeginCounts(req: Request, h: Heap): Heap
    requires BeginEnd.Enabled(req, h.s, BeginStep)
  {
    var h' := h.(s := Next(req, h.s, BeginStep));
    match h.s.begin
    case Routing =>
      if BeginFails(req) then h'
      else
        var n := |req.user.calls|;
        h'.(counts := h.counts.Add(0, n + One(h.backRef), 1 + n, 0), alive := h.alive + {Inner}, kept := n)
    case InUserBegin => h'
    case Succeeding(ctx) =>
      h'.(counts := h.counts.Add(0, -1, One(h.s.payload.innerCtx.None?) - 1, 0), held := true)
    case Failing(_) =>
      h'.(counts := h.counts.Add(0, 1, 0, 1), alive := h.alive + {Dummy})
    case Invoking(SetCtx) =>
      h'.(counts := h.counts.Add(0, 0, 0, One(h.s.payload.innerCtx.None?)))
    case Invoking(Release) =>
      h'.(counts := h.counts.Add(-One(h.s.wrapped), -1, 0, -1), held := true)
    case Invoking(_) => h'
    case Returned => h'
  }

  function CallCounts(req: Request, h: Heap, k: nat): Heap
    requires BeginEnd.Enabled(req, h.s, CallStep(k))
  {
    var h' := h.(s := Next(req, h.s, CallStep(k)));
    match h.s.calls[k].pc
    case SetCtx => h'.(counts := h.counts.Add(0, 0, One(h.s.payload.innerCtx.None?), 0))
    case Release => h'.(counts := h.counts.Add(-One(h.s.wrapped), 0, 0, 0))
    case _ => h'
  }

  /** A freed object releases what it points to. */
  function FreeCounts(h: Heap, obj: Obj): Heap {
    var h' := h.(alive := h.alive - {obj});
    match obj
    case Wrapper =>
      h'.(counts := h.counts.Add(0, 0,
        -One(h.s.payload.innerCtx.Some? && h.s.payload.innerCtx.value.UserCtx?),
          -One(h.s.payload.innerCtx == Some(DummyCtx))))
    case Callback => h'.(counts := h.counts.Add(-One(h.s.wrapped), 0, 0, 0), s := h.s.(wrapped := false))
    case Inner => h'.(counts := h.counts.Add(0, -One(h.backRef), 0, 0))
    case Dummy => h'.(counts := h.counts.Add(0, -1, 0, 0))
  }

  function Step(req: Request, h: Heap, a: Action): Heap
    requires Enabled(req, h, a)
  {
    match a
    case Protocol(BeginStep) => BeginCounts(req, h)
    case Protocol(StartCall) => h.(s := Next(req, h.s, StartCall))
    case Protocol(CallStep(k)) => CallCounts(req, h, k)
    case UserDrops => h.(counts := h.counts.Add(0, -1, -1, 0), kept := h.kept - 1)
    case TransportDrops => h.(counts := h.counts.Add(-1, 0, 0, 0), held := false)
    case Free(obj) => FreeCounts(h, obj)
  }

  function Run(req: Request, backRef: bool, actions: seq<Action>): Option<Heap> {
    if actions == [] then Some(Initial(backRef))
    else
      var last := actions[|actions| - 1];
      match Run(req, backRef, actions[..|actions| - 1])
      case None => None
      case Some(h) => if Enabled(req, h, last) then Some(Step(req, h, last)) else None
  }

  // ----- The pointers -----

  /** Pointers from live objects, locals of Begin, and references kept by user and transport. */
  ghost function References(req: Request, h: Heap, o: Obj): int {
    match o
    case Wrapper =>
      One(Callback in h.alive && h.s.wrapped) + One(h.s.begin != Returned) + One(h.held)
    case Callback =>
      One(Inner in h.alive && h.backRef) + One(Dummy in h.alive) + One(h.s.begin != Returned) + h.kept
    case Inner =>
      One(Wrapper in h.alive && h.s.payload.innerCtx.Some? && h.s.payload.innerCtx.value.UserCtx?)
      + One(!BeginFails(req) && (h.s.begin == InUserBegin || h.s.begin.Succeeding?)) + h.kept
    case Dummy =>
      One(Wrapper in h.alive && h.s.payload.innerCtx == Some(DummyCtx)) + One(h.s.begin.Invoking?)
  }

  ghost predicate BalancedAt(req: Request, h: Heap, o: Obj) {
    h.counts.Of(o) == References(req, h, o) && (References(req, h, o) > 0 ==> o in h.alive)
  }

  /** Every count equals the number of references, and a referenced object has not been freed. */
  ghost predicate Balanced(req: Request, h: Heap) {
    BalancedAt(req, h, Wrapper) && BalancedAt(req, h, Callback) && BalancedAt(req, h, Inner) &&
      BalancedAt(req, h, Dummy)
  }

  /** The cycle wrapper -> user's context -> callback -> wrapper. */
  ghost predicate Cyclic(h: Heap) {
    && Wrapper in h.alive && h.s.payload.innerCtx.Some? && h.s.payload.innerCtx.value.UserCtx?
    && Inner in h.alive && h.backRef
    && Callback in h.alive && h.s.wrapped
  }

  /** While an invocation is still to be made or running, the user holds what it needs. */
  ghost predicate Held(req: Request, h: Heap) {
    && Safe(req, h.s)
    && (h.held ==> h.s.begin == Returned)
    && h.kept <= 1
    && (h.kept > 0 ==> !BeginFails(req))
    && (!BeginFails(req) && h.s.begin != Routing && !CallsDone(req, h.s) ==> h.kept == 1)
    && (Inner in h.alive ==> !BeginFails(req) && h.s.begin != Routing)
    && (Dummy in h.alive ==> BeginFails(req) && (h.s.begin.Invoking? || h.s.begin == Returned))
  }

  ghost predicate Inv(req: Request, h: Heap) {
    Balanced(req, h) && Held(req, h)
  }

  lemma BeginHeld(req: Request, h: Heap)
    requires Proper(req) && HonestRequest(req)
    requires Held(req, h) && Enabled(req, h, Protocol(BeginStep)) && Safe(req, Next(req, h.s, BeginStep))
    ensures Held(req, Step(req, h, Protocol(BeginStep)))
  {
  }

  lemma StartHeld(req: Request, h: Heap)
    requires Held(req, h) && Enabled(req, h, Protocol(StartCall)) && Safe(req, Next(req, h.s, StartCall))
    ensures Held(req, Step(req, h, Protocol(StartCall)))
  {
  }

  lemma CallHeld(req: Request, h: Heap, k: nat)
    requires Held(req, h) && Enabled(req, h, Protocol(CallStep(k))) && Safe(req, Next(req, h.s, CallStep(k)))
    ensures Held(req, Step(req, h, Protocol(CallStep(k))))
  {
  }

  lemma ProtocolHeld(req: Request, h: Heap, step: BeginEnd.Step)
    requires Proper(req) && HonestRequest(req) && Held(req, h) && Enabled(req, h, Protocol(step))
    ensures Held(req, Step(req, h, Protocol(step)))
  {
    SafeStep(req, h.s, step);
    match step
    case BeginStep => BeginHeld(req, h);
    case StartCall => StartHeld(req, h);
    case CallStep(k) => CallHeld(req, h, k);
  }

  predicate Leaving(pc: BeginPc) {
    pc.Succeeding? || pc == Invoking(Release)
  }

  lemma InvokeBalanced(req: Request, h: Heap, o: Obj)
    requires Proper(req) && HonestRequest(req) && Inv(req, h) && Enabled(req, h, Protocol(BeginStep))
    requires !Leaving(h.s.begin)
    requires h.s.begin.Invoking?
    ensures BalancedAt(req, Step(req, h, Protocol(BeginStep)), o)
  {
  }

  lemma StayBalanced(req: Request, h: Heap, o: Obj)
    requires Proper(req) && HonestRequest(req) && Inv(req, h) && Enabled(req, h, Protocol(BeginStep))
    requires !Leaving(h.s.begin)
    requires !h.s.begin.Invoking?
    ensures BalancedAt(req, Step(req, h, Protocol(BeginStep)), o)
  {
  }

  lemma LeaveBalanced(req: Request, h: Heap, o: Obj)
    requires Proper(req) && HonestRequest(req) && Inv(req, h) && Enabled(req, h, Protocol(BeginStep))
    requires Leaving(h.s.begin)
    ensures BalancedAt(req, Step(req, h, Protocol(BeginStep)), o)
  {
  }

  lemma StartBalanced(req: Request, h: Heap, o: Obj)
    requires Inv(req, h) && Enabled(req, h, Protocol(StartCall))
    ensures BalancedAt(req, Step(req, h, Protocol(StartCall)), o)
  {
  }

  lemma CallBalanced(req: Request, h: Heap, k: nat, o: Obj)
    requires Proper(req) && HonestRequest(req) && Inv(req, h) && Enabled(req, h, Protocol(CallStep(k)))
    ensures BalancedAt(req, Step(req, h, Protocol(CallStep(k))), o)
  {
  }

  lemma ProtocolKept(req: Request, h: Heap, step: BeginEnd.Step)
    requires Proper(req) && HonestRequest(req) && Inv(req, h) && Enabled(req, h, Protocol(step))
    ensures Inv(req, Step(req, h, Protocol(step)))
  {
    ProtocolHeld(req, h, step);
    forall o: Obj ensures BalancedAt(req, Step(req, h, Protocol(step)), o) {
      match step
      case BeginStep =>
        if Leaving(h.s.begin) { LeaveBalanced(req, h, o); }
        else if h.s.begin.Invoking? { InvokeBalanced(req, h, o); }
        else { StayBalanced(req, h, o); }
      case StartCall => StartBalanced(req, h, o);
      case CallStep(k) => CallBalanced(req, h, k, o);
    }
  }

  predicate Drop(a: Action) {
    a == UserDrops || a == TransportDrops
  }

  lemma DropBalanced(req: Request, h: Heap, a: Action, o: Obj)
    requires Balanced(req, h) && Drop(a) && Enabled(req, h, a)
    ensures BalancedAt(req, Step(req, h, a), o)
  {
    assert BalancedAt(req, h, o);
  }

  lemma DropHeld(req: Request, h: Heap, a: Action)
    requires Held(req, h) && Drop(a) && Enabled(req, h, a)
    ensures Held(req, Step(req, h, a))
  {
    assert Step(req, h, a).s == h.s && Step(req, h, a).alive == h.alive;
  }

  lemma DropKept(req: Request, h: Heap, a: Action)
    requires Inv(req, h) && Drop(a) && Enabled(req, h, a)
    ensures Inv(req, Step(req, h, a))
  {
    DropHeld(req, h, a);
    forall o: Obj ensures BalancedAt(req, Step(req, h, a), o) {
      DropBalanced(req, h, a, o);
    }
  }

  /** An object whose count is zero is referenced by nobody, and a freed callback no longer owned the wrapper. */
  lemma FreeChangesNoState(req: Request, h: Heap, obj: Obj)
    requires HonestRequest(req) && Inv(req, h) && Enabled(req, h, Free(obj))
    ensures References(req, h, obj) == 0 && Step(req, h, Free(obj)).s == h.s
  {
    assert BalancedAt(req, h, obj);
    if obj == Callback {
      UnfinishedKeepsCallback(req, h);
      assert h.s.(wrapped := false) == h.s;
    }
  }

  lemma UnfinishedKeepsCallback(req: Request, h: Heap)
    requires HonestRequest(req) && Held(req, h) && References(req, h, Callback) == 0
    ensures !h.s.wrapped
  {
  }

  lemma FreeBalanced(req: Request, h: Heap, obj: Obj, o: Obj)
    requires Inv(req, h) && Enabled(req, h, Free(obj)) && Step(req, h, Free(obj)).s == h.s
    requires References(req, h, obj) == 0
    ensures BalancedAt(req, Step(req, h, Free(obj)), o)
  {
    assert BalancedAt(req, h, o);
    assert obj == Callback ==> !h.s.wrapped;
  }

  lemma FreeKept(req: Request, h: Heap, obj: Obj)
    requires HonestRequest(req) && Inv(req, h) && Enabled(req, h, Free(obj))
    ensures Inv(req, Step(req, h, Free(obj)))
  {
    FreeChangesNoState(req, h, obj);
    forall o: Obj ensures BalancedAt(req, Step(req, h, Free(obj)), o) {
      FreeBalanced(req, h, obj, o);
    }
    assert Held(req, Step(req, h, Free(obj)));
  }

  lemma {:induction false} RunKeeps(req: Request, backRef: bool, actions: seq<Action>)
    requires Proper(req) && HonestRequest(req) && Run(req, backRef, actions).Some?
    ensures Inv(req, Run(req, backRef, actions).value)
  {
    if actions == [] {
    } else {
      var before, last := actions[..|actions| - 1], actions[|actions| - 1];
      RunKeeps(req, backRef, before);
      var h := Run(req, backRef, before).value;
      match last
      case Protocol(step) => ProtocolKept(req, h, step);
      case Free(obj) => FreeKept(req, h, obj);
      case _ => DropKept(req, h, last);
    }
  }

  /** Along every run each count is the number of references, and nothing referenced has been freed. */
  lemma CountsAreReferences(req: Request, backRef: bool, actions: seq<Action>, h: Heap, o: Obj)
    requires Proper(req) && HonestRequest(req) && Run(req, backRef, actions) == Some(h)
    ensures h.counts.Of(o) == References(req, h, o)
    ensures References(req, h, o) > 0 ==> o in h.alive
  {
    RunKeeps(req, backRef, actions);
  }

  /** Nothing is used after it was freed: Begin finds its wrapper and callback, a running invocation finds
      its context, the callback it runs on and the wrapper that callback owns. */
  lemma UsesAreLive(req: Request, backRef: bool, actions: seq<Action>, h: Heap)
    requires Proper(req) && HonestRequest(req) && Run(req, backRef, actions) == Some(h)
    ensures h.s.begin != Returned ==> Wrapper in h.alive && Callback in h.alive
    ensures forall k :: 0 <= k < |h.s.calls| && h.s.calls[k].pc != Done ==>
      h.s.wrapped && Wrapper in h.alive && Callback in h.alive && Inner in h.alive
  {
    RunKeeps(req, backRef, actions);
    forall k | 0 <= k < |h.s.calls| && h.s.calls[k].pc != Done
      ensures h.s.wrapped && Wrapper in h.alive && Callback in h.alive && Inner in h.alive
    {
      assert !CallsDone(req, h.s);
    }
  }

  /** The same for End: until Begin has returned, and then as long as the transport holds the wrapper, the
      wrapper is alive and so is the context it keeps. */
  lemma {:induction false} EndFindsItsContext(req: Request, backRef: bool, actions: seq<Action>, h: Heap)
    requires Proper(req) && HonestRequest(req) && Run(req, backRef, actions) == Some(h)
    requires (h.s.begin != Returned || h.held)
    ensures Wrapper in h.alive
    ensures match h.s.payload.innerCtx
      case None => true
      case Some(DummyCtx) => Dummy in h.alive
      case Some(UserCtx(_)) => Inner in h.alive
  {
    RunKeeps(req, backRef, actions);
    WrapperKeepsContext(req, h);
  }

  lemma WrapperKeepsContext(req: Request, h: Heap)
    requires Balanced(req, h) && (h.s.begin != Returned || h.held)
    ensures Wrapper in h.alive
    ensures match h.s.payload.innerCtx
      case None => true
      case Some(DummyCtx) => Dummy in h.alive
      case Some(UserCtx(_)) => Inner in h.alive
  {
    assert BalancedAt(req, h, Wrapper) && BalancedAt(req, h, Inner) && BalancedAt(req, h, Dummy);
  }

  /** The cycle wrapper -> user's context -> callback -> wrapper can only be closed before the callback's
      release: no step closes it again, and once an invocation has ended it is open for good, even if
      Begin's own setting of the inner context runs later. */
  lemma CycleStaysBroken(req: Request, backRef: bool, actions: seq<Action>, h: Heap, a: Action)
    requires Proper(req) && HonestRequest(req) && Run(req, backRef, actions) == Some(h)
    ensures Complete(req, h.s) || (exists k :: 0 <= k < |h.s.calls| && h.s.calls[k].pc == Done) ==>
      !h.s.wrapped && !Cyclic(h)
    ensures !h.s.wrapped && Enabled(req, h, a) ==> !Step(req, h, a).s.wrapped
  {
    RunKeeps(req, backRef, actions);
  }

  /** While the cycle is closed nothing on it can be freed, whoever else lets go. */
  lemma CycleKeepsItself(req: Request, h: Heap)
    requires Balanced(req, h) && Cyclic(h)
    ensures !Enabled(req, h, Free(Wrapper)) && !Enabled(req, h, Free(Callback)) && !Enabled(req, h, Free(Inner))
  {
  }

  /** No leak: when the protocol is over and neither user nor transport holds anything, some live
      object can be freed until none is left. */
  lemma NothingLeaks(req: Request, backRef: bool, actions: seq<Action>, h: Heap)
    requires Proper(req) && HonestRequest(req) && Run(req, backRef, actions) == Some(h)
    requires Complete(req, h.s) && h.kept == 0 && !h.held
    ensures h.alive == {} || exists o: Obj :: Enabled(req, h, Free(o))
  {
    RunKeeps(req, backRef, actions);
    CompleteReleased(req, h);
    var o := if Wrapper in h.alive then Wrapper else if Inner in h.alive then Inner else if Dummy in h.alive then
      Dummy else Callback;
    if o in h.alive {
      assert BalancedAt(req, h, o);
      assert Enabled(req, h, Free(o));
    } else {
      forall x: Obj ensures x !in h.alive {
        match x
        case Wrapper => case Callback => case Inner => case Dummy =>
      }
    }
  }

  lemma CompleteReleased(req: Request, h: Heap)
    requires Proper(req) && HonestRequest(req) && Held(req, h) && Complete(req, h.s)
    ensures !h.s.wrapped
  {
  }

  /** The user and the transport can always let go once the protocol is over. */
  lemma EveryoneLetsGo(req: Request, backRef: bool, actions: seq<Action>, h: Heap)
    requires Proper(req) && HonestRequest(req) && Run(req, backRef, actions) == Some(h) && Complete(req, h.s)
    ensures h.kept > 0 ==> Enabled(req, h, UserDrops)
    ensures h.held ==> Enabled(req, h, TransportDrops)
  {
    RunKeeps(req, backRef, actions);
    if h.s.calls != [] {
      assert Fired(h.s.calls) == Fired(h.s.calls[..|h.s.calls| - 1]) + 1;
    }
  }

  /** The protocol is over, and neither user nor transport holds anything. */
  ghost predicate AtRest(req: Request, backRef: bool, actions: seq<Action>, h: Heap) {
    Run(req, backRef, actions) == Some(h) && Complete(req, h.s) && h.kept == 0 && !h.held
  }

  /** Some object can be freed, if any is left, and the run goes on from there. */
  lemma {:induction false} OneFree(req: Request, backRef: bool, actions: seq<Action>, h: Heap)
    returns (o: Obj, h': Heap)
    requires Proper(req) && HonestRequest(req) && AtRest(req, backRef, actions, h) && h.alive != {}
    ensures AtRest(req, backRef, actions + [Free(o)], h') && h'.alive == h.alive - {o} && o in h.alive
  {
    NothingLeaks(req, backRef, actions, h);
    o :| Enabled(req, h, Free(o));
    RunKeeps(req, backRef, actions);
    FreeChangesNoState(req, h, o);
    assert (actions + [Free(o)])[..|actions|] == actions;
    h' := Step(req, h, Free(o));
  }

  lemma FirstFree(req: Request, backRef: bool, actions: seq<Action>, a: Action, more: seq<Action>)
    ensures Run(req, backRef, actions + ([a] + more)) == Run(req, backRef, actions + [a] + more)
  {
    assert actions + ([a] + more) == actions + [a] + more;
  }

  /** From such a state freeing what can be freed, step after step, frees everything. */
  lemma {:induction false} EverythingIsFreed(req: Request, backRef: bool, actions: seq<Action>, h: Heap)
    returns (frees: seq<Action>, h': Heap)
    requires Proper(req) && HonestRequest(req) && AtRest(req, backRef, actions, h)
    ensures forall a :: a in frees ==> a.Free?
    ensures Run(req, backRef, actions + frees) == Some(h') && h'.alive == {}
    decreases |h.alive|
  {
    if h.alive == {} {
      frees, h' := [], h;
      assert actions + [] == actions;
    } else {
      var o, h1 := OneFree(req, backRef, actions, h);
      var more;
      more, h' := EverythingIsFreed(req, backRef, actions + [Free(o)], h1);
      frees := [Free(o)] + more;
      FirstFree(req, backRef, actions, Free(o), more);
    }
  }
}
