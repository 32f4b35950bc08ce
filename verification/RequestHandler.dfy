/** The v1 handler's code, run by one thread at a time: each statement that touches the shared payload
    is one step of the protocol, and the asserts in it are proved never to fail. */
module RequestHandlers {
  import opened Options
  import opened Statuses
  import opened BeginEnd

  class Session {
    const req: Request
    var endOp: Option<nat>
    var beginStatus: Status
    var innerCtx: Option<Ctx>
    var wrapped: bool
    var fires: nat

    ghost var begin: BeginPc
    ghost var calls: seq<Call>
    ghost var steps: seq<Step>

    ghost function Payload(): Payload
      reads this
    {
      BeginEnd.Payload(endOp, beginStatus, innerCtx)
    }

    ghost function View(): State
      reads this
    {
      State(begin, calls, Payload(), wrapped, fires, true)
    }

    /** What the code did so far is a run of the protocol in which no assert failed. */
    ghost predicate Valid()
      reads this
    {
      Proper(req) && HonestRequest(req) && Run(req, steps) == Some(View())
    }

    constructor (req: Request)
      requires Proper(req) && HonestRequest(req)
      ensures Valid() && this.req == req && steps == [] && begin == Routing
    {
      this.req := req;
      endOp, beginStatus, innerCtx, wrapped, fires := None, SUCCESS, None, true, 0;
      begin, calls, steps := Routing, [], [];
    }

    method SetInnerCtx(ctx: Ctx)
      requires Payload().MaySet(ctx)
      modifies this`innerCtx
      ensures Payload() == old(Payload()).SetInnerCtx(ctx)
    {
      if innerCtx == None {
        innerCtx := Some(ctx);
      } else {
        assert innerCtx == Some(ctx);
      }
    }

    /** The step is next, and none of its asserts fails. */
    lemma Allowed(step: Step)
      requires Valid() && Enabled(req, View(), step)
      ensures Run(req, steps + [step]) == Some(Next(req, View(), step)) && Next(req, View(), step).sound
    {
      RunExtend(req, steps, View(), step);
      RunSafe(req, steps + [step]);
    }

    /** The user calls the callback once more. */
    ghost method StartInvocation()
      requires Valid() && req.Routed? && begin != Routing && |calls| < |req.user.calls|
      modifies this`calls, this`steps
      ensures Valid() && calls == old(calls) + [Call(req.user.calls[|old(calls)|], SetCtx)]
    {
      Allowed(StartCall);
      calls, steps := calls + [Call(req.user.calls[|calls|], SetCtx)], steps + [StartCall];
    }

    /** The callback's Invoke, for the user's latest call, up to and including the transport's callback. */
    method SetAndFire()
      requires Valid() && calls != [] && calls[|calls| - 1].pc == SetCtx
      modifies this`innerCtx, this`fires, this`calls, this`steps
      ensures Valid() && fires == old(fires) + 1
      ensures calls == old(calls)[|old(calls)| - 1 := Call(old(calls)[|old(calls)| - 1].ctx, Release)]
    {
      ghost var k := |calls| - 1;
      ghost var given := calls[k].ctx;
      RunSafe(req, steps);
      var ctx := req.user.calls[0];
      assert ctx == given;

      Allowed(CallStep(k));
      assert wrapped;
      SetInnerCtx(ctx);
      calls, steps := calls[k := Call(ctx, Fire)], steps + [CallStep(k)];

      Allowed(CallStep(k));
      assert wrapped;
      fires := fires + 1;
      calls, steps := calls[k := Call(ctx, Release)], steps + [CallStep(k)];
    }

    method ReleaseWrapper()
      requires Valid() && calls != [] && calls[|calls| - 1].pc == Release
      modifies this`wrapped, this`calls, this`steps
      ensures Valid() && !wrapped
      ensures calls == old(calls)[|old(calls)| - 1 := Call(old(calls)[|old(calls)| - 1].ctx, Done)]
    {
      ghost var k := |calls| - 1;
      Allowed(CallStep(k));
      wrapped := false;
      calls, steps := calls[k := Call(calls[k].ctx, Done)], steps + [CallStep(k)];
    }

    /** One whole invocation by the user. */
    method UserInvokes()
      requires Valid() && req.Routed? && begin != Routing && |calls| < |req.user.calls|
      modifies this`innerCtx, this`wrapped, this`fires, this`calls, this`steps
      ensures Valid() && |calls| == old(|calls|) + 1 && fires == old(fires) + 1 && !wrapped
    {
      StartInvocation();
      SetAndFire();
      ReleaseWrapper();
    }

    /** Begin failed on its own: store the status, then invoke the callback with a dummy context. */
    method FailAndInvoke(status: Status)
      requires Valid() && begin == Failing(status)
      modifies this`beginStatus, this`innerCtx, this`wrapped, this`fires, this`begin, this`steps
      ensures Valid() && begin == Returned && fires == old(fires) + 1
    {
      Allowed(BeginStep);
      beginStatus := status;
      begin, steps := Invoking(SetCtx), steps + [BeginStep];
      DummyInvokes();
    }

    method DummyInvokes()
      requires Valid() && begin == Invoking(SetCtx)
      modifies this`innerCtx, this`wrapped, this`fires, this`begin, this`steps
      ensures Valid() && begin == Returned && fires == old(fires) + 1
    {
      Allowed(BeginStep);
      assert wrapped;
      SetInnerCtx(DummyCtx);
      begin, steps := Invoking(Fire), steps + [BeginStep];

      Allowed(BeginStep);
      assert wrapped;
      fires := fires + 1;
      begin, steps := Invoking(Release), steps + [BeginStep];

      Allowed(BeginStep);
      wrapped := false;
      begin, steps := Returned, steps + [BeginStep];
    }

    /** Begin succeeded: store the user's context too. */
    method StoreUserCtx(ctx: Ctx)
      requires Valid() && begin == Succeeding(ctx)
      modifies this`innerCtx, this`begin, this`steps
      ensures Valid() && begin == Returned
    {
      Allowed(BeginStep);
      SetInnerCtx(ctx);
      begin, steps := Returned, steps + [BeginStep];
    }

    /** Begin, with the given number of the user's invocations happening inside the user's begin. */
    method BeginProcessRequest(inside: nat)
      requires Valid() && steps == [] && begin == Routing
      requires inside <= if req.Routed? then |req.user.calls| else 0
      modifies this
      ensures Valid() && begin == Returned && |calls| == inside
      ensures fires == if BeginFails(req) then 1 else inside
    {
      Allowed(BeginStep);
      if req.Rejected? {
        begin, steps := Failing(req.status), steps + [BeginStep];
        FailAndInvoke(req.status);
      } else {
        endOp := Some(req.endOp);
        begin, steps := InUserBegin, steps + [BeginStep];
        if inside == 1 {
          UserInvokes();
        }
        Allowed(BeginStep);
        match req.user.result {
          case BeginFailed(status) =>
            begin, steps := Failing(status), steps + [BeginStep];
            FailAndInvoke(status);
          case Started(ctx) =>
            begin, steps := Succeeding(ctx), steps + [BeginStep];
            StoreUserCtx(ctx);
        }
      }
    }

    /** End, called by the transport once its callback has fired. */
    method EndProcessRequest() returns (view: EndView)
      requires Valid() && fires > 0
      ensures view == Expected(req)
    {
      RaceSafe(req, steps, View());
      if beginStatus.Failed() {
        view := SendError(beginStatus);
      } else {
        assert endOp.Some? && innerCtx.Some?;
        view := RunEnd(endOp.value, innerCtx.value);
      }
    }
  }
}
