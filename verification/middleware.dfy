/**
 * The stage contract. A stage receives the current request, the current
 * response and a continuation `next`. It may hand a (possibly rewritten) pair
 * on to `next` and return what `next` gave, hand it on and return nothing,
 * return a response of its own without calling `next`, or raise. A stage that
 * returns nothing leaves the response it was given as the result of its step.
 */
module Middleware {
  import opened Wrappers
  import opened Http

  /** A callable of (request, response); `None` stands for a falsy return value. */
  type Continuation = (Request, Response) -> Result<Option<Response>, Error>

  /** How a stage rewrites the pair before handing it on. */
  type Edit = (Request, Response) -> (Request, Response)

  /** The behaviours a stage can have. */
  datatype Stage =
      /** hands the rewritten pair to `next` and returns what `next` returns */
    | Delegate(edit: Edit)
      /** hands the rewritten pair to `next` and returns nothing */
    | DelegateAndDrop(edit: Edit)
      /** returns what `reply` makes of the pair without calling `next`; `None` returns nothing */
    | Answer(reply: (Request, Response) -> Option<Response>)
      /** throws what `raise` makes of the pair, without calling `next` */
    | Raise(raise: (Request, Response) -> Error)

  /** Whether the stage calls `next`. */
  predicate Forwards(stage: Stage) {
    stage.Delegate? || stage.DelegateAndDrop?
  }

  /** The rewrite a forwarding stage applies; the identity for the others. */
  function EditOf(stage: Stage): Edit {
    if Forwards(stage) then stage.edit else (q: Request, p: Response) => (q, p)
  }

  /** A step that always yields a response, seen as a callable that may return nothing. */
  function Lift(r: Result<Response, Error>): Result<Option<Response>, Error> {
    match r
    case Success(x) => Success(Some(x))
    case Failure(e) => Failure(e)
  }

  /** What the stage's `__invoke` hands back: a response, nothing, or an exception. */
  function Returns(stage: Stage, req: Request, resp: Response, next: Continuation): Result<Option<Response>, Error> {
    match stage
    case Delegate(edit) =>
      var (q, p) := edit(req, resp);
      next(q, p)
    case DelegateAndDrop(edit) =>
      var (q, p) := edit(req, resp);
      var down := next(q, p);
      if down.Failure? then Failure(down.error) else Success(None)
    case Answer(reply) => Success(reply(req, resp))
    case Raise(raise) => Failure(raise(req, resp))
  }

  /** A step that returned nothing (a false value) yields the response it was given. */
  function Settle(returned: Result<Option<Response>, Error>, resp: Response): Result<Response, Error> {
    match returned
    case Success(Some(x)) => Success(x)
    case Success(None) => Success(resp)
    case Failure(e) => Failure(e)
  }

  /**
   * One step of a pipeline: call the stage with `next`, then settle. The
   * result rules of the contract, stage kind by stage kind.
   */
  function Frame(stage: Stage, req: Request, resp: Response, next: Continuation): (r: Result<Response, Error>)
    // returning nothing: the response the stage was given is the result
    ensures stage.Answer? && stage.reply(req, resp).None? ==> r == Success(resp)
    // returning a response: that response is the result, and `next` is never consulted
    ensures stage.Answer? && stage.reply(req, resp).Some? ==> r == Success(stage.reply(req, resp).value)
    // returning `next`'s result: whatever the rest of the pipeline produced, or the response this stage was given if it produced nothing
    ensures stage.Delegate? ==>
              var (q, p) := stage.edit(req, resp);
              r == (match next(q, p)
                    case Success(Some(x)) => Success(x)
                    case Success(None) => Success(resp)
                    case Failure(e) => Failure(e))
    // calling `next` and returning nothing: downstream's response is thrown away, its exception is not
    ensures stage.DelegateAndDrop? ==>
              var (q, p) := stage.edit(req, resp);
              r == if next(q, p).Failure? then Failure(next(q, p).error) else Success(resp)
    ensures stage.Raise? ==> r == Failure(stage.raise(req, resp))
  {
    Settle(Returns(stage, req, resp, next), resp)
  }

  /** A stage that does not forward gives the same result whatever `next` would do. */
  lemma NextUnusedWithoutForwarding(stage: Stage, req: Request, resp: Response, next: Continuation, other: Continuation)
    requires !Forwards(stage)
    ensures Frame(stage, req, resp, next) == Frame(stage, req, resp, other)
  {
  }

  /**
   * A stage that calls `next` and returns nothing gives the same result for any
   * downstream that succeeds: what downstream produced is invisible to the caller.
   */
  lemma DroppedDownstreamInvisible(edit: Edit, req: Request, resp: Response, next: Continuation, other: Continuation)
    requires next(edit(req, resp).0, edit(req, resp).1).Success?
    requires other(edit(req, resp).0, edit(req, resp).1).Success?
    ensures Frame(DelegateAndDrop(edit), req, resp, next) == Frame(DelegateAndDrop(edit), req, resp, other) == Success(resp)
  {
  }
}
