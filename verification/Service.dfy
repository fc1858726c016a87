/** How the worker loop executes one record on the property and answers it, in place
    (src/runtime/runtime.rs). */
module Services {
  import opened Operations
  import P = Protocol
  import opened Locals

  /** The property, and the response slot of the channel being served. */
  class Service<T, R> {
    var prop: T
    var data: Reply<T, R>
    var resp: P.Word

    constructor (value: T)
      ensures prop == value && data == Nothing && resp == P.Word(false, 0)
    {
      prop, data, resp := value, Nothing, P.Word(false, 0);
    }

    /** Execute the record and store the response word, unless a fiber is to do that or the
        worker is to stop. What comes out is what the local trust does with the request:
        the same new value and the same reply behind the flag word. */
    method Serve(req: Request<T, R>, reqReady: bool) returns (answered: bool)
      modifies this
      ensures answered == !(req.Launch? || req.Terminate?)
      ensures req.CallMutRetUnit? ==> prop == Iterate(req.f, req.repeat, old(prop)) && data == old(data)
      ensures req.CallMutOutPtr? ==> data.Result? && (prop, data.r) == req.g(old(prop))
      ensures req.CallMutArgsOutPtr? ==> data.Result? && (prop, data.r) == req.h(old(prop), req.args)
      ensures req.IntoInner? ==> prop == old(prop) && data == Inner(old(prop))
      ensures req.Launch? || req.Terminate? ==> prop == old(prop) && data == old(data)
      ensures answered ==> prop == Fold(old(prop), Executions(req))
      ensures resp == if answered then P.Word(reqReady, 1) else old(resp)
    {
      FoldOnce(prop, req);
      match req {
        case CallMutRetUnit(f, repeat) =>
          FoldIsIterate<T, R>(prop, f, repeat);
          for done := 0 to repeat
            invariant prop == Iterate(f, done, old(prop)) && data == old(data)
          {
            prop := f(prop);
          }
        case CallMutOutPtr(g) =>
          var out := g(prop);
          prop, data := out.0, Result(out.1);
        case CallMutArgsOutPtr(h, args) =>
          var out := h(prop, args);
          prop, data := out.0, Result(out.1);
        case IntoInner =>
          data := Inner(prop);
        case Launch(_) =>
          return false;
        case Terminate =>
          return false;
      }
      resp := P.Word(reqReady, 1);
      answered := true;
    }
  }
}
