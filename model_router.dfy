/** `ModelRouter`: routes a request to the handler registered for a model
    type. Handlers are opaque; what `handler.process(request)` does is the
    `process` parameter, which either returns a value or raises. */
module Models {
  import opened Wrappers
  import opened Dicts
  import opened PyValues

  /** An opaque handler object. */
  type HandlerId = nat

  /** `handler.process(request)`: a returned value, or the text of what it raised. */
  type Process = (HandlerId, Value) -> Result<Value, string>

  class ModelRouter {
    /** Model type to handler; `None` is a slot with no handler yet. */
    var availableModels: Dict<string, Option<HandlerId>>

    constructor ()
      ensures availableModels == [("llm", None), ("vision", None)]
    {
      availableModels := [("llm", None), ("vision", None)];
    }

    /** `route_request`: Python's `None` is `Null` here. Unknown types, empty
        slots and handlers that raise all give `Null`; otherwise the result
        is exactly what the handler returned. */
    function RouteRequest(modelType: string, request: Value, process: Process): (r: Value)
      reads this
      ensures Get(availableModels, modelType).None? ==> r == Null
      ensures Get(availableModels, modelType) == Some(None) ==> r == Null
      ensures forall h :: Get(availableModels, modelType) == Some(Some(h)) ==>
                r == (if process(h, request).Ok? then process(h, request).value else Null)
    {
      match Get(availableModels, modelType)
      case None => Null
      case Some(slot) =>
        match slot
        case None => Null
        case Some(h) =>
          match process(h, request)
          case Ok(v) => v
          case Err(_) => Null
    }

    /** `register_model`: bind (or rebind) the type; other types keep their handlers. */
    method RegisterModel(modelType: string, handler: Option<HandlerId>)
      modifies this
      ensures availableModels == Put(old(availableModels), modelType, handler)
      ensures Get(availableModels, modelType) == Some(handler)
      ensures forall other :: other != modelType ==>
                Get(availableModels, other) == Get(old(availableModels), other)
    {
      ghost var before := availableModels;
      availableModels := Put(availableModels, modelType, handler);
      PutGet(before, modelType, handler, modelType);
      forall other | other != modelType
        ensures Get(availableModels, other) == Get(before, other)
      {
        PutGet(before, modelType, handler, other);
      }
    }
  }

  /** A router fresh from its constructor answers `Null` for every request:
      both slots are empty and every other type is unknown. */
  lemma FreshRouterAnswersNull(router: ModelRouter, modelType: string, request: Value, process: Process)
    requires router.availableModels == [("llm", None), ("vision", None)]
    ensures router.RouteRequest(modelType, request, process) == Null
  {
    var m := router.availableModels;
    if modelType == "llm" {
      assert Get(m, modelType) == Some(None);
    } else if modelType == "vision" {
      assert Get(m[1..], modelType) == Some(None);
    } else {
      assert Get(m[1..][1..], modelType) == None;
    }
  }

}
