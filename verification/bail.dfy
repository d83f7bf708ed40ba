/**
 * How `bootstrap` reads the data of the final run event: a `PREFLIGHT`
 * bail is the hand-off, anything else is an operation failure.
 */
module Bail {
  import opened JsValues
  import opened Outcomes

  const Preflight := "PREFLIGHT"

  /** The `ERR_INTERNAL_ERROR('Expected PREFLIGHT bail')` object that stands
      in for a missing bail. Its stack trace is produced by the runtime and
      is opaque here. */
  function InternalErrorBail(stack: string): Value {
    Obj(map[
      "code" := Str("ERR_INTERNAL_ERROR"),
      "message" := Str("Expected PREFLIGHT bail"),
      "stack" := Str(stack)])
  }

  /** `result?.bail ?? ERR_INTERNAL_ERROR(...)` */
  function BailOf(result: Value, internalStack: string): Value {
    Coalesce(Get(result, "bail"), InternalErrorBail(internalStack))
  }

  /** Success exactly when the bail's code is the string `PREFLIGHT`;
      otherwise the failure carries the bail's stack, else its message,
      else its code, together with its `info`. */
  function InterpretResult(result: Value, internalStack: string): (r: Result<()>)
    ensures r.Ok? <==> Get(Get(result, "bail"), "code") == Str(Preflight)
    ensures r.Err? ==> r.error.OperationFailed?
    ensures var bail := Get(result, "bail");
      r.Err? && !Nullish(bail) ==>
        && r.error.info == Get(bail, "info")
        && (!Nullish(Get(bail, "stack")) ==> r.error.detail == Get(bail, "stack"))
        && (Nullish(Get(bail, "stack")) && !Nullish(Get(bail, "message")) ==>
              r.error.detail == Get(bail, "message"))
        && (Nullish(Get(bail, "stack")) && Nullish(Get(bail, "message")) ==>
              r.error.detail == Get(bail, "code"))
    ensures Nullish(Get(result, "bail")) ==>
      r == Err(OperationFailed(Str(internalStack), Undefined))
  {
    var bail := BailOf(result, internalStack);
    if Get(bail, "code") == Str(Preflight) then Ok(())
    else
      var detail := Coalesce(Get(bail, "stack"), Coalesce(Get(bail, "message"), Get(bail, "code")));
      Err(OperationFailed(detail, Get(bail, "info")))
  }

  /** Without a result, or with a result lacking a bail, the launch fails. */
  lemma MissingBailFails(result: Value, internalStack: string)
    requires Nullish(result) || Nullish(Get(result, "bail"))
    ensures InterpretResult(result, internalStack).Err?
  {
  }

  /** The bail of the failing-server test: its message is what is reported. */
  lemma ConnectionBailReportsMessage(internalStack: string)
    ensures var bail := Obj(map["code" := Str("ERR_CONNECTION"), "message" := Str("fail")]);
      InterpretResult(Obj(map["bail" := bail]), internalStack)
        == Err(OperationFailed(Str("fail"), Undefined))
  {
    var bail := Obj(map["code" := Str("ERR_CONNECTION"), "message" := Str("fail")]);
    assert Get(bail, "code") != Str(Preflight) by {
      assert Get(bail, "code") == Str("ERR_CONNECTION");
      assert "ERR_CONNECTION"[0] != Preflight[0];
    }
  }
}
