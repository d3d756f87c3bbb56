/**
 * `ApiError` (src/ApiError.js): the conventional structured error. The
 * constructor applies the defaults, fixes `success` at false and keeps a
 * supplied stack or else the one the runtime captures; `ToJSON` exposes
 * the stack only outside production.
 */
module Errors {
  import opened Wrappers
  import opened Js

  /** The message used when the caller supplies none. */
  const DefaultMessage: string := "Something went wrong"

  class ApiError {
    var statusCode: int
    var message: string
    var errors: seq<Value>
    var success: bool
    var stack: string

    /** What every instance satisfies after construction. */
    ghost predicate Valid()
      reads this
    {
      !success
    }

    /**
     * `new ApiError(statusCode, message, errors, stack)`. `None` stands for an
     * omitted argument; `capturedTrace` is the trace the runtime would
     * capture at this call site, an opaque string here.
     */
    constructor (statusCode: int, message: Option<string>, errors: Option<seq<Value>>,
                 stack: Option<string>, capturedTrace: string)
      ensures Valid()
      ensures this.statusCode == statusCode
      ensures this.message == if message.Some? then message.value else DefaultMessage
      ensures this.errors == if errors.Some? then errors.value else []
      ensures stack.Some? && stack.value != "" ==> this.stack == stack.value
      ensures stack.None? || stack.value == "" ==> this.stack == capturedTrace
    {
      var msg := if message.Some? then message.value else DefaultMessage;
      var errs := if errors.Some? then errors.value else [];
      var trace := if stack.Some? then stack.value else "";
      this.statusCode := statusCode;
      this.message := msg;
      this.errors := errs;
      this.success := false;
      if Truthy(Str(trace)) {
        this.stack := trace;
      } else {
        this.stack := capturedTrace;
      }
    }

    /** `toJSON()` with `process.env.NODE_ENV === "production"` passed as `isProduction`. */
    function ToJSON(isProduction: bool): (json: Value)
      reads this
      ensures json.Obj? && DistinctKeys(json.props)
      ensures Keys(json.props) == ["statusCode", "message", "errors", "success"] + (if isProduction then [] else ["stack"])
      ensures Get(json.props, "statusCode") == Num(statusCode)
      ensures Get(json.props, "message") == Str(message)
      ensures Get(json.props, "errors") == Arr(errors)
      ensures Get(json.props, "success") == Bool(false)
      ensures Has(json.props, "stack") <==> !isProduction
      ensures !isProduction ==> Get(json.props, "stack") == Str(stack)
    {
      var base := [Prop("statusCode", Num(statusCode)), Prop("message", Str(message)),
                   Prop("errors", Arr(errors)), Prop("success", Bool(false))];
      assert Keys(base) == ["statusCode", "message", "errors", "success"];
      GetAt(base, 0); GetAt(base, 1); GetAt(base, 2); GetAt(base, 3);
      GetAbsent(base, "stack");
      PutKeys(base, "stack", Str(stack));
      PutDistinct(base, "stack", Str(stack));
      PutGet(base, "stack", Str(stack), "statusCode");
      PutGet(base, "stack", Str(stack), "message");
      PutGet(base, "stack", Str(stack), "errors");
      PutGet(base, "stack", Str(stack), "success");
      PutGet(base, "stack", Str(stack), "stack");
      Obj(if !isProduction then Put(base, "stack", Str(stack)) else base)
    }

    /**
     * The instance as a thrown error is seen by a `catch` block: its message,
     * its stack and its own properties. The constructor assigns `statusCode`
     * but never `status`, so `err.status` reads `undefined`.
     */
    function AsErrorObject(): (err: ErrorObject)
      reads this
      ensures err.message == message && err.stack == Str(stack)
      ensures Get(err.props, "statusCode") == Num(statusCode)
      ensures !Has(err.props, "status")
    {
      var props := [Prop("statusCode", Num(statusCode)), Prop("errors", Arr(errors)), Prop("success", Bool(success))];
      assert Keys(props) == ["statusCode", "errors", "success"];
      GetAbsent(props, "status");
      ErrorObject(message, Str(stack), props)
    }
  }
}
