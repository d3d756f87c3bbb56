/**
 * `ApiResponse` (src/ApiResponse.js): the conventional success response.
 * The constructor fixes `success` from the status code once and stores
 * `data` only when a non-null payload was given; `ToJSON` builds the
 * serialisable object from the fields without changing them.
 */
module Responses {
  import opened Wrappers
  import opened Js

  class ApiResponse {
    var statusCode: int
    var message: string
    var success: bool
    /** The own property `data`; `None` when the instance has no such property. */
    var data: Option<Value>

    /** What every instance satisfies after construction. */
    ghost predicate Valid()
      reads this
    {
      && success == (statusCode < 400)
      && (data.Some? ==> data.value != Null && data.value != Undefined)
    }

    /**
     * `new ApiResponse(statusCode, message, data)`. An omitted `data` is
     * passed as `Undefined`, which the default parameter turns into `null`.
     */
    constructor (statusCode: int, message: string, data: Value)
      ensures Valid()
      ensures this.statusCode == statusCode && this.message == message
      ensures success <==> statusCode < 400
      ensures this.data == if data == Undefined || data == Null then None else Some(data)
    {
      var payload := if data == Undefined then Null else data;
      this.statusCode := statusCode;
      this.message := message;
      this.success := statusCode < 400;
      if payload != Null {
        this.data := Some(payload);
      } else {
        this.data := None;
      }
    }

    /** `toJSON()`: a fresh object with the fields, `data` last and only when defined. */
    function ToJSON(): (json: Value)
      reads this
      requires Valid()
      ensures json.Obj? && DistinctKeys(json.props)
      ensures Keys(json.props) == ["statusCode", "message", "success"] + (if data.Some? then ["data"] else [])
      ensures Get(json.props, "statusCode") == Num(statusCode)
      ensures Get(json.props, "message") == Str(message)
      ensures Get(json.props, "success") == Bool(statusCode < 400)
      ensures Has(json.props, "data") <==> data.Some?
      ensures data.Some? ==> Get(json.props, "data") == data.value
    {
      var base := [Prop("statusCode", Num(statusCode)), Prop("message", Str(message)), Prop("success", Bool(success))];
      var current := if data.Some? then data.value else Undefined;
      assert Keys(base) == ["statusCode", "message", "success"];
      GetAt(base, 0); GetAt(base, 1); GetAt(base, 2);
      PutKeys(base, "data", current);
      PutDistinct(base, "data", current);
      PutGet(base, "data", current, "statusCode");
      PutGet(base, "data", current, "message");
      PutGet(base, "data", current, "success");
      PutGet(base, "data", current, "data");
      Obj(if current != Undefined then Put(base, "data", current) else base)
    }
  }

  /** Two serialisations: a 200 with a payload and a 201 without one. */
  method SerialisationExamples() returns (ok: Value, created: Value)
    ensures ok == Obj([Prop("statusCode", Num(200)), Prop("message", Str("OK")),
                       Prop("success", Bool(true)), Prop("data", Obj([Prop("id", Num(1))]))])
    ensures created == Obj([Prop("statusCode", Num(201)), Prop("message", Str("Created")),
                            Prop("success", Bool(true))])
    ensures !Has(created.props, "data")
  {
    var payload := Obj([Prop("id", Num(1))]);
    var withData := new ApiResponse(200, "OK", payload);
    var base := [Prop("statusCode", Num(200)), Prop("message", Str("OK")), Prop("success", Bool(true))];
    assert Keys(base) == ["statusCode", "message", "success"];
    PutAppends(base, "data", payload);
    ok := withData.ToJSON();
    assert ok == Obj(Put(base, "data", payload));
    var withoutData := new ApiResponse(201, "Created", Undefined);
    created := withoutData.ToJSON();
  }
}
