/** The error classes and the API error translation used by every request
    wrapper: `apiErrorThrower` turns a failed request into a thrown error,
    `errorPopper` turns a caught error into the text of a toast. */
module Exceptions {
  import opened Js

  /** A `BaseError`: `name` is stored as given, `message` is what the
      `Error` constructor keeps (`String(message)`, or "" when undefined). */
  datatype BaseError = BaseError(name: JsValue, message: string)

  /** `new BaseError(name, message)` with arbitrary JavaScript arguments. */
  function NewBaseError(name: JsValue, message: JsValue): (e: BaseError)
    ensures e.name == name
    ensures message.Str? ==> e.message == message.s
    ensures message.Undefined? ==> e.message == ""
  {
    BaseError(name, if message.Undefined? then "" else ToText(message))
  }

  /** `new ParamError(message)`. */
  function ParamError(message: string): (e: BaseError)
    ensures e.name == Str("param_error") && e.message == message
  {
    NewBaseError(Str("param_error"), Str(message))
  }

  const NetworkErrorMessage: string :=
    "Network error occurred, please check your Internet connection or maybe there is error occurred at server side."

  /** `new NetworkError()`. */
  function NetworkError(): (e: BaseError)
    ensures e.name == Str("network_error") && e.message == NetworkErrorMessage
  {
    NewBaseError(Str("network_error"), Str(NetworkErrorMessage))
  }

  /** What `apiErrorThrower` looks at in the caught value `e`. */
  datatype Failure =
      /** `e.response` is set: the server answered outside the 2xx range.
          `text` is `String(e)`. */
    | ResponseFailure(status: nat, data: JsValue, message: JsValue, text: string)
      /** No response: only `e.message` is consulted. */
    | RequestFailure(message: JsValue)

  /** How a call of `apiErrorThrower` ends. */
  datatype Outcome =
    | Returned                    // a normal return
    | Threw(error: BaseError)     // a `BaseError` is thrown
    | Crashed(read: JsValue)      // a TypeError reading `name` of this null or undefined

  const RequestErrorPrefix: string := "Error occurred when requesting backend API. (HTTP Status Code: "
  const UnknownErrorPrefix: string := "Error occurred when requesting API: "

  /** The message of a `request_error`: it names the HTTP status and ends with `String(e)`. */
  function RequestErrorMessage(status: nat, text: string): (m: string)
    ensures RequestErrorPrefix + NatText(status) + "). \n" <= m
    ensures |m| >= |text| && m[|m| - |text|..] == text
    ensures |m| == |RequestErrorPrefix + NatText(status) + "). \n"| + |text|
  {
    RequestErrorPrefix + NatText(status) + "). \n" + text
  }

  /** A truthy `detail` without a truthy `name` or a truthy `message`. */
  predicate NonStandardDetail(detail: JsValue)
  {
    Truthy(detail) && (!Truthy(Prop(detail, "name")) || !Truthy(Prop(detail, "message")))
  }

  /** `apiErrorThrower(e)`, with `stringify` standing for `JSON.stringify`.
      Every path throws; the only throw that is not a `BaseError` is the
      TypeError when the response data has no usable `detail`. */
  function ApiErrorThrower(e: Failure, stringify: JsValue -> string): (r: Outcome)
    ensures !r.Returned?
    ensures r.Crashed? <==> e.ResponseFailure? && Truthy(e.data) && Nullish(Prop(e.data, "detail"))
  {
    match e
    case ResponseFailure(status, data, _, text) =>
      if !Truthy(data) then
        Threw(NewBaseError(Str("request_error"), Str(RequestErrorMessage(status, text))))
      else
        var detail := Prop(data, "detail");
        if NonStandardDetail(detail) then
          Threw(NewBaseError(Str("backend_error"), Str(stringify(detail))))
        else if Nullish(detail) then
          Crashed(detail)
        else
          Threw(NewBaseError(Prop(detail, "name"), Prop(detail, "message")))
    case RequestFailure(message) =>
      if message == Str("Network Error") then
        Threw(NetworkError())
      else
        Threw(NewBaseError(Str("unknown_error"), Str(UnknownErrorPrefix + ToText(message))))
  }

  /** A response without data gives a `request_error` naming the status. */
  lemma ResponseWithoutData(status: nat, data: JsValue, message: JsValue, text: string,
                            stringify: JsValue -> string)
    requires !Truthy(data)
    ensures ApiErrorThrower(ResponseFailure(status, data, message, text), stringify)
         == Threw(BaseError(Str("request_error"), RequestErrorMessage(status, text)))
  {
  }

  /** A `detail` missing a usable name or message gives a `backend_error`
      whose message is the serialised detail. */
  lemma NonStandardDetailIsBackendError(e: Failure, stringify: JsValue -> string)
    requires e.ResponseFailure? && Truthy(e.data) && NonStandardDetail(Prop(e.data, "detail"))
    ensures ApiErrorThrower(e, stringify)
         == Threw(BaseError(Str("backend_error"), stringify(Prop(e.data, "detail"))))
  {
  }

  /** A `detail` with a string name and a string message is passed through verbatim. */
  lemma StandardDetailPassesThrough(e: Failure, stringify: JsValue -> string, name: string, message: string)
    requires e.ResponseFailure? && Truthy(e.data)
    requires Prop(Prop(e.data, "detail"), "name") == Str(name) && name != ""
    requires Prop(Prop(e.data, "detail"), "message") == Str(message) && message != ""
    ensures ApiErrorThrower(e, stringify) == Threw(BaseError(Str(name), message))
  {
  }

  /** When a response is present, `e.message` plays no part: a response
      failure never becomes a `NetworkError` because of its message. */
  lemma ResponseWins(status: nat, data: JsValue, m1: JsValue, m2: JsValue, text: string,
                     stringify: JsValue -> string)
    ensures ApiErrorThrower(ResponseFailure(status, data, m1, text), stringify)
         == ApiErrorThrower(ResponseFailure(status, data, m2, text), stringify)
  {
  }

  /** Without a response, exactly the message "Network Error" gives a `NetworkError`;
      every other message gives an `unknown_error` quoting it. */
  lemma NoResponseClassification(message: JsValue, stringify: JsValue -> string)
    ensures message == Str("Network Error") ==>
              ApiErrorThrower(RequestFailure(message), stringify) == Threw(NetworkError())
    ensures message != Str("Network Error") ==>
              ApiErrorThrower(RequestFailure(message), stringify)
              == Threw(BaseError(Str("unknown_error"), UnknownErrorPrefix + ToText(message)))
  {
  }

  /** The `name` and `message` properties of a caught error, as `errorPopper` reads them. */
  datatype Caught = Caught(name: JsValue, message: JsValue)

  function AsCaught(e: BaseError): Caught
  {
    Caught(e.name, Str(e.message))
  }

  /** The content of the error toast: "message (name)" when both are defined,
      otherwise the message alone. */
  function ErrorPopper(e: Caught): (r: JsValue)
    ensures e.name.Undefined? || e.message.Undefined? ==> r == e.message
    ensures !e.name.Undefined? && !e.message.Undefined? ==>
              r.Str? && ToText(e.message) <= r.s
              && r.s[|ToText(e.message)|..] == " (" + ToText(e.name) + ")"
  {
    if !e.name.Undefined? && !e.message.Undefined? then
      Str(ToText(e.message) + " (" + ToText(e.name) + ")")
    else
      e.message
  }

  /** A falsy `detail` that is not null or undefined (false, 0 or "") reaches
      the pass-through and yields a `BaseError` with an undefined name. */
  predicate FalsyDetail(e: Failure)
  {
    e.ResponseFailure? && Truthy(e.data)
    && !Truthy(Prop(e.data, "detail")) && !Nullish(Prop(e.data, "detail"))
  }

  /** Every `BaseError` apiErrorThrower throws shows as "message (name)" in the
      toast, except when the detail is falsy but present: then the name is
      undefined and the toast shows only the (empty) message. */
  lemma PoppedThrownError(e: Failure, stringify: JsValue -> string)
    requires ApiErrorThrower(e, stringify).Threw?
    ensures var err := ApiErrorThrower(e, stringify).error;
            if FalsyDetail(e) then
              err == BaseError(Undefined, "") && ErrorPopper(AsCaught(err)) == Str("")
            else
              !err.name.Undefined? &&
              ErrorPopper(AsCaught(err)) == Str(err.message + " (" + ToText(err.name) + ")")
  {
  }

  /** An error whose name is undefined is shown by its message alone. */
  lemma PopperWithoutName(message: JsValue)
    ensures ErrorPopper(Caught(Undefined, message)) == message
  {
  }
}
