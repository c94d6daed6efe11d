/** `setDefault`: a parameter, or a default when the parameter is undefined. */
module SetDefaults {
  import opened Js

  /** `setDefault(param, defaultValue)`. Only `=== undefined` is tested, so
      null, 0, "" and false are kept. The result is undefined only when the
      default is undefined too. */
  function SetDefault(param: JsValue, defaultValue: JsValue): (r: JsValue)
    ensures r == param || r == defaultValue
    ensures r.Undefined? <==> param.Undefined? && defaultValue.Undefined?
    ensures !param.Undefined? ==> r == param
  {
    if param.Undefined? then defaultValue else param
  }

  /** An undefined parameter gives the default. */
  lemma UndefinedTakesDefault(defaultValue: JsValue)
    ensures SetDefault(Undefined, defaultValue) == defaultValue
  {
  }

  /** A defined parameter is returned as it is, whatever the default; this
      includes the falsy values null, 0, "" and false. */
  lemma DefinedParamWins(param: JsValue, d1: JsValue, d2: JsValue)
    requires !param.Undefined?
    ensures SetDefault(param, d1) == param
    ensures SetDefault(param, d1) == SetDefault(param, d2)
  {
  }

  /** Defaulting twice is defaulting once, except when the parameter and the
      first default are both undefined: then the second default is taken. */
  lemma SetDefaultIdempotent(param: JsValue, d1: JsValue, d2: JsValue)
    ensures SetDefault(SetDefault(param, d1), d2)
         == if param.Undefined? && d1.Undefined? then d2 else SetDefault(param, d1)
    ensures !d1.Undefined? ==> SetDefault(SetDefault(param, d1), d2) == SetDefault(param, d1)
  {
  }
}
