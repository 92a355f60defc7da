/**
  The parsed JSON body of a server reply: a flat object from key to a tagged
  value, with fields looked up by exact key. cJSON's lookup ignores the case
  of keys and takes the first of repeated keys; neither is modelled here. The
  parser itself is not modelled; a reply whose body does not parse carries no
  object at all.
*/
module Json {
  /** The kinds of value the controller distinguishes (cJSON_IsBool, cJSON_IsNumber,
      cJSON_IsString); everything else (null, arrays, nested objects) is Other. A
      number is modelled by the integer cJSON hands out as `valueint`. */
  datatype JsonValue = JBool(b: bool) | JNumber(n: int) | JString(s: string) | JOther

  type JsonObject = map<string, JsonValue>

  /** The field is present and is the boolean `true`. */
  predicate IsTrue(obj: JsonObject, key: string) {
    key in obj && obj[key] == JBool(true)
  }

  /** The field's value when it is present and a boolean, `default` otherwise. */
  function BoolOr(obj: JsonObject, key: string, default: bool): bool
  {
    if key in obj && obj[key].JBool? then obj[key].b else default
  }

  /** The field's value when it is present and a number, `default` otherwise. */
  function NumberOr(obj: JsonObject, key: string, default: int): int
  {
    if key in obj && obj[key].JNumber? then obj[key].n else default
  }

  /** The field's value when it is present and a string, `default` otherwise. */
  function StringOr(obj: JsonObject, key: string, default: string): string
  {
    if key in obj && obj[key].JString? then obj[key].s else default
  }

  /** A boolean field read into a flag that starts false is true only for a literal `true`. */
  lemma BoolOrFalseIsTrue(obj: JsonObject, key: string)
    ensures BoolOr(obj, key, false) <==> IsTrue(obj, key)
  {
  }
}
