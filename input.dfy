/** Server input normalisation (src/input.ts): the input is merged over the
    defaults, a comma-separated `actors` string becomes a list, and the
    Actor list must not be empty. */
module InputProcessing {
  import opened Wrappers
  import opened JsValues
  import opened Strings
  import opened Constants

  const ActorsParameterMessage: string := "The `actors` parameter must be a non-empty array."

  /** `{ ...defaults, ...originalInput }`: supplied properties win. */
  function Merge(original: map<string, Json>): (input: map<string, Json>)
    ensures forall k :: k in input <==> k in original || k in Defaults()
    ensures forall k :: k in original ==> input[k] == original[k]
    ensures forall k :: k !in original && k in Defaults() ==> input[k] == Defaults()[k]
  {
    Defaults() + original
  }

  /** The list an `actors` string becomes: split at ',' and each piece trimmed. */
  function ActorList(s: string): (v: Json)
    ensures v.JArr? && |v.items| == Count(s, ',') + 1
  {
    SplitCount(s, ',');
    StringArray(TrimAll(Split(s, ',')))
  }

  /** `processInput`. */
  function ProcessInput(original: map<string, Json>): (r: Result<map<string, Json>>)
    // it fails exactly when the merged `actors` is missing, falsy or of length 0
    ensures r.Err? <==> !FieldTruthy(Merge(original), "actors") || LengthIsZero(Merge(original)["actors"])
    ensures r.Err? ==> r.error == ActorsParameterMessage
    // every other property is the supplied one, or else the default
    ensures r.Ok? ==> forall k :: k != "actors" ==>
      ((k in r.value <==> k in Merge(original)) && (k in r.value ==> r.value[k] == Merge(original)[k]))
    ensures r.Ok? ==> "actors" in r.value && Truthy(r.value["actors"]) && !LengthIsZero(r.value["actors"])
    // an absent `actors` gives the three default Actors
    ensures "actors" !in original ==> r == Ok(Merge(original)) && r.value["actors"] == StringArray(DefaultActors)
    // a non-empty string is split and trimmed, one entry per comma plus one
    ensures "actors" in original && original["actors"].JStr? && original["actors"].s != "" ==>
      r == Ok(Merge(original)["actors" := ActorList(original["actors"].s)])
    // a non-empty array is kept as it is
    ensures "actors" in original && original["actors"].JArr? && original["actors"].items != [] ==>
      r == Ok(Merge(original))
    ensures "actors" in original && original["actors"] in {JStr(""), JArr([])} ==> r == Err(ActorsParameterMessage)
  {
    var input := Merge(original);
    var input' :=
      if FieldTruthy(input, "actors") && input["actors"].JStr?
      then input["actors" := ActorList(input["actors"].s)]
      else input;
    if !FieldTruthy(input', "actors") || LengthIsZero(input'["actors"]) then Err(ActorsParameterMessage)
    else Ok(input')
  }
}
