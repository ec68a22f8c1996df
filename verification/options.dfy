/** The shallow option merge of src/mapsheet.js (`merge_options`), used to lay
    caller overrides over each provider's defaults and, in the Leaflet provider,
    a row's icon URL over the configured marker options. */
module Options {

  /** A JavaScript option value as the providers' defaults use them. */
  datatype OptionValue =
    | Text(text: string)
    | Number(number: real)
    | Flag(flag: bool)
    | Place(lat: real, lng: real)
    | Node(element: string)

  type Options = map<string, OptionValue>

  /** Copies every key of `first`, then every key of `second`: the result has
      exactly the keys of both, and on a shared key the second argument wins.
      Neither argument is changed (they are values). */
  function MergeOptions<K, V>(first: map<K, V>, second: map<K, V>): (r: map<K, V>)
    ensures r.Keys == first.Keys + second.Keys
    ensures forall k :: k in second ==> r[k] == second[k]
    ensures forall k :: k in first && k !in second ==> r[k] == first[k]
  {
    first + second
  }

  /** Laying the same overrides twice is the same as laying them once. */
  lemma MergeOptionsIdempotent<K, V>(first: map<K, V>, second: map<K, V>)
    ensures MergeOptions(MergeOptions(first, second), second) == MergeOptions(first, second)
  {
  }
}
