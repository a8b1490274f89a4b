/**
 * `Extensions.GetValueOrDefault`: look a key up in a read-only dictionary and
 * fall back to the value type's default when the key is absent.
 */
module Extensions {
  import opened Outcomes

  /**
   * `dictionary` is `None` for a null reference. Dafny has no `default(TValue)`,
   * so the caller passes the default value of the value type (for the counter
   * tuples of the review builder: all counters zero).
   */
  function GetValueOrDefault<K, V>(dictionary: Option<map<K, V>>, key: K, defaultValue: V): (r: Result<V, Fault>)
    ensures dictionary.None? <==> r.Failure?
    ensures dictionary.None? ==> r.error == ArgumentNull("dictionary")
    ensures dictionary.Some? && key in dictionary.value ==> r.value == dictionary.value[key]
    ensures dictionary.Some? && key !in dictionary.value ==> r.value == defaultValue
  {
    match dictionary
    case None => Failure(ArgumentNull("dictionary"))
    case Some(d) => if key in d then Success(d[key]) else Success(defaultValue)
  }
}
