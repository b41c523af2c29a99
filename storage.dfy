/** Browser storage as the model sees it: one slot per key. */
module Storage {

  /** What a storage key holds: nothing (or the empty string), text that is not valid JSON, or a stored value. */
  datatype Slot<T> = Absent | Unparsable | Stored(value: T)

  /** Reading a list back: the stored list, or [] when the key is missing or its text does not parse. */
  function Read<T>(slot: Slot<seq<T>>): seq<T> {
    if slot.Stored? then slot.value else []
  }
}
