/**
 * The persistence capability the game writes through: one process-wide key-value store
 * (the app's standard user defaults). Only what the game stores in it is modelled.
 */
module Defaults {
  import opened Collections

  /** A stored blob, abstracted to what a JSON decoder can make of it. */
  datatype Data =
    | NoBytes                    // the empty default blob
    | IntArray(elems: seq<int>)  // the JSON text of an array of integers
    | Unreadable                 // anything the decoder rejects

  /** The kinds of value the game keeps under a key. */
  datatype Value =
    | IntValue(n: int)
    | StringArray(strings: seq<string>)
    | DataValue(data: Data)

  /** `integer(forKey:)`: the stored integer, or 0 when the key is absent or holds something else. */
  function IntegerIn(entries: map<string, Value>, key: string): (n: int)
    ensures key !in entries ==> n == 0
  {
    if key in entries && entries[key].IntValue? then entries[key].n else 0
  }

  /** `stringArray(forKey:)`: the stored array of strings, if the key holds one. */
  function StringArrayIn(entries: map<string, Value>, key: string): (r: Option<seq<string>>)
    ensures key !in entries ==> r == None
  {
    if key in entries && entries[key].StringArray? then Some(entries[key].strings) else None
  }

  /** The blob stored under a key, if the key holds one. */
  function DataIn(entries: map<string, Value>, key: string): (r: Option<Data>)
    ensures key !in entries ==> r == None
  {
    if key in entries && entries[key].DataValue? then Some(entries[key].data) else None
  }

  class UserDefaults {
    var entries: map<string, Value>

    constructor (entries: map<string, Value>)
      ensures this.entries == entries
    {
      this.entries := entries;
    }

    /** `set(_:forKey:)` */
    method Set(key: string, value: Value)
      modifies this
      ensures entries == old(entries)[key := value]
    {
      entries := entries[key := value];
    }

    /** `removeObject(forKey:)` */
    method RemoveObject(key: string)
      modifies this
      ensures entries == old(entries) - {key}
    {
      entries := entries - {key};
    }
  }
}
