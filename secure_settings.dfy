/**
 * The secure settings table the color-correction screen reads and writes:
 * one map from setting names to Java ints. Content-resolver I/O and user ids
 * are not part of the model.
 */
module SecureSettings {
  import opened JavaTypes

  /** Settings.getInt: the stored value, or the caller's default when the key is absent. */
  function GetInt(table: map<string, JavaInt>, key: string, default: JavaInt): (v: JavaInt)
    ensures key in table ==> v == table[key]
    ensures key !in table ==> v == default
  {
    if key in table then table[key] else default
  }

  class SettingsStore {
    var table: map<string, JavaInt>

    constructor (initial: map<string, JavaInt>)
      ensures table == initial
    {
      table := initial;
    }

    /** Settings.putInt: the key now maps to the value, every other key is kept. */
    method PutInt(key: string, value: JavaInt)
      modifies this
      ensures table == old(table)[key := value]
    {
      table := table[key := value];
    }
  }
}
