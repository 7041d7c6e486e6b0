/** The NVS "settings" namespace (ESP32 Preferences) as far as the firmware
    uses it: integers under string keys, read with a default. */
module Store {

  class Preferences {
    var ints: map<string, int>

    /** prefs.begin("settings"): the namespace as the flash holds it. */
    constructor(stored: map<string, int>)
      ensures ints == stored
    {
      ints := stored;
    }

    /** getInt(key, default): the stored value, or the default when the key
        was never written. */
    function GetInt(key: string, default: int): int
      reads this
    {
      if key in ints then ints[key] else default
    }

    /** putInt(key, v): store `v` under `key`; every other key keeps its
        value. */
    method PutInt(key: string, v: int)
      modifies this
      ensures ints == old(ints)[key := v]
      ensures GetInt(key, 0) == v
    {
      ints := ints[key := v];
    }
  }
}
