/**
 * The OS keyring under the service "vaultpad" (src-tauri/src/keychain.rs),
 * as a map from entry name to secret. Removing an absent entry is silent.
 */
module Keyring {
  import opened Wrappers

  class Keychain {
    var entries: map<string, string>

    constructor (initial: map<string, string>)
      ensures entries == initial
    {
      entries := initial;
    }

    function Get(key: string): Option<string>
      reads this
    {
      if key in entries then Some(entries[key]) else None
    }

    method Save(key: string, value: string)
      modifies this
      ensures entries == old(entries)[key := value]
    {
      entries := entries[key := value];
    }

    method Remove(key: string)
      modifies this
      ensures entries == old(entries) - {key}
    {
      entries := entries - {key};
    }
  }
}
