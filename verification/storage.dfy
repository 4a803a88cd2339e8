/**
  The browser's `localStorage` as the two session contexts share it. Values are typed:
  the token is text and the active profile is a profile record (its JSON serialisation is
  not modelled).
*/
module Storage {
  import opened Entities

  datatype Stored = Text(text: string) | ProfileJson(profile: Profile)

  /** The key the auth context keeps its token under. */
  const TokenKey: string := "token"

  /** The key the profile context keeps the active profile under. */
  const ProfileKey: string := "profile"

  /** Only the auth context writes the token key and only the profile context the profile key. */
  predicate WellFormed(entries: map<string, Stored>) {
    && (TokenKey in entries ==> entries[TokenKey].Text?)
    && (ProfileKey in entries ==> entries[ProfileKey].ProfileJson?)
  }

  class LocalStorage {
    var entries: map<string, Stored>

    constructor (initial: map<string, Stored>)
      ensures entries == initial
    {
      entries := initial;
    }

    /** `localStorage.setItem(key, value)`. */
    method SetItem(key: string, value: Stored)
      modifies this
      ensures entries == old(entries)[key := value]
    {
      entries := entries[key := value];
    }

    /** `localStorage.removeItem(key)`. */
    method RemoveItem(key: string)
      modifies this
      ensures entries == old(entries) - {key}
    {
      entries := entries - {key};
    }
  }
}
