/** Preferences.jsx: the list of scheduling preferences and its `handleSubmit`. */
module Preferences {
  import opened Wrappers
  import opened Text

  class PreferenceList {
    var preferences: seq<string>
    /** The text field's value. */
    var newPreference: string

    constructor ()
      ensures preferences == [] && newPreference == ""
    {
      preferences := [];
      newPreference := "";
    }

    /** The input's `onChange`. */
    method SetInput(text: string)
      modifies this
      ensures newPreference == text && preferences == old(preferences)
    {
      newPreference := text;
    }

    /**
     * `handleSubmit`. A blank entry changes nothing and posts nothing.
     * Otherwise the untrimmed entry is appended to the list, posted to the
     * backend (returned here), and the input is cleared; `saved` is whether the
     * POST succeeded, and a failure neither rolls back the entry nor keeps the
     * input.
     */
    method Submit(saved: bool) returns (posted: Option<string>)
      modifies this
      ensures Trim(old(newPreference)) == "" ==>
        posted == None && preferences == old(preferences) && newPreference == old(newPreference)
      ensures Trim(old(newPreference)) != "" ==>
        && posted == Some(old(newPreference))
        && preferences == old(preferences) + [old(newPreference)]
        && newPreference == ""
    {
      if Trim(newPreference) == "" {
        return None;
      }
      preferences := preferences + [newPreference];
      posted := Some(newPreference);
      // Whatever `saved` is, the error is only logged and the list keeps the new entry.
      newPreference := "";
    }
  }
}
