/** The settings form of `src/components/Settings.js`. */
module SettingsPage {
  import opened Base
  import opened SettingsApi

  /** The form the load puts in place for fetched settings: an empty
      frequency becomes "monthly", every other field is taken as it is. */
  function LoadedForm(data: Settings): (f: Settings)
    ensures f.reportFrequency != ""
    ensures f.includeCharts == data.includeCharts
  {
    data.(reportFrequency := OrElse(data.reportFrequency, "monthly"),
          reportEmail := OrElse(data.reportEmail, ""),
          senderEmail := OrElse(data.senderEmail, ""),
          senderName := OrElse(data.senderName, ""),
          replyToEmail := OrElse(data.replyToEmail, ""))
  }

  /** Loading changes fetched settings only where their frequency is empty,
      and loading twice is loading once. */
  lemma LoadedFormKeepsSettings(data: Settings)
    ensures data.reportFrequency != "" ==> LoadedForm(data) == data
    ensures data.reportFrequency == "" ==> LoadedForm(data) == data.(reportFrequency := "monthly")
    ensures LoadedForm(LoadedForm(data)) == LoadedForm(data)
  {
  }

  class SettingsForm {
    var form: Settings
    var loading: bool
    var saving: bool
    var message: string
    var error: string

    constructor()
      ensures form == DefaultSettings && loading && !saving && message == "" && error == ""
    {
      form := DefaultSettings;
      loading := true;
      saving := false;
      message := "";
      error := "";
    }

    /** The load effect up to `readSettings()`; returns whether it fetches. */
    method BeginLoad(signedIn: bool) returns (fetch: bool)
      modifies this
      ensures fetch == signedIn && loading == signedIn
      ensures form == old(form) && saving == old(saving) && message == old(message) && error == old(error)
    {
      fetch := signedIn;
      loading := signedIn;
    }

    /** The rest of the load once `readSettings()` has returned (`Ok(None)`
        for a falsy value) or thrown. */
    method EndLoad(reply: Result<Option<Settings>, string>)
      modifies this
      ensures !loading && saving == old(saving) && message == old(message)
      ensures reply.Ok? && reply.value.Some? ==> form == LoadedForm(reply.value.value)
      ensures reply.Ok? && reply.value.None? ==> form == old(form)
      ensures reply.Ok? ==> error == old(error)
      ensures reply.Err? ==> form == old(form) && error == "Failed to load settings. Please try again."
    {
      if reply.Ok? {
        if reply.value.Some? {
          form := LoadedForm(reply.value.value);
        }
      } else {
        error := "Failed to load settings. Please try again.";
      }
      loading := false;
    }

    /** `saveSettings()` up to `updateSettings(...)`; returns the patch it
        sends, or `None` when there is no user or a save is in flight. */
    method BeginSave(signedIn: bool) returns (sent: Option<Patch>)
      modifies this
      ensures form == old(form) && loading == old(loading)
      ensures !signedIn || old(saving) ==> sent == None && unchanged(this)
      ensures signedIn && !old(saving) ==>
        sent == Some(FullPatch(form)) && saving && message == "" && error == ""
    {
      if !signedIn || saving {
        return None;
      }
      saving := true;
      message := "";
      error := "";
      sent := Some(FullPatch(form));
    }

    /** The rest of `saveSettings()` once the update has answered. */
    method EndSave(reply: Outcome)
      modifies this
      ensures !saving && form == old(form) && loading == old(loading)
      ensures reply.Success? ==> message == "Settings saved successfully!" && error == old(error)
      ensures reply.Failure? ==>
        error == OrElse(reply.message, "Error saving settings. Please try again.") && message == old(message)
    {
      if reply.Success? {
        message := "Settings saved successfully!";
      } else {
        error := OrElse(reply.message, "Error saving settings. Please try again.");
      }
      saving := false;
    }
  }

  /** A second click while a save is in flight sends nothing and changes nothing. */
  method DoubleClick(page: SettingsForm) returns (first: Option<Patch>, second: Option<Patch>)
    requires !page.saving
    modifies page
    ensures first == Some(FullPatch(page.form)) && second == None
    ensures page.saving
  {
    first := page.BeginSave(true);
    second := page.BeginSave(true);
  }

  /** A form saved and loaded again comes back as it was, provided its
      frequency is not empty. */
  method SaveThenReload(page: SettingsForm, table: SettingsTable, user: string, id: string)
    requires id in table.rows && page.form.reportFrequency != "" && !page.saving
    modifies page, table
    ensures page.form == old(page.form)
  {
    var patch := page.BeginSave(true);
    var outcome := table.UpdateSettings(Some(user), Ok(id), patch.value, None);
    page.EndSave(outcome);
    var fetch := page.BeginLoad(true);
    SavedSettingsReadBack(old(table.rows)[id], old(page.form));
    var read := table.ReadSettings(Some(user), Ok(id), None, None);
    LoadedFormKeepsSettings(read.value);
    page.EndLoad(Ok(Some(read.value)));
  }
}
