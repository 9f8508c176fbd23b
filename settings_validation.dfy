/**
 * The settings screen's field validators (settings.js:12-14, 89-103): a
 * failing field joins the `settingsState.invalid` set and disables Save;
 * a field that passes again leaves it, and Save comes back once the set is
 * empty.
 */
module SettingsValidation {
  type FieldId = string

  class SettingsValidator {
    /** `settingsState.invalid`. */
    var invalid: set<FieldId>
    /** The fields carrying the 'error' attribute. */
    var errored: set<FieldId>
    var saveDisabled: bool

    /** The invalid set is exactly the errored fields, and Save is disabled while any remain. */
    predicate Valid()
      reads this
    {
      invalid == errored && (invalid != {} ==> saveDisabled)
    }

    constructor ()
      ensures Valid() && invalid == {} && !saveDisabled
    {
      invalid, errored, saveDisabled := {}, {}, false;
    }

    /**
     * A keyup in field `id`; `passes` is what the field's ConfigManager
     * validator says about its value.
     */
    method OnKeyup(id: FieldId, passes: bool)
      requires Valid()
      modifies this
      ensures Valid()
      ensures !passes ==> invalid == old(invalid) + {id} && saveDisabled
      ensures passes ==> invalid == old(invalid) - {id}
      ensures passes && id !in old(errored) ==> saveDisabled == old(saveDisabled)
      // Save is re-enabled only by the keyup that empties the set
      ensures !saveDisabled && old(saveDisabled) ==> passes && id in old(invalid) && invalid == {}
      ensures passes && id in old(invalid) && invalid == {} ==> !saveDisabled
    {
      if !passes {
        invalid := invalid + {id};
        errored := errored + {id};
        saveDisabled := true;
      } else {
        if id in errored {
          errored := errored - {id};
          invalid := invalid - {id};
          if invalid == {} {
            saveDisabled := false;
          }
        }
      }
    }
  }
}
