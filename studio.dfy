/**
 * The automation studio's editor state: the configuration being edited,
 * whether it has unsaved changes, whether a save is in flight, the status
 * message and the validation issues of the last save. Each edit replaces the
 * configuration by one of the transforms of module Editor and marks the
 * state dirty; a save replaces it by the server's copy or leaves it alone.
 */
module Studio {
  import opened Wrappers
  import opened Types
  import opened Editor

  /** One validation issue: the dotted path of the offending field and its message. */
  datatype FieldError = FieldError(field: string, message: string)

  /** How a save ends. */
  datatype SaveOutcome =
    | Saved(next: AgentConfig)
      // the server answered OK with the stored configuration
    | Rejected(serverMessage: Option<string>)
      // the server answered with an error status; its JSON body may carry a message
    | Threw(message: Option<string>, issues: seq<FieldError>)
      // something threw: the schema check, the network or reading the body;
      // message is present when the thrown value is an Error, issues when it lists validation errors

  const SavedStatus: string := "Configuration saved"
  const SaveFailedStatus: string := "Failed to save configuration"

  class AutomationStudio {
    var config: AgentConfig
    var saving: bool
    var errors: seq<FieldError>
    var dirty: bool
    var status: Option<string>
    /** The configuration last known to be stored on the server. */
    ghost var stored: AgentConfig

    /** A clean state shows the configuration stored on the server. */
    ghost predicate Valid()
      reads this
    {
      !dirty ==> config == stored
    }

    constructor (initialConfig: AgentConfig)
      ensures Valid()
      ensures config == initialConfig && stored == initialConfig
      ensures !dirty && !saving && status == None && errors == []
    {
      config := initialConfig;
      saving := false;
      errors := [];
      dirty := false;
      status := None;
      stored := initialConfig;
    }

    /** The number of active rules shown in the rules header. */
    function ActiveRuleCount(): (n: nat)
      reads this
      ensures n <= |config.rules|
    {
      ActiveCount(config.rules)
    }

    /**
     * The footer text; with no status message it says "All changes saved"
     * only when nothing is unsaved, and then, in a valid state, the
     * configuration shown is the one stored on the server.
     */
    function Label(): (text: string)
      reads this
      ensures text != ""
      ensures status.None? || status == Some("") ==> (text == "All changes saved" <==> !dirty)
      ensures Valid() && (status.None? || status == Some("")) && text == "All changes saved" ==> config == stored
    {
      StatusLabel(status, dirty)
    }

    /** handleChange: merges a partial configuration. */
    method HandleChange(partial: ConfigPatch)
      requires Valid()
      modifies this
      ensures Valid()
      ensures config == MergeConfig(old(config), partial) && dirty
      ensures saving == old(saving) && errors == old(errors) && status == old(status) && stored == old(stored)
    {
      config := MergeConfig(config, partial);
      dirty := true;
    }

    /** updateRule: merges a partial rule into every rule carrying `id`. */
    method UpdateRule(id: string, partial: RulePatch)
      requires Valid()
      modifies this
      ensures Valid()
      ensures config == old(config).(rules := UpdateRules(old(config).rules, id, partial)) && dirty
      ensures saving == old(saving) && errors == old(errors) && status == old(status) && stored == old(stored)
    {
      config := config.(rules := UpdateRules(config.rules, id, partial));
      dirty := true;
    }

    /** removeRule: drops every rule carrying `id`. */
    method RemoveRule(id: string)
      requires Valid()
      modifies this
      ensures Valid()
      ensures config == old(config).(rules := RemoveRules(old(config).rules, id)) && dirty
      ensures saving == old(saving) && errors == old(errors) && status == old(status) && stored == old(stored)
    {
      config := config.(rules := RemoveRules(config.rules, id));
      dirty := true;
    }

    /** addRule: appends the default new rule under the freshly generated id `newId`. */
    method AddRule(newId: string)
      requires Valid()
      modifies this
      ensures Valid()
      ensures config == old(config).(rules := old(config).rules + [EmptyRule(newId)]) && dirty
      ensures saving == old(saving) && errors == old(errors) && status == old(status) && stored == old(stored)
    {
      config := config.(rules := config.rules + [EmptyRule(newId)]);
      dirty := true;
    }

    /**
     * The synchronous start of persist: a save is in flight and the issues
     * of the previous save are cleared. Edits may still happen while the
     * request is pending.
     */
    method BeginPersist()
      requires Valid()
      modifies this
      ensures Valid() && saving && errors == []
      ensures config == old(config) && dirty == old(dirty) && status == old(status) && stored == old(stored)
    {
      saving := true;
      errors := [];
    }

    /**
     * The end of persist, once the request has settled: on success the
     * server's configuration replaces the edited one (edits made meanwhile
     * included) and the state is clean; on failure the edits stay and the
     * failure is reported. The save is over in every case.
     */
    method CompletePersist(outcome: SaveOutcome)
      requires Valid() && saving
      modifies this
      ensures Valid() && !saving
      ensures outcome.Saved? ==>
                config == outcome.next && stored == outcome.next && !dirty &&
                status == Some(SavedStatus) && errors == old(errors)
      ensures outcome.Rejected? ==>
                config == old(config) && dirty == old(dirty) && stored == old(stored) &&
                status == Some(outcome.serverMessage.GetOr(SaveFailedStatus)) && errors == []
      ensures outcome.Threw? ==>
                config == old(config) && dirty == old(dirty) && stored == old(stored) &&
                status == (if outcome.message.Some? then outcome.message else old(status)) &&
                errors == outcome.issues
    {
      match outcome {
        case Saved(next) =>
          config := next;
          stored := next;
          dirty := false;
          status := Some(SavedStatus);
        case Rejected(serverMessage) =>
          status := Some(serverMessage.GetOr(SaveFailedStatus));
          errors := [];
        case Threw(message, issues) =>
          if message.Some? {
            status := message;
          }
          errors := issues;
      }
      saving := false;
    }

    /** persist with no edit while the request is pending. */
    method Persist(outcome: SaveOutcome)
      requires Valid()
      modifies this
      ensures Valid() && !saving
      ensures outcome.Saved? ==>
                config == outcome.next && stored == outcome.next && !dirty &&
                status == Some(SavedStatus) && errors == []
      ensures outcome.Rejected? ==>
                config == old(config) && dirty == old(dirty) && stored == old(stored) &&
                status == Some(outcome.serverMessage.GetOr(SaveFailedStatus)) && errors == []
      ensures outcome.Threw? ==>
                config == old(config) && dirty == old(dirty) && stored == old(stored) &&
                status == (if outcome.message.Some? then outcome.message else old(status)) &&
                errors == outcome.issues
    {
      BeginPersist();
      CompletePersist(outcome);
    }
  }
}
