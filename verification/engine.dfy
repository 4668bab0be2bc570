/** How the scanner configures the Nuclei engine. The engine itself is a
    collaborator: it receives a request and either returns an error or
    completes, having invoked the findings callback once per event. */
module EngineConfig {
  import opened ScanResults

  /** The `lib.NucleiSDKOptions` the scanner passes. */
  datatype SdkOption =
    | DisableUpdateCheck
    | TemplatesOrWorkflows(templates: seq<string>)
    | TemplateFilters(severity: string, protocolTypes: string)

  /** What the engine is asked to do. `Synchronous` is `lib.NewNucleiEngine`
      with `LoadTargets(targets, probeHttp)`, an optional `LoadAllTemplates`
      and `ExecuteWithCallback`; `Cancellable` is
      `lib.NewThreadSafeNucleiEngineCtx` run by `ExecuteNucleiWithOptsCtx`
      with the same options. */
  datatype EngineRequest =
    | Synchronous(options: seq<SdkOption>, targets: seq<string>, probeHttp: bool, loadsAllTemplates: bool)
    | Cancellable(options: seq<SdkOption>, targets: seq<string>)

  /** The engine's answer: the error one of its steps returned (building
      it, loading templates, or executing, where cancellation of a cancellable
      run surfaces), or the events it delivered to the callback in delivery
      order. */
  datatype EngineOutcome =
    | Failed(cause: string)
    | Completed(events: seq<Finding>)

  predicate UpdateCheckDisabled(options: seq<SdkOption>)
  {
    DisableUpdateCheck in options
  }

  /** Every template option names exactly `templates`, and there is one. */
  predicate SelectsTemplates(options: seq<SdkOption>, templates: seq<string>)
  {
    && TemplatesOrWorkflows(templates) in options
    && forall o :: o in options && o.TemplatesOrWorkflows? ==> o.templates == templates
  }

  predicate HasTemplateFilter(options: seq<SdkOption>)
  {
    exists o :: o in options && o.TemplateFilters?
  }

  /** The options of `Scan` and `ThreadSafeScan`: update check off, the
      resolved templates, and a severity/protocol filter exactly when either
      filter string is non-empty. */
  function ScanOptions(templates: seq<string>, severity: string, protocols: string): (options: seq<SdkOption>)
    ensures UpdateCheckDisabled(options)
    ensures SelectsTemplates(options, templates)
    ensures HasTemplateFilter(options) <==> severity != "" || protocols != ""
    ensures forall o :: o in options && o.TemplateFilters? ==> o == TemplateFilters(severity, protocols)
  {
    var base := [DisableUpdateCheck, TemplatesOrWorkflows(templates)];
    if severity != "" || protocols != "" then
      var options := base + [TemplateFilters(severity, protocols)];
      assert options[2].TemplateFilters?;
      options
    else base
  }

  /** The options of `BasicScan`: the one basic template, update check off,
      never a filter. */
  function BasicOptions(templatePath: string): (options: seq<SdkOption>)
    ensures UpdateCheckDisabled(options)
    ensures SelectsTemplates(options, [templatePath])
    ensures !HasTemplateFilter(options)
  {
    [TemplatesOrWorkflows([templatePath]), DisableUpdateCheck]
  }
}
