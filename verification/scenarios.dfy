/** Concrete walks through the scan form, from the freshly rendered page. */
module ScanScenarios {
  import opened Results
  import opened ScanTemplates
  import opened ScanForm

  /** The gate is closed on a fresh form and opens after a target and the legal tick. */
  lemma TargetAndLegalOpenGate()
    ensures !CanSubmit(Initial())
    ensures CanSubmit(ToggleLegal(SetTarget(Initial(), "example.com")))
  {
  }

  /** A fast scan on example.com is sent with the fast template. */
  lemma FastScanIsSent(timestamp: string)
    ensures var s := ToggleLegal(SelectMode(SetTarget(Initial(), "example.com"), Fast));
      var r := Submit(s, timestamp);
      && r.Ok?
      && r.value.request.mode == Fast
      && r.value.request.target == "example.com"
      && r.value.request.template.Some?
      && r.value.request.template.value.name == "Fast Scan Template"
      && r.value.route == DashboardRoute
  {
  }

  /** With an empty target the start request is refused even after the legal tick. */
  lemma EmptyTargetIsRefused(timestamp: string)
    ensures var r := Submit(ToggleLegal(Initial()), timestamp);
      r.Err? && r.error.message == MissingPreconditionMessage
  {
  }

  /** The gate ignores the mode: with no mode chosen the request goes out without a template. */
  lemma UnsetModeIsSent(timestamp: string)
    ensures var r := Submit(ToggleLegal(SetTarget(Initial(), "example.com")), timestamp);
      r.Ok? && r.value.request.mode == Unset && r.value.request.template == None
  {
  }

  /** The gate does not trim: a target of one space passes. */
  lemma BlankTargetIsSent(timestamp: string)
    ensures Submit(ToggleLegal(SetTarget(Initial(), " ")), timestamp).Ok?
  {
  }

  /** With the panel open, the max-duration handler performs no numeric check: the text it receives is sent as is. */
  lemma NonNumericDurationIsSent(timestamp: string)
    ensures var r := Submit(ToggleLegal(SetMaxDuration(ToggleAdvanced(SetTarget(Initial(), "example.com")), "soon")), timestamp);
      r.Ok? && r.value.request.maxDuration == "soon"
  {
  }
}
