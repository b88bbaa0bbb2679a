/**
 The scan-configuration form of the landing page: its state, the mutators
 bound to its inputs, the start-scan gate and the payload it builds.
 */
module ScanForm {
  import opened Results
  import opened ScanTemplates

  /** Everything the form holds between user events. */
  datatype FormState = FormState(
    target: string,
    mode: Mode,
    showAdvanced: bool,
    customFlags: string,
    excludePaths: string,
    maxDuration: string,
    legalAccepted: bool,
    selectedTemplate: Option<Template>)

  /** Names of the form's fields, for "nothing else changes" statements. */
  datatype Field =
    | TargetField | ModeField | ShowAdvancedField | CustomFlagsField
    | ExcludePathsField | MaxDurationField | LegalField | TemplateField

  /** `a` and `b` agree on every field outside `changed`. */
  predicate AgreeExcept(a: FormState, b: FormState, changed: set<Field>)
  {
    && (TargetField !in changed ==> a.target == b.target)
    && (ModeField !in changed ==> a.mode == b.mode)
    && (ShowAdvancedField !in changed ==> a.showAdvanced == b.showAdvanced)
    && (CustomFlagsField !in changed ==> a.customFlags == b.customFlags)
    && (ExcludePathsField !in changed ==> a.excludePaths == b.excludePaths)
    && (MaxDurationField !in changed ==> a.maxDuration == b.maxDuration)
    && (LegalField !in changed ==> a.legalAccepted == b.legalAccepted)
    && (TemplateField !in changed ==> a.selectedTemplate == b.selectedTemplate)
  }

  /** The three advanced-option values are the same in `a` and `b`. */
  predicate SameAdvanced(a: FormState, b: FormState)
  {
    a.customFlags == b.customFlags && a.excludePaths == b.excludePaths && a.maxDuration == b.maxDuration
  }

  /** The form invariant: the shown template is exactly the one the mode selects. */
  predicate Consistent(s: FormState)
  {
    s.selectedTemplate == TemplateOf(s.mode)
  }

  /** The start-scan button is disabled, and a start request is refused (one formula for both). */
  predicate StartDisabled(s: FormState)
  {
    !s.legalAccepted || s.target == ""
  }

  /** Submission is possible: legal terms accepted and a non-empty target; the mode is not consulted. */
  predicate CanSubmit(s: FormState)
  {
    s.legalAccepted && |s.target| > 0
  }

  /** The form as the page first renders it. */
  function Initial(): (s: FormState)
    ensures s.target == "" && s.mode == Unset && !s.showAdvanced && !s.legalAccepted
    ensures s.customFlags == "" && s.excludePaths == "" && s.maxDuration == ""
    ensures s.selectedTemplate == None
    ensures Consistent(s) && !CanSubmit(s) && StartDisabled(s)
  {
    FormState("", Unset, false, "", "", "", false, None)
  }

  /** The target input's change handler: the typed text is stored as is. */
  function SetTarget(s: FormState, value: string): (r: FormState)
    ensures r.target == value && AgreeExcept(s, r, {TargetField})
    ensures Consistent(r) <==> Consistent(s)
    ensures CanSubmit(r) <==> s.legalAccepted && value != ""
  {
    s.(target := value)
  }

  /** A mode button: stores the mode and installs its template, replacing any earlier one. */
  function SelectMode(s: FormState, m: ChosenMode): (r: FormState)
    ensures r.mode == m && Consistent(r)
    ensures AgreeExcept(s, r, {ModeField, TemplateField})
    ensures CanSubmit(r) <==> CanSubmit(s)
  {
    s.(mode := m, selectedTemplate := Some(TemplateForChoice(m)))
  }

  /** The "Advanced Options" button: flips panel visibility and nothing else. */
  function ToggleAdvanced(s: FormState): (r: FormState)
    ensures r.showAdvanced == !s.showAdvanced && AgreeExcept(s, r, {ShowAdvancedField})
    ensures Consistent(r) <==> Consistent(s)
    ensures CanSubmit(r) <==> CanSubmit(s)
  {
    s.(showAdvanced := !s.showAdvanced)
  }

  /** The custom-flags text area: any text is stored as is. */
  function SetCustomFlags(s: FormState, value: string): (r: FormState)
    ensures r.customFlags == value && AgreeExcept(s, r, {CustomFlagsField})
    ensures Consistent(r) <==> Consistent(s)
    ensures CanSubmit(r) <==> CanSubmit(s)
  {
    s.(customFlags := value)
  }

  /** The exclude-paths input: any text is stored as is. */
  function SetExcludePaths(s: FormState, value: string): (r: FormState)
    ensures r.excludePaths == value && AgreeExcept(s, r, {ExcludePathsField})
    ensures Consistent(r) <==> Consistent(s)
    ensures CanSubmit(r) <==> CanSubmit(s)
  {
    s.(excludePaths := value)
  }

  /** The max-duration input: the handler itself performs no numeric check; whatever text it receives is stored as is. */
  function SetMaxDuration(s: FormState, value: string): (r: FormState)
    ensures r.maxDuration == value && AgreeExcept(s, r, {MaxDurationField})
    ensures Consistent(r) <==> Consistent(s)
    ensures CanSubmit(r) <==> CanSubmit(s)
  {
    s.(maxDuration := value)
  }

  /** The legal checkbox: flips acceptance and nothing else. */
  function ToggleLegal(s: FormState): (r: FormState)
    ensures r.legalAccepted == !s.legalAccepted && AgreeExcept(s, r, {LegalField})
    ensures Consistent(r) <==> Consistent(s)
    ensures CanSubmit(r) <==> !s.legalAccepted && s.target != ""
  {
    s.(legalAccepted := !s.legalAccepted)
  }

  /** The job payload built when a scan starts. */
  datatype ScanRequest = ScanRequest(
    target: string,
    mode: Mode,
    flags: string,
    exclude: string,
    maxDuration: string,
    template: Option<Template>,
    timestamp: string)

  /** A started scan: the payload and the route the page moves to afterwards. */
  datatype Launch = Launch(request: ScanRequest, route: string)

  /** Why a start request was refused, carrying the message shown to the user. */
  datatype PreconditionError = PreconditionError(message: string)

  const DashboardRoute := "/dashboard"

  const MissingPreconditionMessage := "Please accept the legal disclaimer and enter a target first!"

  /** `req` copies the target, the mode, the three advanced values and the template of `s` verbatim, stamped with `timestamp`. */
  predicate SnapshotOf(req: ScanRequest, s: FormState, timestamp: string)
  {
    && req.target == s.target
    && req.mode == s.mode
    && req.flags == s.customFlags
    && req.exclude == s.excludePaths
    && req.maxDuration == s.maxDuration
    && req.template == s.selectedTemplate
    && req.timestamp == timestamp
  }

  /** The start-scan handler; the clock reading is passed in as `timestamp`. */
  function Submit(s: FormState, timestamp: string): (r: Result<Launch, PreconditionError>)
    ensures r.Err? <==> !CanSubmit(s)
    ensures r.Err? ==> r.error == PreconditionError(MissingPreconditionMessage)
    ensures r.Ok? ==> SnapshotOf(r.value.request, s, timestamp) && r.value.route == DashboardRoute
  {
    if StartDisabled(s) then
      Err(PreconditionError(MissingPreconditionMessage))
    else
      Ok(Launch(
        ScanRequest(s.target, s.mode, s.customFlags, s.excludePaths, s.maxDuration,
                    s.selectedTemplate, timestamp),
        DashboardRoute))
  }

  /** The disabled button and the handler's early return use the gate's formula, negated. */
  lemma DisabledIffCannotSubmit(s: FormState, timestamp: string)
    ensures StartDisabled(s) <==> !CanSubmit(s)
    ensures Submit(s, timestamp).Err? <==> StartDisabled(s)
  {
  }

  /** Every mutator keeps the form invariant. */
  lemma MutatorsPreserveConsistency(s: FormState, value: string, m: ChosenMode)
    requires Consistent(s)
    ensures Consistent(SetTarget(s, value)) && Consistent(SelectMode(s, m))
    ensures Consistent(ToggleAdvanced(s)) && Consistent(ToggleLegal(s))
    ensures Consistent(SetCustomFlags(s, value)) && Consistent(SetExcludePaths(s, value))
    ensures Consistent(SetMaxDuration(s, value))
  {
  }

  /** Choosing a mode shows the fast or deep template from the fixed table. */
  lemma SelectModeInstallsTable(s: FormState)
    ensures var t := SelectMode(s, Fast).selectedTemplate;
      && t.Some? && t.value.name == "Fast Scan Template"
      && t.value.description == "Performs quick reconnaissance, checking open ports and basic vulnerabilities."
      && t.value.tools == ["nmap", "whois", "subfinder"]
      && t.value.estimatedDuration == "15\U{2013}30 minutes"
    ensures var t := SelectMode(s, Deep).selectedTemplate;
      && t.Some? && t.value.name == "Deep Scan Template"
      && t.value.description == "Comprehensive penetration testing including exploitation simulation."
      && t.value.tools == ["nmap", "nikto", "dirsearch", "metasploit"]
      && t.value.estimatedDuration == "2\U{2013}4 hours"
  {
  }

  /** Choosing the same mode again changes nothing. */
  lemma SelectModeIdempotent(s: FormState, m: ChosenMode)
    ensures SelectMode(SelectMode(s, m), m) == SelectMode(s, m)
  {
  }

  /** A later choice replaces the earlier one entirely: no merge of templates. */
  lemma SelectModeLastWins(s: FormState, a: ChosenMode, b: ChosenMode)
    ensures SelectMode(SelectMode(s, a), b) == SelectMode(s, b)
  {
  }

  /** Showing then hiding the advanced panel restores the form, options included. */
  lemma ToggleAdvancedInvolution(s: FormState)
    ensures ToggleAdvanced(ToggleAdvanced(s)) == s
  {
  }

  /** Ticking the legal checkbox twice restores the form. */
  lemma ToggleLegalInvolution(s: FormState)
    ensures ToggleLegal(ToggleLegal(s)) == s
  {
  }

  /** A started scan from a well-formed form has a target and the template its mode selects. */
  lemma SubmittedRequestIsSound(s: FormState, timestamp: string)
    requires Consistent(s)
    requires Submit(s, timestamp).Ok?
    ensures var req := Submit(s, timestamp).value.request;
      req.target != "" && req.template == TemplateOf(req.mode)
  {
  }
}
