/**
 The scan modes of the configuration form and the fixed table of scan
 templates that a mode selects.
 */
module ScanTemplates {
  import opened Results

  /** The form's scan mode; `Unset` is the empty string the form starts with. */
  datatype Mode = Unset | Fast | Deep

  /** A mode the user can pick with one of the two mode buttons. */
  type ChosenMode = m: Mode | m != Unset witness Fast

  /** Read-only description of what a scan mode will run. */
  datatype Template = Template(
    name: string,
    description: string,
    tools: seq<string>,
    estimatedDuration: string)

  const FastScanTemplate: Template := Template(
    "Fast Scan Template",
    "Performs quick reconnaissance, checking open ports and basic vulnerabilities.",
    ["nmap", "whois", "subfinder"],
    "15\U{2013}30 minutes")

  const DeepScanTemplate: Template := Template(
    "Deep Scan Template",
    "Comprehensive penetration testing including exploitation simulation.",
    ["nmap", "nikto", "dirsearch", "metasploit"],
    "2\U{2013}4 hours")

  /** The template a well-formed form shows for a mode: none while no mode is chosen. */
  function TemplateOf(m: Mode): (t: Option<Template>)
    ensures t.None? <==> m == Unset
    ensures t.Some? ==> ToolsDistinct(t.value) && |t.value.tools| > 0
  {
    match m
    case Unset => None
    case Fast => Some(FastScanTemplate)
    case Deep => Some(DeepScanTemplate)
  }

  /** The template a mode button installs: anything that is not "fast" gets the deep template. */
  function TemplateForChoice(m: ChosenMode): Template
  {
    if m == Fast then FastScanTemplate else DeepScanTemplate
  }

  /** Tool names are used as list keys in the template preview, so they must not repeat. */
  predicate ToolsDistinct(t: Template)
  {
    forall i, j :: 0 <= i < j < |t.tools| ==> t.tools[i] != t.tools[j]
  }

  /** The button-side conditional agrees with the mode-to-template table. */
  lemma ChoiceMatchesTable(m: ChosenMode)
    ensures TemplateOf(m) == Some(TemplateForChoice(m))
  {
  }

  /** Different modes show different templates, so a template determines its mode. */
  lemma TemplateOfInjective(m1: Mode, m2: Mode)
    ensures TemplateOf(m1) == TemplateOf(m2) ==> m1 == m2
  {
  }
}
