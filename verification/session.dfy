/**
 A user session on the scan form: a sequence of user events folded over the
 form state, collecting every scan request the start button sends.
 */
module ScanSession {
  import opened ScanTemplates
  import opened ScanForm

  /** One user interaction with the form. */
  datatype Event =
    | EditTarget(text: string)
    | ChooseMode(mode: ChosenMode)
    | ToggleAdvancedPanel
    | EditCustomFlags(text: string)
    | EditExcludePaths(text: string)
    | EditMaxDuration(text: string)
    | ToggleLegalCheckbox
    | PressStartScan(timestamp: string)

  /** The form plus every request sent so far, oldest first. */
  datatype Session = Session(form: FormState, sent: seq<ScanRequest>)

  /** Every request has a target and carries the template its mode selects. */
  predicate AllSound(reqs: seq<ScanRequest>)
  {
    forall k :: 0 <= k < |reqs| ==> reqs[k].target != "" && reqs[k].template == TemplateOf(reqs[k].mode)
  }

  /** The event edits one of the advanced-option inputs. */
  predicate IsAdvancedEdit(e: Event)
  {
    e.EditCustomFlags? || e.EditExcludePaths? || e.EditMaxDuration?
  }

  /**
   Applies one event. The advanced inputs exist only while the panel is shown,
   so edits to them are ignored while it is hidden. A start press never changes
   the form; it sends a request iff the gate is open.
   */
  function Step(sess: Session, e: Event): (r: Session)
    ensures e.EditTarget? ==> r.form == SetTarget(sess.form, e.text)
    ensures e.ChooseMode? ==> r.form == SelectMode(sess.form, e.mode)
    ensures e.ToggleAdvancedPanel? ==> r.form == ToggleAdvanced(sess.form)
    ensures e.ToggleLegalCheckbox? ==> r.form == ToggleLegal(sess.form)
    ensures e.EditCustomFlags? && sess.form.showAdvanced ==> r.form == SetCustomFlags(sess.form, e.text)
    ensures e.EditExcludePaths? && sess.form.showAdvanced ==> r.form == SetExcludePaths(sess.form, e.text)
    ensures e.EditMaxDuration? && sess.form.showAdvanced ==> r.form == SetMaxDuration(sess.form, e.text)
    ensures IsAdvancedEdit(e) && !sess.form.showAdvanced ==> r == sess
    ensures e.PressStartScan? ==> r.form == sess.form
    ensures e.PressStartScan? ==> (|r.sent| == |sess.sent| + 1 <==> CanSubmit(sess.form))
    ensures e.PressStartScan? && CanSubmit(sess.form) ==>
      r.sent[..|sess.sent|] == sess.sent && SnapshotOf(r.sent[|sess.sent|], sess.form, e.timestamp)
    ensures e.PressStartScan? && !CanSubmit(sess.form) ==> r.sent == sess.sent
    ensures !e.PressStartScan? ==> r.sent == sess.sent
  {
    match e
    case EditTarget(text) => sess.(form := SetTarget(sess.form, text))
    case ChooseMode(m) => sess.(form := SelectMode(sess.form, m))
    case ToggleAdvancedPanel => sess.(form := ToggleAdvanced(sess.form))
    case EditCustomFlags(text) =>
      if sess.form.showAdvanced then sess.(form := SetCustomFlags(sess.form, text)) else sess
    case EditExcludePaths(text) =>
      if sess.form.showAdvanced then sess.(form := SetExcludePaths(sess.form, text)) else sess
    case EditMaxDuration(text) =>
      if sess.form.showAdvanced then sess.(form := SetMaxDuration(sess.form, text)) else sess
    case ToggleLegalCheckbox => sess.(form := ToggleLegal(sess.form))
    case PressStartScan(timestamp) =>
      match Submit(sess.form, timestamp)
      case Ok(launch) => sess.(sent := sess.sent + [launch.request])
      case Err(_) => sess
  }

  /** Applies the events in order. Requests are only ever appended, at most one per event. */
  function Run(sess: Session, events: seq<Event>): (r: Session)
    ensures |sess.sent| <= |r.sent| <= |sess.sent| + |events|
    ensures r.sent[..|sess.sent|] == sess.sent
    decreases |events|
  {
    if |events| == 0 then sess else Run(Step(sess, events[0]), events[1..])
  }

  /** A session starts on the freshly rendered form with nothing sent. */
  function Start(): (sess: Session)
    ensures sess.form == Initial() && sess.sent == []
    ensures Consistent(sess.form) && !CanSubmit(sess.form)
  {
    Session(Initial(), [])
  }

  /** Number of advanced-panel toggles among `events`. */
  function PanelClicks(events: seq<Event>): nat
  {
    if |events| == 0 then 0
    else (if events[0].ToggleAdvancedPanel? then 1 else 0) + PanelClicks(events[1..])
  }

  /** Number of legal-checkbox clicks among `events`. */
  function LegalClicks(events: seq<Event>): nat
  {
    if |events| == 0 then 0
    else (if events[0].ToggleLegalCheckbox? then 1 else 0) + LegalClicks(events[1..])
  }

  /** The target after `events`, starting from `current`: the text of the last edit, if any. */
  function LastTarget(events: seq<Event>, current: string): string
  {
    if |events| == 0 then current
    else LastTarget(events[1..], if events[0].EditTarget? then events[0].text else current)
  }

  /** The mode after `events`, starting from `current`: the last choice, if any. */
  function LastMode(events: seq<Event>, current: Mode): Mode
  {
    if |events| == 0 then current
    else LastMode(events[1..], if events[0].ChooseMode? then events[0].mode else current)
  }

  /** No event edits an advanced-option value. */
  predicate NoAdvancedEdits(events: seq<Event>)
  {
    forall i :: 0 <= i < |events| ==> !IsAdvancedEdit(events[i])
  }

  /** The form invariant holds after any sequence of events. */
  lemma {:induction false} RunPreservesConsistency(sess: Session, events: seq<Event>)
    requires Consistent(sess.form)
    ensures Consistent(Run(sess, events).form)
    decreases |events|
  {
    if |events| > 0 {
      RunPreservesConsistency(Step(sess, events[0]), events[1..]);
    }
  }

  /** Every request a session sends passed the gate and carries its mode's template. */
  lemma {:induction false} RunSendsOnlySoundRequests(sess: Session, events: seq<Event>)
    requires Consistent(sess.form) && AllSound(sess.sent)
    ensures AllSound(Run(sess, events).sent)
    decreases |events|
  {
    if |events| > 0 {
      var next := Step(sess, events[0]);
      if events[0].PressStartScan? && CanSubmit(sess.form) {
        SubmittedRequestIsSound(sess.form, events[0].timestamp);
      }
      assert AllSound(next.sent);
      RunSendsOnlySoundRequests(next, events[1..]);
    }
  }

  /** In what a session sends, equal templates mean equal modes: the template identifies the scan mode. */
  lemma SentTemplatesDetermineModes(sess: Session, events: seq<Event>)
    requires Consistent(sess.form) && AllSound(sess.sent)
    ensures var sent := Run(sess, events).sent;
      forall j, k :: 0 <= j < |sent| && 0 <= k < |sent| && sent[j].template == sent[k].template ==>
        sent[j].mode == sent[k].mode
  {
    var sent := Run(sess, events).sent;
    RunSendsOnlySoundRequests(sess, events);
    forall j, k | 0 <= j < |sent| && 0 <= k < |sent| && sent[j].template == sent[k].template
      ensures sent[j].mode == sent[k].mode
    {
      TemplateOfInjective(sent[j].mode, sent[k].mode);
    }
  }

  /** Legal acceptance is the starting value flipped once per checkbox click. */
  lemma {:induction false} RunLegalParity(sess: Session, events: seq<Event>)
    ensures Run(sess, events).form.legalAccepted == (sess.form.legalAccepted != (LegalClicks(events) % 2 == 1))
    decreases |events|
  {
    if |events| > 0 {
      RunLegalParity(Step(sess, events[0]), events[1..]);
    }
  }

  /** Panel visibility is the starting value flipped once per panel toggle. */
  lemma {:induction false} RunPanelParity(sess: Session, events: seq<Event>)
    ensures Run(sess, events).form.showAdvanced == (sess.form.showAdvanced != (PanelClicks(events) % 2 == 1))
    decreases |events|
  {
    if |events| > 0 {
      RunPanelParity(Step(sess, events[0]), events[1..]);
    }
  }

  /** From the fresh page, every request ever sent passed the gate and carries its mode's template. */
  lemma FreshSessionSendsOnlySoundRequests(events: seq<Event>)
    ensures var r := Run(Start(), events);
      Consistent(r.form) && AllSound(r.sent)
  {
    RunPreservesConsistency(Start(), events);
    RunSendsOnlySoundRequests(Start(), events);
  }

  /** The target is whatever was typed last, verbatim. */
  lemma {:induction false} RunTargetIsLastEdit(sess: Session, events: seq<Event>)
    ensures Run(sess, events).form.target == LastTarget(events, sess.form.target)
    decreases |events|
  {
    if |events| > 0 {
      RunTargetIsLastEdit(Step(sess, events[0]), events[1..]);
    }
  }

  /** The mode is the last one chosen, and the template follows it. */
  lemma {:induction false} RunModeIsLastChoice(sess: Session, events: seq<Event>)
    requires Consistent(sess.form)
    ensures Run(sess, events).form.mode == LastMode(events, sess.form.mode)
    ensures Run(sess, events).form.selectedTemplate == TemplateOf(LastMode(events, sess.form.mode))
    decreases |events|
  {
    if |events| > 0 {
      RunModeIsLastChoice(Step(sess, events[0]), events[1..]);
    }
  }

  /** Without edits to them, the advanced options survive any number of other events, panel toggles included. */
  lemma {:induction false} RunKeepsAdvancedWithoutEdits(sess: Session, events: seq<Event>)
    requires NoAdvancedEdits(events)
    ensures SameAdvanced(Run(sess, events).form, sess.form)
    decreases |events|
  {
    if |events| > 0 {
      assert NoAdvancedEdits(events[1..]) by {
        forall i | 0 <= i < |events[1..]|
          ensures !IsAdvancedEdit(events[1..][i])
        {
          assert events[1..][i] == events[i + 1];
        }
      }
      RunKeepsAdvancedWithoutEdits(Step(sess, events[0]), events[1..]);
    }
  }

  /** Pressing start twice with the gate open sends two requests that differ only in their timestamps. */
  lemma ResubmitSendsTwice(sess: Session, t1: string, t2: string)
    requires CanSubmit(sess.form)
    ensures var r := Run(sess, [PressStartScan(t1), PressStartScan(t2)]);
      && r.form == sess.form
      && |r.sent| == |sess.sent| + 2
      && r.sent[|sess.sent|] == r.sent[|sess.sent| + 1].(timestamp := t1)
      && r.sent[|sess.sent| + 1].timestamp == t2
  {
    var s1 := Step(sess, PressStartScan(t1));
    var s2 := Step(s1, PressStartScan(t2));
    assert Run(s2, []) == s2;
    assert [PressStartScan(t1), PressStartScan(t2)][1..] == [PressStartScan(t2)];
    assert Run(sess, [PressStartScan(t1), PressStartScan(t2)]) == s2;
  }
}
