/** The client's view of an execution, merged from full state frames and incremental frames. */
module Observation {
  import opened Text
  import opened Events

  /** An activity record of a state frame; the client does not rely on its sequence. */
  datatype Record = Record(sequence: Option<nat>, event: Event)

  /** What the panel shows for an activity. */
  datatype Presentation = Presentation(sequence: Option<nat>, title: string)

  datatype ObservedFrame =
    | StateFrame(
        phase: Option<Phase>,
        status: Status,
        partialAnswer: string,
        answer: string,
        result: Option<string>,
        error: Option<string>,
        activities: seq<Record>,
        realtime: bool)
    | EventFrame(sequence: Option<nat>, event: Event)
    | HeartbeatFrame
    | UnavailableFrame

  datatype View = View(
    content: string,
    phase: Phase,
    result: Option<string>,
    error: Option<string>,
    cancelRequested: bool,
    responseStarted: bool,
    responseCompleted: bool,
    activities: seq<Presentation>,
    seen: set<nat>,
    degraded: bool)

  /** What one frame reports to the caller. */
  datatype Update = Update(
    contentChanged: bool,
    terminal: Option<Status>,
    transportDegraded: bool,
    newActivities: seq<Presentation>)

  const NEW_VIEW: View := View("", Waiting, None, None, false, false, false, [], {}, false)

  /** Titles are up to the presentation; text deltas never have one. */
  type Titles = Event -> Option<string>

  function Present(titles: Titles, record: Record): Option<Presentation> {
    if record.event.AssistantDelta? then None
    else
      var title := titles(record.event);
      if title.None? then None else Some(Presentation(record.sequence, title.value))
  }

  // ---------------------------------------------------------------------------
  // The view after a frame
  // ---------------------------------------------------------------------------

  /** Keeps whichever of the two texts extends the other, and takes the candidate if neither does. */
  function ApplyStateAnswer(content: string, candidate: string): string {
    if candidate != "" && !(candidate <= content) then candidate else content
  }

  function IsNew(view: View, shown: Presentation): bool {
    shown.sequence.Some? ==> shown.sequence.value !in view.seen
  }

  function Remember(view: View, shown: Presentation): View {
    if IsNew(view, shown) then
      view.(activities := view.activities + [shown],
            seen := view.seen + (if shown.sequence.Some? then {shown.sequence.value} else {}))
    else view
  }

  function RememberRecord(titles: Titles, view: View, record: Record): View {
    var shown := Present(titles, record);
    if shown.None? then view else Remember(view, shown.value)
  }

  function RememberAll(titles: Titles, view: View, records: seq<Record>): View {
    if records == [] then view
    else RememberRecord(titles, RememberAll(titles, view, records[..|records| - 1]), records[|records| - 1])
  }

  /** Whether the state frame makes the response count as started. */
  predicate StartsResponse(phase: Phase, content: string) {
    phase.ResponseStreaming? || phase.Finalizing? || phase.Done? || content != ""
  }

  /** The text, phase, result and error after a state frame. */
  function StateFields(view: View, frame: ObservedFrame): View
    requires frame.StateFrame?
  {
    var candidate := if frame.partialAnswer != "" then frame.partialAnswer else frame.answer;
    view.(
      content := ApplyStateAnswer(view.content, candidate),
      phase := frame.phase.GetOr(view.phase),
      result := if frame.result.Some? then frame.result else view.result,
      error := if frame.error.Some? && frame.error.value != "" then frame.error else view.error)
  }

  function StateFlags(view: View, realtime: bool): View {
    var ended := view.phase.Finalizing? || view.phase.Done?;
    view.(
      responseStarted := view.responseStarted || StartsResponse(view.phase, view.content),
      responseCompleted := if ended then view.content != "" || view.phase.Done? else view.responseCompleted,
      degraded := !realtime)
  }

  function AppliedState(titles: Titles, view: View, frame: ObservedFrame): View
    requires frame.StateFrame?
  {
    StateFlags(RememberAll(titles, StateFields(view, frame), frame.activities), frame.realtime)
  }

  function AppliedPhase(view: View, phase: Phase): View {
    var completes := phase.Finalizing? && view.content != "";
    view.(
      phase := phase,
      responseStarted := view.responseStarted || phase.ResponseStreaming? || completes,
      responseCompleted := view.responseCompleted || completes,
      cancelRequested := view.cancelRequested || phase.Cancelling?)
  }

  /** The effect of a live event apart from the activity it records. */
  function AppliedEvent(view: View, event: Event): View {
    match event
    case AssistantDelta(content) =>
      view.(content := view.content + content, responseStarted := true, phase := ResponseStreaming)
    case AnswerStarted => view.(responseStarted := true, phase := ResponseStreaming)
    case AnswerCompleted => view.(responseStarted := true, responseCompleted := true, phase := Finalizing)
    case AnswerGenerated => view.(responseStarted := true)
    case ExecutionCompleted(answer, result) =>
      view.(content := ApplyStateAnswer(view.content, answer), phase := Done,
            result := if result.Some? then result else view.result,
            responseStarted := true, responseCompleted := true)
    case ExecutionFailed(error) =>
      view.(error := Some(if error.GetOr("") != "" then error.value else "erro desconhecido"), phase := Broken)
    case ExecutionCancelled(partialAnswer) =>
      view.(content := ApplyStateAnswer(view.content, partialAnswer.GetOr("")), phase := Stopped)
    case PhaseChanged(phase) => if phase.None? then view else AppliedPhase(view, phase.value)
    case CancelAsked => view.(phase := Cancelling, cancelRequested := true)
    case _ => view
  }

  /** The phase that stands for the name of a durable status. */
  function NamedPhase(status: Status): Phase {
    if status.Running? then Custom("running") else PhaseFromStatus(status)
  }

  /** `_apply_durable_result`; the status is absent if the request failed. */
  function AppliedDurable(view: View, status: Option<Status>, answer: string, result: Option<string>,
                          error: Option<string>): View
  {
    var completed := status == Some(Completed);
    view.(
      content := ApplyStateAnswer(view.content, answer),
      phase := if status.Some? then NamedPhase(status.value) else view.phase,
      result := if result.Some? then result else view.result,
      error := if error.Some? && error.value != "" then error else view.error,
      responseStarted := view.responseStarted || completed,
      responseCompleted := view.responseCompleted || completed)
  }

  function Applied(titles: Titles, view: View, frame: ObservedFrame): View {
    match frame
    case StateFrame(_, _, _, _, _, _, _, _) => AppliedState(titles, view, frame)
    case EventFrame(sequence, event) => RememberRecord(titles, AppliedEvent(view, event), Record(sequence, event))
    case HeartbeatFrame => view
    case UnavailableFrame => view.(degraded := true)
  }

  function AppliedAll(titles: Titles, view: View, frames: seq<ObservedFrame>): View {
    if frames == [] then view
    else Applied(titles, AppliedAll(titles, view, frames[..|frames| - 1]), frames[|frames| - 1])
  }

  /** A frame that tells the client to stop. */
  function TerminalStatus(frame: ObservedFrame): Option<Status> {
    match frame
    case StateFrame(_, status, _, _, _, _, _, _) => if status.IsTerminal() then Some(status) else None
    case EventFrame(_, ExecutionCompleted(_, _)) => Some(Completed)
    case EventFrame(_, ExecutionFailed(_)) => Some(Failed)
    case EventFrame(_, ExecutionCancelled(_)) => Some(Cancelled)
    case _ => None
  }

  // ---------------------------------------------------------------------------
  // One frame, field by field
  // ---------------------------------------------------------------------------

  /** The text, the result and the error after a live event, and what it leaves alone. */
  lemma LiveEventShows(view: View, event: Event)
    ensures var next := AppliedEvent(view, event);
      && next.content == (if event.AssistantDelta? then view.content + event.content
                          else ApplyStateAnswer(view.content, event.EndText()))
      && next.result == (if event.ExecutionCompleted? && event.result.Some? then event.result else view.result)
      && (if event.ExecutionFailed? then
            && next.error.Some? && next.error.value != ""
            && (event.error.GetOr("") != "" ==> next.error == event.error)
          else next.error == view.error)
      && next.activities == view.activities && next.seen == view.seen && next.degraded == view.degraded
  {}

  /** The phase after a live event; at the end it is the one that the final status stands for. */
  lemma LiveEventPhase(view: View, event: Event)
    ensures var next, ends := AppliedEvent(view, event), TerminalStatus(EventFrame(None, event));
      && (ends.Some? <==> event.IsTerminal())
      && next.phase == (if ends.Some? then PhaseFromStatus(ends.value)
                        else if event.AssistantDelta? || event.AnswerStarted? then ResponseStreaming
                        else if event.AnswerCompleted? then Finalizing
                        else if event.CancelAsked? then Cancelling
                        else if event.PhaseChanged? then event.phase.GetOr(view.phase)
                        else view.phase)
  {
    hide ApplyStateAnswer;
  }

  /** What a live event says of the response and of a cancellation. */
  lemma LiveEventFlags(view: View, event: Event)
    ensures var next, named := AppliedEvent(view, event), if event.PhaseChanged? then event.phase else None;
      var finalizes := named == Some(Finalizing) && view.content != "";
      && (next.cancelRequested <==> view.cancelRequested || event.CancelAsked? || named == Some(Cancelling))
      && (next.responseStarted
          <==> view.responseStarted || event.AssistantDelta? || event.AnswerStarted? || event.AnswerGenerated?
               || event.AnswerCompleted? || event.ExecutionCompleted? || named == Some(ResponseStreaming) || finalizes)
      && (next.responseCompleted
          <==> view.responseCompleted || event.AnswerCompleted? || event.ExecutionCompleted? || finalizes)
  {
    hide ApplyStateAnswer;
  }

  lemma EndsAreTold(event: Event)
    ensures TerminalStatus(EventFrame(None, event)) == Some(Completed) <==> event.ExecutionCompleted?
    ensures TerminalStatus(EventFrame(None, event)) == Some(Failed) <==> event.ExecutionFailed?
    ensures TerminalStatus(EventFrame(None, event)) == Some(Cancelled) <==> event.ExecutionCancelled?
  {}

  /** A state frame, told field by field. */
  lemma StateFrameByField(titles: Titles, view: View, frame: ObservedFrame)
    requires frame.StateFrame?
    ensures var next := Applied(titles, view, frame);
      var offered := if frame.partialAnswer != "" then frame.partialAnswer else frame.answer;
      var phase := frame.phase.GetOr(view.phase);
      && next.content == ApplyStateAnswer(view.content, offered) && next.phase == phase
      && next.result == (if frame.result.Some? then frame.result else view.result)
      && next.error == (if frame.error.GetOr("") != "" then frame.error else view.error)
      && next.cancelRequested == view.cancelRequested && next.degraded == !frame.realtime
      && (next.responseStarted
          <==> view.responseStarted || next.content != ""
               || phase.ResponseStreaming? || phase.Finalizing? || phase.Done?)
      && (next.responseCompleted
          <==> phase.Done? || (if phase.Finalizing? then next.content != "" else view.responseCompleted))
    ensures TerminalStatus(frame) == if frame.status.IsTerminal() then Some(frame.status) else None
  {
    hide RememberAll, ApplyStateAnswer;
    RememberKeepsFlags(titles, StateFields(view, frame), frame.activities);
  }

  /** What the durable route answers, told field by field. */
  lemma DurableByField(view: View, status: Option<Status>, answer: string, result: Option<string>,
                       error: Option<string>)
    ensures var next := AppliedDurable(view, status, answer, result, error);
      && next.content == ApplyStateAnswer(view.content, answer)
      && next.result == (if result.Some? then result else view.result)
      && next.error == (if error.GetOr("") != "" then error else view.error)
      && (status.None? ==> next.phase == view.phase)
      && (status.Some? ==> (next.phase.IsTerminal() <==> status.value.IsTerminal()))
      && (status.Some? && status.value.IsTerminal() ==> next.phase == PhaseFromStatus(status.value))
      && (next.responseStarted <==> view.responseStarted || status == Some(Completed))
      && (next.responseCompleted <==> view.responseCompleted || status == Some(Completed))
      && next.activities == view.activities && next.seen == view.seen
      && next.cancelRequested == view.cancelRequested && next.degraded == view.degraded
  {}

  // ---------------------------------------------------------------------------
  // The `active` record
  // ---------------------------------------------------------------------------

  class ActiveResponse {
    var content: string
    var phase: Phase
    var result: Option<string>
    var error: Option<string>
    var cancelRequested: bool
    var responseStarted: bool
    var responseCompleted: bool
    var activities: seq<Presentation>
    var seen: set<nat>
    var degraded: bool

    constructor ()
      ensures Contents() == NEW_VIEW
    {
      content, phase, result, error := "", Waiting, None, None;
      cancelRequested, responseStarted, responseCompleted := false, false, false;
      activities, seen, degraded := [], {}, false;
    }

    ghost function Contents(): View
      reads this
    {
      View(content, phase, result, error, cancelRequested, responseStarted, responseCompleted, activities, seen,
           degraded)
    }

    method RememberActivity(shown: Presentation) returns (added: bool)
      modifies this`activities, this`seen
      ensures Contents() == Remember(old(Contents()), shown)
      ensures added == IsNew(old(Contents()), shown)
      ensures activities == if added then old(activities) + [shown] else old(activities)
    {
      if shown.sequence.Some? && shown.sequence.value in seen {
        return false;
      }
      if shown.sequence.Some? {
        seen := seen + {shown.sequence.value};
      }
      activities := activities + [shown];
      return true;
    }

    method ApplyCandidate(candidate: string) returns (changed: bool)
      modifies this`content
      ensures content == ApplyStateAnswer(old(content), candidate)
      ensures changed <==> content != old(content)
    {
      if candidate == "" || candidate == content {
        return false;
      }
      if content <= candidate {
        content := candidate;
        return true;
      }
      if candidate <= content {
        return false;
      }
      content := candidate;
      return true;
    }

    method MergeDurableAnswer(answer: string) returns (changed: bool)
      modifies this`content
      ensures content == ApplyStateAnswer(old(content), answer)
      ensures changed <==> content != old(content)
    {
      changed := false;
      if answer != "" && answer != content {
        if content <= answer || !(answer <= content) {
          content := answer;
          changed := true;
        }
      }
    }

    method ApplyDurableResult(status: Option<Status>, answer: string, outcome: Option<string>, failure: Option<string>)
      returns (changed: bool)
      modifies this
      ensures Contents() == AppliedDurable(old(Contents()), status, answer, outcome, failure)
      ensures changed <==> content != old(content)
    {
      hide ApplyStateAnswer;
      changed := MergeDurableAnswer(answer);
      if outcome.Some? {
        result := outcome;
      }
      if failure.Some? && failure.value != "" {
        error := failure;
      }
      if status.Some? {
        phase := NamedPhase(status.value);
        if status.value.Completed? {
          responseStarted, responseCompleted := true, true;
        }
      }
    }

    method RememberRecords(titles: Titles, records: seq<Record>) returns (added: seq<Presentation>)
      modifies this`activities, this`seen
      ensures Contents() == RememberAll(titles, old(Contents()), records)
      ensures activities == old(activities) + added
    {
      hide Remember, RememberRecord;
      added := [];
      for i := 0 to |records|
        invariant Contents() == RememberAll(titles, old(Contents()), records[..i])
        invariant activities == old(activities) + added
      {
        label Before:
        var shown := Present(titles, records[i]);
        if shown.Some? {
          var isNew := RememberActivity(shown.value);
          if isNew {
            added := added + [shown.value];
          }
        }
        assert Contents() == RememberRecord(titles, old@Before(Contents()), records[i]) by {
          RecordStep(titles, old@Before(Contents()), records[i]);
        }
        assert records[..i + 1][..i] == records[..i];
      }
      assert records[..|records|] == records;
    }

    /** The answer, result and error of a state frame. */
    method ApplyStateFields(frame: ObservedFrame) returns (changed: bool)
      requires frame.StateFrame?
      modifies this
      ensures Contents() == StateFields(old(Contents()), frame)
      ensures changed <==> content != old(content)
    {
      changed := false;
      phase := frame.phase.GetOr(phase);
      var candidate := if frame.partialAnswer != "" then frame.partialAnswer else frame.answer;
      if candidate != "" {
        changed := ApplyCandidate(candidate);
      }
      if frame.result.Some? {
        result := frame.result;
      }
      if frame.error.Some? && frame.error.value != "" {
        error := frame.error;
      }
    }

    /** What a state frame says about the response, once its text is merged. */
    method ApplyStateFlags(realtime: bool)
      modifies this`responseStarted, this`responseCompleted, this`degraded
      ensures Contents() == StateFlags(old(Contents()), realtime)
    {
      if phase.ResponseStreaming? || phase.Finalizing? || phase.Done? || content != "" {
        responseStarted := true;
      }
      if phase.Finalizing? || phase.Done? {
        responseCompleted := content != "" || phase.Done?;
      }
      degraded := !realtime;
    }

    method ApplyState(titles: Titles, frame: ObservedFrame) returns (update: Update)
      requires frame.StateFrame?
      modifies this
      ensures Contents() == AppliedState(titles, old(Contents()), frame)
      ensures update.contentChanged <==> content != old(content)
      ensures activities == old(activities) + update.newActivities
      ensures update.terminal == TerminalStatus(frame) && !update.transportDegraded
    {
      hide RememberAll, StateFields, StateFlags;
      var changed := ApplyStateFields(frame);
      label Merged:
      assert activities == old(activities) && content == StateFields(old(Contents()), frame).content by {
        StateFieldsKeepTimeline(old(Contents()), frame);
      }
      var added := RememberRecords(titles, frame.activities);
      assert content == old@Merged(content) by {
        RememberIgnoresRest(titles, old@Merged(Contents()), old@Merged(Contents()), frame.activities);
      }
      ApplyStateFlags(frame.realtime);
      var terminal := if frame.status.IsTerminal() then Some(frame.status) else None;
      update := Update(changed, terminal, false, added);
    }

    method ApplyDelta(text: string) returns (changed: bool)
      modifies this
      ensures Contents() == AppliedEvent(old(Contents()), AssistantDelta(text))
      ensures changed <==> content != old(content)
    {
      changed := text != "";
      if changed {
        content := content + text;
      }
      assert old(content) + "" == old(content);
      responseStarted := true;
      phase := ResponseStreaming;
    }

    method ApplyTerminal(event: Event) returns (changed: bool, terminal: Status)
      requires event.IsTerminal()
      modifies this
      ensures Contents() == AppliedEvent(old(Contents()), event)
      ensures changed <==> content != old(content)
      ensures Some(terminal) == TerminalStatus(EventFrame(None, event))
    {
      hide ApplyStateAnswer, AppliedPhase;
      changed := false;
      match event {
        case ExecutionCompleted(answer, outcome) =>
          terminal := Completed;
          phase := Done;
          changed := ApplyCandidate(answer);
          if outcome.Some? {
            result := outcome;
          }
          responseStarted := true;
          responseCompleted := true;
        case ExecutionFailed(reason) =>
          terminal := Failed;
          phase := Broken;
          error := Some(if reason.GetOr("") != "" then reason.value else "erro desconhecido");
        case ExecutionCancelled(partial) =>
          terminal := Cancelled;
          phase := Stopped;
          changed := ApplyCandidate(partial.GetOr(""));
      }
    }

    method ApplyPhase(named: Phase)
      modifies this
      ensures Contents() == AppliedPhase(old(Contents()), named)
    {
      phase := named;
      if phase.ResponseStreaming? {
        responseStarted := true;
      } else if phase.Finalizing? && content != "" {
        responseStarted := true;
        responseCompleted := true;
      } else if phase.Cancelling? {
        cancelRequested := true;
      }
    }

    /** The branches for live events. */
    method ApplyEventFields(event: Event) returns (changed: bool, terminal: Option<Status>)
      modifies this
      ensures Contents() == AppliedEvent(old(Contents()), event)
      ensures changed <==> content != old(content)
      ensures terminal == TerminalStatus(EventFrame(None, event))
    {
      hide AppliedPhase, ApplyStateAnswer;
      changed, terminal := false, None;
      if event.AssistantDelta? {
        changed := ApplyDelta(event.content);
      } else if event.AnswerStarted? {
        responseStarted := true;
        phase := ResponseStreaming;
      } else if event.AnswerCompleted? {
        responseStarted := true;
        responseCompleted := true;
        phase := Finalizing;
      } else if event.AnswerGenerated? {
        responseStarted := true;
      } else if event.IsTerminal() {
        var status;
        changed, status := ApplyTerminal(event);
        terminal := Some(status);
      } else if event.PhaseChanged? && event.phase.Some? {
        ghost var before := Contents();
        ApplyPhase(event.phase.value);
        assert content == old(content) by { AppliedPhaseKeepsContent(before, event.phase.value); }
      } else if event.CancelAsked? {
        phase := Cancelling;
        cancelRequested := true;
      }
    }

    method ApplyEvent(titles: Titles, sequence: Option<nat>, event: Event) returns (update: Update)
      modifies this
      ensures Contents() == Applied(titles, old(Contents()), EventFrame(sequence, event))
      ensures update.contentChanged <==> content != old(content)
      ensures activities == old(activities) + update.newActivities
      ensures update.terminal == TerminalStatus(EventFrame(sequence, event)) && !update.transportDegraded
    {
      hide AppliedEvent;
      var changed, terminal := ApplyEventFields(event);
      assert activities == old(activities) by { AppliedEventKeepsTimeline(old(Contents()), event); }
      var added: seq<Presentation> := [];
      var shown := Present(titles, Record(sequence, event));
      if shown.Some? {
        var isNew := RememberActivity(shown.value);
        if isNew {
          added := [shown.value];
        }
      }
      update := Update(changed, terminal, false, added);
    }

    method ApplyObservedFrame(titles: Titles, frame: ObservedFrame) returns (update: Update)
      modifies this
      ensures Contents() == Applied(titles, old(Contents()), frame)
      ensures update.contentChanged <==> content != old(content)
      ensures activities == old(activities) + update.newActivities
      ensures update.terminal == TerminalStatus(frame)
      ensures update.transportDegraded <==> frame.UnavailableFrame?
    {
      hide AppliedState, AppliedEvent, RememberRecord;
      match frame {
        case StateFrame(_, _, _, _, _, _, _, _) => update := ApplyState(titles, frame);
        case EventFrame(sequence, event) => update := ApplyEvent(titles, sequence, event);
        case HeartbeatFrame => update := Update(false, None, false, []);
        case UnavailableFrame =>
          degraded := true;
          update := Update(false, None, true, []);
      }
    }
  }

  lemma StateFieldsKeepTimeline(view: View, frame: ObservedFrame)
    requires frame.StateFrame?
    ensures StateFields(view, frame).activities == view.activities
  {}

  lemma AppliedPhaseKeepsContent(view: View, phase: Phase)
    ensures AppliedPhase(view, phase).content == view.content
  {}

  lemma AppliedEventKeepsTimeline(view: View, event: Event)
    ensures AppliedEvent(view, event).activities == view.activities
    ensures AppliedEvent(view, event).seen == view.seen
  {}

  lemma RecordStep(titles: Titles, view: View, record: Record)
    ensures RememberRecord(titles, view, record)
         == (if Present(titles, record).None? then view else Remember(view, Present(titles, record).value))
  {}

  /** Remembering only concerns the timeline. */
  lemma {:induction false} RememberIgnoresRest(titles: Titles, a: View, b: View, records: seq<Record>)
    requires a.activities == b.activities && a.seen == b.seen
    ensures RememberAll(titles, b, records)
         == b.(activities := RememberAll(titles, a, records).activities, seen := RememberAll(titles, a, records).seen)
  {
    if records != [] {
      RememberIgnoresRest(titles, a, b, records[..|records| - 1]);
    }
  }

  // ---------------------------------------------------------------------------
  // The timeline
  // ---------------------------------------------------------------------------

  ghost predicate NumberedOnce(activities: seq<Presentation>) {
    forall i, j | 0 <= i < j < |activities| && activities[i].sequence.Some? ::
      activities[j].sequence != activities[i].sequence
  }

  ghost predicate SeenAre(seen: set<nat>, activities: seq<Presentation>) {
    && (forall n <- seen :: exists i | 0 <= i < |activities| :: activities[i].sequence == Some(n))
    && (forall i | 0 <= i < |activities| && activities[i].sequence.Some? :: activities[i].sequence.value in seen)
  }

  /** Each numbered activity appears once, and the seen set is the set of their numbers. */
  ghost predicate Timeline(view: View) {
    NumberedOnce(view.activities) && SeenAre(view.seen, view.activities)
  }

  lemma RememberKeepsTimeline(view: View, shown: Presentation)
    requires Timeline(view)
    ensures Timeline(Remember(view, shown))
  {
    if IsNew(view, shown) {
      var next := Remember(view, shown);
      assert next.activities[|view.activities|] == shown;
      forall n <- next.seen ensures exists i | 0 <= i < |next.activities| :: next.activities[i].sequence == Some(n) {
        if n in view.seen {
          var i :| 0 <= i < |view.activities| && view.activities[i].sequence == Some(n);
          assert next.activities[i].sequence == Some(n);
        } else {
          assert next.activities[|view.activities|].sequence == Some(n);
        }
      }
    }
  }

  lemma {:induction false} RememberAllKeepsTimeline(titles: Titles, view: View, records: seq<Record>)
    requires Timeline(view)
    ensures Timeline(RememberAll(titles, view, records))
  {
    hide Timeline, Remember;
    if records != [] {
      var front, last := records[..|records| - 1], records[|records| - 1];
      RememberAllKeepsTimeline(titles, view, front);
      if Present(titles, last).Some? {
        RememberKeepsTimeline(RememberAll(titles, view, front), Present(titles, last).value);
      }
    }
  }

  lemma SameTimeline(a: View, b: View)
    requires Timeline(a) && a.activities == b.activities && a.seen == b.seen
    ensures Timeline(b)
  {}

  lemma AppliedKeepsTimeline(titles: Titles, view: View, frame: ObservedFrame)
    requires Timeline(view)
    ensures Timeline(Applied(titles, view, frame))
  {
    hide Timeline, AppliedEvent, RememberAll, Remember, StateFields, StateFlags;
    match frame
    case StateFrame(_, _, _, _, _, _, _, _) =>
      var merged := StateFields(view, frame);
      StateFieldsOnly(view, frame);
      SameTimeline(view, merged);
      RememberAllKeepsTimeline(titles, merged, frame.activities);
      StateFlagsOnly(RememberAll(titles, merged, frame.activities), frame.realtime);
      SameTimeline(RememberAll(titles, merged, frame.activities), Applied(titles, view, frame));
    case EventFrame(sequence, event) =>
      AppliedEventKeepsTimeline(view, event);
      SameTimeline(view, AppliedEvent(view, event));
      var shown := Present(titles, Record(sequence, event));
      if shown.Some? {
        RememberKeepsTimeline(AppliedEvent(view, event), shown.value);
      }
    case HeartbeatFrame =>
    case UnavailableFrame => SameTimeline(view, Applied(titles, view, frame));
  }

  lemma StateFieldsOnly(view: View, frame: ObservedFrame)
    requires frame.StateFrame?
    ensures StateFields(view, frame).activities == view.activities && StateFields(view, frame).seen == view.seen
  {}

  lemma StateFlagsOnly(view: View, realtime: bool)
    ensures StateFlags(view, realtime).activities == view.activities && StateFlags(view, realtime).seen == view.seen
    ensures StateFlags(view, realtime).content == view.content
  {}

  /** Over any mix of state frames and live frames, in any order, no numbered activity appears twice. */
  lemma {:induction false} TimelineNeverRepeats(titles: Titles, frames: seq<ObservedFrame>)
    ensures Timeline(AppliedAll(titles, NEW_VIEW, frames))
  {
    hide Applied, Timeline;
    if frames == [] {
      assert Timeline(NEW_VIEW) by { NewTimeline(); }
    } else {
      TimelineNeverRepeats(titles, frames[..|frames| - 1]);
      AppliedKeepsTimeline(titles, AppliedAll(titles, NEW_VIEW, frames[..|frames| - 1]), frames[|frames| - 1]);
    }
  }

  lemma NewTimeline()
    ensures Timeline(NEW_VIEW)
  {}

  // ---------------------------------------------------------------------------
  // Applying a state frame again
  // ---------------------------------------------------------------------------

  /** The record is shown, but nothing tells it from a repetition. */
  predicate ShownUnnumbered(titles: Titles, record: Record) {
    Present(titles, record).Some? && record.sequence.None?
  }

  function CountUnnumbered(titles: Titles, records: seq<Record>): nat {
    if records == [] then 0
    else
      CountUnnumbered(titles, records[..|records| - 1])
      + (if ShownUnnumbered(titles, records[|records| - 1]) then 1 else 0)
  }

  lemma {:induction false} UnnumberedAreAdded(titles: Titles, view: View, records: seq<Record>)
    ensures |RememberAll(titles, view, records).activities| >= |view.activities| + CountUnnumbered(titles, records)
  {
    if records != [] {
      UnnumberedAreAdded(titles, view, records[..|records| - 1]);
    }
  }

  lemma {:induction false} CountIsPositive(titles: Titles, records: seq<Record>)
    ensures CountUnnumbered(titles, records) > 0 <==> exists record <- records :: ShownUnnumbered(titles, record)
  {
    hide ShownUnnumbered;
    if records != [] {
      var front, last := records[..|records| - 1], records[|records| - 1];
      CountIsPositive(titles, front);
      assert records == front + [last];
      assert last in records;
    }
  }

  lemma {:induction false} SeenGrows(titles: Titles, view: View, records: seq<Record>)
    ensures view.seen <= RememberAll(titles, view, records).seen
    ensures forall record <- records :: Present(titles, record).Some? && record.sequence.Some? ==>
      record.sequence.value in RememberAll(titles, view, records).seen
  {
    if records != [] {
      var front, last := records[..|records| - 1], records[|records| - 1];
      SeenGrows(titles, view, front);
      assert forall record <- records :: record in front || record == last;
    }
  }

  lemma {:induction false} SeenRecordsAddNothing(titles: Titles, view: View, records: seq<Record>)
    requires forall record <- records ::
      Present(titles, record).Some? ==> record.sequence.Some? && record.sequence.value in view.seen
    ensures RememberAll(titles, view, records) == view
  {
    if records != [] {
      SeenRecordsAddNothing(titles, view, records[..|records| - 1]);
      assert records[|records| - 1] in records;
    }
  }

  lemma RememberTwice(titles: Titles, view: View, records: seq<Record>)
    ensures var once := RememberAll(titles, view, records);
      (RememberAll(titles, once, records) == once <==> forall record <- records :: !ShownUnnumbered(titles, record))
  {
    hide RememberAll;
    var once := RememberAll(titles, view, records);
    SeenGrows(titles, view, records);
    UnnumberedAreAdded(titles, once, records);
    CountIsPositive(titles, records);
    if forall record <- records :: !ShownUnnumbered(titles, record) {
      SeenRecordsAddNothing(titles, once, records);
    }
  }

  /**
   * Applying the same state frame twice is applying it once, exactly if every activity that it shows
   * carries a sequence.
   */
  lemma StateFrameIsIdempotent(titles: Titles, view: View, frame: ObservedFrame)
    requires frame.StateFrame?
    ensures var once := Applied(titles, view, frame);
      Applied(titles, once, frame) == once <==> forall record <- frame.activities :: !ShownUnnumbered(titles, record)
  {
    hide RememberAll, ShownUnnumbered, Present;
    var records := frame.activities;
    var merged := StateFields(view, frame);
    var remembered := RememberAll(titles, merged, records);
    var once := StateFlags(remembered, frame.realtime);
    RememberIgnoresRest(titles, merged, merged, records);
    MergingTwice(view, remembered, frame);
    assert StateFields(once, frame) == once;
    RememberTwice(titles, merged, records);
    RememberIgnoresRest(titles, remembered, remembered, records);
    RememberIgnoresRest(titles, remembered, once, records);
    var again := RememberAll(titles, once, records);
    FlagsTwice(remembered, again, frame.realtime);
  }

  lemma MergingTwice(view: View, remembered: View, frame: ObservedFrame)
    requires frame.StateFrame?
    requires var merged := StateFields(view, frame);
      remembered == merged.(activities := remembered.activities, seen := remembered.seen)
    ensures var once := StateFlags(remembered, frame.realtime);
      StateFields(once, frame) == once
  {}

  lemma FlagsTwice(remembered: View, again: View, realtime: bool)
    requires var once := StateFlags(remembered, realtime);
      again == once.(activities := again.activities, seen := again.seen)
    ensures var once := StateFlags(remembered, realtime);
      StateFlags(again, realtime) == once
      <==> again.activities == remembered.activities && again.seen == remembered.seen
  {}

  // ---------------------------------------------------------------------------
  // The response latches
  // ---------------------------------------------------------------------------

  lemma {:induction false} RememberKeepsFlags(titles: Titles, view: View, records: seq<Record>)
    ensures var after := RememberAll(titles, view, records);
      after == view.(activities := after.activities, seen := after.seen)
  {
    RememberIgnoresRest(titles, view, view, records);
  }

  /** Once the response has started, no frame takes that back. */
  lemma {:induction false} ResponseStartedLatches(titles: Titles, view: View, frames: seq<ObservedFrame>)
    requires view.responseStarted
    ensures AppliedAll(titles, view, frames).responseStarted
  {
    if frames != [] {
      hide Applied;
      ResponseStartedLatches(titles, view, frames[..|frames| - 1]);
      StartedAfter(titles, AppliedAll(titles, view, frames[..|frames| - 1]), frames[|frames| - 1]);
    }
  }

  lemma StartedAfter(titles: Titles, view: View, frame: ObservedFrame)
    requires view.responseStarted
    ensures Applied(titles, view, frame).responseStarted
  {
    hide RememberAll;
    if frame.StateFrame? {
      RememberKeepsFlags(titles, StateFields(view, frame), frame.activities);
    }
  }

  /** Its completion is no such latch: a state frame that is finalizing without any text takes it back, nothing else. */
  lemma CompletionIsTakenBack(titles: Titles, view: View, frame: ObservedFrame)
    requires view.responseCompleted
    ensures !Applied(titles, view, frame).responseCompleted
      <==> && frame.StateFrame? && frame.phase.GetOr(view.phase).Finalizing?
           && view.content == "" && frame.partialAnswer == "" && frame.answer == ""
  {
    hide RememberAll;
    if frame.StateFrame? {
      RememberKeepsFlags(titles, StateFields(view, frame), frame.activities);
    }
  }

  // ---------------------------------------------------------------------------
  // Concrete frames
  // ---------------------------------------------------------------------------

  /** Two frames that complete a response and take its completion back. */
  lemma AnEmptyStateFrameTakesCompletionBack(titles: Titles)
    ensures var completed := Applied(titles, NEW_VIEW, EventFrame(Some(1), AnswerCompleted));
      var frame := StateFrame(Some(Finalizing), Running, "", "", None, None, [], true);
      completed.responseCompleted && !Applied(titles, completed, frame).responseCompleted
  {
    hide Present;
    var completed := Applied(titles, NEW_VIEW, EventFrame(Some(1), AnswerCompleted));
    assert completed.responseCompleted && completed.content == "";
    CompletionIsTakenBack(titles, completed, StateFrame(Some(Finalizing), Running, "", "", None, None, [], true));
  }

  /** A state frame whose only activity carries no sequence: the second time it is shown again. */
  lemma AnUnnumberedActivityIsShownTwice()
    ensures var titles := (event: Event) => Some("step");
      var frame := StateFrame(Some(Reasoning), Running, "", "", None, None, [Record(None, ContextLoaded)], true);
      var once := Applied(titles, NEW_VIEW, frame);
      && once.activities == [Presentation(None, "step")]
      && Applied(titles, once, frame).activities == [Presentation(None, "step"), Presentation(None, "step")]
  {
    var titles := (event: Event) => Some("step");
    var record := Record(None, ContextLoaded);
    forall view: View ensures RememberAll(titles, view, [record]) == Remember(view, Presentation(None, "step")) {
      assert [record][..0] == [];
    }
  }

  /** A delta is shown as text and never as an activity, live or from a projection. */
  lemma DeltasAreNoActivities(titles: Titles, view: View, sequence: Option<nat>, text: string)
    ensures var next := Applied(titles, view, EventFrame(sequence, AssistantDelta(text)));
      next.content == view.content + text && next.activities == view.activities && next.seen == view.seen
    ensures RememberRecord(titles, view, Record(sequence, AssistantDelta(text))) == view
  {}
}
