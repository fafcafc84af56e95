/** The blood-pressure wizard of telegram-bot/src/flows/presionFlow.ts: ten
    step handlers indexed 0 to 9, selected by the wizard cursor, each reading
    one update and changing the session in place.

    Each handler is specified by a function from the session before the turn
    to a `Turn` (the session after it and the effects issued), and is
    implemented by a method on a `Session` whose postcondition is that
    function. */
module PresionFlow {
  import opened Wrappers
  import opened JsText
  import opened PresionParser
  import opened Conversation
  import DV = DynamicValidator

  /** The number of step handlers. */
  const StepCount := 10

  /** The wizard is the current scene. */
  predicate InWizard(st: Snapshot) {
    st.scenes.Some? && st.scenes.value.current == PresionSceneId
  }

  function Cursor(st: Snapshot): int
    requires InWizard(st)
  {
    st.scenes.value.cursor
  }

  predicate HasData(st: Snapshot) {
    st.tempData.presion.Some?
  }

  function Data(st: Snapshot): PresionData
    requires HasData(st)
  {
    st.tempData.presion.value
  }

  /** The handlers from index 1 on read `tempData.presion` with a non-null
      assertion: a session is ready for a turn when the wizard is current and,
      past step 0, the measurement exists. */
  predicate Ready(st: Snapshot) {
    InWizard(st) && (1 <= Cursor(st) < StepCount ==> HasData(st))
  }

  /** `ctx.wizard.next()`. */
  function AfterNext(st: Snapshot): Snapshot
    requires InWizard(st)
  {
    st.(scenes := Some(st.scenes.value.(cursor := Cursor(st) + 1)))
  }

  /** `ctx.wizard.selectStep(k)`. */
  function AfterSelect(st: Snapshot, k: int): Snapshot
    requires InWizard(st)
  {
    st.(scenes := Some(st.scenes.value.(cursor := k)))
  }

  /** `ctx.scene.leave()`. */
  function AfterLeave(st: Snapshot): Snapshot {
    st.(scenes := None)
  }

  function WithData(st: Snapshot, d: PresionData): Snapshot {
    st.(tempData := st.tempData.(presion := Some(d)))
  }

  /** The session after a turn and the effects the turn issued, in order. */
  datatype Turn = Turn(state: Snapshot, effects: seq<Effect>)

  /** `if (action) await ctx.answerCbQuery()`. */
  function Ack(u: Update): seq<Effect> {
    if Action(u) != "" then [AnswerCallback] else []
  }

  // ---------------------------------------------------------------------
  // Step specifications

  /** Index 0: fresh working data (the scratch fields of other flows are
      dropped with it), the method menu, and on to index 1. */
  function AskMethod(st: Snapshot): Turn
    requires InWizard(st)
  {
    Turn(AfterNext(st.(tempData := TempData(Some(EmptyPresion), map[]))), [Reply(MethodMenu)])
  }

  /** `{ ...presion, ...parsed }`: the parse result overwrites the three
      readings, `pulso` included even when the shorthand had no pulse. */
  function Merge(old_: Option<PresionData>, parsed: PresionResult): PresionData {
    old_.GetOr(EmptyPresion).(sistolica := Some(parsed.sistolica),
                              diastolica := Some(parsed.diastolica),
                              pulso := parsed.pulso)
  }

  /** The accepted shorthand: merge, read back, select index 7 and run it in
      the same turn. */
  function ReadShorthand(st: Snapshot, parsed: PresionResult, u: Update): Turn
    requires InWizard(st)
  {
    var t := CaptureFasting(AfterSelect(WithData(st, Merge(st.tempData.presion, parsed)), 7), u);
    Turn(t.state, [Reply(ReadBack(parsed))] + t.effects)
  }

  /** Index 1: the menu buttons, or shorthand typed straight away. */
  function ChooseMethod(st: Snapshot, u: Update): Turn
    requires InWizard(st)
  {
    var action := Action(u);
    var text := MessageText(u);
    if action == "cancel_flow" then Turn(AfterLeave(st), [AnswerCallback, Reply(Cancelled)])
    else if action == "method_quick" then Turn(AfterSelect(st, 3), [AnswerCallback, Reply(QuickFormatPrompt)])
    else if action == "method_step" then Turn(AfterSelect(st, 4), [AnswerCallback, Reply(SystolicPrompt)])
    else if text != "" then
      match ParsePresionInput(text)
      case Some(parsed) => ReadShorthand(st, parsed, u)
      case None => Turn(st, [Reply(UnrecognisedFormat)])
    else Turn(st, [])
  }

  /** Index 2: shorthand capture. */
  function QuickCapture(st: Snapshot, u: Update): Turn
    requires InWizard(st)
  {
    var text := MessageText(u);
    if text != "" && StartsWith(text, "/cancelar") then Turn(AfterLeave(st), [Reply(Cancelled)])
    else if text == "" then Turn(st, [])
    else
      match ParsePresionInput(text)
      case Some(parsed) => ReadShorthand(st, parsed, u)
      case None => Turn(st, [Reply(InvalidFormat)])
  }

  /** The shared guard of the typed-number steps: no text, or a command. */
  predicate Ignored(text: string) {
    text == "" || StartsWith(text, "/")
  }

  /** Index 3: systolic pressure, `parseInt` within [60, 300]. */
  function CaptureSystolic(st: Snapshot, u: Update): Turn
    requires InWizard(st) && HasData(st)
  {
    var text := MessageText(u);
    if Ignored(text) then Turn(st, [])
    else
      var n := ParseInt(text);
      if n.None? || n.value < 60 || n.value > 300 then Turn(st, [Reply(InvalidSystolic)])
      else Turn(AfterNext(WithData(st, Data(st).(sistolica := n))), [Reply(DiastolicPrompt)])
  }

  /** Index 4: diastolic pressure, `parseInt` within [30, 200]; no reply on
      success. */
  function CaptureDiastolic(st: Snapshot, u: Update): Turn
    requires InWizard(st) && HasData(st)
  {
    var text := MessageText(u);
    if Ignored(text) then Turn(st, [])
    else
      var n := ParseInt(text);
      if n.None? || n.value < 30 || n.value > 200 then Turn(st, [Reply(InvalidDiastolic)])
      else Turn(AfterNext(WithData(st, Data(st).(diastolica := n))), [])
  }

  /** Index 5: the pulse question, on any update. */
  function AskPulse(st: Snapshot): Turn
    requires InWizard(st)
  {
    Turn(AfterNext(st), [Reply(PulsePrompt)])
  }

  /** The test at the head of index 6: a truthy pulse while the cursor is 7. */
  predicate PulseAlreadyTaken(st: Snapshot)
    requires InWizard(st) && HasData(st)
  {
    Data(st).pulso.Some? && Data(st).pulso.value != 0 && Cursor(st) == 7
  }

  /** The fasting question and on to the next index. */
  function ToFasting(st: Snapshot, acked: seq<Effect>): Turn
    requires InWizard(st)
  {
    Turn(AfterNext(st), acked + [Reply(FastingPrompt)])
  }

  /** Index 6: pulse capture, `parseInt` strictly between 30 and 250. */
  function CapturePulse(st: Snapshot, u: Update): Turn
    requires InWizard(st) && HasData(st)
  {
    if PulseAlreadyTaken(st) then ToFasting(st, [])
    else
      var text := MessageText(u);
      var action := Action(u);
      if action == "skip_pulso" then ToFasting(st, [AnswerCallback])
      else if text != "" then
        if StartsWith(text, "/") then Turn(st, [])
        else
          var n := ParseInt(text);
          if n.Some? && n.value > 30 && n.value < 250 then ToFasting(WithData(st, Data(st).(pulso := n)), [])
          else Turn(st, [Reply(InvalidPulse)])
      else if action == "" then Turn(st, [])
      else ToFasting(st, [])
  }

  /** Index 7: the fasting answer, then the arm question. */
  function CaptureFasting(st: Snapshot, u: Update): Turn
    requires InWizard(st) && HasData(st)
  {
    var action := Action(u);
    var d := Data(st);
    var d' := if action == "ayunas_yes" then d.(enAyunas := Some(true))
              else if action == "ayunas_no" then d.(enAyunas := Some(false))
              else d;
    Turn(AfterNext(WithData(st, d')), Ack(u) + [Reply(ArmPrompt)])
  }

  /** `${value}` of an optional number: `undefined` when unset. */
  function Shown(n: Option<int>): string {
    if n.Some? then IntToString(n.value) else "undefined"
  }

  /** The four lines of the summary, in order, without decoration. */
  function SummaryLines(d: PresionData): (lines: seq<string>)
    ensures |lines| == 4
    ensures StartsWith(lines[0], "Presión: ") && StartsWith(lines[1], "Pulso: ")
    ensures StartsWith(lines[2], "Ayunas: ") && StartsWith(lines[3], "Brazo: ")
  {
    ["Presión: " + Shown(d.sistolica) + "/" + Shown(d.diastolica) + " mmHg",
     "Pulso: " + (if d.pulso.Some? && d.pulso.value != 0 then IntToString(d.pulso.value) + " bpm" else "-"),
     "Ayunas: " + (if d.enAyunas.None? then "-" else if d.enAyunas.value then "Sí" else "No"),
     "Brazo: " + (if d.brazo.None? then "-" else if d.brazo.value == Izquierdo then "Izquierdo" else "Derecho")]
  }

  /** Index 8: the arm answer, then the summary. */
  function CaptureArm(st: Snapshot, u: Update): Turn
    requires InWizard(st) && HasData(st)
  {
    var action := Action(u);
    var d := Data(st);
    var d' := if action == "arm_left" then d.(brazo := Some(Izquierdo))
              else if action == "arm_right" then d.(brazo := Some(Derecho))
              else d;
    Turn(AfterNext(WithData(st, d')), Ack(u) + [Reply(Summary(SummaryLines(d')))])
  }

  /** The stored subcategory `presion-arterial`: its id and field
      definitions. */
  datatype Subcategory = Subcategory(id: string, fields: seq<DV.FieldDefinition>)

  /** What the save step learns from outside: whether the authenticated user
      is present, the subcategory lookup (`None` on a lookup error), whether
      the insert succeeds, and the regular-expression and datetime
      primitives. */
  datatype Backend = Backend(hasUser: bool, subcategory: Option<Subcategory>,
                             insertSucceeds: bool, ext: DV.Foreign)

  function NumberEntry(n: Option<int>): Option<DV.Value> {
    if n.Some? then Some(DV.Num(n.value as real)) else None
  }

  function Entered(m: map<string, DV.Value>, key: string, v: Option<DV.Value>): map<string, DV.Value> {
    if v.Some? then m[key := v.value] else m
  }

  /** The record handed to the validator: the five keys, each present only
      when its value is defined. */
  function RecordData(d: PresionData): (m: map<string, DV.Value>)
    ensures DV.Get(m, "sistolica") == NumberEntry(d.sistolica)
    ensures DV.Get(m, "diastolica") == NumberEntry(d.diastolica)
    ensures DV.Get(m, "pulso") == NumberEntry(d.pulso)
    ensures DV.Get(m, "en_ayunas") == (if d.enAyunas.Some? then Some(DV.Bool(d.enAyunas.value)) else None)
    ensures DV.Get(m, "brazo") == (if d.brazo.None? then None
                                    else if d.brazo.value == Izquierdo then Some(DV.Str("izquierdo"))
                                    else Some(DV.Str("derecho")))
    ensures forall k :: k in m ==> k in {"sistolica", "diastolica", "pulso", "en_ayunas", "brazo"}
  {
    var m := Entered(map[], "sistolica", NumberEntry(d.sistolica));
    var m := Entered(m, "diastolica", NumberEntry(d.diastolica));
    var m := Entered(m, "pulso", NumberEntry(d.pulso));
    var m := Entered(m, "en_ayunas", if d.enAyunas.Some? then Some(DV.Bool(d.enAyunas.value)) else None);
    Entered(m, "brazo", if d.brazo.None? then None
                        else if d.brazo.value == Izquierdo then Some(DV.Str("izquierdo"))
                        else Some(DV.Str("derecho")))
  }

  /** The body of the `try` in the save step, after "saving" was sent. Every
      thrown error ends in the one failure reply. */
  function Persist(d: PresionData, env: Backend): seq<Effect> {
    if !env.hasUser || env.subcategory.None? then [Reply(SaveFailed)]
    else
      var sub := env.subcategory.value;
      match DV.ValidateRecordData(sub.fields, RecordData(d), env.ext)
      case Err(_) => [Reply(SaveFailed)]
      case Ok(Failure(issues)) => [Reply(ValidationFailed(DV.FormatValidationErrors(issues, env.ext)))]
      case Ok(Success(clean)) => [Insert(sub.id, clean), Reply(if env.insertSucceeds then Saved else SaveFailed)]
  }

  /** Index 9: cancel or confirm; the wizard is left in every case. */
  function Save(st: Snapshot, u: Update, env: Backend): Turn
    requires InWizard(st) && HasData(st)
  {
    var action := Action(u);
    var said := if action == "cancel_save" then [Reply(Cancelled)]
                else if action == "confirm_save" then [Reply(Saving)] + Persist(Data(st), env)
                else [];
    Turn(AfterLeave(st), Ack(u) + said)
  }

  /** One update while the wizard is current: the handler at the cursor, or,
      at an index with no handler, back to 0 and out of the scene. */
  function Step(st: Snapshot, u: Update, env: Backend): Turn
    requires Ready(st)
  {
    var k := Cursor(st);
    if k == 0 then AskMethod(st)
    else if k == 1 then ChooseMethod(st, u)
    else if k == 2 then QuickCapture(st, u)
    else if k == 3 then CaptureSystolic(st, u)
    else if k == 4 then CaptureDiastolic(st, u)
    else if k == 5 then AskPulse(st)
    else if k == 6 then CapturePulse(st, u)
    else if k == 7 then CaptureFasting(st, u)
    else if k == 8 then CaptureArm(st, u)
    else if k == 9 then Save(st, u, env)
    else Turn(AfterLeave(st), [])
  }

  /** `ctx.scene.enter('PRESION_FLOW')`: the scene record restarts at 0 and
      step 0 runs. */
  function Enter(st: Snapshot): Turn {
    AskMethod(st.(scenes := Some(SceneSession(PresionSceneId, 0))))
  }

  // ---------------------------------------------------------------------
  // The handlers, on a session in place

  method AskMethodStep(s: Session) returns (effects: seq<Effect>)
    requires InWizard(s.State())
    modifies s
    ensures Turn(s.State(), effects) == AskMethod(old(s.State()))
  {
    s.tempData := TempData(Some(EmptyPresion), map[]);
    effects := [Reply(MethodMenu)];
    s.Next();
  }

  method ReadShorthandStep(s: Session, parsed: PresionResult, u: Update) returns (effects: seq<Effect>)
    requires InWizard(s.State())
    modifies s
    ensures Turn(s.State(), effects) == ReadShorthand(old(s.State()), parsed, u)
  {
    s.SetPresion(Merge(s.tempData.presion, parsed));
    s.SelectStep(7);
    var rest := CaptureFastingStep(s, u);
    effects := [Reply(ReadBack(parsed))] + rest;
  }

  method ChooseMethodStep(s: Session, u: Update) returns (effects: seq<Effect>)
    requires InWizard(s.State())
    modifies s
    ensures Turn(s.State(), effects) == ChooseMethod(old(s.State()), u)
  {
    var action := Action(u);
    if action == "cancel_flow" {
      effects := [AnswerCallback, Reply(Cancelled)];
      s.Leave();
      return;
    }
    var text := MessageText(u);
    if action == "method_quick" {
      effects := [AnswerCallback, Reply(QuickFormatPrompt)];
      s.SelectStep(3);
      return;
    }
    if action == "method_step" {
      effects := [AnswerCallback, Reply(SystolicPrompt)];
      s.SelectStep(4);
      return;
    }
    effects := [];
    if text != "" {
      var parsed := ParsePresionInput(text);
      if parsed.Some? {
        effects := ReadShorthandStep(s, parsed.value, u);
      } else {
        effects := [Reply(UnrecognisedFormat)];
      }
    }
  }

  method QuickCaptureStep(s: Session, u: Update) returns (effects: seq<Effect>)
    requires InWizard(s.State())
    modifies s
    ensures Turn(s.State(), effects) == QuickCapture(old(s.State()), u)
  {
    var text := MessageText(u);
    if text != "" && StartsWith(text, "/cancelar") {
      effects := [Reply(Cancelled)];
      s.Leave();
      return;
    }
    if text == "" {
      return [];
    }
    var parsed := ParsePresionInput(text);
    if parsed.Some? {
      effects := ReadShorthandStep(s, parsed.value, u);
    } else {
      effects := [Reply(InvalidFormat)];
    }
  }

  method CaptureSystolicStep(s: Session, u: Update) returns (effects: seq<Effect>)
    requires InWizard(s.State()) && HasData(s.State())
    modifies s
    ensures Turn(s.State(), effects) == CaptureSystolic(old(s.State()), u)
  {
    var text := MessageText(u);
    if text == "" || StartsWith(text, "/") {
      return [];
    }
    var sistolica := ParseInt(text);
    if sistolica.None? || sistolica.value < 60 || sistolica.value > 300 {
      return [Reply(InvalidSystolic)];
    }
    s.SetPresion(s.tempData.presion.value.(sistolica := sistolica));
    effects := [Reply(DiastolicPrompt)];
    s.Next();
  }

  method CaptureDiastolicStep(s: Session, u: Update) returns (effects: seq<Effect>)
    requires InWizard(s.State()) && HasData(s.State())
    modifies s
    ensures Turn(s.State(), effects) == CaptureDiastolic(old(s.State()), u)
  {
    var text := MessageText(u);
    if text == "" || StartsWith(text, "/") {
      return [];
    }
    var diastolica := ParseInt(text);
    if diastolica.None? || diastolica.value < 30 || diastolica.value > 200 {
      return [Reply(InvalidDiastolic)];
    }
    s.SetPresion(s.tempData.presion.value.(diastolica := diastolica));
    effects := [];
    s.Next();
  }

  method AskPulseStep(s: Session) returns (effects: seq<Effect>)
    requires InWizard(s.State())
    modifies s
    ensures Turn(s.State(), effects) == AskPulse(old(s.State()))
  {
    effects := [Reply(PulsePrompt)];
    s.Next();
  }

  method CapturePulseStep(s: Session, u: Update) returns (effects: seq<Effect>)
    requires InWizard(s.State()) && HasData(s.State())
    modifies s
    ensures Turn(s.State(), effects) == CapturePulse(old(s.State()), u)
  {
    effects := [];
    var data := s.tempData.presion.value;
    if !(data.pulso.Some? && data.pulso.value != 0 && s.scenes.value.cursor == 7) {
      var text := MessageText(u);
      var action := Action(u);
      if action == "skip_pulso" {
        effects := [AnswerCallback];
      } else if text != "" {
        if StartsWith(text, "/") {
          return;
        }
        var pulso := ParseInt(text);
        if pulso.Some? && pulso.value > 30 && pulso.value < 250 {
          s.SetPresion(data.(pulso := pulso));
        } else {
          effects := [Reply(InvalidPulse)];
          return;
        }
      } else if action == "" {
        return;
      }
    }
    effects := effects + [Reply(FastingPrompt)];
    s.Next();
  }

  method CaptureFastingStep(s: Session, u: Update) returns (effects: seq<Effect>)
    requires InWizard(s.State()) && HasData(s.State())
    modifies s
    ensures Turn(s.State(), effects) == CaptureFasting(old(s.State()), u)
  {
    var action := Action(u);
    effects := if action != "" then [AnswerCallback] else [];
    if action == "ayunas_yes" {
      s.SetPresion(s.tempData.presion.value.(enAyunas := Some(true)));
    }
    if action == "ayunas_no" {
      s.SetPresion(s.tempData.presion.value.(enAyunas := Some(false)));
    }
    effects := effects + [Reply(ArmPrompt)];
    s.Next();
  }

  method CaptureArmStep(s: Session, u: Update) returns (effects: seq<Effect>)
    requires InWizard(s.State()) && HasData(s.State())
    modifies s
    ensures Turn(s.State(), effects) == CaptureArm(old(s.State()), u)
  {
    var action := Action(u);
    effects := if action != "" then [AnswerCallback] else [];
    if action == "arm_left" {
      s.SetPresion(s.tempData.presion.value.(brazo := Some(Izquierdo)));
    }
    if action == "arm_right" {
      s.SetPresion(s.tempData.presion.value.(brazo := Some(Derecho)));
    }
    var data := s.tempData.presion.value;
    effects := effects + [Reply(Summary(SummaryLines(data)))];
    s.Next();
  }

  /** The `try` block of the save step: look-ups, schema, validation and
      insert, in that order. */
  method PersistRecord(d: PresionData, env: Backend) returns (effects: seq<Effect>)
    ensures effects == Persist(d, env)
  {
    if !env.hasUser || env.subcategory.None? {
      return [Reply(SaveFailed)];
    }
    var sub := env.subcategory.value;
    var schema := DV.BuildDynamicSchema(sub.fields, env.ext);
    if schema.Err? {
      return [Reply(SaveFailed)];
    }
    var record := RecordData(d);
    var validation := DV.SafeParse(schema.value, record, env.ext);
    assert DV.ValidateRecordData(sub.fields, record, env.ext) == Ok(validation);
    match validation
    case Failure(issues) =>
      effects := [Reply(ValidationFailed(DV.FormatValidationErrors(issues, env.ext)))];
    case Success(clean) =>
      effects := [Insert(sub.id, clean), Reply(if env.insertSucceeds then Saved else SaveFailed)];
  }

  method SaveStep(s: Session, u: Update, env: Backend) returns (effects: seq<Effect>)
    requires InWizard(s.State()) && HasData(s.State())
    modifies s
    ensures Turn(s.State(), effects) == Save(old(s.State()), u, env)
  {
    var action := Action(u);
    effects := if action != "" then [AnswerCallback] else [];
    if action == "cancel_save" {
      effects := effects + [Reply(Cancelled)];
      s.Leave();
      return;
    }
    if action == "confirm_save" {
      effects := effects + [Reply(Saving)];
      var persisted := PersistRecord(s.tempData.presion.value, env);
      effects := effects + persisted;
    }
    s.Leave();
  }

  /** The wizard's middleware: the handler at the cursor. */
  method RunStep(s: Session, u: Update, env: Backend) returns (effects: seq<Effect>)
    requires Ready(s.State())
    modifies s
    ensures Turn(s.State(), effects) == Step(old(s.State()), u, env)
  {
    var k := s.scenes.value.cursor;
    if k == 0 {
      effects := AskMethodStep(s);
    } else if k == 1 {
      effects := ChooseMethodStep(s, u);
    } else if k == 2 {
      effects := QuickCaptureStep(s, u);
    } else if k == 3 {
      effects := CaptureSystolicStep(s, u);
    } else if k == 4 {
      effects := CaptureDiastolicStep(s, u);
    } else if k == 5 {
      effects := AskPulseStep(s);
    } else if k == 6 {
      effects := CapturePulseStep(s, u);
    } else if k == 7 {
      effects := CaptureFastingStep(s, u);
    } else if k == 8 {
      effects := CaptureArmStep(s, u);
    } else if k == 9 {
      effects := SaveStep(s, u, env);
    } else {
      s.SelectStep(0);
      s.Leave();
      effects := [];
    }
  }

  /** Entering the wizard. */
  method EnterWizard(s: Session) returns (effects: seq<Effect>)
    modifies s
    ensures Turn(s.State(), effects) == Enter(old(s.State()))
  {
    s.EnterScene(PresionSceneId);
    effects := AskMethodStep(s);
  }
}
