/** What the wizard of telegram-bot/src/flows/presionFlow.ts does, step by
    step and along whole paths, stated over the step specifications. */
module PresionFlowProperties {
  import opened Wrappers
  import opened JsText
  import opened PresionParser
  import opened Conversation
  import DV = DynamicValidator
  import opened PresionFlow

  /** A text whose trim starts with a digit does not start with `/`. */
  lemma TrimmedDigitFirst(text: string)
    requires Trim(text) != [] && IsDigit(Trim(text)[0])
    ensures !StartsWith(text, "/")
  {
    var t := TrimStart(text);
    var r := TrimEnd(t);
    assert r == t[..|r|];
    assert r[0] == t[0];
    if |text| - |t| == 0 {
      assert t == text[0..];
      DigitIsNotSpace(text[0]);
    } else {
      assert IsJsSpace(text[0]);
    }
  }

  /** Text the shorthand parser accepts is not empty and is not a command. */
  lemma ParsedTextIsNotCommand(text: string)
    requires ParsePresionInput(text).Some?
    ensures text != "" && !StartsWith(text, "/")
  {
    ParseSound(text);
    var m := Match(Trim(text)).value;
    SpellEndsInDigit(m);
    TrimmedDigitFirst(text);
  }

  /** Entering gives fresh working data, the method menu and cursor 1,
      whatever the session held. */
  lemma EnterStartsAfresh(st: Snapshot)
    ensures Enter(st).state == Snapshot(Some(SceneSession(PresionSceneId, 1)), TempData(Some(EmptyPresion), map[]))
    ensures Enter(st).effects == [Reply(MethodMenu)]
  {
  }

  /** At cursor 1 the buttons leave, or select index 3 (`method_quick`) or 4
      (`method_step`), and leave the data as it was. */
  lemma MethodMenuChoices(st: Snapshot, u: Update, env: Backend)
    requires Ready(st) && Cursor(st) == 1
    ensures Action(u) == "cancel_flow" ==>
      Step(st, u, env) == Turn(st.(scenes := None), [AnswerCallback, Reply(Cancelled)])
    ensures Action(u) == "method_quick" ==>
      var r := Step(st, u, env).state;
      InWizard(r) && Cursor(r) == 3 && r.tempData == st.tempData
    ensures Action(u) == "method_step" ==>
      var r := Step(st, u, env).state;
      InWizard(r) && Cursor(r) == 4 && r.tempData == st.tempData
  {
  }

  /** No turn ever moves the cursor to 2; with `EnterStartsAfresh`, the
      shorthand-capture handler at index 2 is unreachable. */
  lemma CursorNeverBecomesTwo(st: Snapshot, u: Update, env: Backend)
    requires Ready(st) && Cursor(st) != 2
    ensures var r := Step(st, u, env).state; InWizard(r) ==> Cursor(r) != 2
  {
  }

  /** The shorthand turn on a text message ends after the arm question at
      cursor 8 with the reading merged in. */
  lemma ReadShorthandEndsAtArm(st: Snapshot, p: PresionResult, u: Update)
    requires InWizard(st) && Action(u) == ""
    ensures var t := ReadShorthand(st, p, u);
      && InWizard(t.state) && Cursor(t.state) == 8
      && t.state.tempData == st.tempData.(presion := Some(Merge(st.tempData.presion, p)))
      && t.effects == [Reply(ReadBack(p)), Reply(ArmPrompt)]
  {
  }

  /** `/cancelar` and whatever follows it is a command. */
  lemma CancelPrefixIsCommand(text: string)
    requires StartsWith(text, "/cancelar")
    ensures StartsWith(text, "/")
  {
    assert text[0] == text[..9][0] == '/';
    assert text[..1] == [text[0]];
  }

  /** At cursor 1 or 2 an accepted text message is the shorthand turn. */
  lemma StepRunsShorthand(st: Snapshot, text: string, p: PresionResult, env: Backend)
    requires Ready(st) && (Cursor(st) == 1 || Cursor(st) == 2)
    requires ParsePresionInput(text) == Some(p)
    ensures Step(st, TextMessage(text), env) == ReadShorthand(st, p, TextMessage(text))
  {
    var u := TextMessage(text);
    ParsedTextIsNotCommand(text);
    assert Action(u) == "" && MessageText(u) == text;
    if Cursor(st) == 1 {
      assert ChooseMethod(st, u) == ReadShorthand(st, p, u);
    } else {
      if StartsWith(text, "/cancelar") {
        CancelPrefixIsCommand(text);
      }
      assert QuickCapture(st, u) == ReadShorthand(st, p, u);
    }
  }

  /** Accepted shorthand at cursor 1 or 2 merges the reading and runs index 7
      in the same turn: the turn ends at cursor 8 after the arm question, the
      fasting question is never asked and `enAyunas` keeps its value. */
  lemma ShorthandSkipsFastingQuestion(st: Snapshot, text: string, p: PresionResult, env: Backend)
    requires Ready(st) && (Cursor(st) == 1 || Cursor(st) == 2)
    requires ParsePresionInput(text) == Some(p)
    ensures var t := Step(st, TextMessage(text), env);
      && InWizard(t.state) && Cursor(t.state) == 8
      && t.state.tempData == st.tempData.(presion := Some(Merge(st.tempData.presion, p)))
      && Data(t.state).enAyunas == st.tempData.presion.GetOr(EmptyPresion).enAyunas
      && Data(t.state).sistolica == Some(p.sistolica) && Data(t.state).diastolica == Some(p.diastolica)
      && Data(t.state).pulso == p.pulso
      && t.effects == [Reply(ReadBack(p)), Reply(ArmPrompt)]
  {
    var u := TextMessage(text);
    StepRunsShorthand(st, text, p, env);
    ReadShorthandEndsAtArm(st, p, u);
  }

  /** Typed text the parser rejects changes nothing and asks again: at
      cursor 1 any such text, at cursor 2 any such text except one starting
      with `/cancelar`, which leaves the wizard there. */
  lemma UnparsedShorthandKeepsState(st: Snapshot, text: string, env: Backend)
    requires Ready(st) && (Cursor(st) == 1 || Cursor(st) == 2)
    requires text != "" && (Cursor(st) == 2 ==> !StartsWith(text, "/cancelar"))
    requires ParsePresionInput(text) == None
    ensures Step(st, TextMessage(text), env).state == st
    ensures |Step(st, TextMessage(text), env).effects| == 1
  {
  }

  /** Index 3: commands and empty text are ignored; a value that `parseInt`
      cannot read or that lies outside [60, 300] asks again with nothing
      changed; a valid one is stored and the cursor moves on by one. */
  lemma SystolicStep(st: Snapshot, u: Update, env: Backend)
    requires Ready(st) && Cursor(st) == 3
    ensures Ignored(MessageText(u)) ==> Step(st, u, env) == Turn(st, [])
    ensures !Ignored(MessageText(u)) ==>
      var n := ParseInt(MessageText(u));
      if n.Some? && 60 <= n.value <= 300 then
        Step(st, u, env).state == AfterNext(WithData(st, Data(st).(sistolica := n)))
      else Step(st, u, env) == Turn(st, [Reply(InvalidSystolic)])
  {
  }

  /** Index 4: as index 3, over [30, 200], storing `diastolica`. */
  lemma DiastolicStep(st: Snapshot, u: Update, env: Backend)
    requires Ready(st) && Cursor(st) == 4
    ensures Ignored(MessageText(u)) ==> Step(st, u, env) == Turn(st, [])
    ensures !Ignored(MessageText(u)) ==>
      var n := ParseInt(MessageText(u));
      if n.Some? && 30 <= n.value <= 200 then
        Step(st, u, env).state == AfterNext(WithData(st, Data(st).(diastolica := n)))
      else Step(st, u, env) == Turn(st, [Reply(InvalidDiastolic)])
  {
  }

  /** `parseInt("120/80", 10)` is 120. */
  lemma ParseIntOfReading()
    ensures ParseInt("120/80") == Some(120)
  {
    var s := "120/80";
    assert s[0] == '1';
    DigitIsNotSpace(s[0]);
    assert TrimStart(s) == s;
    assert Unsigned(s) == s;
    assert s == "120" + "/80";
    SpanOfRun("120", "/80", IsDigit);
    assert s[..3] == "120";
    assert "120"[..2] == "12";
    assert "12"[..1] == "1";
    assert DecimalValue("120") == 120;
  }

  /** The typed-number steps read a leading number: `120/80` typed as the
      systolic value stores 120. */
  lemma SystolicReadsLeadingNumber(st: Snapshot, env: Backend)
    requires Ready(st) && Cursor(st) == 3
    ensures Data(Step(st, TextMessage("120/80"), env).state).sistolica == Some(120)
  {
    var u := TextMessage("120/80");
    assert MessageText(u) == "120/80";
    assert "120/80"[0] == '1';
    assert !Ignored("120/80");
    ParseIntOfReading();
    SystolicStep(st, u, env);
  }

  /** The head test of index 6 compares the cursor with 7 while index 6 runs,
      so its branch is never taken. */
  lemma PulseShortcutIsDead(st: Snapshot)
    requires InWizard(st) && HasData(st) && Cursor(st) == 6
    ensures !PulseAlreadyTaken(st)
  {
  }

  /** Index 6: `skip_pulso` and any other button move on without a pulse; a
      command, or no text and no button, changes nothing; typed text stores a
      pulse only strictly between 30 and 250 and otherwise asks again. */
  lemma PulseStep(st: Snapshot, u: Update, env: Backend)
    requires Ready(st) && Cursor(st) == 6
    ensures Action(u) == "skip_pulso" ==>
      Step(st, u, env) == Turn(AfterNext(st), [AnswerCallback, Reply(FastingPrompt)])
    ensures Action(u) != "skip_pulso" && MessageText(u) != "" ==>
      var n := ParseInt(MessageText(u));
      if StartsWith(MessageText(u), "/") then Step(st, u, env) == Turn(st, [])
      else if n.Some? && 30 < n.value < 250 then
        Step(st, u, env) == Turn(AfterNext(WithData(st, Data(st).(pulso := n))), [Reply(FastingPrompt)])
      else Step(st, u, env) == Turn(st, [Reply(InvalidPulse)])
    ensures MessageText(u) == "" && Action(u) == "" ==> Step(st, u, env) == Turn(st, [])
    ensures MessageText(u) == "" && Action(u) != "" && Action(u) != "skip_pulso" ==>
      Step(st, u, env) == Turn(AfterNext(st), [Reply(FastingPrompt)])
  {
  }

  /** A pulse of 30 in shorthand is read. */
  lemma ShorthandPulseOfThirty()
    ensures ParsePresionInput("120/80 30") == Some(PresionResult(120, 80, Some(30)))
  {
    assert NatToString(120) == "120";
    assert NatToString(80) == "80";
    assert NatToString(30) == "30";
    assert "120/80 30" == NatToString(120) + "/" + NatToString(80) + " " + NatToString(30);
    assert IsSeparatorRun("/") && IsSeparatorRun(" ");
    RoundTripTriple(120, 80, 30, "/", " ");
  }

  /** `parseInt("30", 10)` is 30. */
  lemma ParseIntOfThirty()
    ensures ParseInt("30") == Some(30)
  {
    assert "30"[..1] == "3";
    assert DecimalValue("30") == 30;
    ParseIntOfDigits("30", "");
    assert "30" == "30" + "";
  }

  /** The bounds of the pulse step are strict where the parser's are
      inclusive: the pulse of 30 that `ShorthandPulseOfThirty` reads is
      refused when typed at index 6, and nothing changes. */
  lemma TypedPulseOfThirtyRefused(st: Snapshot, env: Backend)
    requires Ready(st) && Cursor(st) == 6
    ensures Step(st, TextMessage("30"), env) == Turn(st, [Reply(InvalidPulse)])
  {
    var u := TextMessage("30");
    assert MessageText(u) == "30" && Action(u) == "";
    assert "30"[0] == '3';
    assert !StartsWith("30", "/");
    ParseIntOfThirty();
    PulseStep(st, u, env);
  }

  /** Indexes 5, 7 and 8 move on by exactly one on every update; 7 sets
      `enAyunas` only for the two fasting buttons and 8 sets `brazo` only for
      the two arm buttons, and nothing else changes. */
  lemma AnswerStepsAdvance(st: Snapshot, u: Update, env: Backend)
    requires Ready(st) && 5 <= Cursor(st) <= 8 && Cursor(st) != 6
    ensures var r := Step(st, u, env).state;
      && InWizard(r) && Cursor(r) == Cursor(st) + 1
      && r.tempData.scratch == st.tempData.scratch
      && (Cursor(st) == 5 ==> r == AfterNext(st))
    ensures Cursor(st) == 7 ==>
      var a := Action(u);
      Data(Step(st, u, env).state) ==
        if a == "ayunas_yes" then Data(st).(enAyunas := Some(true))
        else if a == "ayunas_no" then Data(st).(enAyunas := Some(false))
        else Data(st)
    ensures Cursor(st) == 8 ==>
      var a := Action(u);
      Data(Step(st, u, env).state) ==
        if a == "arm_left" then Data(st).(brazo := Some(Izquierdo))
        else if a == "arm_right" then Data(st).(brazo := Some(Derecho))
        else Data(st)
  {
  }

  /** The summary shows `-` exactly for an unset or zero pulse, an unset
      fasting answer and an unset arm. */
  lemma SummaryPlaceholders(d: PresionData)
    ensures SummaryLines(d)[1] == "Pulso: -" <==> (d.pulso.None? || d.pulso.value == 0)
    ensures SummaryLines(d)[2] == "Ayunas: -" <==> d.enAyunas.None?
    ensures SummaryLines(d)[3] == "Brazo: -" <==> d.brazo.None?
  {
    if d.pulso.Some? && d.pulso.value != 0 {
      assert |SummaryLines(d)[1]| > |"Pulso: -"|;
    }
  }

  /** Index 9 leaves the wizard on every update, keeping the working data. */
  lemma SaveAlwaysLeaves(st: Snapshot, u: Update, env: Backend)
    requires Ready(st) && Cursor(st) == 9
    ensures Step(st, u, env).state == Snapshot(None, st.tempData)
  {
  }

  /** What `Persist` inserts: the validated data, and only when there is a
      user, the subcategory, a schema and a successful validation. */
  lemma PersistInsertsValidated(d: PresionData, env: Backend)
    ensures (exists e :: e in Persist(d, env) && e.Insert?) <==>
      && env.hasUser && env.subcategory.Some?
      && DV.ValidateRecordData(env.subcategory.value.fields, RecordData(d), env.ext).Ok?
      && DV.ValidateRecordData(env.subcategory.value.fields, RecordData(d), env.ext).value.Success?
    ensures forall e :: e in Persist(d, env) && e.Insert? ==>
      e == Insert(env.subcategory.value.id,
                  DV.ValidateRecordData(env.subcategory.value.fields, RecordData(d), env.ext).value.data)
  {
    if env.hasUser && env.subcategory.Some? {
      var sub := env.subcategory.value;
      var v := DV.ValidateRecordData(sub.fields, RecordData(d), env.ext);
      if v.Ok? && v.value.Success? {
        assert Persist(d, env)[0] == Insert(sub.id, v.value.data);
      }
    }
  }

  /** At cursor 9 the turn is the save handler. */
  lemma StepAtNineSaves(st: Snapshot, u: Update, env: Backend)
    requires Ready(st) && Cursor(st) == 9
    ensures Step(st, u, env) == Save(st, u, env)
  {
  }

  /** A record is inserted only on `confirm_save`, with a user and the
      subcategory, once validation of the measurement succeeds, and then
      exactly the validated data goes into the insert. */
  lemma InsertOnlyAfterValidation(st: Snapshot, u: Update, env: Backend)
    requires Ready(st) && Cursor(st) == 9
    ensures (exists e :: e in Step(st, u, env).effects && e.Insert?) <==>
      && Action(u) == "confirm_save" && env.hasUser && env.subcategory.Some?
      && DV.ValidateRecordData(env.subcategory.value.fields, RecordData(Data(st)), env.ext).Ok?
      && DV.ValidateRecordData(env.subcategory.value.fields, RecordData(Data(st)), env.ext).value.Success?
    ensures forall e :: e in Step(st, u, env).effects && e.Insert? ==>
      e == Insert(env.subcategory.value.id,
                  DV.ValidateRecordData(env.subcategory.value.fields, RecordData(Data(st)), env.ext).value.data)
  {
    StepAtNineSaves(st, u, env);
    var persisted := Persist(Data(st), env);
    PersistInsertsValidated(Data(st), env);
    var effects := Step(st, u, env).effects;
    if Action(u) == "confirm_save" {
      assert effects == [AnswerCallback] + [Reply(Saving)] + persisted;
      assert forall e :: e in effects && e.Insert? ==> e in persisted;
      if exists e :: e in persisted && e.Insert? {
        var e :| e in persisted && e.Insert?;
        assert e in effects;
      }
    } else {
      assert forall e :: e in effects ==> !e.Insert?;
    }
  }

  /** From index 4 on no handler writes `sistolica`. */
  lemma LaterStepsKeepSystolic(st: Snapshot, u: Update, env: Backend)
    requires Ready(st) && 4 <= Cursor(st) <= 9
    ensures var r := Step(st, u, env).state;
      HasData(r) && Data(r).sistolica == Data(st).sistolica
  {
  }

  /** `method_step` right after entering selects the diastolic step, so along
      that path the systolic pressure is never asked for and stays unset. */
  lemma StepByStepSkipsSystolic(st: Snapshot, env: Backend)
    ensures var entered := Enter(st).state;
      var r := Step(entered, ButtonPress("method_step"), env).state;
      && InWizard(r) && Cursor(r) == 4 && HasData(r) && Data(r).sistolica == None
  {
  }

  /** A turn from a ready session at cursor `k` lands ready, between 1 and
      9 when it started there, whenever the wizard stays current. */
  predicate LandsReady(k: int, r: Snapshot) {
    InWizard(r) ==> Ready(r) && (1 <= k < StepCount ==> 1 <= Cursor(r) < StepCount)
  }

  /** Every turn keeps the session ready while the wizard stays current, and
      a cursor between 1 and 9 stays there. */
  lemma StepKeepsReady(st: Snapshot, u: Update, env: Backend)
    requires Ready(st)
    ensures LandsReady(Cursor(st), Step(st, u, env).state)
  {
    var k := Cursor(st);
    if k == 1 {
      ChooseMethodLandsReady(st, u);
    } else if k == 2 {
      QuickCaptureLandsReady(st, u);
    } else if k == 6 {
      assert Step(st, u, env) == CapturePulse(st, u);
    }
  }

  lemma ChooseMethodLandsReady(st: Snapshot, u: Update)
    requires Ready(st) && Cursor(st) == 1
    ensures LandsReady(1, ChooseMethod(st, u).state)
  {
  }

  lemma QuickCaptureLandsReady(st: Snapshot, u: Update)
    requires Ready(st) && Cursor(st) == 2
    ensures LandsReady(2, QuickCapture(st, u).state)
  {
  }
}
