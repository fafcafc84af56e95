/** One update through the middleware chain of telegram-bot/src/bot.ts:48-50:
    the command interceptor first, then the scene stage, which runs the
    wizard's handler when the wizard is current and otherwise hands the
    update on to the global handlers. Of those, only the button that starts
    the wizard (telegram-bot/src/commands/register.ts:27-30) is modelled. */
module BotPipeline {
  import opened Wrappers
  import opened JsText
  import opened PresionParser
  import opened Conversation
  import opened CommandInterceptor
  import opened PresionFlow
  import opened PresionFlowProperties
  import DV = DynamicValidator

  /** A session the chain can run on: while a scene is recorded, it is the
      wizard, ready for its turn. */
  predicate WellFormed(st: Snapshot) {
    !HasScene(st) || Ready(st)
  }

  /** The session after the chain, the effects in order, and whether the
      update went on to the global handlers. */
  datatype Handled = Handled(state: Snapshot, effects: seq<Effect>, dispatched: bool)

  /** Interceptor, then the stage. */
  function Route(st: Snapshot, u: Update, env: Backend): Handled
    requires WellFormed(st)
  {
    var o := Intercept(st, u);
    if !o.callsNext then Handled(o.state, o.effects, false)
    else if HasScene(o.state) then
      var t := Step(o.state, u, env);
      Handled(t.state, o.effects + t.effects, false)
    else Handled(o.state, o.effects, true)
  }

  /** The chain, with the `register_presion` button among the global
      handlers: it answers the button and enters the wizard. */
  function Handle(st: Snapshot, u: Update, env: Backend): Handled
    requires WellFormed(st)
  {
    var r := Route(st, u, env);
    if r.dispatched && Action(u) == "register_presion" then
      var t := Enter(r.state);
      Handled(t.state, r.effects + [AnswerCallback] + t.effects, true)
    else r
  }

  /** The chain on a session in place. */
  method ProcessUpdate(s: Session, u: Update, env: Backend) returns (effects: seq<Effect>, dispatched: bool)
    requires WellFormed(s.State())
    modifies s
    ensures Handled(s.State(), effects, dispatched) == Handle(old(s.State()), u, env)
  {
    var callsNext;
    effects, callsNext := CommandInterceptorMiddleware(s, u);
    dispatched := false;
    if !callsNext {
      return;
    }
    if s.scenes.Some? && s.scenes.value.current != "" {
      var stepped := RunStep(s, u, env);
      effects := effects + stepped;
      return;
    }
    dispatched := true;
    if Action(u) == "register_presion" {
      var entered := EnterWizard(s);
      effects := effects + [AnswerCallback] + entered;
    }
  }

  /** Every update keeps the session fit for the next one. */
  lemma HandleKeepsWellFormed(st: Snapshot, u: Update, env: Backend)
    requires WellFormed(st)
    ensures WellFormed(Handle(st, u, env).state)
  {
    var o := Intercept(st, u);
    if o.callsNext && HasScene(o.state) {
      StepKeepsReady(o.state, u, env);
    }
  }

  /** A command other than `/cancelar` and `/ayuda` typed during the wizard
      ends it, sends the one notice, skips the wizard's handler and reaches
      the global handlers. */
  lemma CommandEndsWizard(st: Snapshot, env: Backend)
    requires Ready(st)
    ensures Handle(st, TextMessage("/mihogar"), env)
      == Handled(Snapshot(None, EmptyTempData), [Reply(SupersededNotice)], true)
  {
    var u := TextMessage("/mihogar");
    BareCommand("/mihogar");
    assert |"/mihogar"| == 8;
    OtherCommandDuringScene(st, u);
    var o := Intercept(st, u);
    assert o == Outcome(Snapshot(None, EmptyTempData), [Reply(SupersededNotice)], true);
    assert !HasScene(o.state) && Action(u) == "";
    assert Route(st, u, env) == Handled(o.state, o.effects, true);
  }

  /** `/cancelar` during the wizard runs the cancellation routine and
      nothing else. */
  lemma CancelEndsWizard(st: Snapshot, env: Backend)
    requires Ready(st)
    ensures Handle(st, TextMessage("/cancelar"), env)
      == Handled(Snapshot(None, EmptyTempData), [RunCancelCommand], false)
  {
    BareCommand("/cancelar");
    CancelDuringScene(st, TextMessage("/cancelar"));
  }

  /** `/ayuda` during a typed-number step reaches the wizard, whose handler
      ignores commands: nothing changes and nothing is sent. */
  lemma HelpDuringNumberStepIsSilent(st: Snapshot, env: Backend)
    requires Ready(st) && (Cursor(st) == 3 || Cursor(st) == 4)
    ensures Handle(st, TextMessage("/ayuda"), env) == Handled(st, [], false)
  {
    var u := TextMessage("/ayuda");
    BareCommand("/ayuda");
    HelpCommandPassesThrough(st, u);
    assert MessageText(u) == "/ayuda" && Ignored("/ayuda");
    if Cursor(st) == 3 {
      SystolicStep(st, u, env);
    } else {
      DiastolicStep(st, u, env);
    }
  }

  /** The reading `120/80`. */
  lemma ReadingParses()
    ensures ParsePresionInput("120/80") == Some(PresionResult(120, 80, None))
  {
    assert NatToString(120) == "120";
    assert NatToString(80) == "80";
    assert "120/80" == NatToString(120) + "/" + NatToString(80);
    assert IsSeparatorRun("/");
    RoundTripPair(120, 80, "/");
  }

  /** The session right after entering. */
  const Entered := Snapshot(Some(SceneSession(PresionSceneId, 1)), TempData(Some(EmptyPresion), map[]))

  /** Pressing the register button outside any scene enters the wizard. */
  lemma RegisterButtonEnters(st: Snapshot, env: Backend)
    requires !HasScene(st)
    ensures Handle(st, ButtonPress("register_presion"), env).state == Entered
    ensures Handle(st, ButtonPress("register_presion"), env).effects == [AnswerCallback, Reply(MethodMenu)]
  {
    var u := ButtonPress("register_presion");
    assert IncomingText(u) == "";
    assert Intercept(st, u) == Outcome(st, [], true);
    EnterStartsAfresh(st);
  }

  /** Then typing `120/80`: the wizard is at cursor 8 having asked for the
      arm, with the reading stored and no pulse or fasting answer. */
  lemma ShorthandFromStart(env: Backend)
    ensures var h := Handle(Entered, TextMessage("120/80"), env);
      && Ready(h.state) && Cursor(h.state) == 8
      && Data(h.state) == PresionData(Some(120), Some(80), None, None, None)
      && h.effects == [Reply(ReadBack(PresionResult(120, 80, None))), Reply(ArmPrompt)]
  {
    var u := TextMessage("120/80");
    assert "120/80"[..1] == "1";
    assert IncomingText(u) == "120/80" && !StartsWith("120/80", "/");
    assert Intercept(Entered, u) == Outcome(Entered, [], true);
    ReadingParses();
    ShorthandSkipsFastingQuestion(Entered, "120/80", PresionResult(120, 80, None), env);
  }

  /** The summary of the reading with the left arm. */
  lemma SummaryOfReading()
    ensures SummaryLines(PresionData(Some(120), Some(80), None, None, Some(Izquierdo)))
      == ["Presión: 120/80 mmHg", "Pulso: -", "Ayunas: -", "Brazo: Izquierdo"]
  {
    var d := PresionData(Some(120), Some(80), None, None, Some(Izquierdo));
    assert NatToString(120) == "120";
    assert NatToString(80) == "80";
    assert Shown(d.sistolica) == "120" && Shown(d.diastolica) == "80";
    assert "Presión: " + "120" + "/" + "80" + " mmHg" == "Presión: 120/80 mmHg";
    assert "Pulso: " + "-" == "Pulso: -";
    assert "Ayunas: " + "-" == "Ayunas: -";
    assert "Brazo: " + "Izquierdo" == "Brazo: Izquierdo";
  }

  /** The record of the reading with the left arm: no pulse and no fasting
      key. */
  lemma RecordOfReading()
    ensures RecordData(PresionData(Some(120), Some(80), None, None, Some(Izquierdo)))
      == map["sistolica" := DV.Num(120 as real), "diastolica" := DV.Num(80 as real), "brazo" := DV.Str("izquierdo")]
  {
  }

  /** Then pressing `arm_left` and `confirm_save`: the summary shows the
      placeholders for pulse and fasting, the wizard ends, and the record
      handed to the validator holds the two pressures and the arm only. */
  lemma ArmThenSave(st: Snapshot, env: Backend)
    requires Ready(st) && Cursor(st) == 8
    requires Data(st) == PresionData(Some(120), Some(80), None, None, None)
    ensures var h3 := Handle(st, ButtonPress("arm_left"), env);
      && Ready(h3.state) && Cursor(h3.state) == 9
      && Data(h3.state) == PresionData(Some(120), Some(80), None, None, Some(Izquierdo))
      && h3.effects == [AnswerCallback, Reply(Summary(["Presión: 120/80 mmHg", "Pulso: -", "Ayunas: -", "Brazo: Izquierdo"]))]
      && var h4 := Handle(h3.state, ButtonPress("confirm_save"), env);
      && !HasScene(h4.state)
      && RecordData(Data(h3.state))
         == map["sistolica" := DV.Num(120 as real), "diastolica" := DV.Num(80 as real), "brazo" := DV.Str("izquierdo")]
  {
    var u := ButtonPress("arm_left");
    assert IncomingText(u) == "";
    var h3 := Handle(st, u, env);
    SummaryOfReading();
    RecordOfReading();
    var v := ButtonPress("confirm_save");
    assert IncomingText(v) == "";
    assert Intercept(h3.state, v) == Outcome(h3.state, [], true);
    SaveAlwaysLeaves(h3.state, v, env);
  }
}
