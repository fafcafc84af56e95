/** The command interceptor of
    telegram-bot/src/middleware/commandInterceptor.ts: the policy that runs
    before the wizard and decides what a command does to a wizard in
    progress. */
module CommandInterceptor {
  import opened Wrappers
  import opened JsText
  import opened Conversation

  /** `EXEMPT_COMMANDS`. */
  const ExemptCommands: seq<string> := ["/cancelar", "/ayuda"]

  /** `ctx.message?.text || ctx.editedMessage?.text`: the text of a new
      message, or else that of an edited one. */
  function IncomingText(u: Update): string {
    if MessageText(u) != "" then MessageText(u) else u.editedText.GetOr("")
  }

  /** `!!ctx.session?.__scenes?.current`, read from the session directly. */
  predicate HasScene(st: Snapshot) {
    st.scenes.Some? && st.scenes.value.current != ""
  }

  /** `text.split(' ')[0]`: the text up to its first space character. */
  function CommandName(text: string): (r: string)
    ensures |r| <= |text| && text[..|r|] == r
    ensures forall i :: 0 <= i < |r| ==> r[i] != ' '
    ensures |r| == |text| || text[|r|] == ' '
  {
    if text == [] || text[0] == ' ' then [] else [text[0]] + CommandName(text[1..])
  }

  /** The first field of a split is determined by the three facts above:
      any space-free prefix that ends the text or stops at a space is it. */
  lemma {:induction false} CommandNameUnique(text: string, c: string)
    requires |c| <= |text| && text[..|c|] == c
    requires forall i :: 0 <= i < |c| ==> c[i] != ' '
    requires |c| == |text| || text[|c|] == ' '
    ensures c == CommandName(text)
  {
    if c != [] {
      assert c[0] == text[0];
      CommandNameUnique(text[1..], c[1..]);
    }
  }

  /** Text without a space is its own first field. */
  lemma {:induction false} CommandNameOfUnspaced(text: string)
    requires ' ' !in text
    ensures CommandName(text) == text
  {
    if text != [] {
      assert text[1..] + [] == text[1..];
      CommandNameOfUnspaced(text[1..]);
    }
  }

  /** A space-free word followed by a space and anything is that word. */
  lemma {:induction false} CommandNameAtSpace(word: string, rest: string)
    requires ' ' !in word
    ensures CommandName(word + " " + rest) == word
  {
    if word != [] {
      assert (word + " " + rest)[1..] == word[1..] + " " + rest;
      CommandNameAtSpace(word[1..], rest);
    }
  }

  /** Only the space character splits: a command followed by a line break
      is not the bare command. */
  lemma LineBreakDoesNotSplit()
    ensures CommandName("/cancelar\nx") == "/cancelar\nx"
  {
    CommandNameOfUnspaced("/cancelar\nx");
  }

  /** A space ends the command. */
  lemma SpaceSplits()
    ensures CommandName("/cancelar x") == "/cancelar"
  {
    assert "/cancelar x" == "/cancelar" + " " + "x";
    CommandNameAtSpace("/cancelar", "x");
  }

  datatype Decision = PassThrough | CancelAndStop | ClearAndContinue

  /** The rule set, in order. */
  function Decide(text: string, hasScene: bool): Decision {
    if text != "" && StartsWith(text, "/") && hasScene then
      var command := CommandName(text);
      if command == "/cancelar" then CancelAndStop
      else if command !in ExemptCommands then ClearAndContinue
      else PassThrough
    else PassThrough
  }

  /** The session after the interceptor, what it issued, and whether it
      called `next()`. */
  datatype Outcome = Outcome(state: Snapshot, effects: seq<Effect>, callsNext: bool)

  function Intercept(st: Snapshot, u: Update): Outcome {
    match Decide(IncomingText(u), HasScene(st))
    case PassThrough => Outcome(st, [], true)
    case CancelAndStop => Outcome(Snapshot(None, EmptyTempData), [RunCancelCommand], false)
    case ClearAndContinue => Outcome(Snapshot(None, EmptyTempData), [Reply(SupersededNotice)], true)
  }

  /** `commandInterceptorMiddleware`, on the session in place. */
  method CommandInterceptorMiddleware(s: Session, u: Update) returns (effects: seq<Effect>, callsNext: bool)
    modifies s
    ensures Outcome(s.State(), effects, callsNext) == Intercept(old(s.State()), u)
  {
    var text := IncomingText(u);
    var hasScene := s.scenes.Some? && s.scenes.value.current != "";
    effects := [];
    if text != "" && StartsWith(text, "/") && hasScene {
      var command := CommandName(text);
      if command == "/cancelar" {
        s.scenes := None;
        s.tempData := EmptyTempData;
        effects := [RunCancelCommand];
        return effects, false;
      }
      if command !in ExemptCommands {
        s.scenes := None;
        s.tempData := EmptyTempData;
        effects := [Reply(SupersededNotice)];
      }
    }
    callsNext := true;
  }

  function Count(effects: seq<Effect>, e: Effect): nat {
    if effects == [] then 0 else (if effects[0] == e then 1 else 0) + Count(effects[1..], e)
  }

  /** Without text, with text that is not a command, or without a scene, the
      session is untouched, nothing is issued and `next()` is called. */
  lemma NoCommandOrNoScene(st: Snapshot, u: Update)
    requires IncomingText(u) == "" || !StartsWith(IncomingText(u), "/") || !HasScene(st)
    ensures Intercept(st, u) == Outcome(st, [], true)
  {
  }

  /** `/cancelar` during a scene removes the scene, empties the scratch data,
      runs the cancellation routine exactly once and stops the chain. */
  lemma CancelDuringScene(st: Snapshot, u: Update)
    requires HasScene(st) && StartsWith(IncomingText(u), "/")
    requires CommandName(IncomingText(u)) == "/cancelar"
    ensures var o := Intercept(st, u);
      && o.state == Snapshot(None, EmptyTempData)
      && Count(o.effects, RunCancelCommand) == 1 && |o.effects| == 1
      && !o.callsNext
  {
  }

  /** `/ayuda` during a scene passes through untouched. */
  lemma HelpCommandPassesThrough(st: Snapshot, u: Update)
    requires CommandName(IncomingText(u)) == "/ayuda"
    ensures Intercept(st, u) == Outcome(st, [], true)
  {
  }

  /** Any other command during a scene, `/help` and `/cancelar@bot`
      included, removes the scene, empties the scratch data, sends exactly one
      notice and lets the command run. */
  lemma OtherCommandDuringScene(st: Snapshot, u: Update)
    requires HasScene(st) && StartsWith(IncomingText(u), "/")
    requires CommandName(IncomingText(u)) != "/cancelar" && CommandName(IncomingText(u)) != "/ayuda"
    ensures var o := Intercept(st, u);
      && o.state == Snapshot(None, EmptyTempData)
      && o.effects == [Reply(SupersededNotice)]
      && Count(o.effects, RunCancelCommand) == 0
      && o.callsNext
  {
  }

  /** A slash-led word without spaces is a command naming itself. */
  lemma BareCommand(text: string)
    requires |text| > 0 && text[0] == '/' && ' ' !in text
    ensures StartsWith(text, "/") && CommandName(text) == text
  {
    assert text[..1] == "/";
    CommandNameOfUnspaced(text);
  }

  /** The registered help command is `/help`, which is not exempt. */
  lemma RegisteredHelpIsNotExempt(st: Snapshot)
    requires HasScene(st)
    ensures Intercept(st, TextMessage("/help")) == Outcome(Snapshot(None, EmptyTempData), [Reply(SupersededNotice)], true)
  {
    BareCommand("/help");
    assert |"/help"| == 5;
    OtherCommandDuringScene(st, TextMessage("/help"));
  }

  /** A command addressed to the bot by name is not the bare command. */
  lemma AddressedCancelIsNotCancel(st: Snapshot)
    requires HasScene(st)
    ensures Intercept(st, TextMessage("/cancelar@bot")) == Outcome(Snapshot(None, EmptyTempData), [Reply(SupersededNotice)], true)
  {
    BareCommand("/cancelar@bot");
    assert |"/cancelar@bot"| == 13;
    OtherCommandDuringScene(st, TextMessage("/cancelar@bot"));
  }

  /** After a command arrives during a scene, a scene is still recorded
      exactly when the command was `/ayuda`. */
  lemma SceneSurvivesOnlyHelp(st: Snapshot, u: Update)
    requires HasScene(st) && StartsWith(IncomingText(u), "/")
    ensures HasScene(Intercept(st, u).state) <==> CommandName(IncomingText(u)) == "/ayuda"
  {
  }

  /** The text of an edited message is read when there is no new-message
      text. */
  lemma EditedTextRead(u: Update)
    requires MessageText(u) == ""
    ensures IncomingText(u) == u.editedText.GetOr("")
  {
  }
}
