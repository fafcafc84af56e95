/** The per-conversation state of the bot (telegram-bot/src/types/session.ts),
    the reduced view of an inbound update the interceptor and the wizard
    read, and the effects they issue. */
module Conversation {
  import opened Wrappers
  import opened PresionParser
  import DynamicValidator

  /** The id of the blood-pressure wizard scene. */
  const PresionSceneId := "PRESION_FLOW"

  datatype Arm = Izquierdo | Derecho

  /** `PresionData`: the measurement the wizard is collecting. */
  datatype PresionData = PresionData(
    sistolica: Option<int>,
    diastolica: Option<int>,
    pulso: Option<int>,
    enAyunas: Option<bool>,
    brazo: Option<Arm>)

  const EmptyPresion := PresionData(None, None, None, None, None)

  /** `SessionTempData`: the measurement under `presion`, and the scratch
      fields of the other flows (registration, invitation, household
      creation) as opaque string entries. */
  datatype TempData = TempData(presion: Option<PresionData>, scratch: map<string, string>)

  /** The `{}` the interceptor stores. */
  const EmptyTempData := TempData(None, map[])

  /** `__scenes`: the current scene and the wizard cursor. The whole record is
      absent once a scene is left or the interceptor deletes it. */
  datatype SceneSession = SceneSession(current: string, cursor: int)

  /** The part of a session the core reads and writes. */
  datatype Snapshot = Snapshot(scenes: Option<SceneSession>, tempData: TempData)

  /** An inbound update: the text of a new message, the text of an edited
      message, the payload of a button press. */
  datatype Update = Update(messageText: Option<string>, editedText: Option<string>, callbackData: Option<string>)

  function TextMessage(text: string): Update {
    Update(Some(text), None, None)
  }

  function ButtonPress(data: string): Update {
    Update(None, None, Some(data))
  }

  /** `ctx.message?.text`, with the empty string for absent text: the steps
      only test its truthiness and then read it. */
  function MessageText(u: Update): string {
    u.messageText.GetOr("")
  }

  /** `ctx.callbackQuery?.data`, with the empty string for no payload. */
  function Action(u: Update): string {
    u.callbackData.GetOr("")
  }

  /** The replies the core sends, by meaning; wording, Markdown and inline
      keyboards are not modelled. */
  datatype Message =
    | MethodMenu
    | QuickFormatPrompt
    | SystolicPrompt
    | DiastolicPrompt
    | ReadBack(reading: PresionResult)
    | UnrecognisedFormat
    | InvalidFormat
    | InvalidSystolic
    | InvalidDiastolic
    | PulsePrompt
    | InvalidPulse
    | FastingPrompt
    | ArmPrompt
    | Summary(lines: seq<string>)
    | Cancelled
    | Saving
    | ValidationFailed(errors: seq<string>)
    | SaveFailed
    | Saved
    | SupersededNotice

  /** What a turn does outside the session. */
  datatype Effect =
    | Reply(message: Message)
    | AnswerCallback
    | Insert(subcategoryId: string, data: map<string, DynamicValidator.Value>)
    | RunCancelCommand

  /** A session as the middleware chain sees it: fields updated in place. */
  class Session {
    var scenes: Option<SceneSession>
    var tempData: TempData

    constructor (scenes: Option<SceneSession>, tempData: TempData)
      ensures this.scenes == scenes && this.tempData == tempData
    {
      this.scenes := scenes;
      this.tempData := tempData;
    }

    function State(): Snapshot
      reads this
    {
      Snapshot(scenes, tempData)
    }

    /** `ctx.scene.enter(id)`: the previous scene record is reset and the
        new one starts at step 0. */
    method EnterScene(id: string)
      modifies this
      ensures scenes == Some(SceneSession(id, 0)) && tempData == old(tempData)
    {
      scenes := Some(SceneSession(id, 0));
    }

    /** `ctx.wizard.next()`. */
    method Next()
      requires scenes.Some?
      modifies this
      ensures scenes == Some(old(scenes).value.(cursor := old(scenes).value.cursor + 1))
      ensures tempData == old(tempData)
    {
      scenes := Some(scenes.value.(cursor := scenes.value.cursor + 1));
    }

    /** `ctx.wizard.selectStep(k)`. */
    method SelectStep(k: int)
      requires scenes.Some?
      modifies this
      ensures scenes == Some(old(scenes).value.(cursor := k))
      ensures tempData == old(tempData)
    {
      scenes := Some(scenes.value.(cursor := k));
    }

    /** `ctx.scene.leave()`: the scene record is reset; the scratch data
        stays. */
    method Leave()
      modifies this
      ensures scenes == None && tempData == old(tempData)
    {
      scenes := None;
    }

    /** Writes the measurement under `tempData.presion`. */
    method SetPresion(d: PresionData)
      modifies this
      ensures tempData == old(tempData).(presion := Some(d)) && scenes == old(scenes)
    {
      tempData := tempData.(presion := Some(d));
    }
  }
}
