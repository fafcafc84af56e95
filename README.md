# Blood-pressure wizard of the La Casita Telegram bot, in Dafny

This project models the part of the household bot that records a
blood-pressure measurement. It covers four pieces of the bot and the wiring
that connects them:

- **Shorthand parser** (`parsePresionInput`, `isPresionFormat`). It turns
  text such as `120/80 75` into systolic, diastolic and optional pulse
  values. It then applies the range checks and the systolic-above-diastolic
  check.
- **Dynamic validator** (`buildDynamicSchema`, `validateRecordData`,
  `formatValidationErrors`). It builds a per-subcategory object schema from
  stored field definitions, validates a record against that schema, and
  formats the errors.
- **Command interceptor** (`commandInterceptorMiddleware`). It runs before
  the scene stage and decides what a slash command does to a wizard in
  progress.
- **The wizard** (`presionWizard`). It has ten step handlers, indexed 0 to 9
  and selected by the wizard cursor. Each handler reads one update, changes
  the session in place and issues replies, button answers and the insert of
  the record.

How the model is organised:

- A session is a `class` whose fields are updated in place: the scene record
  with its cursor, and `tempData`.
- Every step handler is a method on that class.
- Each method is proved equal to a specification function that maps the
  session before the turn to the session after it, plus the effects issued
  in order.
- The lemmas about those functions state what the wizard does along single
  steps and along whole paths.
- The chain of `bot.ts` is modelled as one turn: session, interceptor, then
  the stage.
- `BotPipeline.ProcessUpdate` runs that chain on a session in place.
  `BotPipeline.HandleKeepsWellFormed` shows that every update leaves the
  session fit for the next one.

Modules:

- `Wrappers`: `Option` and `Result`.
- `JsText`: the JavaScript primitives the code relies on. These are
  `trim`, the `\s` and `\d` classes, `parseInt(text, 10)` and `${n}`.
- `PresionParser`, `DynamicValidator` and `CommandInterceptor`.
- `Conversation`: session, update and effect types, and the `Session`
  class.
- `PresionFlow`: step specifications and step methods.
- `PresionFlowProperties`.
- `BotPipeline`.

## Where the code and its comments differ

The model follows what the code does. In three places that differs from
what the code's own comments say.

- **Quick button.** The comment at `presionFlow.ts:53` says the quick button
  goes to the quick-capture step. `method_quick` actually selects index 3,
  which is the systolic step.
  - The quick-capture handler at index 2 cannot be reached
    (`PresionFlowProperties.CursorNeverBecomesTwo`).
- **Step-by-step button.** The comment at `presionFlow.ts:62` says the
  step-by-step button goes to the systolic step. `method_step` actually
  selects index 4, which is the diastolic step.
  - So along that path the systolic value is never asked for
    (`PresionFlowProperties.StepByStepSkipsSystolic`).
- **Accepted shorthand.** The comments at `presionFlow.ts:78` and `:110` say
  accepted shorthand jumps to the fasting question.
  - Both places select index 7 and run that handler in the same turn.
    Index 7 is the handler that records the fasting answer and asks for the
    arm.
  - So the fasting question is never asked, and the turn ends at cursor 8
    (`PresionFlowProperties.ShorthandSkipsFastingQuestion`,
    `BotPipeline.ShorthandFromStart`).

## Model

| member | source | states |
|---|---|---|
| JsText.TrimStart | telegram-bot/src/utils/parsers/presion.ts:20 | the result is a suffix of the input; everything dropped is whitespace; the result does not start with whitespace |
| JsText.TrimEnd | telegram-bot/src/utils/parsers/presion.ts:20 | the result is a prefix; everything dropped is whitespace; the result does not end with whitespace |
| JsText.Trim | telegram-bot/src/utils/parsers/presion.ts:20 | the trimmed text neither starts nor ends with whitespace |
| JsText.TrimOfTrimmed | telegram-bot/src/utils/parsers/presion.ts:20 | a text without whitespace at its ends is its own trim |
| JsText.TrimIdempotent | telegram-bot/src/utils/parsers/presion.ts:20 | trimming twice is trimming once |
| JsText.NatToString | telegram-bot/src/flows/presionFlow.ts:76 | the decimal rendering of a number is a non-empty run of digits |
| JsText.DigitChar | telegram-bot/src/flows/presionFlow.ts:76 | the character for a digit value is a digit with that value |
| JsText.DecimalValueOfNatToString | telegram-bot/src/flows/presionFlow.ts:76 | reading back the rendering of a number gives the number |
| JsText.NatToStringWidth | telegram-bot/src/utils/parsers/presion.ts:27 | numbers from 10 to 99 render as two digits and 100 to 999 as three |
| JsText.ParseIntOfDigits | telegram-bot/src/flows/presionFlow.ts:133 | `parseInt` of a digit run followed by a non-digit is the value of the run, whatever follows |
| JsText.ParseIntNaN | telegram-bot/src/flows/presionFlow.ts:133-135 | `parseInt` is NaN exactly when no digit follows the leading whitespace and the optional sign |
| JsText.ParseIntSkipsSpace | telegram-bot/src/flows/presionFlow.ts:133 | leading whitespace never changes what `parseInt` reads |
| JsText.SameStartSameNumber | telegram-bot/src/flows/presionFlow.ts:133 | `parseInt` depends only on the text after the leading whitespace |
| JsText.TrimStartOfSpace | telegram-bot/src/flows/presionFlow.ts:133 | removing leading whitespace gives the same text as removing none from the rest |
| JsText.SpanOfRun | telegram-bot/src/utils/parsers/presion.ts:27 | the longest run of a class is exactly a prefix of that class followed by a character outside it |
| PresionParser.DigitIsNotSeparator | telegram-bot/src/utils/parsers/presion.ts:27 | no digit is in the separator class `[\/\s,-]` |
| PresionParser.SeparatorIsNotDigit | telegram-bot/src/utils/parsers/presion.ts:27 | no separator is a digit |
| PresionParser.MatchTail | telegram-bot/src/utils/parsers/presion.ts:27 | the optional part matched is a separator run and a 2-3 digit group that together spell the rest of the text |
| PresionParser.MatchAfterFirst | telegram-bot/src/utils/parsers/presion.ts:27 | what follows the first group is matched only as well-formed tokens that spell the text |
| PresionParser.Match | telegram-bot/src/utils/parsers/presion.ts:27-31 | a match is well-formed (three 2-3 digit groups, separator runs) and spells the whole text, so the match is anchored at both ends |
| PresionParser.MatchSpell | telegram-bot/src/utils/parsers/presion.ts:27-31 | every well-formed token sequence is matched back into the same tokens; with `Match`'s contract, the matched texts are exactly the pattern's language |
| PresionParser.MatchTailSpell | telegram-bot/src/utils/parsers/presion.ts:27 | the optional part's text is matched back into the same part |
| PresionParser.MatchAfterFirstSpell | telegram-bot/src/utils/parsers/presion.ts:27 | the text after a first group is matched back into the same tokens |
| PresionParser.MatchAfterFirstSpellPair | telegram-bot/src/utils/parsers/presion.ts:27 | as above, for a text without a pulse |
| PresionParser.MatchAfterFirstSpellTriple | telegram-bot/src/utils/parsers/presion.ts:27 | as above, for a text with a pulse |
| PresionParser.SpellEndsInDigit | telegram-bot/src/utils/parsers/presion.ts:27 | a matched text starts and ends with a digit |
| PresionParser.ParsePresionInput | telegram-bot/src/utils/parsers/presion.ts:17-46 | any measurement returned has systolic in [60,300], diastolic in [30,200], systolic above diastolic, and pulse, if present, in [30,250] |
| PresionParser.GroupValueIsParseInt | telegram-bot/src/utils/parsers/presion.ts:33-35 | a group's value is what `parseInt(group, 10)` gives |
| PresionParser.EmptyIsNull | telegram-bot/src/utils/parsers/presion.ts:18 | empty input gives null |
| PresionParser.ParseIgnoresSurroundingSpace | telegram-bot/src/utils/parsers/presion.ts:20 | parsing the trimmed text gives the same result as parsing the text |
| PresionParser.BlankHasNoMatch | telegram-bot/src/utils/parsers/presion.ts:31 | the empty text does not match the pattern |
| PresionParser.ParseSound | telegram-bot/src/utils/parsers/presion.ts:17-46 | a measurement comes only from a trimmed text the pattern matches, reads the groups' values, and passes every check |
| PresionParser.ParseComplete | telegram-bot/src/utils/parsers/presion.ts:17-46 | any text of the pattern's form, possibly with surrounding whitespace, whose values pass the checks, gives exactly those values |
| PresionParser.FormatCharacterised | telegram-bot/src/utils/parsers/presion.ts:48-50 | `isPresionFormat` holds exactly when the trimmed text matches and its values pass the checks |
| PresionParser.ImplausibleIsNull | telegram-bot/src/utils/parsers/presion.ts:38-43 | a matched text with values out of range, or systolic not above diastolic, gives null |
| PresionParser.GroupOf | telegram-bot/src/utils/parsers/presion.ts:27 | the rendering of a number from 10 to 999 is a group that reads back as that number |
| PresionParser.RoundTripPair | telegram-bot/src/utils/parsers/presion.ts:10-46 | rendering a plausible systolic/diastolic pair with any separator run and parsing it gives the pair back |
| PresionParser.RoundTripTriple | telegram-bot/src/utils/parsers/presion.ts:10-46 | the same with a pulse |
| PresionParser.Renders | telegram-bot/src/utils/parsers/presion.ts:17-46 | a plausible well-formed text parses to what it reads |
| PresionParser.DocumentedPairShapes | telegram-bot/src/utils/parsers/presion.ts:10-15 | for any plausible pair, the documented shapes `s/d`, `s d` and `s-d` read back as the values written |
| PresionParser.DocumentedShapes | telegram-bot/src/utils/parsers/presion.ts:10-15 | for any plausible measurement with a pulse, the documented shapes `s/d p`, `s d p` and `s-d-p` read back as the values written |
| PresionParser.InvertedIsNull | telegram-bot/src/utils/parsers/presion.ts:40 | `80/120` gives null |
| PresionParser.EqualIsNull | telegram-bot/src/utils/parsers/presion.ts:40 | `90/90` gives null |
| DynamicValidator.Put | telegram-bot/src/services/dynamicValidator.ts:51-53 | writing an entry keeps the keys distinct and equal to the shape's keys |
| DynamicValidator.SchemaOf | telegram-bot/src/services/dynamicValidator.ts:4-57 | a built schema is coherent: distinct keys, exactly those of the shape |
| DynamicValidator.LastDefinitionIsLast | telegram-bot/src/services/dynamicValidator.ts:51-53 | the definition that decides a name is the one at the greatest index with that name, and none exists exactly when no definition has the name |
| DynamicValidator.SchemaEntries | telegram-bot/src/services/dynamicValidator.ts:7-54 | the shape has an entry for exactly the declared names, and each entry is the checker of that name's last definition, optional unless required |
| DynamicValidator.SchemaErrorPersists | telegram-bot/src/services/dynamicValidator.ts:23-26 | once a pattern fails to compile, the whole build fails with that error |
| DynamicValidator.BuildDynamicSchema | telegram-bot/src/services/dynamicValidator.ts:4-57 | the loop over the fields builds the schema `SchemaOf` describes, or stops with the first compile error |
| DynamicValidator.Tag | telegram-bot/src/services/dynamicValidator.ts:61 | each error of a key has that key alone as its path |
| DynamicValidator.Restrict | telegram-bot/src/services/dynamicValidator.ts:61 | the parsed output holds exactly the record's entries under declared keys, unchanged |
| DynamicValidator.RestrictIgnores | telegram-bot/src/services/dynamicValidator.ts:61 | an entry under an undeclared key never reaches the output |
| DynamicValidator.KeyIssuesMeaning | telegram-bot/src/services/dynamicValidator.ts:61 | no error is reported exactly when every declared key passes its entry; each error names one declared key |
| DynamicValidator.KeyIssuesIgnore | telegram-bot/src/services/dynamicValidator.ts:61 | the errors never depend on an entry under an undeclared key |
| DynamicValidator.ValidationMeaning | telegram-bot/src/services/dynamicValidator.ts:59-62 | validation succeeds exactly when every declared name passes the field its last definition describes |
| DynamicValidator.ValidatedData | telegram-bot/src/services/dynamicValidator.ts:59-62 | on success the data is the record restricted to the declared names |
| DynamicValidator.UndeclaredKeyIgnored | telegram-bot/src/services/dynamicValidator.ts:59-62 | adding an undeclared key to the record never changes the outcome |
| DynamicValidator.FormatValidationErrors | telegram-bot/src/services/dynamicValidator.ts:64-68 | one line per error, in error order, each the dotted path, `: ` and the message |
| DynamicValidator.ErrorLinesNameFields | telegram-bot/src/services/dynamicValidator.ts:59-68 | every error line of a failed validation reads `name: message` for a declared field name |
| DynamicValidator.NumberField | telegram-bot/src/services/dynamicValidator.ts:11-19 | a number field accepts exactly the numbers within its defined bounds; a bound of 0 counts as defined |
| DynamicValidator.TextField | telegram-bot/src/services/dynamicValidator.ts:21-28 | a text field accepts exactly the strings that match its non-empty pattern, or any string when there is none |
| DynamicValidator.DateIsDatetime | telegram-bot/src/services/dynamicValidator.ts:30-33 | `date` and `datetime` get the same checker, which accepts exactly the datetime strings |
| DynamicValidator.SelectField | telegram-bot/src/services/dynamicValidator.ts:35-41 | a select field accepts exactly its options, or any string when it has none |
| DynamicValidator.BooleanField | telegram-bot/src/services/dynamicValidator.ts:43-45 | a boolean field accepts booleans only |
| DynamicValidator.UnknownTypeAcceptsAll | telegram-bot/src/services/dynamicValidator.ts:47-49 | a field of an unrecognised type accepts every value and absence |
| DynamicValidator.AbsentValue | telegram-bot/src/services/dynamicValidator.ts:51-53 | absence is accepted by a field that is not required and rejected by a required field of a known type |
| Conversation.Session.constructor | telegram-bot/src/types/session.ts:29-34 | the session holds the given scene record and working data |
| Conversation.Session.EnterScene | telegram-bot/src/commands/register.ts:29 | entering resets the scene record to the scene at step 0 and keeps the working data |
| Conversation.Session.Next | telegram-bot/src/flows/presionFlow.ts:31 | the cursor moves on by one and nothing else changes |
| Conversation.Session.SelectStep | telegram-bot/src/flows/presionFlow.ts:54 | the cursor becomes the selected index and nothing else changes |
| Conversation.Session.Leave | telegram-bot/src/flows/presionFlow.ts:41 | the scene record is removed and the working data stays |
| Conversation.Session.SetPresion | telegram-bot/src/flows/presionFlow.ts:71-74 | the measurement under `tempData.presion` is replaced, and nothing else changes |
| CommandInterceptor.CommandName | telegram-bot/src/middleware/commandInterceptor.ts:19 | `split(' ')[0]` is the prefix that has no space and ends the text or stops at a space |
| CommandInterceptor.CommandNameUnique | telegram-bot/src/middleware/commandInterceptor.ts:19 | any prefix with those three properties is the command, so the contract pins it down |
| CommandInterceptor.CommandNameOfUnspaced | telegram-bot/src/middleware/commandInterceptor.ts:19 | a text without a space is its own command |
| CommandInterceptor.CommandNameAtSpace | telegram-bot/src/middleware/commandInterceptor.ts:19 | a word followed by a space is that word |
| CommandInterceptor.LineBreakDoesNotSplit | telegram-bot/src/middleware/commandInterceptor.ts:19 | only the space character splits: `/cancelar` followed by a line break is not `/cancelar` |
| CommandInterceptor.SpaceSplits | telegram-bot/src/middleware/commandInterceptor.ts:19 | `/cancelar x` is the command `/cancelar` |
| CommandInterceptor.CommandInterceptorMiddleware | telegram-bot/src/middleware/commandInterceptor.ts:8-49 | the session afterwards, the effects and the call of `next()` are those of the rule set `Intercept` |
| CommandInterceptor.NoCommandOrNoScene | telegram-bot/src/middleware/commandInterceptor.ts:10-18 | with no text, no command or no scene, nothing changes, nothing is sent, and `next()` is called |
| CommandInterceptor.CancelDuringScene | telegram-bot/src/middleware/commandInterceptor.ts:26-35 | `/cancelar` during a scene removes the scene, empties the working data, runs the cancel routine exactly once and stops the chain |
| CommandInterceptor.HelpCommandPassesThrough | telegram-bot/src/middleware/commandInterceptor.ts:6 | `/ayuda` passes through untouched |
| CommandInterceptor.OtherCommandDuringScene | telegram-bot/src/middleware/commandInterceptor.ts:37-48 | any other command during a scene removes the scene, empties the working data, sends exactly one notice, does not cancel, and calls `next()` |
| CommandInterceptor.BareCommand | telegram-bot/src/middleware/commandInterceptor.ts:18-19 | a slash-led text without spaces is a command that names itself |
| CommandInterceptor.RegisteredHelpIsNotExempt | telegram-bot/src/middleware/commandInterceptor.ts:37-45 | `/help`, the help command the bot registers, is not exempt: it ends the scene |
| CommandInterceptor.AddressedCancelIsNotCancel | telegram-bot/src/middleware/commandInterceptor.ts:27-45 | `/cancelar@bot` is not `/cancelar`: it ends the scene with the notice and continues |
| CommandInterceptor.SceneSurvivesOnlyHelp | telegram-bot/src/middleware/commandInterceptor.ts:18-45 | after a command during a scene, a scene remains exactly when the command was `/ayuda` |
| CommandInterceptor.EditedTextRead | telegram-bot/src/middleware/commandInterceptor.ts:10 | without new-message text, the text of the edited message is read |
| PresionFlow.SummaryLines | telegram-bot/src/flows/presionFlow.ts:253-259 | the summary has four lines in the fixed order pressure, pulse, fasting, arm |
| PresionFlow.RecordData | telegram-bot/src/flows/presionFlow.ts:299-307 | the record holds the five keys, each only when its value is defined, with the value converted, and no other key |
| PresionFlow.AskMethodStep | telegram-bot/src/flows/presionFlow.ts:16-32 | index 0 in place is `AskMethod`: fresh working data, the menu, cursor 1 |
| PresionFlow.ChooseMethodStep | telegram-bot/src/flows/presionFlow.ts:35-86 | index 1 in place is `ChooseMethod`: cancel leaves, the buttons select 3 or 4, parsed text runs the shorthand turn, other text asks again |
| PresionFlow.ReadShorthandStep | telegram-bot/src/flows/presionFlow.ts:67-80 | the shorthand turn in place is `ReadShorthand`: merge, read back, select 7 and run it |
| PresionFlow.QuickCaptureStep | telegram-bot/src/flows/presionFlow.ts:89-117 | index 2 in place is `QuickCapture` |
| PresionFlow.CaptureSystolicStep | telegram-bot/src/flows/presionFlow.ts:120-143 | index 3 in place is `CaptureSystolic` |
| PresionFlow.CaptureDiastolicStep | telegram-bot/src/flows/presionFlow.ts:146-167 | index 4 in place is `CaptureDiastolic` |
| PresionFlow.AskPulseStep | telegram-bot/src/flows/presionFlow.ts:170-178 | index 5 in place is `AskPulse` |
| PresionFlow.CapturePulseStep | telegram-bot/src/flows/presionFlow.ts:181-221 | index 6 in place is `CapturePulse` |
| PresionFlow.CaptureFastingStep | telegram-bot/src/flows/presionFlow.ts:224-241 | index 7 in place is `CaptureFasting` |
| PresionFlow.CaptureArmStep | telegram-bot/src/flows/presionFlow.ts:244-270 | index 8 in place is `CaptureArm` |
| PresionFlow.PersistRecord | telegram-bot/src/flows/presionFlow.ts:284-337 | the save sequence (user, subcategory, schema, validation, insert) issues exactly the effects of `Persist` |
| PresionFlow.SaveStep | telegram-bot/src/flows/presionFlow.ts:273-341 | index 9 in place is `Save` |
| PresionFlow.RunStep | telegram-bot/src/flows/presionFlow.ts:12-342 | a turn runs the handler at the cursor, or leaves when no handler exists there, as `Step` says |
| PresionFlow.EnterWizard | telegram-bot/src/commands/register.ts:29 | entering the scene resets the cursor and runs index 0, as `Enter` says |
| PresionFlowProperties.TrimmedDigitFirst | telegram-bot/src/flows/presionFlow.ts:128 | a text whose trim starts with a digit is not a command |
| PresionFlowProperties.ParsedTextIsNotCommand | telegram-bot/src/flows/presionFlow.ts:68-70 | text the parser accepts is not empty and is not a command |
| PresionFlowProperties.EnterStartsAfresh | telegram-bot/src/flows/presionFlow.ts:16-32 | entering gives fresh working data, the method menu and cursor 1, whatever the session held |
| PresionFlowProperties.MethodMenuChoices | telegram-bot/src/flows/presionFlow.ts:38-65 | at cursor 1, cancel leaves, `method_quick` selects 3 and `method_step` selects 4, and the data is unchanged |
| PresionFlowProperties.CursorNeverBecomesTwo | telegram-bot/src/flows/presionFlow.ts:31-269 | no turn moves the cursor to 2, so index 2 is unreachable |
| PresionFlowProperties.ReadShorthandEndsAtArm | telegram-bot/src/flows/presionFlow.ts:71-80 | the shorthand turn on a text message ends at cursor 8 after the read-back and the arm question, with the reading merged |
| PresionFlowProperties.CancelPrefixIsCommand | telegram-bot/src/flows/presionFlow.ts:94 | a text starting with `/cancelar` starts with `/` |
| PresionFlowProperties.StepRunsShorthand | telegram-bot/src/flows/presionFlow.ts:68-80 | at cursor 1 or 2, an accepted text is the shorthand turn |
| PresionFlowProperties.ShorthandSkipsFastingQuestion | telegram-bot/src/flows/presionFlow.ts:67-112 | accepted shorthand at cursor 1 or 2 stores the three readings, leaves the fasting answer as it was, and ends at cursor 8 after the arm question |
| PresionFlowProperties.UnparsedShorthandKeepsState | telegram-bot/src/flows/presionFlow.ts:81-84 | text the parser rejects changes nothing and sends one reply: at cursor 1 any such text, at cursor 2 any such text except one starting with `/cancelar`, which leaves the wizard there (lines 94-97) |
| PresionFlowProperties.SystolicStep | telegram-bot/src/flows/presionFlow.ts:120-143 | index 3 ignores commands and empty text, asks again for a value outside [60,300], and stores a valid one and moves on by one |
| PresionFlowProperties.DiastolicStep | telegram-bot/src/flows/presionFlow.ts:146-167 | index 4 does the same over [30,200] for the diastolic value |
| PresionFlowProperties.ParseIntOfReading | telegram-bot/src/flows/presionFlow.ts:133 | `parseInt("120/80", 10)` is 120 |
| PresionFlowProperties.SystolicReadsLeadingNumber | telegram-bot/src/flows/presionFlow.ts:133-140 | `120/80` typed as the systolic value stores 120 |
| PresionFlowProperties.PulseShortcutIsDead | telegram-bot/src/flows/presionFlow.ts:183 | the pulse shortcut tests cursor 7 while index 6 runs, so it never fires |
| PresionFlowProperties.PulseStep | telegram-bot/src/flows/presionFlow.ts:181-221 | index 6: skip and other buttons move on without a pulse; a command or an empty update changes nothing; a typed pulse is stored only strictly between 30 and 250 |
| PresionFlowProperties.ShorthandPulseOfThirty | telegram-bot/src/utils/parsers/presion.ts:43 | the shorthand `120/80 30` is read with pulse 30 |
| PresionFlowProperties.ParseIntOfThirty | telegram-bot/src/flows/presionFlow.ts:198 | `parseInt("30", 10)` is 30 |
| PresionFlowProperties.TypedPulseOfThirtyRefused | telegram-bot/src/flows/presionFlow.ts:199-204 | a typed pulse of 30 is refused at index 6 and nothing changes; the two pulse bounds disagree |
| PresionFlowProperties.AnswerStepsAdvance | telegram-bot/src/flows/presionFlow.ts:170-270 | indexes 5, 7 and 8 move on by exactly one on every update. 7 sets the fasting answer only for its two buttons, 8 sets the arm only for its two buttons, and nothing else changes |
| PresionFlowProperties.SummaryPlaceholders | telegram-bot/src/flows/presionFlow.ts:257-259 | a summary line shows `-` exactly for an unset or zero pulse, an unset fasting answer, and an unset arm |
| PresionFlowProperties.SaveAlwaysLeaves | telegram-bot/src/flows/presionFlow.ts:273-341 | index 9 leaves the wizard on every update and keeps the working data |
| PresionFlowProperties.PersistInsertsValidated | telegram-bot/src/flows/presionFlow.ts:286-330 | the save sequence inserts exactly when there is a user, the subcategory, a schema and a successful validation, and it inserts the validated data |
| PresionFlowProperties.StepAtNineSaves | telegram-bot/src/flows/presionFlow.ts:273 | at cursor 9 the turn is the save handler |
| PresionFlowProperties.InsertOnlyAfterValidation | telegram-bot/src/flows/presionFlow.ts:283-330 | a record is inserted exactly on `confirm_save` with a user, the subcategory and a successful validation, and it holds the validated data |
| PresionFlowProperties.LaterStepsKeepSystolic | telegram-bot/src/flows/presionFlow.ts:146-341 | no handler from index 4 on writes the systolic value |
| PresionFlowProperties.StepByStepSkipsSystolic | telegram-bot/src/flows/presionFlow.ts:59-64 | `method_step` right after entering lands on the diastolic step with the systolic value unset |
| PresionFlowProperties.StepKeepsReady | telegram-bot/src/flows/presionFlow.ts:12-342 | every turn that keeps the wizard current leaves it ready, with the measurement present and a cursor from 1 to 9 once past 0 |
| PresionFlowProperties.ChooseMethodLandsReady | telegram-bot/src/flows/presionFlow.ts:35-86 | index 1 lands ready |
| PresionFlowProperties.QuickCaptureLandsReady | telegram-bot/src/flows/presionFlow.ts:89-117 | index 2 lands ready |
| BotPipeline.ProcessUpdate | telegram-bot/src/bot.ts:48-50 | one update through the interceptor and the stage, in place, is `Handle` |
| BotPipeline.HandleKeepsWellFormed | telegram-bot/src/bot.ts:48-50 | every update leaves the session with no scene, or with the wizard ready for its next turn |
| BotPipeline.CommandEndsWizard | telegram-bot/src/middleware/commandInterceptor.ts:37-48 | `/mihogar` during the wizard ends it, sends one notice, skips the wizard's handler and reaches the global handlers |
| BotPipeline.CancelEndsWizard | telegram-bot/src/middleware/commandInterceptor.ts:26-35 | `/cancelar` during the wizard runs only the cancel routine and stops |
| BotPipeline.HelpDuringNumberStepIsSilent | telegram-bot/src/flows/presionFlow.ts:128-131 | `/ayuda` at a typed-number step reaches the wizard, which ignores it: nothing changes and nothing is sent |
| BotPipeline.ReadingParses | telegram-bot/src/utils/parsers/presion.ts:17-46 | `120/80` reads as 120 over 80 without pulse |
| BotPipeline.RegisterButtonEnters | telegram-bot/src/commands/register.ts:27-30 | the register button outside a scene answers the button, enters the wizard and shows the menu |
| BotPipeline.ShorthandFromStart | telegram-bot/src/flows/presionFlow.ts:67-80 | typing `120/80` at the menu ends at cursor 8 after the read-back and the arm question, with no pulse and no fasting answer |
| BotPipeline.SummaryOfReading | telegram-bot/src/flows/presionFlow.ts:253-259 | the summary of 120/80 with the left arm |
| BotPipeline.RecordOfReading | telegram-bot/src/flows/presionFlow.ts:299-307 | the record of 120/80 with the left arm has no pulse key and no fasting key |
| BotPipeline.ArmThenSave | telegram-bot/src/flows/presionFlow.ts:244-341 | then `arm_left` shows the summary with placeholders and `confirm_save` ends the wizard with the two pressures and the arm as the record |

## Left out

- Database access (the subcategory lookup, the insert, the session store) is
  not modelled as I/O. The save step receives a `Backend` value instead. It
  says whether the user is present, which subcategory the lookup returned,
  and whether the insert succeeds. The insert itself is an `Insert` effect.
- `recorded_at` and the clock, `household_id` and `user_id` are left out of
  the insert effect.
- Logging is left out.
- The session store's expiry is left out.
- The other middleware (logger, auth) is left out, and so are the other
  commands, text handlers and global button handlers. The only one kept is
  the button that enters the wizard. The cancel routine the interceptor
  calls is the `RunCancelCommand` effect.
- Reply wording, Markdown and inline keyboards are left out. Replies are
  identified by meaning.
- The validation library is replaced by a checker datatype. These parts are
  functions the caller supplies in `DynamicValidator.Foreign`:
  - compiling and running a stored regular expression;
  - recognising an ISO datetime;
  - the wording of an error message.
- Two library details are not modelled:
  - `z.string().regex` accepting a stored pattern with flags;
  - the order of errors among keys, which here is the key insertion order.
- Numbers in records are reals. JavaScript's floating-point rounding of very
  long digit strings read by `parseInt` is not modelled; `parseInt` gives the
  exact integer.
- A value of `undefined` under a key is modelled as an absent key. The two
  behave the same in every check the validator performs.
- An absent message text and the empty text are the same value. The handlers
  only test truthiness and then read the text.
- PresionFlow.Step: requires the measurement to exist past index 0, where
  the source reads it with a non-null assertion.
  `PresionFlowProperties.StepKeepsReady` shows that every turn reached from
  entering keeps that true.
- DynamicValidator.FormatValidationErrors: assumes a version of the
  validation library in which `error.errors` is the list of issues (zod 3,
  where it aliases `issues`).
  - In a version without that alias, `dynamicValidator.ts:66` throws.
  - The save step's `catch` (`presionFlow.ts:334-336`) would then send the
    generic save-failure reply instead of the validation lines.
  - The model's `Persist` always sends the validation lines on a failed
    validation.
- Concurrent updates on one session are not modelled. Each update is one
  atomic turn.
