# Skill dialog relay — a Dafny model

This project models the decision core of the Bot Builder `SkillDialog`. The dialog relays a conversation turn to a remote skill and reads back the skill's answer. It then does three things. It forwards the skill's ordinary activities to the local conversation. It ends the dialog when the skill sends an end-of-conversation activity. On any failure it ends the dialog and rethrows the error.

Files:

- `Schema.dfy` — the activity fields the relay reads or writes. Null is modelled as `None`. The `ActivityTypes` strings it uses are constants.
- `Classifier.dfy` — the `Events` name constants, and the response loop of `ForwardToSkill` in two forms. `Classify` is a pure left fold. `ClassifyResponses` is the loop itself, with its invariants.
- `SkillDialog.dfy` — the relay, as pure functions that return a `Turn`. A turn holds three things: the activity handed to `ForwardToSkill`, the ordered log of local effects (batch send, trace send, end dialog), and the outcome (`Waiting` for `EndOfTurn`, `Ended`, or `Raised(error)`).

Two things are parameters rather than modelled behaviour:

- The HTTP round trip is the `SendResult` parameter. `Faulted` is anything that throws before a status is known. `Response(status, reason, body)` is an answer, and its body is `None` when it cannot be read as a list of activities.
- A failure of one of the dialog's own local effects is the `faultAt` parameter. It gives the position, in the try block's effect sequence, of the effect that throws.

## Model

| member | source | states |
|---|---|---|
| ResponseClassifier.Classify | lib/csharp/microsoft.bot.builder.skills/Microsoft.Bot.Builder.Skills/SkillDialog.cs:131-148 | The end-of-conversation flag is set exactly when some response, at any position, has type `endOfConversation`. Every forwarded activity is one of the responses, and none is an end-of-conversation activity or a `tokens/request`. |
| ResponseClassifier.KeptIndices | lib/csharp/microsoft.bot.builder.skills/Microsoft.Bot.Builder.Skills/SkillDialog.cs:143-147 | Reference definition of the forwarded list. It gives the strictly increasing positions of exactly those responses that pass both tests. |
| ResponseClassifier.ClassifySelectsKeptIndices | lib/csharp/microsoft.bot.builder.skills/Microsoft.Bot.Builder.Skills/SkillDialog.cs:132-147 | The k-th forwarded activity is, unchanged, the response at the k-th kept position. So the forwarded list is the input with the two kinds of control activity removed: order is preserved and nothing is duplicated or lost. |
| ResponseClassifier.ClassifyCheckOrder | lib/csharp/microsoft.bot.builder.skills/Microsoft.Bot.Builder.Skills/SkillDialog.cs:135-146 | The type test comes first. An end-of-conversation activity always sets the flag and is never forwarded, even when it is named `tokens/request`. Any other `tokens/request` activity is dropped. Every other activity, traces included, is forwarded. With no end-of-conversation activity the flag stays clear. |
| ResponseClassifier.ClassifyConcat | lib/csharp/microsoft.bot.builder.skills/Microsoft.Bot.Builder.Skills/SkillDialog.cs:131-148 | Classifying a response list in two pieces gives the same flag (OR-ed) and the same forwarded list (concatenated) as classifying it whole. The loop carries no hidden state. |
| ResponseClassifier.ClassifyForwardableOnly | lib/csharp/microsoft.bot.builder.skills/Microsoft.Bot.Builder.Skills/SkillDialog.cs:143-147 | A list with no control activity passes through unchanged, and the flag stays clear. |
| ResponseClassifier.ReclassifyForwarded | lib/csharp/microsoft.bot.builder.skills/Microsoft.Bot.Builder.Skills/SkillDialog.cs:131-148 | Classification is idempotent on its output. Classifying the forwarded list again drops nothing and does not set the flag. |
| ResponseClassifier.ClassifyResponses | lib/csharp/microsoft.bot.builder.skills/Microsoft.Bot.Builder.Skills/SkillDialog.cs:131-148 | The foreach loop computes the fold's flag and forwarded list. Its flag is true exactly when some response is end-of-conversation. |
| SkillDialog.TryBlock | lib/csharp/microsoft.bot.builder.skills/Microsoft.Bot.Builder.Skills/SkillDialog.cs:106-171 | The try block before any local fault. A failed send plans at most one effect: the HTTP failure trace, and only for a non-success status. It always ends in an error. A delivered answer ends `Ended` exactly when some response is end-of-conversation, after the closing trace and end dialog, and otherwise `Waiting` with no end dialog. Any batch is non-empty and is the classifier's output. |
| SkillDialog.RunTry | lib/csharp/microsoft.bot.builder.skills/Microsoft.Bot.Builder.Skills/SkillDialog.cs:173-179 | The catch. An error thrown by the try block is rethrown unchanged after end dialog. An effect that throws at position k keeps the effects up to k, then end dialog, and raises that effect's own error. Without a throw the planned effects and outcome stand. |
| SkillDialog.Forward | lib/csharp/microsoft.bot.builder.skills/Microsoft.Bot.Builder.Skills/SkillDialog.cs:102-180 | A raised error always comes after an end-dialog effect. An unsuccessful send is never swallowed. Without a local fault, the rethrown error is the send's own: a transport error, an endpoint error with the reason phrase, or an unreadable body. The dialog waits only after a delivered answer with no end-of-conversation, and then never ends itself. It ends only after the closing trace, and only when the skill sent end-of-conversation. Skill activities go out only as one non-empty batch of the classifier's output. |
| SkillDialog.SuccessEffectOrder | lib/csharp/microsoft.bot.builder.skills/Microsoft.Bot.Builder.Skills/SkillDialog.cs:151-165 | On success, the batch goes out first, and only if it is non-empty. If some response ended the conversation, exactly one closing trace follows, then end dialog, and the outcome is `Ended`. Otherwise nothing follows and the outcome is `Waiting`. |
| SkillDialog.NonSuccessStatus | lib/csharp/microsoft.bot.builder.skills/Microsoft.Bot.Builder.Skills/SkillDialog.cs:167-179 | On a non-2xx status, no skill activity is delivered. The log is one trace carrying the status and reason, then end dialog. The error raised carries the reason phrase. |
| SkillDialog.FaultTruncatesTurn | lib/csharp/microsoft.bot.builder.skills/Microsoft.Bot.Builder.Skills/SkillDialog.cs:106-179 | A local effect that throws at position k cuts the fault-free log after k. The catch then adds end dialog and the fault is raised. A fault position past the try block's effects changes nothing. |
| SkillDialog.TransportFault | lib/csharp/microsoft.bot.builder.skills/Microsoft.Bot.Builder.Skills/SkillDialog.cs:106-179 | A fault before any status is known sends no trace and delivers nothing. The dialog ends and the transport error itself is raised. |
| SkillDialog.UnreadableAnswer | lib/csharp/microsoft.bot.builder.skills/Microsoft.Bot.Builder.Skills/SkillDialog.cs:127-179 | A 2xx answer whose body does not read as activities sends no trace and delivers nothing. The dialog ends and the read failure is raised. |
| SkillDialog.FailureAlwaysUnwinds | lib/csharp/microsoft.bot.builder.skills/Microsoft.Bot.Builder.Skills/SkillDialog.cs:173-179 | Any failure on the forward path (transport, unreadable body, non-success status, a local effect throwing) raises an error. The last effect before the error is end dialog. |
| SkillDialog.SkillEndsConversation | lib/csharp/microsoft.bot.builder.skills/Microsoft.Bot.Builder.Skills/SkillDialog.cs:135-160 | If the skill answers with a lone end-of-conversation activity, then whatever was posted, nothing is delivered, one closing trace is sent and the dialog ends. |
| SkillDialog.SkillSendsOneMessage | lib/csharp/microsoft.bot.builder.skills/Microsoft.Bot.Builder.Skills/SkillDialog.cs:143-164 | If the skill answers with one ordinary activity, exactly that activity is delivered and the dialog waits. |
| SkillDialog.BeginEvent | lib/csharp/microsoft.bot.builder.skills/Microsoft.Bot.Builder.Skills/SkillDialog.cs:64-73 | The begin event exists exactly when `From`, `Recipient` and `Conversation` are non-null. It is an `event` named `skillBegin` with no value. It copies the channel id, the sender's and recipient's id and name, and the conversation id, and nothing else of the incoming activity. |
| SkillDialog.OnBeginDialog | lib/csharp/microsoft.bot.builder.skills/Microsoft.Bot.Builder.Skills/SkillDialog.cs:60-77 | The activity handed to `ForwardToSkill` is the begin event, and the turn is `ForwardToSkill`'s own. If an identity field is null, nothing is posted, no effect happens and a null-reference error is raised. That failure happens before the try block, so the dialog is not unwound. |
| SkillDialog.OnContinueDialog | lib/csharp/microsoft.bot.builder.skills/Microsoft.Bot.Builder.Skills/SkillDialog.cs:85-88 | The incoming activity is handed unchanged to `ForwardToSkill`, and the turn is `ForwardToSkill`'s own. Any raised error is preceded by end dialog. The dialog waits only after a delivered answer without end-of-conversation, and ends only after the closing trace when the skill ended the conversation. |

## Left out

- Building and sending the HTTP request (URI, serializer settings, content headers, `SafeJsonConvert`, `ReadAsAsync`, `HttpClient`). These are network I/O and library serialization. Their result is the `SendResult` parameter.
- Credential trust and request signing (`TrustServiceUrl`, `ProcessHttpRequestAsync`). They are external calls with no logic visible here. Their failures fall under `Faulted`.
- Telemetry, cancellation tokens and async scheduling. They are plumbing; a cancellation surfaces as `Faulted`.
- `EndComponentAsync` and the internals of `EndDialogAsync`. They belong to the dialog framework. Ending the dialog is an opaque `EndDialog` effect.
- Null elements in the response list. The model's response list holds no nulls. In the source such an element throws at the type test, which is one more case of the generic failure path.
- The exact text of the HTTP error trace. It is modelled as a trace note carrying the status code and reason phrase.
- SkillDialog.FaultTruncatesTurn: the injected fault covers the try block's effects only. The catch block's own `EndDialogAsync` is assumed to succeed, and only one fault is injected per turn.
- Classification is a pure function, so classifying the same list twice gives equal results by construction. No separate lemma states this.

Details of the code that the model keeps as written:

- Only a non-success status sends a diagnostic trace. A transport fault or an unreadable body sends none.
- Ending the dialog on end-of-conversation passes no result value.
- If the end dialog of the success path itself throws, the catch ends the dialog a second time before rethrowing. `FaultTruncatesTurn` covers this.
- Building the begin event happens outside the try block, so a failure there is not unwound.
- The dialog's cancellation token never reaches the skill call. `OnContinueDialogAsync` drops it, request signing gets a default token, and `SendAsync` gets none. So cancelling the turn does not cancel the HTTP call.
