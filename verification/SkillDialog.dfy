/** The skill dialog's relay: build the outgoing activity, hand it to the
    skill endpoint, replay the skill's answer into the local conversation and
    decide whether the dialog keeps waiting, ends, or unwinds and rethrows.

    The HTTP round trip is not modelled; its outcome is the `SendResult`
    parameter. A failure of one of the dialog's own local effects (sending a
    batch, sending a trace, ending the dialog) is injected through `faultAt`,
    the position of the effect that throws. */
module SkillDialog {
  import opened Schema
  import Events
  import opened ResponseClassifier

  /** What came back from the skill endpoint. `Faulted` covers everything that
      throws before a status is known (serialization, credentials, transport);
      a `Response` body of `None` is one that does not read as a list of
      activities. */
  datatype SendResult =
    | Faulted(why: string)
    | Response(status: int, reason: string, body: Option<seq<Activity>>)

  /** The exception the dialog lets escape. */
  datatype Error =
    | TransportError(why: string)     // thrown while preparing or sending the request
    | UnreadableBody                  // the success body did not deserialize
    | EndpointError(reason: string)   // the skill answered with a non-success status
    | EffectFailed(at: nat)           // the local effect at this position threw
    | NullReference                   // the incoming activity lacks an identity field

  /** A diagnostic trace the dialog sends to the local conversation. */
  datatype TraceNote =
    | EndingSkillConversation         // "<--Ending the skill conversation"
    | HttpFailure(status: int, reason: string)

  /** The dialog's local side effects, in the order they are attempted. */
  datatype Effect =
    | SendActivities(batch: seq<Activity>)
    | SendTrace(note: TraceNote)
    | EndDialog

  /** How the turn finishes: `Waiting` is `EndOfTurn`, `Ended` is the result
      of ending the dialog, `Raised` is an exception leaving the dialog. */
  datatype Outcome = Waiting | Ended | Raised(error: Error)

  /** One turn: the activity handed to `ForwardToSkill` (none when building
      it failed), the local effects attempted, and the outcome. */
  datatype Turn = Turn(request: Option<Activity>, log: seq<Effect>, outcome: Outcome)

  /** What the try block of `ForwardToSkill` intends: its local effects, and
      the outcome if none of them throws. */
  datatype Plan = Plan(effects: seq<Effect>, onSuccess: Outcome)

  /** `IsSuccessStatusCode`: a status in the 2xx range. */
  predicate IsSuccessStatusCode(status: int) {
    200 <= status <= 299
  }

  /** The skill answered with a success status and a readable list of activities. */
  predicate Delivered(send: SendResult) {
    send.Response? && IsSuccessStatusCode(send.status) && send.body.Some?
  }

  /** The batch send, issued only when there is something to send. */
  function Batch(forwarded: seq<Activity>): (effects: seq<Effect>) {
    if |forwarded| > 0 then [SendActivities(forwarded)] else []
  }

  /** The try block, assuming every local effect succeeds. */
  function TryBlock(send: SendResult): (p: Plan)
    ensures !Delivered(send) ==> p.onSuccess.Raised?
    // a failed send leaves at most the HTTP failure trace, and only for a status
    ensures !Delivered(send) ==>
      p.effects == (if send.Response? && !IsSuccessStatusCode(send.status)
                    then [SendTrace(HttpFailure(send.status, send.reason))] else [])
    ensures Delivered(send) ==>
      p.onSuccess == (if HasEndOfConversation(send.body.value) then Ended else Waiting)
    ensures p.onSuccess.Waiting? ==> EndDialog !in p.effects
    ensures p.onSuccess.Ended? ==>
      |p.effects| >= 2 && p.effects[|p.effects| - 2..] == [SendTrace(EndingSkillConversation), EndDialog]
    ensures forall e :: e in p.effects && e.SendActivities? ==>
      Delivered(send) && |e.batch| > 0 && e.batch == Classify(send.body.value).forwarded
  {
    match send
    case Faulted(why) => Plan([], Raised(TransportError(why)))
    case Response(status, reason, body) =>
      if IsSuccessStatusCode(status) then
        match body
        case None => Plan([], Raised(UnreadableBody))
        case Some(rs) =>
          var c := Classify(rs);
          if c.ended then
            Plan(Batch(c.forwarded) + [SendTrace(EndingSkillConversation), EndDialog], Ended)
          else
            Plan(Batch(c.forwarded), Waiting)
      else
        Plan([SendTrace(HttpFailure(status, reason))], Raised(EndpointError(reason)))
  }

  /** The try block with its catch: effects run in order until one throws;
      whatever escapes the try block makes the catch end the dialog and
      rethrow. */
  function RunTry(p: Plan, faultAt: Option<nat>): (r: (seq<Effect>, Outcome))
    ensures r.1.Raised? ==> |r.0| > 0 && r.0[|r.0| - 1] == EndDialog
    ensures !r.1.Raised? ==> r == (p.effects, p.onSuccess)
    ensures faultAt.None? ==> r.1 == p.onSuccess
    // an error thrown by the try block is rethrown unchanged
    ensures p.onSuccess.Raised? && (faultAt.None? || faultAt.value >= |p.effects|) ==>
      r == (p.effects + [EndDialog], p.onSuccess)
    // a throwing effect cuts the try block short and its own error is rethrown
    ensures faultAt.Some? && faultAt.value < |p.effects| ==>
      && r.1 == Raised(EffectFailed(faultAt.value))
      && |r.0| == faultAt.value + 2
      && r.0[..faultAt.value + 1] == p.effects[..faultAt.value + 1]
    ensures forall e :: e in r.0 ==> e in p.effects || e == EndDialog
  {
    if faultAt.Some? && faultAt.value < |p.effects| then
      (p.effects[..faultAt.value + 1] + [EndDialog], Raised(EffectFailed(faultAt.value)))
    else if p.onSuccess.Raised? then
      (p.effects + [EndDialog], p.onSuccess)
    else
      (p.effects, p.onSuccess)
  }

  /** `ForwardToSkill`: post `activity`, replay the answer, decide the outcome. */
  function Forward(activity: Activity, send: SendResult, faultAt: Option<nat>): (t: Turn)
    ensures t.request == Some(activity)
    // a failure always unwinds the dialog before the error leaves it
    ensures t.outcome.Raised? ==> |t.log| > 0 && t.log[|t.log| - 1] == EndDialog
    // an unsuccessful send is never swallowed: without a local fault, the
    // send's own error is the one rethrown
    ensures !Delivered(send) ==> t.outcome.Raised?
    ensures faultAt.None? && send.Faulted? ==> t.outcome == Raised(TransportError(send.why))
    ensures faultAt.None? && send.Response? && !IsSuccessStatusCode(send.status) ==>
      t.outcome == Raised(EndpointError(send.reason))
    ensures faultAt.None? && send.Response? && IsSuccessStatusCode(send.status) && send.body.None? ==>
      t.outcome == Raised(UnreadableBody)
    // the dialog keeps waiting only after a clean turn without end-of-conversation
    ensures t.outcome.Waiting? ==>
      Delivered(send) && !HasEndOfConversation(send.body.value) && EndDialog !in t.log
    // the dialog ends only when the skill said so, after the closing trace
    ensures t.outcome.Ended? ==>
      Delivered(send) && HasEndOfConversation(send.body.value)
      && |t.log| >= 2 && t.log[|t.log| - 2..] == [SendTrace(EndingSkillConversation), EndDialog]
    // without a local fault, a delivered answer decides the outcome by its flag alone
    ensures faultAt.None? && Delivered(send) ==>
      t.outcome == (if HasEndOfConversation(send.body.value) then Ended else Waiting)
    // skill activities reach the local conversation only from a delivered answer,
    // as one non-empty batch of forwardable activities
    ensures forall e :: e in t.log && e.SendActivities? ==>
      Delivered(send) && |e.batch| > 0 && e.batch == Classify(send.body.value).forwarded
  {
    var p := TryBlock(send);
    var (log, outcome) := RunTry(p, faultAt);
    Turn(Some(activity), log, outcome)
  }

  /** The activity is a begin signal: an event named "skillBegin" with no value. */
  predicate IsSkillBeginSignal(ev: Activity) {
    ev.activityType == Some(EventType) && ev.name == Some(Events.SkillBeginEventName) && ev.value.None?
  }

  /** `ev` carries the channel, the ids and names of sender and recipient, and
      the conversation id of `incoming`, and nothing else of it. */
  predicate MirrorsIdentity(ev: Activity, incoming: Activity)
    requires incoming.from.Some? && incoming.recipient.Some? && incoming.conversation.Some?
  {
    && ev.channelId == incoming.channelId
    && ev.from == Some(ChannelAccount(incoming.from.value.id, incoming.from.value.name, None))
    && ev.recipient == Some(ChannelAccount(incoming.recipient.value.id, incoming.recipient.value.name, None))
    && ev.conversation == Some(ConversationAccount(incoming.conversation.value.id, None, None))
    && ev.id.None? && ev.text.None?
  }

  /** The begin event built from the incoming activity; `None` when reading
      `From`, `Recipient` or `Conversation` dereferences null. */
  function BeginEvent(incoming: Activity): (r: Option<Activity>)
    ensures r.Some? <==> incoming.from.Some? && incoming.recipient.Some? && incoming.conversation.Some?
    ensures r.Some? ==> IsSkillBeginSignal(r.value) && MirrorsIdentity(r.value, incoming)
  {
    if incoming.from.None? || incoming.recipient.None? || incoming.conversation.None? then None
    else
      var from, recipient := incoming.from.value, incoming.recipient.value;
      Some(Activity(
        activityType := Some(EventType),
        id := None,
        name := Some(Events.SkillBeginEventName),
        channelId := incoming.channelId,
        from := Some(ChannelAccount(from.id, from.name, None)),
        recipient := Some(ChannelAccount(recipient.id, recipient.name, None)),
        conversation := Some(ConversationAccount(incoming.conversation.value.id, None, None)),
        text := None,
        value := None))
  }

  /** `OnBeginDialogAsync`: forward a begin signal built from the incoming
      activity. Building it happens before the try block, so a null identity
      field throws without unwinding the dialog. */
  function OnBeginDialog(incoming: Activity, send: SendResult, faultAt: Option<nat>): (t: Turn)
    ensures t.request.None? <==> incoming.from.None? || incoming.recipient.None? || incoming.conversation.None?
    ensures t.request.Some? ==> IsSkillBeginSignal(t.request.value) && MirrorsIdentity(t.request.value, incoming)
    ensures t.request.None? ==> t.log == [] && t.outcome == Raised(NullReference)
    ensures t.request.Some? ==> t == Forward(t.request.value, send, faultAt)
  {
    match BeginEvent(incoming)
    case None => Turn(None, [], Raised(NullReference))
    case Some(ev) => Forward(ev, send, faultAt)
  }

  /** `OnContinueDialogAsync`: forward the incoming activity unchanged. */
  function OnContinueDialog(incoming: Activity, send: SendResult, faultAt: Option<nat>): (t: Turn)
    ensures t.request == Some(incoming)
    ensures t == Forward(incoming, send, faultAt)
    ensures t.outcome.Raised? ==> |t.log| > 0 && t.log[|t.log| - 1] == EndDialog
    ensures !Delivered(send) ==> t.outcome.Raised?
    ensures t.outcome.Waiting? ==>
      Delivered(send) && !HasEndOfConversation(send.body.value) && EndDialog !in t.log
    ensures t.outcome.Ended? ==>
      Delivered(send) && HasEndOfConversation(send.body.value)
      && |t.log| >= 2 && t.log[|t.log| - 2..] == [SendTrace(EndingSkillConversation), EndDialog]
  {
    Forward(incoming, send, faultAt)
  }

  /** A successful answer with no local fault: the forwarded activities go out
      first as one batch (no batch when there are none); then, if some response
      ended the conversation, exactly one closing trace and the end of the
      dialog; otherwise nothing more, and the dialog waits. */
  lemma SuccessEffectOrder(activity: Activity, status: int, reason: string, rs: seq<Activity>)
    requires IsSuccessStatusCode(status)
    ensures var t := Forward(activity, Response(status, reason, Some(rs)), None);
      && t.log == Batch(Classify(rs).forwarded)
                  + (if HasEndOfConversation(rs) then [SendTrace(EndingSkillConversation), EndDialog] else [])
      && t.outcome == (if HasEndOfConversation(rs) then Ended else Waiting)
  {
  }

  /** A non-success status: no skill activity is delivered; one trace carrying
      the status and reason goes out, then the dialog ends, then the error is
      raised with the reason. */
  lemma NonSuccessStatus(activity: Activity, status: int, reason: string, body: Option<seq<Activity>>)
    requires !IsSuccessStatusCode(status)
    ensures var t := Forward(activity, Response(status, reason, body), None);
      && t.log == [SendTrace(HttpFailure(status, reason)), EndDialog]
      && t.outcome == Raised(EndpointError(reason))
  {
  }

  /** A fault before any status is known: no trace, no delivery; the dialog
      ends and the transport error itself is rethrown. */
  lemma TransportFault(activity: Activity, why: string)
    ensures Forward(activity, Faulted(why), None)
      == Turn(Some(activity), [EndDialog], Raised(TransportError(why)))
  {
  }

  /** A success status whose body does not read as a list of activities: no
      trace, no delivery; the dialog ends and the read failure is rethrown. */
  lemma UnreadableAnswer(activity: Activity, status: int, reason: string)
    requires IsSuccessStatusCode(status)
    ensures Forward(activity, Response(status, reason, None), None)
      == Turn(Some(activity), [EndDialog], Raised(UnreadableBody))
  {
  }

  /** A local effect that throws stops the try block: the effects before it
      happened as in a fault-free turn, the ones after it never do, and the
      dialog is ended before the fault is rethrown. A fault position past the
      try block's effects changes nothing. */
  lemma FaultTruncatesTurn(activity: Activity, send: SendResult, k: nat)
    ensures var t, clean := Forward(activity, send, Some(k)), Forward(activity, send, None);
      k < |TryBlock(send).effects| ==>
        && k < |clean.log|
        && t.log == clean.log[..k + 1] + [EndDialog]
        && t.outcome == Raised(EffectFailed(k))
    ensures k >= |TryBlock(send).effects| ==>
      Forward(activity, send, Some(k)) == Forward(activity, send, None)
  {
    var p := TryBlock(send);
    if k < |p.effects| {
      var clean := Forward(activity, send, None);
      assert clean.log[..k + 1] == p.effects[..k + 1];
    }
  }

  /** Every failure on the forward path, whatever it is, ends the dialog
      before the error leaves it, and the dialog is never left waiting. */
  lemma FailureAlwaysUnwinds(activity: Activity, send: SendResult, faultAt: Option<nat>)
    requires !Delivered(send) || (faultAt.Some? && faultAt.value < |TryBlock(send).effects|)
    ensures var t := Forward(activity, send, faultAt);
      && t.outcome.Raised?
      && EndDialog in t.log
      && t.log[|t.log| - 1] == EndDialog
  {
  }

  /** The skill answers with a lone end-of-conversation activity: whatever was
      posted, nothing is delivered, one closing trace goes out and the dialog ends. */
  lemma SkillEndsConversation(activity: Activity, status: int, reason: string, eoc: Activity)
    requires IsSuccessStatusCode(status) && IsEndOfConversation(eoc)
    ensures Forward(activity, Response(status, reason, Some([eoc])), None)
      == Turn(Some(activity), [SendTrace(EndingSkillConversation), EndDialog], Ended)
  {
    assert [eoc][..0] == [];
    assert Classify([eoc]) == Step(Classify([]), eoc);
  }

  /** The skill answers with one ordinary message: exactly that message is
      delivered and the dialog waits. */
  lemma SkillSendsOneMessage(activity: Activity, status: int, reason: string, msg: Activity)
    requires IsSuccessStatusCode(status) && Forwardable(msg)
    ensures Forward(activity, Response(status, reason, Some([msg])), None)
      == Turn(Some(activity), [SendActivities([msg])], Waiting)
  {
    ClassifyForwardableOnly([msg]);
  }
}
