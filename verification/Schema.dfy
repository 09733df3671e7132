/** The slice of the Bot Framework activity schema that the skill relay reads
    or writes. Reference-typed fields of the schema may be null; null is
    modelled as `None`. */
module Schema {

  /** A possibly-null reference or string. */
  datatype Option<+T> = None | Some(value: T)

  /** A participant of a conversation (the schema's `ChannelAccount`). */
  datatype ChannelAccount = ChannelAccount(id: Option<string>, name: Option<string>, role: Option<string>)

  /** The conversation an activity belongs to (the schema's `ConversationAccount`). */
  datatype ConversationAccount = ConversationAccount(id: Option<string>, name: Option<string>, isGroup: Option<bool>)

  /** One activity. `activityType` is the schema's `Type` string; `value` is
      an opaque payload, kept only to say whether it is present. */
  datatype Activity = Activity(
    activityType: Option<string>,
    id: Option<string>,
    name: Option<string>,
    channelId: Option<string>,
    from: Option<ChannelAccount>,
    recipient: Option<ChannelAccount>,
    conversation: Option<ConversationAccount>,
    text: Option<string>,
    value: Option<string>)

  /** The values of `ActivityTypes` the relay uses. */
  const EventType: string := "event"
  const EndOfConversationType: string := "endOfConversation"
}
