/** The notification entity (internal/domain/entity/notification.go). */
module Entity {
  import opened Wrappers

  datatype Channel = Sms | Email | Push

  datatype Priority = High | Normal | Low

  datatype Status = Pending | Queued | Processing | Delivered | Failed | Cancelled {
    /** What the source calls terminal; see `Lifecycle` for what really is. */
    predicate IsTerminal() { Delivered? || Failed? || Cancelled? }
  }

  const ALL_CHANNELS := [Sms, Email, Push]
  const ALL_PRIORITIES := [High, Normal, Low]

  /** A UUID; zero stands for `uuid.Nil`. */
  type Uuid = int

  /** What is to be delivered. Strings are sequences of bytes. `isAddress` tells whether
      the recipient parses as a mail address; the parser is not part of this model. */
  datatype Message = Message(
    recipient: string,
    isAddress: bool,
    subject: Option<string>,
    content: string,
    templateId: Option<Uuid>
  ) {
    predicate HasNoSubject() { subject.None? || subject.value == "" }
  }

  /** Row, in-memory entity and stream payload share this shape. Instants are
      integer nanoseconds. */
  datatype Notification = Notification(
    id: Uuid,
    idempotencyKey: string,
    channel: Channel,
    priority: Priority,
    message: Message,
    status: Status,
    scheduledAt: Option<int>,
    attempts: nat,
    maxAttempts: int,
    lastAttemptAt: Option<int>,
    nextRetryAt: Option<int>,
    providerMessageId: Option<string>,
    errorMessage: Option<string>,
    createdAt: int
  ) {
    /** Budget left and not in a final success or cancel state. */
    predicate IsRetryable() {
      if status == Cancelled || status == Delivered then false else attempts < maxAttempts
    }
  }

  lemma RetryableIff(n: Notification)
    ensures n.IsRetryable() <==> n.status !in {Cancelled, Delivered} && n.attempts < n.maxAttempts
  {
  }

  lemma TerminalStatuses(status: Status)
    ensures status.IsTerminal() <==> status in {Delivered, Failed, Cancelled}
  {
  }

  const DEFAULT_MAX_ATTEMPTS := 5

  function NewNotification(id: Uuid, channel: Channel, priority: Priority, message: Message, key: string, now: int):
    Notification
  {
    Notification(id, key, channel, priority, message, Pending, None, 0, DEFAULT_MAX_ATTEMPTS,
                 None, None, None, None, now)
  }

  /** Pending, unsent, with five attempts. */
  lemma NewNotificationIs(id: Uuid, channel: Channel, priority: Priority, message: Message, key: string, now: int)
    ensures var n := NewNotification(id, channel, priority, message, key, now);
      && n.id == id && n.channel == channel && n.priority == priority && n.message == message
      && n.idempotencyKey == key && n.createdAt == now && n.status == Pending && n.maxAttempts == 5
      && n.scheduledAt.None? && Fresh(n)
  {
  }

  /** What the API hands to the service: a fresh entity whose schedule, retry
      budget and key the caller may have chosen. */
  predicate Fresh(n: Notification) {
    && n.attempts == 0 && n.lastAttemptAt.None? && n.nextRetryAt.None?
    && n.providerMessageId.None? && n.errorMessage.None?
  }

  datatype FieldError =
    | NilId
    | EmptyKey
    | EmptyRecipient
    | EmptyContent
    | BadMaxAttempts
    | BadAddress
    | ShortPhoneNumber
    | EmptyDeviceToken
    | NoSubject
    | ScheduledInPast

  /** Field by field, what is wrong with `n`. */
  predicate Breaks(n: Notification, e: FieldError) {
    match e
    case NilId => n.id == 0
    case EmptyKey => n.idempotencyKey == ""
    case EmptyRecipient => n.message.recipient == ""
    case EmptyContent => n.message.content == "" && n.message.templateId.None?
    case BadMaxAttempts => n.maxAttempts <= 0
    case BadAddress => n.channel == Email && !n.message.isAddress
    case ShortPhoneNumber => n.channel == Sms && |n.message.recipient| < 7
    case EmptyDeviceToken => n.channel == Push && n.message.recipient == ""
    case NoSubject => n.channel == Email && n.message.HasNoSubject() && n.message.templateId.None?
    case ScheduledInPast => n.scheduledAt.Some? && n.scheduledAt.value < n.createdAt
  }

  /** Reports exactly what is wrong. */
  method Validate(n: Notification) returns (errs: seq<FieldError>)
    ensures forall e :: e in errs <==> Breaks(n, e)
    ensures errs == [] <==> IsValid(n)
  {
    errs := ValidateRequired(n);
    var more := ValidateRecipient(n);
    errs := errs + more;
    assert forall e :: e in errs <==> Breaks(n, e) && !e.NoSubject? && !e.ScheduledInPast?;
    if n.channel == Email && n.message.HasNoSubject() && n.message.templateId.None? { errs := errs + [NoSubject]; }
    if n.scheduledAt.Some? && n.scheduledAt.value < n.createdAt { errs := errs + [ScheduledInPast]; }
    ValidMeansFaultless(n);
    if errs != [] { assert errs[0] in errs; }
  }

  /** The checks of the fields that every notification needs. */
  method ValidateRequired(n: Notification) returns (errs: seq<FieldError>)
    ensures forall e :: e in errs <==>
              && Breaks(n, e)
              && (e.NilId? || e.EmptyKey? || e.EmptyRecipient? || e.EmptyContent? || e.BadMaxAttempts?)
  {
    errs := [];
    if n.id == 0 { errs := errs + [NilId]; }
    if n.idempotencyKey == "" { errs := errs + [EmptyKey]; }
    if n.message.recipient == "" { errs := errs + [EmptyRecipient]; }
    if n.message.content == "" && n.message.templateId.None? { errs := errs + [EmptyContent]; }
    if n.maxAttempts <= 0 { errs := errs + [BadMaxAttempts]; }
  }

  /** The checks of the recipient that depend on the channel. */
  method ValidateRecipient(n: Notification) returns (errs: seq<FieldError>)
    ensures forall e :: e in errs <==> Breaks(n, e) && (e.BadAddress? || e.ShortPhoneNumber? || e.EmptyDeviceToken?)
  {
    errs := [];
    match n.channel
    case Email => if !n.message.isAddress { errs := [BadAddress]; }
    case Sms => if |n.message.recipient| < 7 { errs := [ShortPhoneNumber]; }
    case Push => if |n.message.recipient| < 1 { errs := [EmptyDeviceToken]; }
  }

  /** Nothing is wrong with `n`. */
  predicate IsValid(n: Notification) {
    && n.id != 0 && n.idempotencyKey != "" && n.maxAttempts > 0
    && n.message.recipient != "" && (n.message.content != "" || n.message.templateId.Some?)
    && (n.channel == Email ==>
          n.message.isAddress && (n.message.HasNoSubject() ==> n.message.templateId.Some?))
    && (n.channel == Sms ==> |n.message.recipient| >= 7)
    && (n.scheduledAt.Some? ==> n.createdAt <= n.scheduledAt.value)
  }

  lemma ValidMeansFaultless(n: Notification)
    ensures IsValid(n) <==> forall e :: !Breaks(n, e)
  {
    if forall e :: !Breaks(n, e) {
      assert !Breaks(n, NilId) && !Breaks(n, EmptyKey) && !Breaks(n, EmptyRecipient) && !Breaks(n, EmptyContent);
      assert !Breaks(n, BadMaxAttempts) && !Breaks(n, BadAddress) && !Breaks(n, ShortPhoneNumber);
      assert !Breaks(n, NoSubject) && !Breaks(n, ScheduledInPast);
    }
  }
}
