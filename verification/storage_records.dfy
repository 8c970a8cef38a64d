/**
 * The records of the in-memory store, the insert payloads they are built
 * from, and the per-record updates the store applies. Timestamps are
 * milliseconds since the epoch; a nullable column is an `Option`.
 */
module StorageRecords {
  import opened Wrappers

  datatype User = User(
    id: int, username: string, password: string, role: string,
    firstName: string, lastName: string,
    email: Option<string>, phone: Option<string>, createdAt: int)

  datatype NewUser = NewUser(
    username: string, password: string, role: string,
    firstName: string, lastName: string,
    email: Option<string>, phone: Option<string>)

  datatype Measurement = Measurement(
    id: int, patientId: int, systolic: int, diastolic: int, pulse: int,
    context: Option<string>, comment: Option<string>, measuredAt: int, createdAt: int)

  datatype NewMeasurement = NewMeasurement(
    patientId: int, systolic: int, diastolic: int, pulse: int,
    context: Option<string>, comment: Option<string>, measuredAt: int)

  datatype Subscription = Subscription(
    id: int, patientId: int, status: string, plan: string, amount: int,
    startDate: int, endDate: int, paymentMethod: Option<string>, createdAt: int)

  datatype NewSubscription = NewSubscription(
    patientId: int, status: string, plan: string, amount: int,
    startDate: int, endDate: int, paymentMethod: Option<string>)

  datatype Payment = Payment(
    id: int, subscriptionId: int, amount: int, paymentMethod: string,
    transactionId: Option<string>, status: string, paidAt: Option<int>, createdAt: int)

  datatype NewPayment = NewPayment(
    subscriptionId: int, amount: int, paymentMethod: string,
    transactionId: Option<string>, status: string, paidAt: Option<int>)

  /** `kind` is the `type` column. */
  datatype Notification = Notification(
    id: int, userId: int, kind: string, title: string, message: string,
    isRead: bool, createdAt: int)

  datatype NewNotification = NewNotification(
    userId: int, kind: string, title: string, message: string, isRead: Option<bool>)

  /** `isActive` and `reminderEnabled` are columns with a default that the store never
      fills in: a payload without them gives a record without them (`None`). */
  datatype Medication = Medication(
    id: int, patientId: int, name: string, dosage: string, frequency: string,
    instructions: Option<string>, prescribedBy: Option<string>,
    startDate: int, endDate: Option<int>, isActive: Option<bool>, reminderEnabled: Option<bool>,
    reminderTimes: Option<seq<string>>, createdAt: int)

  datatype NewMedication = NewMedication(
    patientId: int, name: string, dosage: string, frequency: string,
    instructions: Option<string>, prescribedBy: Option<string>,
    startDate: int, endDate: Option<int>, isActive: Option<bool>, reminderEnabled: Option<bool>,
    reminderTimes: Option<seq<string>>)

  /** The fields a medication update (`Partial<Medication>`) may carry; an absent field is
      left as it is. */
  datatype MedicationChanges = MedicationChanges(
    id: Option<int>, patientId: Option<int>, name: Option<string>, dosage: Option<string>, frequency: Option<string>,
    instructions: Option<Option<string>>, prescribedBy: Option<Option<string>>,
    startDate: Option<int>, endDate: Option<Option<int>>, isActive: Option<bool>,
    reminderEnabled: Option<bool>, reminderTimes: Option<Option<seq<string>>>, createdAt: Option<int>)

  /** `kind` is the `type` column. `kind`, `isRead` and `priority` are columns with a
      default that the store never fills in: a payload without them gives a record
      without them (`None`). */
  datatype Message = Message(
    id: int, senderId: int, receiverId: int, content: string, kind: Option<string>,
    isRead: Option<bool>, priority: Option<string>, createdAt: int)

  datatype NewMessage = NewMessage(
    senderId: int, receiverId: int, content: string, kind: Option<string>, isRead: Option<bool>,
    priority: Option<string>)

  // The id of each kind of record, as a function value for the generic table lemmas.
  function UserId(u: User): int { u.id }
  function MeasurementId(m: Measurement): int { m.id }
  function SubscriptionId(s: Subscription): int { s.id }
  function PaymentId(p: Payment): int { p.id }
  function NotificationId(n: Notification): int { n.id }
  function MedicationId(m: Medication): int { m.id }
  function MessageId(m: Message): int { m.id }

  /** `value || null` on an optional string: absent and empty both become null. */
  function NullIfEmpty(s: Option<string>): (r: Option<string>)
    ensures r.Some? <==> s.Some? && s.value != ""
    ensures r.Some? ==> r == s
  {
    if s.Some? && s.value != "" then s else None
  }

  /** The payload a user record holds, as `createUser` received it up to normalisation. */
  function UserPayload(r: User): NewUser {
    NewUser(r.username, r.password, r.role, r.firstName, r.lastName, r.email, r.phone)
  }

  /** The user `createUser` stores: the payload, its id and creation time; every field of
      the payload is kept except that an empty email or phone becomes null. */
  function UserRecord(id: int, u: NewUser, now: int): (r: User)
    ensures r.id == id && r.createdAt == now
    ensures UserPayload(r) == u.(email := NullIfEmpty(u.email), phone := NullIfEmpty(u.phone))
    ensures u.email != Some("") && u.phone != Some("") ==> UserPayload(r) == u
  {
    User(id, u.username, u.password, u.role, u.firstName, u.lastName,
         NullIfEmpty(u.email), NullIfEmpty(u.phone), now)
  }

  function MeasurementPayload(r: Measurement): NewMeasurement {
    NewMeasurement(r.patientId, r.systolic, r.diastolic, r.pulse, r.context, r.comment, r.measuredAt)
  }

  /** The measurement `createMeasurement` stores: every field of the payload is kept except
      that an empty context or comment becomes null. */
  function MeasurementRecord(id: int, m: NewMeasurement, now: int): (r: Measurement)
    ensures r.id == id && r.createdAt == now
    ensures MeasurementPayload(r) == m.(context := NullIfEmpty(m.context), comment := NullIfEmpty(m.comment))
    ensures m.context != Some("") && m.comment != Some("") ==> MeasurementPayload(r) == m
  {
    Measurement(id, m.patientId, m.systolic, m.diastolic, m.pulse,
                NullIfEmpty(m.context), NullIfEmpty(m.comment), m.measuredAt, now)
  }

  /** `createSubscription`: an empty payment method is stored as null. */
  function SubscriptionRecord(id: int, s: NewSubscription, now: int): (r: Subscription)
    ensures r.id == id && r.createdAt == now && r.paymentMethod == NullIfEmpty(s.paymentMethod)
    ensures r.(id := 0, createdAt := 0, paymentMethod := s.paymentMethod) ==
            Subscription(0, s.patientId, s.status, s.plan, s.amount, s.startDate, s.endDate, s.paymentMethod, 0)
  {
    Subscription(id, s.patientId, s.status, s.plan, s.amount, s.startDate, s.endDate,
                 NullIfEmpty(s.paymentMethod), now)
  }

  /** `createPayment`: an empty transaction id is stored as null, an absent payment time as null. */
  function PaymentRecord(id: int, p: NewPayment, now: int): (r: Payment)
    ensures r.id == id && r.createdAt == now && r.transactionId == NullIfEmpty(p.transactionId)
    ensures r.(id := 0, createdAt := 0, transactionId := p.transactionId) ==
            Payment(0, p.subscriptionId, p.amount, p.paymentMethod, p.transactionId, p.status, p.paidAt, 0)
  {
    Payment(id, p.subscriptionId, p.amount, p.paymentMethod, NullIfEmpty(p.transactionId),
            p.status, p.paidAt, now)
  }

  /** `createNotification`: `isRead || false`, so only an explicit true marks it read. */
  function NotificationRecord(id: int, n: NewNotification, now: int): (r: Notification)
    ensures r.id == id && r.createdAt == now
    ensures r.isRead <==> n.isRead == Some(true)
    ensures r.(id := 0, createdAt := 0, isRead := false) ==
            Notification(0, n.userId, n.kind, n.title, n.message, false, 0)
  {
    Notification(id, n.userId, n.kind, n.title, n.message, n.isRead == Some(true), now)
  }

  /** `createMedication`: the payload as given, with its id and creation time. No default
      is filled in, so a payload without `isActive` or `reminderEnabled` gives a record
      without them. */
  function MedicationRecord(id: int, m: NewMedication, now: int): (r: Medication)
    ensures r.id == id && r.createdAt == now
    ensures r.(id := 0, createdAt := 0) ==
            Medication(0, m.patientId, m.name, m.dosage, m.frequency, m.instructions, m.prescribedBy,
                       m.startDate, m.endDate, m.isActive, m.reminderEnabled, m.reminderTimes, 0)
  {
    Medication(id, m.patientId, m.name, m.dosage, m.frequency, m.instructions, m.prescribedBy,
               m.startDate, m.endDate, m.isActive, m.reminderEnabled, m.reminderTimes, now)
  }

  /** `createMessage`: the payload as given, with its id and creation time. No default is
      filled in, so a payload without `kind`, `isRead` or `priority` gives a record without
      them. */
  function MessageRecord(id: int, m: NewMessage, now: int): (r: Message)
    ensures r.id == id && r.createdAt == now
    ensures r.(id := 0, createdAt := 0) ==
            Message(0, m.senderId, m.receiverId, m.content, m.kind, m.isRead, m.priority, 0)
  {
    Message(id, m.senderId, m.receiverId, m.content, m.kind, m.isRead, m.priority, now)
  }

  /** `updateSubscriptionStatus` on one record: only the status changes. */
  function WithSubscriptionStatus(s: Subscription, status: string): (r: Subscription)
    ensures r.status == status && r.(status := s.status) == s
  {
    s.(status := status)
  }

  /** `updatePaymentStatus` on one record: the status changes, and the payment time becomes
      `now` when the new status is "completed" and stays as it was otherwise. */
  function WithPaymentStatus(p: Payment, status: string, now: int): (r: Payment)
    ensures r.status == status
    ensures r.paidAt == if status == "completed" then Some(now) else p.paidAt
    ensures r.(status := p.status, paidAt := p.paidAt) == p
  {
    var q := p.(status := status);
    if status == "completed" then q.(paidAt := Some(now)) else q
  }

  function NotificationRead(n: Notification): (r: Notification)
    ensures r.isRead && r.(isRead := n.isRead) == n
  {
    n.(isRead := true)
  }

  function MessageRead(m: Message): (r: Message)
    ensures r.isRead == Some(true) && r.(isRead := m.isRead) == m
  {
    m.(isRead := Some(true))
  }

  /** `Object.assign(medication, updates)` as written: every field present in the changes
      overwrites the record's, the id included, although the store keeps the record under
      its old key. It differs from `ApplyMedicationChanges` in the id alone. */
  function ApplyMedicationChangesAsWritten(m: Medication, ch: MedicationChanges): (r: Medication)
    ensures r.id == (if ch.id.Some? then ch.id.value else m.id)
    ensures r.(id := m.id) == ApplyMedicationChanges(m, ch)
  {
    Medication(
      ch.id.GetOr(m.id),
      ch.patientId.GetOr(m.patientId),
      ch.name.GetOr(m.name),
      ch.dosage.GetOr(m.dosage),
      ch.frequency.GetOr(m.frequency),
      ch.instructions.GetOr(m.instructions),
      ch.prescribedBy.GetOr(m.prescribedBy),
      ch.startDate.GetOr(m.startDate),
      ch.endDate.GetOr(m.endDate),
      if ch.isActive.Some? then Some(ch.isActive.value) else m.isActive,
      if ch.reminderEnabled.Some? then Some(ch.reminderEnabled.value) else m.reminderEnabled,
      ch.reminderTimes.GetOr(m.reminderTimes),
      ch.createdAt.GetOr(m.createdAt))
  }

  /** The update with the record's id protected: each field present in the changes
      overwrites the record's, every other field is kept, and the id never changes, so the
      record stays keyed by its own id. */
  function ApplyMedicationChanges(m: Medication, ch: MedicationChanges): (r: Medication)
    ensures r.id == m.id
    ensures r.patientId == (if ch.patientId.Some? then ch.patientId.value else m.patientId)
    ensures r.name == (if ch.name.Some? then ch.name.value else m.name)
    ensures r.dosage == (if ch.dosage.Some? then ch.dosage.value else m.dosage)
    ensures r.frequency == (if ch.frequency.Some? then ch.frequency.value else m.frequency)
    ensures r.instructions == (if ch.instructions.Some? then ch.instructions.value else m.instructions)
    ensures r.prescribedBy == (if ch.prescribedBy.Some? then ch.prescribedBy.value else m.prescribedBy)
    ensures r.startDate == (if ch.startDate.Some? then ch.startDate.value else m.startDate)
    ensures r.endDate == (if ch.endDate.Some? then ch.endDate.value else m.endDate)
    ensures r.isActive == (if ch.isActive.Some? then Some(ch.isActive.value) else m.isActive)
    ensures r.reminderEnabled == (if ch.reminderEnabled.Some? then Some(ch.reminderEnabled.value) else m.reminderEnabled)
    ensures r.reminderTimes == (if ch.reminderTimes.Some? then ch.reminderTimes.value else m.reminderTimes)
    ensures r.createdAt == (if ch.createdAt.Some? then ch.createdAt.value else m.createdAt)
  {
    Medication(
      m.id,
      ch.patientId.GetOr(m.patientId),
      ch.name.GetOr(m.name),
      ch.dosage.GetOr(m.dosage),
      ch.frequency.GetOr(m.frequency),
      ch.instructions.GetOr(m.instructions),
      ch.prescribedBy.GetOr(m.prescribedBy),
      ch.startDate.GetOr(m.startDate),
      ch.endDate.GetOr(m.endDate),
      if ch.isActive.Some? then Some(ch.isActive.value) else m.isActive,
      if ch.reminderEnabled.Some? then Some(ch.reminderEnabled.value) else m.reminderEnabled,
      ch.reminderTimes.GetOr(m.reminderTimes),
      ch.createdAt.GetOr(m.createdAt))
  }

  const NoMedicationChanges :=
    MedicationChanges(None, None, None, None, None, None, None, None, None, None, None, None, None)

  /** An empty update changes nothing, and applying the same update twice is applying it once. */
  lemma MedicationChangesLaws(m: Medication, ch: MedicationChanges)
    ensures ApplyMedicationChanges(m, NoMedicationChanges) == m
    ensures ApplyMedicationChanges(ApplyMedicationChanges(m, ch), ch) == ApplyMedicationChanges(m, ch)
  {
  }

  /** Applies `f` to the record under `id`, if there is one; the other entries stay. */
  function UpdateAt<V>(t: map<int, V>, id: int, f: V -> V): (r: map<int, V>)
    ensures r.Keys == t.Keys
    ensures id in t ==> r[id] == f(t[id])
    ensures forall k :: k in t && k != id ==> r[k] == t[k]
  {
    if id in t then t[id := f(t[id])] else t
  }

  /** Updating with an idempotent record change is idempotent. */
  lemma UpdateAtIdempotent<V>(t: map<int, V>, id: int, f: V -> V)
    requires forall v :: f(f(v)) == f(v)
    ensures UpdateAt(UpdateAt(t, id, f), id, f) == UpdateAt(t, id, f)
  {
  }

  /** Marking read twice is marking read once. */
  lemma MarkReadIdempotent(notifications: map<int, Notification>, messages: map<int, Message>, id: int)
    ensures UpdateAt(UpdateAt(notifications, id, NotificationRead), id, NotificationRead) ==
            UpdateAt(notifications, id, NotificationRead)
    ensures UpdateAt(UpdateAt(messages, id, MessageRead), id, MessageRead) ==
            UpdateAt(messages, id, MessageRead)
  {
    UpdateAtIdempotent(notifications, id, NotificationRead);
    UpdateAtIdempotent(messages, id, MessageRead);
  }
}
