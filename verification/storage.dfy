/**
 * `MemStorage`: the in-memory store behind the application's storage interface.
 * Seven tables map ids to records; each table has its own id counter, which only
 * ever grows, so a deleted id is never handed out again. Reads enumerate a table
 * in insertion order (ascending id), filter it, and sort it with a stable sort.
 * The wall clock is the `now` parameter of every operation that reads it.
 */
module Storage {
  import opened Wrappers
  import opened JsArrays
  import opened StorageRecords

  const Day: int := 86_400_000

  /** Every record sits under its own id, and every id lies in [1, next). */
  ghost predicate IdTable<V>(t: map<int, V>, id: V -> int, next: int) {
    && next >= 1
    && KeyedById(t, id)
    && forall k :: k in t ==> 1 <= k < next
  }

  /** `Array.from(t.values()).filter(p).sort(byKey)`: the records satisfying `p`, each once,
      ascending by `key`, ties in ascending id order. By `OrderedUnique` this determines the
      result. */
  function Query<V(==,!new)>(t: map<int, V>, next: int, id: V -> int, p: V -> bool, key: V -> int): (r: seq<V>)
    requires IdTable(t, id, next)
    ensures forall x :: x in r <==> x in t.Values && p(x)
    ensures OrderedBy(r, key, id)
  {
    var all := ValuesInKeyOrder(t, 1, next);
    ValuesInKeyOrderExact(t, id, 1, next);
    var chosen := Filter(all, p);
    FilterKeepsIncreasing(all, p, id);
    var r := SortBy(chosen, key);
    SortByStable(chosen, key, id);
    SameMembers(r, chosen);
    r
  }

  /** `Array.from(t.values()).find(p)`: the matching record with the lowest id, if any. */
  function FirstMatch<V(==,!new)>(t: map<int, V>, next: int, id: V -> int, p: V -> bool): (r: Option<V>)
    requires IdTable(t, id, next)
    ensures r.None? <==> forall x :: x in t.Values ==> !p(x)
    ensures r.Some? ==> r.value in t.Values && p(r.value)
    ensures r.Some? ==> forall x :: x in t.Values && p(x) ==> id(r.value) <= id(x)
  {
    var all := ValuesInKeyOrder(t, 1, next);
    ValuesInKeyOrderExact(t, id, 1, next);
    FindLowest(all, p, id);
    Find(all, p)
  }

  // The filters of the read operations.
  function UsernameIs(name: string): User -> bool { (u: User) => u.username == name }
  function OfPatient(patientId: int): Measurement -> bool { (m: Measurement) => m.patientId == patientId }
  function MeasuredBetween(patientId: int, start: int, end: int): Measurement -> bool {
    (m: Measurement) => m.patientId == patientId && start <= m.measuredAt && m.measuredAt <= end
  }
  function SubscriberIs(patientId: int): Subscription -> bool { (s: Subscription) => s.patientId == patientId }
  function ForSubscription(subscriptionId: int): Payment -> bool { (p: Payment) => p.subscriptionId == subscriptionId }
  function ForUser(userId: int): Notification -> bool { (n: Notification) => n.userId == userId }
  function PrescribedTo(patientId: int): Medication -> bool { (m: Medication) => m.patientId == patientId }
  function Involves(userId: int): Message -> bool { (m: Message) => m.senderId == userId || m.receiverId == userId }
  function Between(a: int, b: int): Message -> bool {
    (m: Message) => (m.senderId == a && m.receiverId == b) || (m.senderId == b && m.receiverId == a)
  }

  // The sort keys: a comparator `b.t - a.t` (newest first) sorts ascending by `-t`.
  function NewestMeasuredFirst(m: Measurement): int { -m.measuredAt }
  function MeasuredAt(m: Measurement): int { m.measuredAt }
  /** `paidAt?.getTime() || 0`: an unpaid payment counts as paid at time 0. */
  function PaidTime(p: Payment): (t: int)
    ensures p.paidAt.None? ==> t == 0
    ensures p.paidAt.Some? ==> t == p.paidAt.value
  {
    p.paidAt.GetOr(0)
  }
  function LatestPaidFirst(p: Payment): int { -PaidTime(p) }
  function NewestNotificationFirst(n: Notification): int { -n.createdAt }
  function NewestMedicationFirst(m: Medication): int { -m.createdAt }
  function NewestMessageFirst(m: Message): int { -m.createdAt }
  function SentAt(m: Message): int { m.createdAt }

  /** What each comparator puts first: the newer record for the newest-first sorts, the
      older one for the oldest-first sorts, and on a tie the one with the smaller id. */
  lemma ComparatorOrders(m: Measurement, m': Measurement, p: Payment, p': Payment,
                         n: Notification, n': Notification, d: Medication, d': Medication,
                         g: Message, g': Message)
    ensures Before(m, m', NewestMeasuredFirst, MeasurementId) <==>
      m.measuredAt > m'.measuredAt || (m.measuredAt == m'.measuredAt && m.id < m'.id)
    ensures Before(m, m', MeasuredAt, MeasurementId) <==>
      m.measuredAt < m'.measuredAt || (m.measuredAt == m'.measuredAt && m.id < m'.id)
    ensures Before(p, p', LatestPaidFirst, PaymentId) <==>
      PaidTime(p) > PaidTime(p') || (PaidTime(p) == PaidTime(p') && p.id < p'.id)
    ensures Before(n, n', NewestNotificationFirst, NotificationId) <==>
      n.createdAt > n'.createdAt || (n.createdAt == n'.createdAt && n.id < n'.id)
    ensures Before(d, d', NewestMedicationFirst, MedicationId) <==>
      d.createdAt > d'.createdAt || (d.createdAt == d'.createdAt && d.id < d'.id)
    ensures Before(g, g', NewestMessageFirst, MessageId) <==>
      g.createdAt > g'.createdAt || (g.createdAt == g'.createdAt && g.id < g'.id)
    ensures Before(g, g', SentAt, MessageId) <==>
      g.createdAt < g'.createdAt || (g.createdAt == g'.createdAt && g.id < g'.id)
  {
  }

  /** An unpaid payment sorts as if paid at time 0: after every payment paid at a positive
      time and before every payment paid at a negative one. */
  lemma UnpaidPaymentOrder(unpaid: Payment, paid: Payment)
    requires unpaid.paidAt.None? && paid.paidAt.Some?
    ensures paid.paidAt.value > 0 ==> Before(paid, unpaid, LatestPaidFirst, PaymentId)
    ensures paid.paidAt.value < 0 ==> Before(unpaid, paid, LatestPaidFirst, PaymentId)
  {
  }

  function Min(a: int, b: int): int { if a < b then a else b }
  function Max(a: int, b: int): int { if a < b then b else a }

  // The demo data the store starts with.
  function SeedUsers(now: int): map<int, User> {
    map[1 := User(1, "patient", "patient", "patient", "Marie", "Dupont",
                  Some("marie.dupont@email.com"), Some("+22555123456"), now),
        2 := User(2, "medecin", "medecin", "medecin", "Dr. Jean", "Martin",
                  Some("dr.martin@clinic.com"), Some("+22555654321"), now),
        3 := User(3, "admin", "admin", "admin", "Admin", "System",
                  Some("admin@tensiocare.com"), Some("+22555999888"), now)]
  }

  function SeedSubscriptions(now: int): map<int, Subscription> {
    map[1 := Subscription(1, 1, "active", "monthly", 5000, 1707955200000, now + 2 * Day,
                          Some("orange_money"), now)]
  }

  const SeedMeasurement1 := Measurement(1, 1, 128, 82, 72, Some("repos"), Some("Après repos"), 1708093800000, 1708093800000)
  const SeedMeasurement2 := Measurement(2, 1, 142, 88, 78, Some("stress"), Some("Stress au travail"), 1707988500000, 1707988500000)
  const SeedMeasurement3 := Measurement(3, 1, 125, 79, 68, Some("repos"), Some("Soirée calme"), 1707937200000, 1707937200000)
  const SeedMeasurement4 := Measurement(4, 1, 135, 85, 75, Some("apres_repas"), Some("Après déjeuner"), 1707813000000, 1707813000000)
  const SeedMeasurement5 := Measurement(5, 1, 130, 83, 70, Some("matin"), Some("Matin au réveil"), 1707768900000, 1707768900000)

  const SeedMeasurements: map<int, Measurement> :=
    map[1 := SeedMeasurement1, 2 := SeedMeasurement2, 3 := SeedMeasurement3,
        4 := SeedMeasurement4, 5 := SeedMeasurement5]

  function SeedNotifications(now: int): map<int, Notification> {
    map[1 := Notification(1, 1, "doctor_message", "Message du Dr. Martin",
                          "Vos mesures s'améliorent, continuez ainsi ! Pensez à réduire le sel.", false, now),
        2 := Notification(2, 1, "measurement_reminder", "Rappel de prise",
                          "N'oubliez pas votre mesure de ce soir (vers 20h)", false, now)]
  }

  function SeedMedications(now: int): map<int, Medication> {
    map[1 := Medication(1, 1, "Amlodipine", "5mg", "daily",
                        Some("À prendre le matin, avec ou sans nourriture"), Some("Dr. Martin"),
                        1706745600000, None, Some(true), Some(true), Some(["08:00"]), now),
        2 := Medication(2, 1, "Lisinopril", "10mg", "daily",
                        Some("À prendre le soir, éviter les aliments riches en potassium"), Some("Dr. Martin"),
                        1706745600000, None, Some(true), Some(true), Some(["20:00"]), now)]
  }

  const SeedMessage1 := Message(1, 2, 1,
    "Bonjour Marie, j'ai examiné vos dernières mesures de tension. Elles montrent une amélioration notable depuis le début du traitement.",
    Some("text"), Some(false), Some("normal"), 1708079400000)
  const SeedMessage2 := Message(2, 1, 2,
    "Docteur, j'ai eu quelques étourdissements ce matin. Est-ce normal avec le nouveau dosage ?",
    Some("text"), Some(false), Some("normal"), 1708073100000)

  const SeedMessages: map<int, Message> := map[1 := SeedMessage1, 2 := SeedMessage2]

  const SeedPayments: map<int, Payment> :=
    map[1 := Payment(1, 1, 5000, "orange_money", Some("OM240215001"), "completed",
                     Some(1707993000000), 1707993000000)]

  // The demo data is keyed by id, below the counters it leaves behind.
  lemma SeedUsersValid(now: int) ensures IdTable(SeedUsers(now), UserId, 4) {
    assert SeedUsers(now).Keys == {1, 2, 3};
  }
  lemma SeedMeasurementsValid() ensures IdTable(SeedMeasurements, MeasurementId, 6) {
    assert SeedMeasurements.Keys == {1, 2, 3, 4, 5};
  }
  lemma SeedSubscriptionsValid(now: int) ensures IdTable(SeedSubscriptions(now), SubscriptionId, 2) {
  }
  lemma SeedPaymentsValid() ensures IdTable(SeedPayments, PaymentId, 2) {
  }
  lemma SeedNotificationsValid(now: int) ensures IdTable(SeedNotifications(now), NotificationId, 3) {
    assert SeedNotifications(now).Keys == {1, 2};
  }
  lemma SeedMedicationsValid(now: int) ensures IdTable(SeedMedications(now), MedicationId, 3) {
    assert SeedMedications(now).Keys == {1, 2};
  }
  lemma SeedMessagesValid() ensures IdTable(SeedMessages, MessageId, 3) {
    assert SeedMessages.Keys == {1, 2};
  }

  class MemStorage {
    var users: map<int, User>
    var measurements: map<int, Measurement>
    var subscriptions: map<int, Subscription>
    var payments: map<int, Payment>
    var notifications: map<int, Notification>
    var medications: map<int, Medication>
    var messages: map<int, Message>
    var currentUserId: int
    var currentMeasurementId: int
    var currentSubscriptionId: int
    var currentPaymentId: int
    var currentNotificationId: int
    var currentMedicationId: int
    var currentMessageId: int

    /** Each table is keyed by its records' ids, all below that table's counter. */
    ghost predicate Valid()
      reads this
    {
      && IdTable(users, UserId, currentUserId)
      && IdTable(measurements, MeasurementId, currentMeasurementId)
      && IdTable(subscriptions, SubscriptionId, currentSubscriptionId)
      && IdTable(payments, PaymentId, currentPaymentId)
      && IdTable(notifications, NotificationId, currentNotificationId)
      && IdTable(medications, MedicationId, currentMedicationId)
      && IdTable(messages, MessageId, currentMessageId)
    }

    /** The constructor: empty tables, counters at 1, then the demo data, which leaves every
        counter one past the last seeded id. */
    constructor(now: int)
      ensures Valid()
      ensures users == SeedUsers(now) && currentUserId == 4
      ensures measurements == SeedMeasurements && currentMeasurementId == 6
      ensures subscriptions == SeedSubscriptions(now) && currentSubscriptionId == 2
      ensures payments == SeedPayments && currentPaymentId == 2
      ensures notifications == SeedNotifications(now) && currentNotificationId == 3
      ensures medications == SeedMedications(now) && currentMedicationId == 3
      ensures messages == SeedMessages && currentMessageId == 3
    {
      users := SeedUsers(now);
      measurements := SeedMeasurements;
      subscriptions := SeedSubscriptions(now);
      payments := SeedPayments;
      notifications := SeedNotifications(now);
      medications := SeedMedications(now);
      messages := SeedMessages;
      currentUserId := 4;
      currentMeasurementId := 6;
      currentSubscriptionId := 2;
      currentPaymentId := 2;
      currentNotificationId := 3;
      currentMedicationId := 3;
      currentMessageId := 3;
      new;
      SeedUsersValid(now);
      SeedMeasurementsValid();
      SeedSubscriptionsValid(now);
      SeedPaymentsValid();
      SeedNotificationsValid(now);
      SeedMedicationsValid(now);
      SeedMessagesValid();
    }

    // Users

    function GetUser(id: int): (r: Option<User>)
      reads this
      requires Valid()
      ensures r.Some? <==> id in users
      ensures r.Some? ==> r.value == users[id] && r.value.id == id
    {
      if id in users then Some(users[id]) else None
    }

    /** The first user, in insertion order, with that username. */
    function GetUserByUsername(username: string): (r: Option<User>)
      reads this
      requires Valid()
      ensures r.None? <==> forall u :: u in users.Values ==> u.username != username
      ensures r.Some? ==> r.value in users.Values && r.value.username == username
      ensures r.Some? ==> forall u :: u in users.Values && u.username == username ==> r.value.id <= u.id
    {
      var r := FirstMatch(users, currentUserId, UserId, UsernameIs(username));
      assert forall u :: UsernameIs(username)(u) == (u.username == username);
      r
    }

    method CreateUser(u: NewUser, now: int) returns (r: User)
      requires Valid()
      modifies this`users, this`currentUserId
      ensures Valid()
      ensures r == UserRecord(old(currentUserId), u, now)
      ensures forall k :: k in old(users) ==> k < r.id
      ensures users == old(users)[r.id := r]
      ensures currentUserId == old(currentUserId) + 1
    {
      r := UserRecord(currentUserId, u, now);
      currentUserId := currentUserId + 1;
      users := users[r.id := r];
    }

    // Measurements

    /** A patient's measurements, newest first. */
    function MeasurementHistory(patientId: int): (r: seq<Measurement>)
      reads this
      requires Valid()
      ensures forall m :: m in r <==> m in measurements.Values && m.patientId == patientId
      ensures OrderedBy(r, NewestMeasuredFirst, MeasurementId)
    {
      Query(measurements, currentMeasurementId, MeasurementId, OfPatient(patientId), NewestMeasuredFirst)
    }

    /** `limit ? history.slice(0, limit) : history`: a prefix of the newest-first history;
        a positive limit keeps that many, a negative one drops that many from the end, and
        no limit or a zero limit keeps all. */
    function GetMeasurements(patientId: int, limit: Option<int>): (r: seq<Measurement>)
      reads this
      requires Valid()
      ensures var all := MeasurementHistory(patientId);
        && r <= all
        && |r| == if limit.None? || limit.value == 0 then |all|
                  else if limit.value > 0 then Min(limit.value, |all|)
                  else Max(0, |all| + limit.value)
    {
      var all := MeasurementHistory(patientId);
      if limit.Some? && limit.value != 0 then
        SliceFromStart(all, limit.value);
        Slice(all, 0, limit.value)
      else
        all
    }

    /** A patient's measurements taken within [start, end], both ends included, oldest first. */
    function GetMeasurementsByDateRange(patientId: int, start: int, end: int): (r: seq<Measurement>)
      reads this
      requires Valid()
      ensures forall m :: m in r <==>
        m in measurements.Values && m.patientId == patientId && start <= m.measuredAt <= end
      ensures OrderedBy(r, MeasuredAt, MeasurementId)
    {
      Query(measurements, currentMeasurementId, MeasurementId, MeasuredBetween(patientId, start, end), MeasuredAt)
    }

    method CreateMeasurement(m: NewMeasurement, now: int) returns (r: Measurement)
      requires Valid()
      modifies this`measurements, this`currentMeasurementId
      ensures Valid()
      ensures r == MeasurementRecord(old(currentMeasurementId), m, now)
      ensures forall k :: k in old(measurements) ==> k < r.id
      ensures measurements == old(measurements)[r.id := r]
      ensures currentMeasurementId == old(currentMeasurementId) + 1
    {
      r := MeasurementRecord(currentMeasurementId, m, now);
      currentMeasurementId := currentMeasurementId + 1;
      measurements := measurements[r.id := r];
    }

    /** `Map.delete`: true exactly when there was a measurement with that id. */
    method DeleteMeasurement(id: int) returns (existed: bool)
      requires Valid()
      modifies this`measurements
      ensures Valid()
      ensures existed <==> id in old(measurements)
      ensures measurements == old(measurements) - {id}
    {
      existed := id in measurements;
      measurements := measurements - {id};
    }

    // Subscriptions

    /** The first subscription, in insertion order, of that patient. */
    function GetSubscription(patientId: int): (r: Option<Subscription>)
      reads this
      requires Valid()
      ensures r.None? <==> forall s :: s in subscriptions.Values ==> s.patientId != patientId
      ensures r.Some? ==> r.value in subscriptions.Values && r.value.patientId == patientId
      ensures r.Some? ==> forall s :: s in subscriptions.Values && s.patientId == patientId ==> r.value.id <= s.id
    {
      var r := FirstMatch(subscriptions, currentSubscriptionId, SubscriptionId, SubscriberIs(patientId));
      assert forall s :: SubscriberIs(patientId)(s) == (s.patientId == patientId);
      r
    }

    method CreateSubscription(s: NewSubscription, now: int) returns (r: Subscription)
      requires Valid()
      modifies this`subscriptions, this`currentSubscriptionId
      ensures Valid()
      ensures r == SubscriptionRecord(old(currentSubscriptionId), s, now)
      ensures forall k :: k in old(subscriptions) ==> k < r.id
      ensures subscriptions == old(subscriptions)[r.id := r]
      ensures currentSubscriptionId == old(currentSubscriptionId) + 1
    {
      r := SubscriptionRecord(currentSubscriptionId, s, now);
      currentSubscriptionId := currentSubscriptionId + 1;
      subscriptions := subscriptions[r.id := r];
    }

    /** Sets the status of an existing subscription; an unknown id changes nothing. */
    method UpdateSubscriptionStatus(id: int, status: string) returns (r: Option<Subscription>)
      requires Valid()
      modifies this`subscriptions
      ensures Valid()
      ensures r.Some? <==> id in old(subscriptions)
      ensures r.Some? ==> r.value == WithSubscriptionStatus(old(subscriptions)[id], status)
      ensures subscriptions == if r.Some? then old(subscriptions)[id := r.value] else old(subscriptions)
    {
      if id in subscriptions {
        var s := WithSubscriptionStatus(subscriptions[id], status);
        subscriptions := subscriptions[id := s];
        r := Some(s);
      } else {
        r := None;
      }
    }

    // Payments

    /** A subscription's payments, most recently paid first, unpaid ones counted as paid at time 0. */
    function GetPayments(subscriptionId: int): (r: seq<Payment>)
      reads this
      requires Valid()
      ensures forall p :: p in r <==> p in payments.Values && p.subscriptionId == subscriptionId
      ensures OrderedBy(r, LatestPaidFirst, PaymentId)
    {
      Query(payments, currentPaymentId, PaymentId, ForSubscription(subscriptionId), LatestPaidFirst)
    }

    method CreatePayment(p: NewPayment, now: int) returns (r: Payment)
      requires Valid()
      modifies this`payments, this`currentPaymentId
      ensures Valid()
      ensures r == PaymentRecord(old(currentPaymentId), p, now)
      ensures forall k :: k in old(payments) ==> k < r.id
      ensures payments == old(payments)[r.id := r]
      ensures currentPaymentId == old(currentPaymentId) + 1
    {
      r := PaymentRecord(currentPaymentId, p, now);
      currentPaymentId := currentPaymentId + 1;
      payments := payments[r.id := r];
    }

    /** Sets the status of an existing payment, stamping it paid at `now` when the status is
        "completed"; an unknown id changes nothing. */
    method UpdatePaymentStatus(id: int, status: string, now: int) returns (r: Option<Payment>)
      requires Valid()
      modifies this`payments
      ensures Valid()
      ensures r.Some? <==> id in old(payments)
      ensures r.Some? ==> r.value == WithPaymentStatus(old(payments)[id], status, now)
      ensures payments == if r.Some? then old(payments)[id := r.value] else old(payments)
    {
      if id in payments {
        var p := WithPaymentStatus(payments[id], status, now);
        payments := payments[id := p];
        r := Some(p);
      } else {
        r := None;
      }
    }

    // Notifications

    /** A user's notifications, newest first. */
    function GetNotifications(userId: int): (r: seq<Notification>)
      reads this
      requires Valid()
      ensures forall n :: n in r <==> n in notifications.Values && n.userId == userId
      ensures OrderedBy(r, NewestNotificationFirst, NotificationId)
    {
      Query(notifications, currentNotificationId, NotificationId, ForUser(userId), NewestNotificationFirst)
    }

    method CreateNotification(n: NewNotification, now: int) returns (r: Notification)
      requires Valid()
      modifies this`notifications, this`currentNotificationId
      ensures Valid()
      ensures r == NotificationRecord(old(currentNotificationId), n, now)
      ensures forall k :: k in old(notifications) ==> k < r.id
      ensures notifications == old(notifications)[r.id := r]
      ensures currentNotificationId == old(currentNotificationId) + 1
    {
      r := NotificationRecord(currentNotificationId, n, now);
      currentNotificationId := currentNotificationId + 1;
      notifications := notifications[r.id := r];
    }

    method MarkNotificationAsRead(id: int) returns (found: bool)
      requires Valid()
      modifies this`notifications
      ensures Valid()
      ensures found <==> id in old(notifications)
      ensures notifications == UpdateAt(old(notifications), id, NotificationRead)
    {
      found := id in notifications;
      notifications := UpdateAt(notifications, id, NotificationRead);
    }

    // Medications

    /** A patient's medications, most recently created first. */
    function GetMedications(patientId: int): (r: seq<Medication>)
      reads this
      requires Valid()
      ensures forall m :: m in r <==> m in medications.Values && m.patientId == patientId
      ensures OrderedBy(r, NewestMedicationFirst, MedicationId)
    {
      Query(medications, currentMedicationId, MedicationId, PrescribedTo(patientId), NewestMedicationFirst)
    }

    method CreateMedication(m: NewMedication, now: int) returns (r: Medication)
      requires Valid()
      modifies this`medications, this`currentMedicationId
      ensures Valid()
      ensures r == MedicationRecord(old(currentMedicationId), m, now)
      ensures forall k :: k in old(medications) ==> k < r.id
      ensures medications == old(medications)[r.id := r]
      ensures currentMedicationId == old(currentMedicationId) + 1
    {
      r := MedicationRecord(currentMedicationId, m, now);
      currentMedicationId := currentMedicationId + 1;
      medications := medications[r.id := r];
    }

    /** Applies the changes to an existing medication; an unknown id changes nothing. */
    method UpdateMedication(id: int, changes: MedicationChanges) returns (r: Option<Medication>)
      requires Valid()
      modifies this`medications
      ensures Valid()
      ensures r.Some? <==> id in old(medications)
      ensures r.Some? ==> r.value == ApplyMedicationChanges(old(medications)[id], changes)
      ensures medications == if r.Some? then old(medications)[id := r.value] else old(medications)
    {
      if id in medications {
        var m := ApplyMedicationChanges(medications[id], changes);
        medications := medications[id := m];
        r := Some(m);
      } else {
        r := None;
      }
    }

    method DeleteMedication(id: int) returns (existed: bool)
      requires Valid()
      modifies this`medications
      ensures Valid()
      ensures existed <==> id in old(medications)
      ensures medications == old(medications) - {id}
    {
      existed := id in medications;
      medications := medications - {id};
    }

    // Messages

    /** Every message a user sent or received, newest first. */
    function GetMessages(userId: int): (r: seq<Message>)
      reads this
      requires Valid()
      ensures forall m :: m in r <==> m in messages.Values && (m.senderId == userId || m.receiverId == userId)
      ensures OrderedBy(r, NewestMessageFirst, MessageId)
    {
      Query(messages, currentMessageId, MessageId, Involves(userId), NewestMessageFirst)
    }

    /** The messages between two users, in either direction, oldest first. */
    function GetConversation(a: int, b: int): (r: seq<Message>)
      reads this
      requires Valid()
      ensures forall m :: m in r <==>
        (m in messages.Values && ((m.senderId == a && m.receiverId == b) || (m.senderId == b && m.receiverId == a)))
      ensures OrderedBy(r, SentAt, MessageId)
    {
      Query(messages, currentMessageId, MessageId, Between(a, b), SentAt)
    }

    method CreateMessage(m: NewMessage, now: int) returns (r: Message)
      requires Valid()
      modifies this`messages, this`currentMessageId
      ensures Valid()
      ensures r == MessageRecord(old(currentMessageId), m, now)
      ensures forall k :: k in old(messages) ==> k < r.id
      ensures messages == old(messages)[r.id := r]
      ensures currentMessageId == old(currentMessageId) + 1
    {
      r := MessageRecord(currentMessageId, m, now);
      currentMessageId := currentMessageId + 1;
      messages := messages[r.id := r];
    }

    method MarkMessageAsRead(id: int) returns (found: bool)
      requires Valid()
      modifies this`messages
      ensures Valid()
      ensures found <==> id in old(messages)
      ensures messages == UpdateAt(old(messages), id, MessageRead)
    {
      found := id in messages;
      messages := UpdateAt(messages, id, MessageRead);
    }
  }
  /** A conversation is the same whichever of its two users asks for it. */
  lemma ConversationSymmetric(s: MemStorage, a: int, b: int)
    requires s.Valid()
    ensures s.GetConversation(a, b) == s.GetConversation(b, a)
  {
    OrderedUnique(s.GetConversation(a, b), s.GetConversation(b, a), SentAt, MessageId);
  }

  /** A positive limit keeps the newest measurements: none it drops is newer than one it keeps. */
  lemma LimitKeepsNewest(s: MemStorage, patientId: int, limit: int)
    requires s.Valid() && limit > 0
    ensures var kept, all := s.GetMeasurements(patientId, Some(limit)), s.MeasurementHistory(patientId);
      forall m, m' :: m in kept && m' in all && m' !in kept ==> m.measuredAt >= m'.measuredAt
  {
    PrefixComesFirst(s.GetMeasurements(patientId, Some(limit)), s.MeasurementHistory(patientId),
                     NewestMeasuredFirst, MeasurementId);
  }

  const SeedHistory := [SeedMeasurement1, SeedMeasurement2, SeedMeasurement3, SeedMeasurement4, SeedMeasurement5]

  lemma SeedMeasurementMembers()
    ensures forall x :: x in SeedMeasurements.Values && OfPatient(1)(x) <==> x in SeedHistory
  {
    forall x | x in SeedHistory ensures x in SeedMeasurements.Values && OfPatient(1)(x) {
      var i :| 0 <= i < 5 && SeedHistory[i] == x;
      assert SeedMeasurements[i + 1] == x;
    }
    forall x | x in SeedMeasurements.Values ensures x in SeedHistory {
      var k :| k in SeedMeasurements && SeedMeasurements[k] == x;
      assert SeedHistory[k - 1] == x;
    }
  }

  lemma SeedHistoryOrdered()
    ensures OrderedBy(SeedHistory, NewestMeasuredFirst, MeasurementId)
  {
    var times := [1708093800000, 1707988500000, 1707937200000, 1707813000000, 1707768900000];
    assert forall k :: 0 <= k < 5 ==> NewestMeasuredFirst(SeedHistory[k]) == -times[k];
    assert forall i, j :: 0 <= i < j < 5 ==> times[i] > times[j];
  }

  /** The demo patient's history, newest first, is the five seeded readings in id order. */
  lemma SeedHistoryNewestFirst()
    ensures IdTable(SeedMeasurements, MeasurementId, 6)
    ensures Query(SeedMeasurements, 6, MeasurementId, OfPatient(1), NewestMeasuredFirst) == SeedHistory
  {
    SeedMeasurementsValid();
    SeedMeasurementMembers();
    var r := Query(SeedMeasurements, 6, MeasurementId, OfPatient(1), NewestMeasuredFirst);
    SeedHistoryOrdered();
    OrderedUnique(r, SeedHistory, NewestMeasuredFirst, MeasurementId);
  }

  const SeedConversation := [SeedMessage2, SeedMessage1]

  lemma SeedMessageMembers()
    ensures forall x :: x in SeedMessages.Values && Between(1, 2)(x) <==> x in SeedConversation
  {
    forall x | x in SeedConversation ensures x in SeedMessages.Values && Between(1, 2)(x) {
      assert x == SeedMessages[1] || x == SeedMessages[2];
    }
    forall x | x in SeedMessages.Values ensures x in SeedConversation {
      var k :| k in SeedMessages && SeedMessages[k] == x;
      assert SeedConversation[2 - k] == x;
    }
  }

  lemma SeedConversationOrdered()
    ensures OrderedBy(SeedConversation, SentAt, MessageId)
  {
    assert SentAt(SeedConversation[0]) == 1708073100000;
    assert SentAt(SeedConversation[1]) == 1708079400000;
  }

  /** The demo conversation between patient and doctor, oldest first: the patient's message
      of 08:45, then the doctor's of 10:30, although the doctor's has the smaller id. */
  lemma SeedConversationOldestFirst()
    ensures IdTable(SeedMessages, MessageId, 3)
    ensures Query(SeedMessages, 3, MessageId, Between(1, 2), SentAt) == SeedConversation
  {
    SeedMessagesValid();
    SeedMessageMembers();
    SeedConversationOrdered();
    var r := Query(SeedMessages, 3, MessageId, Between(1, 2), SentAt);
    OrderedUnique(r, SeedConversation, SentAt, MessageId);
  }

  /** `updateMedication` as written, given changes that carry another id: the record keeps
      its key but takes the new id, so the table is no longer keyed by id. */
  lemma UpdateWithOtherIdBreaksKeying(t: map<int, Medication>, k: int, ch: MedicationChanges)
    requires k in t && ch.id.Some? && ch.id.value != k
    ensures !KeyedById(t[k := ApplyMedicationChangesAsWritten(t[k], ch)], MedicationId)
  {
    var t' := t[k := ApplyMedicationChangesAsWritten(t[k], ch)];
    assert MedicationId(t'[k]) == ch.id.value;
  }

  /** A client of the store: an id freed by a deletion is not handed out again. */
  method DeletedIdIsNotReused(s: MemStorage, m: NewMeasurement, now: int) returns (first: Measurement, second: Measurement)
    requires s.Valid()
    modifies s
    ensures s.Valid()
    ensures first.id < second.id
    ensures first.id !in s.measurements && second.id in s.measurements
  {
    first := s.CreateMeasurement(m, now);
    var existed := s.DeleteMeasurement(first.id);
    assert existed;
    second := s.CreateMeasurement(m, now);
  }
}
