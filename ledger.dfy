/**
 * The activity and statistics ledger of the Firebase service
 * (src/services/firebaseService.ts). The Firestore collections it writes are
 * in-memory fields:
 * - the `users` documents, a map keyed by ATAS identifier;
 * - the `userActivity` documents, an append-only sequence of events;
 * - the `userSessions` documents, a sequence whose index is the document id;
 * - the `dailyStats` documents, a map keyed by `{user id}_{date}`;
 * - the `calls` documents, a map keyed by call id.
 * Timestamps and the current date are parameters.
 */
module Ledger {
  import opened Wrappers
  import opened Types

  // ---------------------------------------------------------------------------
  // Activities.

  datatype ActivityType =
    | Login | Logout | MessageSent | MessageReceived | CallMade | CallReceived
    | GroupCreated | GroupJoined | MediaShared | ProfileUpdated | SettingsChanged
    | AppOpened | AppBackgrounded | BiometricEnabled | EncryptionKeyRotated

  /** The string value each activity type carries in the documents. */
  function ActivityName(t: ActivityType): string
  {
    match t
    case Login => "login"
    case Logout => "logout"
    case MessageSent => "message_sent"
    case MessageReceived => "message_received"
    case CallMade => "call_made"
    case CallReceived => "call_received"
    case GroupCreated => "group_created"
    case GroupJoined => "group_joined"
    case MediaShared => "media_shared"
    case ProfileUpdated => "profile_updated"
    case SettingsChanged => "settings_changed"
    case AppOpened => "app_opened"
    case AppBackgrounded => "app_backgrounded"
    case BiometricEnabled => "biometric_enabled"
    case EncryptionKeyRotated => "encryption_key_rotated"
  }

  /** The activity type a stored string value denotes, if any. */
  function ParseActivityName(s: string): (t: Option<ActivityType>)
    ensures t.Some? ==> ActivityName(t.value) == s
  {
    if s == "login" then Some(Login)
    else if s == "logout" then Some(Logout)
    else if s == "message_sent" then Some(MessageSent)
    else if s == "message_received" then Some(MessageReceived)
    else if s == "call_made" then Some(CallMade)
    else if s == "call_received" then Some(CallReceived)
    else if s == "group_created" then Some(GroupCreated)
    else if s == "group_joined" then Some(GroupJoined)
    else if s == "media_shared" then Some(MediaShared)
    else if s == "profile_updated" then Some(ProfileUpdated)
    else if s == "settings_changed" then Some(SettingsChanged)
    else if s == "app_opened" then Some(AppOpened)
    else if s == "app_backgrounded" then Some(AppBackgrounded)
    else if s == "biometric_enabled" then Some(BiometricEnabled)
    else if s == "encryption_key_rotated" then Some(EncryptionKeyRotated)
    else None
  }

  /** Every activity type's string value reads back as that type, so no two types share a value. */
  lemma ActivityNameRoundTrip(t: ActivityType)
    ensures ParseActivityName(ActivityName(t)) == Some(t)
  {
    match t
    case Login =>
    case Logout =>
    case MessageSent =>
    case MessageReceived =>
    case CallMade =>
    case CallReceived =>
    case GroupCreated =>
    case GroupJoined =>
    case MediaShared =>
    case ProfileUpdated =>
    case SettingsChanged =>
    case AppOpened =>
    case AppBackgrounded =>
    case BiometricEnabled =>
    case EncryptionKeyRotated =>
  }

  /** A metadata value: the JSON-like payload attached to an event. */
  datatype MetaValue = Num(n: int) | Str(s: string) | Flag(b: bool) | Obj(fields: map<string, MetaValue>)

  type Metadata = map<string, MetaValue>

  datatype DeviceInfo = DeviceInfo(platform: string, version: string, model: string, appVersion: string)

  /** The device description recorded when the caller gives none. */
  const DefaultDeviceInfo: DeviceInfo := DeviceInfo("android", "1.0.0", "Unknown", "1.0.0")

  /** One document of the activity collection. */
  datatype ActivityEvent = ActivityEvent(
    userId: string,
    atasId: string,
    activityType: ActivityType,
    timestamp: int,
    metadata: Metadata,
    deviceInfo: DeviceInfo)

  // ---------------------------------------------------------------------------
  // Sessions.

  datatype SessionDevice = SessionDevice(platform: string, version: string, model: string, appVersion: string, deviceId: string)

  /** One document of the session collection; `id` is its position in the collection. */
  datatype UserSession = UserSession(
    id: nat,
    userId: string,
    atasId: string,
    startTime: int,
    endTime: Option<int>,
    duration: Option<int>,
    deviceInfo: SessionDevice,
    isActive: bool,
    lastActivity: int,
    activityCount: int)

  /** updateSessionActivity's change to a session document. */
  function Touched(s: UserSession, now: int): (t: UserSession)
    ensures t.activityCount == s.activityCount + 1 && t.lastActivity == now
    ensures t.(activityCount := s.activityCount, lastActivity := s.lastActivity) == s
  {
    s.(lastActivity := now, activityCount := s.activityCount + 1)
  }

  // ---------------------------------------------------------------------------
  // Daily statistics.

  datatype Counter =
    | MessagesSent | MessagesReceived | CallsMade | CallsReceived | TotalCallDuration
    | MediaSharedCount | ActiveTime | SessionCount | GroupsCreated | GroupsJoined
    | NewContacts | EncryptedMessages | BiometricAuthUses

  const AllCounters: set<Counter> := {
    MessagesSent, MessagesReceived, CallsMade, CallsReceived, TotalCallDuration,
    MediaSharedCount, ActiveTime, SessionCount, GroupsCreated, GroupsJoined,
    NewContacts, EncryptedMessages, BiometricAuthUses
  }

  lemma AllCountersComplete(f: Counter)
    ensures f in AllCounters
  {
  }

  /** The `stats` object of a daily document: one number per counter. */
  type Counters = map<Counter, int>

  predicate Complete(c: Counters)
  {
    forall f: Counter :: f in c
  }

  /** The counters a fresh daily document starts with. */
  function ZeroCounters(): (c: Counters)
    ensures Complete(c) && forall f :: c[f] == 0
  {
    assert forall f: Counter :: f in AllCounters by {
      forall f: Counter ensures f in AllCounters {
        AllCountersComplete(f);
      }
    }
    map f | f in AllCounters :: 0
  }

  /** One document of the daily statistics collection. */
  datatype DailyStats = DailyStats(userId: string, atasId: string, date: string, stats: Counters)

  /** The amounts an activity may carry into the statistics; a field the caller left out is absent. */
  datatype StatsData = StatsData(callDuration: Option<int>, sessionDuration: Option<int>, sessionCount: Option<int>)

  const NoStatsData: StatsData := StatsData(None, None, None)

  /** JavaScript truthiness of an optional number: present and non-zero. */
  predicate Truthy(v: Option<int>)
  {
    v.Some? && v.value != 0
  }

  /**
   * The statistics table, read by counter: what one activity adds to each
   * counter of its day. Call durations and session amounts count only when
   * truthy; nothing feeds `newContacts`.
   */
  function Delta(t: ActivityType, data: StatsData, f: Counter): (n: int)
    ensures NonNegative(data) ==> n >= 0
    ensures f == NewContacts ==> n == 0
  {
    match f
    case MessagesSent => if t == MessageSent then 1 else 0
    case EncryptedMessages => if t == MessageSent then 1 else 0
    case MessagesReceived => if t == MessageReceived then 1 else 0
    case CallsMade => if t == CallMade then 1 else 0
    case CallsReceived => if t == CallReceived then 1 else 0
    case TotalCallDuration =>
      if (t == CallMade || t == CallReceived) && Truthy(data.callDuration) then data.callDuration.value else 0
    case GroupsCreated => if t == GroupCreated then 1 else 0
    case GroupsJoined => if t == GroupJoined then 1 else 0
    case MediaSharedCount => if t == MediaShared then 1 else 0
    case ActiveTime => if t == Logout && Truthy(data.sessionDuration) then data.sessionDuration.value else 0
    case SessionCount => if t == Logout && Truthy(data.sessionCount) then data.sessionCount.value else 0
    case BiometricAuthUses => if t == BiometricEnabled then 1 else 0
    case NewContacts => 0
  }

  /** The day's counters after one activity. */
  function Apply(c: Counters, t: ActivityType, data: StatsData): (r: Counters)
    ensures r.Keys == c.Keys
    ensures forall f :: f in c ==> r[f] == c[f] + Delta(t, data, f)
  {
    map f | f in c :: c[f] + Delta(t, data, f)
  }

  /**
   * The switch of updateDailyStats: the field increments the update carries,
   * one entry per counter the activity touches.
   */
  method StatsUpdates(t: ActivityType, data: StatsData) returns (updates: map<Counter, int>)
    ensures forall f :: f in updates ==> updates[f] == Delta(t, data, f)
    ensures forall f :: f !in updates ==> Delta(t, data, f) == 0
  {
    updates := map[];
    match t {
      case MessageSent =>
        updates := updates[MessagesSent := 1];
        updates := updates[EncryptedMessages := 1];
      case MessageReceived =>
        updates := updates[MessagesReceived := 1];
      case CallMade =>
        updates := updates[CallsMade := 1];
        if Truthy(data.callDuration) {
          updates := updates[TotalCallDuration := data.callDuration.value];
        }
      case CallReceived =>
        updates := updates[CallsReceived := 1];
        if Truthy(data.callDuration) {
          updates := updates[TotalCallDuration := data.callDuration.value];
        }
      case GroupCreated =>
        updates := updates[GroupsCreated := 1];
      case GroupJoined =>
        updates := updates[GroupsJoined := 1];
      case MediaShared =>
        updates := updates[MediaSharedCount := 1];
      case Logout =>
        if Truthy(data.sessionDuration) {
          updates := updates[ActiveTime := data.sessionDuration.value];
        }
        if Truthy(data.sessionCount) {
          updates := updates[SessionCount := data.sessionCount.value];
        }
      case BiometricEnabled =>
        updates := updates[BiometricAuthUses := 1];
      case _ =>
    }
  }

  /** Merges field increments into the stored counters. */
  function Merge(c: Counters, updates: map<Counter, int>): (r: Counters)
    ensures r.Keys == c.Keys
  {
    map f | f in c :: if f in updates then c[f] + updates[f] else c[f]
  }

  /** Merging the switch's increments is applying the statistics table. */
  lemma MergeUpdates(c: Counters, t: ActivityType, data: StatsData, updates: map<Counter, int>)
    requires forall f :: f in updates ==> updates[f] == Delta(t, data, f)
    requires forall f :: f !in updates ==> Delta(t, data, f) == 0
    ensures Merge(c, updates) == Apply(c, t, data)
  {
    var m, a := Merge(c, updates), Apply(c, t, data);
    forall f | f in c ensures m[f] == a[f] {
      if f in updates {
        assert m[f] == c[f] + Delta(t, data, f);
      }
    }
  }

  /** A message sent counts once as sent and once as encrypted, and touches nothing else. */
  lemma MessageSentCounters(data: StatsData, f: Counter)
    ensures Delta(MessageSent, data, f) == if f == MessagesSent || f == EncryptedMessages then 1 else 0
  {
  }

  /** These activities add exactly one to their own counter and nothing to any other. */
  lemma SingleCounterActivities(data: StatsData, f: Counter)
    ensures Delta(MessageReceived, data, f) == if f == MessagesReceived then 1 else 0
    ensures Delta(GroupCreated, data, f) == if f == GroupsCreated then 1 else 0
    ensures Delta(GroupJoined, data, f) == if f == GroupsJoined then 1 else 0
    ensures Delta(MediaShared, data, f) == if f == MediaSharedCount then 1 else 0
    ensures Delta(BiometricEnabled, data, f) == if f == BiometricAuthUses then 1 else 0
  {
  }

  /** The activity types the switch does not list leave every counter as it was. */
  lemma UntrackedActivitiesChangeNothing(c: Counters, t: ActivityType, data: StatsData)
    requires t in {Login, ProfileUpdated, SettingsChanged, AppOpened, AppBackgrounded, EncryptionKeyRotated}
    ensures Apply(c, t, data) == c
  {
  }

  /** Amounts that are not negative never make a counter go down. */
  predicate NonNegative(data: StatsData)
  {
    (data.callDuration.Some? ==> data.callDuration.value >= 0) &&
    (data.sessionDuration.Some? ==> data.sessionDuration.value >= 0) &&
    (data.sessionCount.Some? ==> data.sessionCount.value >= 0)
  }

  lemma ApplyMonotone(c: Counters, t: ActivityType, data: StatsData)
    requires NonNegative(data)
    ensures forall f :: f in c ==> Apply(c, t, data)[f] >= c[f]
  {
    forall f | f in c ensures Delta(t, data, f) >= 0 {
    }
  }

  /** Two activities of the day give the same counters in either order. */
  lemma ApplyCommutes(c: Counters, t1: ActivityType, d1: StatsData, t2: ActivityType, d2: StatsData)
    ensures Apply(Apply(c, t1, d1), t2, d2) == Apply(Apply(c, t2, d2), t1, d1)
  {
    var x, y := Apply(Apply(c, t1, d1), t2, d2), Apply(Apply(c, t2, d2), t1, d1);
    assert x.Keys == y.Keys;
    forall f | f in x ensures x[f] == y[f] {
    }
  }

  /** The counters after a day's activities, applied in arrival order. */
  function ApplyAll(c: Counters, xs: seq<(ActivityType, StatsData)>): (r: Counters)
    ensures r.Keys == c.Keys
  {
    if xs == [] then c else ApplyAll(Apply(c, xs[0].0, xs[0].1), xs[1..])
  }

  /** The sum of one counter's increments over a sequence of activities. */
  function Total(xs: seq<(ActivityType, StatsData)>, f: Counter): int
  {
    if xs == [] then 0 else Delta(xs[0].0, xs[0].1, f) + Total(xs[1..], f)
  }

  /** Each counter ends at its start value plus the sum of the increments it received. */
  lemma {:induction false} ApplyAllTotals(c: Counters, xs: seq<(ActivityType, StatsData)>)
    ensures forall f :: f in c ==> ApplyAll(c, xs)[f] == c[f] + Total(xs, f)
  {
    if xs != [] {
      ApplyAllTotals(Apply(c, xs[0].0, xs[0].1), xs[1..]);
    }
  }

  lemma {:induction false} TotalAppend(xs: seq<(ActivityType, StatsData)>, ys: seq<(ActivityType, StatsData)>, f: Counter)
    ensures Total(xs + ys, f) == Total(xs, f) + Total(ys, f)
  {
    if xs == [] {
      assert xs + ys == ys;
    } else {
      assert (xs + ys)[1..] == xs[1..] + ys;
      TotalAppend(xs[1..], ys, f);
    }
  }

  /** Taking one activity out of a sequence takes its increment out of the sum. */
  lemma TotalRemove(ys: seq<(ActivityType, StatsData)>, j: nat, f: Counter)
    requires j < |ys|
    ensures Total(ys, f) == Delta(ys[j].0, ys[j].1, f) + Total(ys[..j] + ys[j + 1..], f)
  {
    assert ys == (ys[..j] + [ys[j]]) + ys[j + 1..];
    TotalAppend(ys[..j] + [ys[j]], ys[j + 1..], f);
    TotalAppend(ys[..j], [ys[j]], f);
    TotalAppend(ys[..j], ys[j + 1..], f);
    assert Total([ys[j]], f) == Delta(ys[j].0, ys[j].1, f) by {
      assert [ys[j]][1..] == [];
    }
  }

  lemma MultisetRemove(xs: seq<(ActivityType, StatsData)>, ys: seq<(ActivityType, StatsData)>, j: nat)
    requires multiset(xs) == multiset(ys) && xs != [] && j < |ys| && ys[j] == xs[0]
    ensures multiset(xs[1..]) == multiset(ys[..j] + ys[j + 1..])
  {
    assert xs == [xs[0]] + xs[1..];
    assert ys == ys[..j] + [ys[j]] + ys[j + 1..];
    assert multiset(xs) == multiset{xs[0]} + multiset(xs[1..]);
    assert multiset(ys) == multiset(ys[..j]) + multiset{ys[j]} + multiset(ys[j + 1..]);
    assert multiset(ys[..j] + ys[j + 1..]) == multiset(ys[..j]) + multiset(ys[j + 1..]);
    assert multiset(xs[1..]) == multiset(xs) - multiset{xs[0]};
    assert multiset(ys[..j]) + multiset(ys[j + 1..]) == multiset(ys) - multiset{ys[j]};
  }

  /** The sum of increments does not depend on the order of the activities. */
  lemma {:induction false} TotalPermutation(xs: seq<(ActivityType, StatsData)>, ys: seq<(ActivityType, StatsData)>, f: Counter)
    requires multiset(xs) == multiset(ys)
    ensures Total(xs, f) == Total(ys, f)
    decreases |xs|
  {
    if xs == [] {
      assert |ys| == |multiset(ys)| == 0;
    } else {
      assert xs[0] in multiset(ys);
      var j :| 0 <= j < |ys| && ys[j] == xs[0];
      MultisetRemove(xs, ys, j);
      TotalPermutation(xs[1..], ys[..j] + ys[j + 1..], f);
      TotalRemove(ys, j, f);
    }
  }

  /** The day's counters do not depend on the order in which its activities arrive. */
  lemma ApplyAllPermutation(c: Counters, xs: seq<(ActivityType, StatsData)>, ys: seq<(ActivityType, StatsData)>)
    requires multiset(xs) == multiset(ys)
    ensures ApplyAll(c, xs) == ApplyAll(c, ys)
  {
    ApplyAllTotals(c, xs);
    ApplyAllTotals(c, ys);
    forall f | f in c ensures ApplyAll(c, xs)[f] == ApplyAll(c, ys)[f] {
      TotalPermutation(xs, ys, f);
    }
  }

  /** The document key of a user's statistics for a date. */
  function StatsKey(userId: string, date: string): (key: string)
    ensures |key| == |userId| + 1 + |date|
    ensures key[..|userId|] == userId && key[|userId|] == '_' && key[|userId| + 1..] == date
  {
    userId + "_" + date
  }

  // ---------------------------------------------------------------------------
  // Calls and profiles.

  datatype CallRecord = CallRecord(
    id: string,
    chatId: string,
    initiatorId: string,
    participants: seq<string>,
    kind: string,
    status: string,
    duration: Option<int>)

  /** A call counts as made when the signed-in user started it, and as received otherwise (also when nobody is signed in). */
  function CallActivity(call: CallRecord, currentUser: Option<User>): (t: ActivityType)
    ensures t == CallMade || t == CallReceived
    ensures t == CallMade <==> currentUser.Some? && call.initiatorId == currentUser.value.id
  {
    if currentUser.Some? && call.initiatorId == currentUser.value.id then CallMade else CallReceived
  }

  /** The event metadata storeCall records; an absent duration is left out. */
  function CallMetadata(call: CallRecord): (m: Metadata)
    ensures m.Keys == {"callId", "callType", "participantCount"} + (if call.duration.Some? then {"callDuration"} else {})
    ensures m["callId"] == Str(call.id) && m["callType"] == Str(call.kind)
    ensures m["participantCount"] == Num(|call.participants|)
    ensures call.duration.Some? ==> m["callDuration"] == Num(call.duration.value)
  {
    var m := map["callId" := Str(call.id), "callType" := Str(call.kind), "participantCount" := Num(|call.participants|)];
    if call.duration.Some? then m["callDuration" := Num(call.duration.value)] else m
  }

  /** The profile fields login writes back (its last-login date is not modelled). */
  datatype ProfileUpdates = ProfileUpdates(isOnline: Option<bool>, displayName: Option<string>)

  function UpdatedUser(u: User, updates: ProfileUpdates): (v: User)
    ensures v.isOnline == updates.isOnline.GetOr(u.isOnline)
    ensures v.displayName == updates.displayName.GetOr(u.displayName)
    ensures v.(isOnline := u.isOnline, displayName := u.displayName) == u
  {
    u.(isOnline := updates.isOnline.GetOr(u.isOnline), displayName := updates.displayName.GetOr(u.displayName))
  }

  function UpdatesMetadata(updates: ProfileUpdates): Metadata
  {
    (if updates.isOnline.Some? then map["isOnline" := Flag(updates.isOnline.value)] else map[]) +
    (if updates.displayName.Some? then map["displayName" := Str(updates.displayName.value)] else map[])
  }

  // ---------------------------------------------------------------------------
  // The service's state as a value, and what each of its operations makes of it.

  /** The service's fields: the signed-in user, the current session and the documents. */
  datatype Store = Store(
    currentUser: Option<User>,
    currentSession: Option<UserSession>,
    users: map<string, User>,
    events: seq<ActivityEvent>,
    sessions: seq<UserSession>,
    dailyStats: map<string, DailyStats>,
    calls: map<string, CallRecord>)

  /** updateSessionActivity: one more activity on the current session's document, if there is one. */
  function SessionTouched(d: Store, now: int): Store
  {
    if d.currentSession.Some? && d.currentSession.value.id < |d.sessions| then
      var id := d.currentSession.value.id;
      d.(sessions := d.sessions[id := Touched(d.sessions[id], now)])
    else d
  }

  /** trackActivity: nothing without a signed-in user; otherwise one more event, and the current session touched. */
  function Tracked(d: Store, t: ActivityType, metadata: Option<Metadata>, deviceInfo: Option<DeviceInfo>, now: int): Store
  {
    if d.currentUser.None? then d
    else
      var uid := d.currentUser.value.id;
      var event := ActivityEvent(uid, uid, t, now, metadata.GetOr(map[]), deviceInfo.GetOr(DefaultDeviceInfo));
      SessionTouched(d.(events := d.events + [event]), now)
  }

  /** updateDailyStats: nothing without a signed-in user; otherwise the day's document receives the increments. */
  function StatsCounted(d: Store, t: ActivityType, data: StatsData, today: string): Store
  {
    if d.currentUser.None? then d
    else
      var uid := d.currentUser.value.id;
      var key := StatsKey(uid, today);
      var base := if key in d.dailyStats then d.dailyStats[key].stats else ZeroCounters();
      d.(dailyStats := d.dailyStats[key := DailyStats(uid, uid, today, Apply(base, t, data))])
  }

  /** updateOnlineStatus: the flag of an existing profile. */
  function OnlineSet(d: Store, atasId: string, isOnline: bool): Store
  {
    if atasId in d.users then d.(users := d.users[atasId := d.users[atasId].(isOnline := isOnline)]) else d
  }

  /** startUserSession: nothing without a signed-in user; otherwise a new current session, the login tracked, and the user online. */
  function SessionStarted(d: Store, deviceInfo: SessionDevice, now: int): Store
  {
    if d.currentUser.None? then d
    else
      var uid := d.currentUser.value.id;
      var started := UserSession(|d.sessions|, uid, uid, now, None, None, deviceInfo, true, now, 0);
      var begun := d.(sessions := d.sessions + [started], currentSession := Some(started));
      OnlineSet(Tracked(begun, Login, None, None, now), uid, true)
  }

  /**
   * endUserSession: nothing without a current session and a signed-in user;
   * otherwise the session closed, the logout tracked and counted, the user
   * offline and no current session.
   */
  function SessionEnded(d: Store, now: int, today: string): Store
  {
    if d.currentSession.None? || d.currentUser.None? then d
    else
      var duration := now - d.currentSession.value.startTime;
      var tracked := Tracked(SessionClosed(d, now), Logout, Some(map["sessionDuration" := Num(duration)]), None, now);
      var counted := StatsCounted(tracked, Logout, StatsData(None, Some(duration), Some(1)), today);
      OnlineSet(counted, d.currentUser.value.id, false).(currentSession := None)
  }

  /** SessionEnded as endUserSession's steps: the session closed, the logout tracked and counted, the user offline. */
  lemma SessionEndedSteps(d: Store, duration: int, closed: Store, tracked: Store, counted: Store, offline: Store, now: int, today: string)
    requires d.currentSession.Some? && d.currentUser.Some? && duration == now - d.currentSession.value.startTime
    requires closed == SessionClosed(d, now)
    requires tracked == Tracked(closed, Logout, Some(map["sessionDuration" := Num(duration)]), None, now)
    requires counted == StatsCounted(tracked, Logout, StatsData(None, Some(duration), Some(1)), today)
    requires offline == OnlineSet(counted, d.currentUser.value.id, false)
    ensures SessionEnded(d, now, today) == offline.(currentSession := None)
  {
  }

  /** endUserSession's first write: the current session's document gets its end time and duration and is no longer active. */
  function SessionClosed(d: Store, now: int): Store
  {
    if d.currentSession.Some? && d.currentSession.value.id < |d.sessions| then
      var s := d.currentSession.value;
      d.(sessions := d.sessions[s.id := d.sessions[s.id].(endTime := Some(now), duration := Some(now - s.startTime), isActive := false)])
    else d
  }

  /** storeCall: the call document, then the activity tracked and counted. */
  function CallStored(d: Store, call: CallRecord, now: int, today: string): Store
  {
    var t := CallActivity(call, d.currentUser);
    var tracked := Tracked(d.(calls := d.calls[call.id := call]), t, Some(CallMetadata(call)), None, now);
    StatsCounted(tracked, t, StatsData(call.duration, None, None), today)
  }

  /** The metadata createUserProfile tracks. */
  const ProfileCreatedMetadata: Metadata := map["newValue" := Obj(map["profileCreated" := Flag(true)])]

  /** createUserProfile: the profile online, the update tracked for the previous user, then the new user current. */
  function ProfileCreated(d: Store, user: User, now: int): Store
  {
    var written := d.(users := d.users[user.id := user.(isOnline := true)]);
    Tracked(written, ProfileUpdated, Some(ProfileCreatedMetadata), None, now).(currentUser := Some(user))
  }

  /** getUserProfile: a stored profile becomes the signed-in user. */
  function ProfileRead(d: Store, atasId: string): Store
  {
    if atasId in d.users then d.(currentUser := Some(d.users[atasId])) else d
  }

  /** updateUserProfile: nothing on a missing profile; otherwise the updated profile and the update tracked. */
  function ProfileChanged(d: Store, atasId: string, updates: ProfileUpdates, now: int): Store
  {
    if atasId !in d.users then d
    else
      var written := d.(users := d.users[atasId := UpdatedUser(d.users[atasId], updates)]);
      Tracked(written, ProfileUpdated, Some(map["newValue" := Obj(UpdatesMetadata(updates))]), None, now)
  }

  /** cleanup: no signed-in user and no current session. */
  function CleanedUp(d: Store): Store
  {
    d.(currentUser := None, currentSession := None)
  }

  // ---------------------------------------------------------------------------
  // The service.

  class FirebaseLedger {
    var currentUser: Option<User>
    var currentSession: Option<UserSession>
    var users: map<string, User>
    var events: seq<ActivityEvent>
    var sessions: seq<UserSession>
    var dailyStats: map<string, DailyStats>
    var calls: map<string, CallRecord>

    /** Session documents sit at their own id, the current session, if any, is one of them, and profiles sit at their own id. */
    ghost predicate Valid()
      reads this
    {
      && (forall i :: 0 <= i < |sessions| ==> sessions[i].id == i)
      && (currentSession.Some? ==> currentSession.value.id < |sessions|)
      && (forall k :: k in users ==> users[k].id == k)
    }

    /** The fields as one value. */
    function Doc(): Store
      reads this
    {
      Store(currentUser, currentSession, users, events, sessions, dailyStats, calls)
    }

    constructor(storedUsers: map<string, User>)
      requires forall k :: k in storedUsers ==> storedUsers[k].id == k
      ensures Valid()
      ensures currentUser == None && currentSession == None
      ensures users == storedUsers && events == [] && sessions == [] && dailyStats == map[] && calls == map[]
    {
      currentUser := None;
      currentSession := None;
      users := storedUsers;
      events := [];
      sessions := [];
      dailyStats := map[];
      calls := map[];
    }

    /** The session document the current session refers to, after one more activity. */
    method UpdateSessionActivity(now: int)
      requires Valid()
      modifies this`sessions
      ensures Valid()
      ensures Doc() == SessionTouched(old(Doc()), now)
      ensures sessions == if currentSession.Some? then old(sessions)[currentSession.value.id := Touched(old(sessions)[currentSession.value.id], now)]
                          else old(sessions)
    {
      if currentSession.Some? {
        var id := currentSession.value.id;
        sessions := sessions[id := Touched(sessions[id], now)];
      }
    }

    /**
     * trackActivity: nothing without a signed-in user; otherwise one event for
     * that user, with empty metadata and the default device when none are
     * given, and one more activity on the current session's document.
     */
    method TrackActivity(t: ActivityType, metadata: Option<Metadata>, deviceInfo: Option<DeviceInfo>, now: int)
      requires Valid()
      modifies this`events, this`sessions
      ensures Valid()
      ensures Doc() == Tracked(old(Doc()), t, metadata, deviceInfo, now)
    {
      if currentUser.None? {
        return;
      }
      var u := currentUser.value;
      events := events + [ActivityEvent(u.id, u.id, t, now, metadata.GetOr(map[]), deviceInfo.GetOr(DefaultDeviceInfo))];
      UpdateSessionActivity(now);
    }

    /**
     * updateDailyStats: nothing without a signed-in user; otherwise the user's
     * document for the date, created with all counters at zero if missing,
     * receives the activity's increments.
     */
    method UpdateDailyStats(t: ActivityType, data: StatsData, today: string)
      modifies this`dailyStats
      ensures Doc() == StatsCounted(old(Doc()), t, data, today)
    {
      if currentUser.None? {
        return;
      }
      var uid := currentUser.value.id;
      var key := StatsKey(uid, today);
      var base := if key in dailyStats then dailyStats[key].stats else ZeroCounters();
      var updates := StatsUpdates(t, data);
      MergeUpdates(base, t, data, updates);
      dailyStats := dailyStats[key := DailyStats(uid, uid, today, Merge(base, updates))];
    }

    /** getDailyStats: the stored document of that user and date (today when no date or an empty one is given). */
    function GetDailyStats(atasId: string, date: Option<string>, today: string): (r: Option<DailyStats>)
      reads this
      ensures var d := if date.Some? && date.value != "" then date.value else today;
              (r.Some? <==> StatsKey(atasId, d) in dailyStats) &&
              (r.Some? ==> r.value == dailyStats[StatsKey(atasId, d)])
    {
      var d := if date.Some? && date.value != "" then date.value else today;
      var key := StatsKey(atasId, d);
      if key in dailyStats then Some(dailyStats[key]) else None
    }

    /** updateOnlineStatus: sets the flag on an existing profile; a missing profile is an error the service swallows. */
    method UpdateOnlineStatus(atasId: string, isOnline: bool)
      requires Valid()
      modifies this`users
      ensures Valid()
      ensures Doc() == OnlineSet(old(Doc()), atasId, isOnline)
    {
      if atasId in users {
        users := users[atasId := users[atasId].(isOnline := isOnline)];
      }
    }

    /**
     * startUserSession: nothing without a signed-in user; otherwise a new,
     * active session document with no activity yet, which becomes the current
     * session; then the login is tracked (counting one activity on the new
     * document) and the user is marked online (SessionStartedEffects).
     */
    method StartUserSession(deviceInfo: SessionDevice, now: int)
      requires Valid()
      modifies this`sessions, this`currentSession, this`events, this`users
      ensures Valid()
      ensures Doc() == SessionStarted(old(Doc()), deviceInfo, now)
    {
      if currentUser.None? {
        return;
      }
      var uid := currentUser.value.id;
      var started := UserSession(|sessions|, uid, uid, now, None, None, deviceInfo, true, now, 0);
      sessions := sessions + [started];
      currentSession := Some(started);
      TrackActivity(Login, None, None, now);
      UpdateOnlineStatus(uid, true);
    }

    /**
     * endUserSession: nothing without a current session and a signed-in user;
     * otherwise the session document is closed with its duration, the logout
     * is tracked and counted in the day's statistics with that duration and
     * one session, the user is marked offline and the current session is
     * cleared (SessionEndedEffects).
     */
    method EndUserSession(now: int, today: string)
      requires Valid()
      modifies this`sessions, this`currentSession, this`events, this`users, this`dailyStats
      ensures Valid()
      ensures Doc() == SessionEnded(old(Doc()), now, today)
    {
      if currentSession.None? || currentUser.None? {
        return;
      }
      ghost var d := Doc();
      var uid := currentUser.value.id;
      var duration := now - currentSession.value.startTime;
      CloseSession(now);
      ghost var closed := Doc();
      TrackActivity(Logout, Some(map["sessionDuration" := Num(duration)]), None, now);
      ghost var tracked := Doc();
      UpdateDailyStats(Logout, StatsData(None, Some(duration), Some(1)), today);
      ghost var counted := Doc();
      UpdateOnlineStatus(uid, false);
      ghost var offline := Doc();
      currentSession := None;
      SessionEndedSteps(d, duration, closed, tracked, counted, offline, now, today);
    }

    /** The current session's document closed at `now`, with its duration. */
    method CloseSession(now: int)
      requires Valid() && currentSession.Some?
      modifies this`sessions
      ensures Valid()
      ensures Doc() == SessionClosed(old(Doc()), now)
    {
      var s := currentSession.value;
      sessions := sessions[s.id := sessions[s.id].(endTime := Some(now), duration := Some(now - s.startTime), isActive := false)];
    }

    /**
     * storeCall: stores the call, then tracks it and counts it in the day's
     * statistics as made or received according to who started it (CallStoredEffects).
     */
    method StoreCall(call: CallRecord, now: int, today: string)
      requires Valid()
      modifies this`calls, this`events, this`sessions, this`dailyStats
      ensures Valid()
      ensures Doc() == CallStored(old(Doc()), call, now, today)
    {
      calls := calls[call.id := call];
      var t := CallActivity(call, currentUser);
      TrackActivity(t, Some(CallMetadata(call)), None, now);
      UpdateDailyStats(t, StatsData(call.duration, None, None), today);
    }

    /**
     * createUserProfile: writes the profile marked online, tracks the update
     * under the user that was signed in before the call (none on a fresh
     * service, so then no event), and only then makes the new user current
     * (ProfileCreatedEffects).
     */
    method CreateUserProfile(user: User, now: int)
      requires Valid()
      modifies this`users, this`events, this`sessions, this`currentUser
      ensures Valid()
      ensures Doc() == ProfileCreated(old(Doc()), user, now)
    {
      users := users[user.id := user.(isOnline := true)];
      TrackActivity(ProfileUpdated, Some(ProfileCreatedMetadata), None, now);
      currentUser := Some(user);
    }

    /** getUserProfile: the stored profile, which also becomes the signed-in user; nothing changes when there is none. */
    method GetUserProfile(atasId: string) returns (r: Option<User>)
      modifies this`currentUser
      ensures Doc() == ProfileRead(old(Doc()), atasId)
      ensures r.Some? <==> atasId in users
      ensures r.Some? ==> r.value == users[atasId] && currentUser == r
      ensures r.None? ==> currentUser == old(currentUser)
    {
      if atasId in users {
        r := Some(users[atasId]);
        currentUser := r;
      } else {
        r := None;
      }
    }

    /** updateUserProfile: fails on a missing profile; otherwise applies the updates and tracks them (ProfileChangedEffects). */
    method UpdateUserProfile(atasId: string, updates: ProfileUpdates, now: int) returns (r: Outcome<string>)
      requires Valid()
      modifies this`users, this`events, this`sessions
      ensures Valid()
      ensures Doc() == ProfileChanged(old(Doc()), atasId, updates, now)
      ensures r.Pass? <==> atasId in old(users)
      ensures r.Fail? ==> r.error == "No document to update: users/" + atasId
    {
      if atasId !in users {
        return Fail("No document to update: users/" + atasId);
      }
      users := users[atasId := UpdatedUser(users[atasId], updates)];
      TrackActivity(ProfileUpdated, Some(map["newValue" := Obj(UpdatesMetadata(updates))]), None, now);
      r := Pass;
    }

    /** cleanup: forgets the signed-in user and the current session; the stored documents stay. */
    method Cleanup()
      modifies this`currentUser, this`currentSession
      ensures Doc() == CleanedUp(old(Doc()))
      ensures currentUser == None && currentSession == None
    {
      currentUser := None;
      currentSession := None;
    }
  }

  /** Without a signed-in user, tracking and statistics leave the ledger as it was. */
  lemma SignedOutLedgerIsInert(d: Store, t: ActivityType, metadata: Option<Metadata>, deviceInfo: Option<DeviceInfo>,
                               data: StatsData, now: int, today: string)
    requires d.currentUser.None?
    ensures Tracked(d, t, metadata, deviceInfo, now) == d
    ensures StatsCounted(d, t, data, today) == d
    ensures SessionStarted(d, SessionDevice("", "", "", "", ""), now) == d
  {
  }

  /**
   * trackActivity's effect: one event for the signed-in user, with empty
   * metadata and the default device when none are given, one more activity
   * on the current session's document, and no other change.
   */
  lemma TrackedEffects(d: Store, t: ActivityType, metadata: Option<Metadata>, deviceInfo: Option<DeviceInfo>, now: int)
    requires d.currentUser.Some?
    requires d.currentSession.Some? ==> d.currentSession.value.id < |d.sessions|
    ensures var r := Tracked(d, t, metadata, deviceInfo, now);
            var uid := d.currentUser.value.id;
            && r.events == d.events + [ActivityEvent(uid, uid, t, now, metadata.GetOr(map[]), deviceInfo.GetOr(DefaultDeviceInfo))]
            && r.sessions == (if d.currentSession.Some? then d.sessions[d.currentSession.value.id := Touched(d.sessions[d.currentSession.value.id], now)]
                              else d.sessions)
            && r.(events := d.events, sessions := d.sessions) == d
  {
  }

  /**
   * startUserSession's effect: a new active session at the next document id
   * becomes current with the login counted on it, the login is tracked, the
   * profile, if stored, is online, and nothing else changes.
   */
  lemma SessionStartedEffects(d: Store, deviceInfo: SessionDevice, now: int)
    requires d.currentUser.Some?
    ensures var r := SessionStarted(d, deviceInfo, now);
            var uid := d.currentUser.value.id;
            var started := UserSession(|d.sessions|, uid, uid, now, None, None, deviceInfo, true, now, 0);
            && r.currentSession == Some(started)
            && r.sessions == d.sessions + [Touched(started, now)]
            && r.events == d.events + [ActivityEvent(uid, uid, Login, now, map[], DefaultDeviceInfo)]
            && r.users == (if uid in d.users then d.users[uid := d.users[uid].(isOnline := true)] else d.users)
            && r.currentUser == d.currentUser && r.dailyStats == d.dailyStats && r.calls == d.calls
  {
    var uid := d.currentUser.value.id;
    var started := UserSession(|d.sessions|, uid, uid, now, None, None, deviceInfo, true, now, 0);
    var begun := d.(sessions := d.sessions + [started], currentSession := Some(started));
    TrackedEffects(begun, Login, None, None, now);
    assert (d.sessions + [started])[|d.sessions| := Touched(started, now)] == d.sessions + [Touched(started, now)];
  }

  /**
   * endUserSession's effect: the session document closed with its duration
   * (and the logout counted on it), the logout tracked with that duration,
   * the day's statistics counting the duration and one session, the profile,
   * if stored, offline, no current session, and nothing else changed.
   */
  lemma SessionEndedEffects(d: Store, now: int, today: string)
    requires d.currentSession.Some? && d.currentUser.Some? && d.currentSession.value.id < |d.sessions|
    ensures var r := SessionEnded(d, now, today);
            var s := d.currentSession.value;
            var duration := now - s.startTime;
            var uid := d.currentUser.value.id;
            var closed := d.sessions[s.id].(endTime := Some(now), duration := Some(duration), isActive := false);
            var key := StatsKey(uid, today);
            var base := if key in d.dailyStats then d.dailyStats[key].stats else ZeroCounters();
            && r.currentSession == None
            && r.sessions == d.sessions[s.id := Touched(closed, now)]
            && r.events == d.events + [ActivityEvent(uid, uid, Logout, now, map["sessionDuration" := Num(duration)], DefaultDeviceInfo)]
            && r.dailyStats == d.dailyStats[key := DailyStats(uid, uid, today, Apply(base, Logout, StatsData(None, Some(duration), Some(1))))]
            && r.users == (if uid in d.users then d.users[uid := d.users[uid].(isOnline := false)] else d.users)
            && r.currentUser == d.currentUser && r.calls == d.calls
  {
    var s := d.currentSession.value;
    var duration := now - s.startTime;
    var closed := d.sessions[s.id := d.sessions[s.id].(endTime := Some(now), duration := Some(duration), isActive := false)];
    TrackedEffects(d.(sessions := closed), Logout, Some(map["sessionDuration" := Num(duration)]), None, now);
  }

  /**
   * storeCall's effect: the call document, and one event and the day's
   * statistics for the activity CallActivity names, the session touched,
   * and nothing else when nobody is signed in.
   */
  lemma CallStoredEffects(d: Store, call: CallRecord, now: int, today: string)
    requires d.currentSession.Some? ==> d.currentSession.value.id < |d.sessions|
    ensures var r := CallStored(d, call, now, today);
            var t := CallActivity(call, d.currentUser);
            && r.calls == d.calls[call.id := call]
            && (d.currentUser.None? ==> r == d.(calls := r.calls))
            && (d.currentUser.Some? ==>
                  var uid := d.currentUser.value.id;
                  var key := StatsKey(uid, today);
                  var base := if key in d.dailyStats then d.dailyStats[key].stats else ZeroCounters();
                  && r.events == d.events + [ActivityEvent(uid, uid, t, now, CallMetadata(call), DefaultDeviceInfo)]
                  && r.dailyStats == d.dailyStats[key := DailyStats(uid, uid, today, Apply(base, t, StatsData(call.duration, None, None)))]
                  && r.sessions == (if d.currentSession.Some? then d.sessions[d.currentSession.value.id := Touched(d.sessions[d.currentSession.value.id], now)]
                                    else d.sessions))
            && r.users == d.users && r.currentUser == d.currentUser && r.currentSession == d.currentSession
  {
    if d.currentUser.Some? {
      var t := CallActivity(call, d.currentUser);
      TrackedEffects(d.(calls := d.calls[call.id := call]), t, Some(CallMetadata(call)), None, now);
    }
  }

  /**
   * createUserProfile's effect: the profile stored online, the update
   * tracked under the user signed in before, touching that user's current
   * session (no event when there was none), and the new user signed in.
   */
  lemma ProfileCreatedEffects(d: Store, user: User, now: int)
    requires d.currentSession.Some? ==> d.currentSession.value.id < |d.sessions|
    ensures var r := ProfileCreated(d, user, now);
            && r.users == d.users[user.id := user.(isOnline := true)]
            && r.currentUser == Some(user)
            && (d.currentUser.None? ==> r.events == d.events && r.sessions == d.sessions)
            && (d.currentUser.Some? ==>
                  var uid := d.currentUser.value.id;
                  && r.events == d.events + [ActivityEvent(uid, uid, ProfileUpdated, now, ProfileCreatedMetadata, DefaultDeviceInfo)]
                  && r.sessions == (if d.currentSession.Some? then d.sessions[d.currentSession.value.id := Touched(d.sessions[d.currentSession.value.id], now)]
                                    else d.sessions))
            && r.currentSession == d.currentSession && r.dailyStats == d.dailyStats && r.calls == d.calls
  {
    if d.currentUser.Some? {
      TrackedEffects(d.(users := d.users[user.id := user.(isOnline := true)]), ProfileUpdated, Some(ProfileCreatedMetadata), None, now);
    }
  }

  /**
   * updateUserProfile's effect: on a stored profile, the given fields
   * overwritten and the update tracked, touching the current session; a
   * missing profile changes nothing.
   */
  lemma ProfileChangedEffects(d: Store, atasId: string, updates: ProfileUpdates, now: int)
    requires d.currentSession.Some? ==> d.currentSession.value.id < |d.sessions|
    ensures atasId !in d.users ==> ProfileChanged(d, atasId, updates, now) == d
    ensures atasId in d.users ==>
              var r := ProfileChanged(d, atasId, updates, now);
              && r.users == d.users[atasId := UpdatedUser(d.users[atasId], updates)]
              && (d.currentUser.None? ==> r.events == d.events && r.sessions == d.sessions)
              && (d.currentUser.Some? ==>
                    var uid := d.currentUser.value.id;
                    && r.events == d.events + [ActivityEvent(uid, uid, ProfileUpdated, now,
                                                             map["newValue" := Obj(UpdatesMetadata(updates))], DefaultDeviceInfo)]
                    && r.sessions == (if d.currentSession.Some? then d.sessions[d.currentSession.value.id := Touched(d.sessions[d.currentSession.value.id], now)]
                                      else d.sessions))
              && r.currentUser == d.currentUser && r.currentSession == d.currentSession
              && r.dailyStats == d.dailyStats && r.calls == d.calls
  {
    if atasId in d.users && d.currentUser.Some? {
      TrackedEffects(d.(users := d.users[atasId := UpdatedUser(d.users[atasId], updates)]), ProfileUpdated,
                     Some(map["newValue" := Obj(UpdatesMetadata(updates))]), None, now);
    }
  }

  /** A session started and ended at once lasts its length, and counts one session and that time for the day. */
  lemma SessionRoundTrip(d: Store, deviceInfo: SessionDevice, start: int, stop: int, today: string)
    requires d.currentUser.Some?
    requires StatsKey(d.currentUser.value.id, today) !in d.dailyStats
    requires stop > start
    ensures var r := SessionEnded(SessionStarted(d, deviceInfo, start), stop, today);
            && r.currentSession == None
            && |r.sessions| == |d.sessions| + 1
            && var s := r.sessions[|d.sessions|];
               s.duration == Some(stop - start) && !s.isActive && s.activityCount == 2
    ensures var r := SessionEnded(SessionStarted(d, deviceInfo, start), stop, today);
            && StatsKey(d.currentUser.value.id, today) in r.dailyStats
            && var counters := r.dailyStats[StatsKey(d.currentUser.value.id, today)].stats;
               Complete(counters) &&
               counters[SessionCount] == 1 && counters[ActiveTime] == stop - start && counters[MessagesSent] == 0
  {
    var m := SessionStarted(d, deviceInfo, start);
    SessionStartedEffects(d, deviceInfo, start);
    SessionEndedEffects(m, stop, today);
  }
}
