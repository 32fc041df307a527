/**
 * Change detection of `NorwayAlertsCoordinator`: after each poll the
 * coordinator compares the alerts with the snapshot of the previous poll,
 * keyed by `str(Id)`, and notifies new alerts and alerts whose level rose
 * (when the level passes the configured severity floor) and every alert
 * that disappeared; then the snapshot is replaced.  An unreadable level in
 * the snapshot makes the level comparison raise, which ends the whole call
 * after the notifications already sent and keeps the old snapshot.
 */
module Notifications {
  import opened Common
  import opened Text
  import opened Records
  import opened Encoding

  // ------------------------------------------------------------ severity floor

  /** The configured floor: the four known settings, or anything else. */
  datatype Severity = All | YellowPlus | OrangePlus | RedOnly | OtherSeverity(name: string)

  /** `_should_notify` */
  function ShouldNotify(severity: Severity, level: string): bool {
    match ParseInt(level)
    case None => false
    case Some(n) =>
      match severity
      case All => n >= 1
      case YellowPlus => n >= 2
      case OrangePlus => n >= 3
      case RedOnly => n >= 4
      case OtherSeverity(_) => false
  }

  function Threshold(severity: Severity): int
    requires !severity.OtherSeverity?
  {
    match severity
    case All => 1
    case YellowPlus => 2
    case OrangePlus => 3
    case RedOnly => 4
  }

  /** A level notifies iff it is an integer at or above a known floor; an unknown floor never notifies. */
  lemma ShouldNotifyMeaning(severity: Severity, level: string)
    ensures ShouldNotify(severity, level) <==>
      ParseInt(level).Some? && !severity.OtherSeverity? && ParseInt(level).value >= Threshold(severity)
  {
  }

  /** The floors are ordered: a level that passes a higher floor passes every lower one. */
  lemma ShouldNotifyMonotone(s1: Severity, s2: Severity, level: string)
    requires !s1.OtherSeverity? && !s2.OtherSeverity? && Threshold(s1) <= Threshold(s2)
    ensures ShouldNotify(s2, level) ==> ShouldNotify(s1, level)
  {
    ShouldNotifyMeaning(s1, level);
    ShouldNotifyMeaning(s2, level);
  }

  // ------------------------------------------------------------ snapshot

  /** What the snapshot keeps of an alert. */
  datatype AlertState = AlertState(level: string, warningType: string, regionName: string, alert: Warning)

  /** `alert.get("RegionName") or alert.get("MunicipalityName", "Unknown area")` */
  function RegionNameOf(w: Warning): string {
    if w.regionName != "" then w.regionName else w.municipalityName.GetOr("Unknown area")
  }

  function StateOf(w: Warning): AlertState {
    AlertState(ActivityLevelOf(w), w.warningType.GetOr("unknown"), RegionNameOf(w), w)
  }

  /** A dict: its keys in insertion order and its contents. */
  datatype Snapshot = Snapshot(keys: seq<string>, states: map<string, AlertState>)

  ghost predicate SnapshotOk(s: Snapshot) {
    Distinct(s.keys) && forall k :: k in s.states <==> k in s.keys
  }

  const EmptySnapshot := Snapshot([], map[])

  /** `d[k] = st`: a new key goes last, an existing key keeps its place. */
  function Put(s: Snapshot, k: string, st: AlertState): (r: Snapshot)
    requires SnapshotOk(s)
    ensures SnapshotOk(r)
    ensures forall k' :: k' in r.states <==> k' in s.states || k' == k
  {
    Snapshot(if k in s.states then s.keys else s.keys + [k], s.states[k := st])
  }

  /**
   * `current_alert_states`: one state per key; a later alert with a key
   * already seen replaces the state but keeps the key's place.
   */
  function CurrentStates(ws: seq<Warning>): (s: Snapshot)
    ensures SnapshotOk(s)
    ensures forall k :: k in s.states <==> exists i :: 0 <= i < |ws| && NotificationKey(ws[i]) == k
  {
    if ws == [] then EmptySnapshot
    else
      var init := CurrentStates(ws[..|ws| - 1]);
      var w := ws[|ws| - 1];
      assert forall i :: 0 <= i < |ws| - 1 ==> ws[..|ws| - 1][i] == ws[i];
      Put(init, NotificationKey(w), StateOf(w))
  }

  /** The state kept for a key is the one of the last alert with that key. */
  lemma {:induction false} CurrentStatesLast(ws: seq<Warning>, i: nat)
    requires i < |ws|
    requires forall j :: i < j < |ws| ==> NotificationKey(ws[j]) != NotificationKey(ws[i])
    ensures CurrentStates(ws).states[NotificationKey(ws[i])] == StateOf(ws[i])
    decreases |ws|
  {
    if i < |ws| - 1 {
      var init := ws[..|ws| - 1];
      assert forall j :: i < j < |init| ==> init[j] == ws[j];
      CurrentStatesLast(init, i);
    }
  }

  // ------------------------------------------------------------ notifications

  datatype Status = New | Upgraded

  /** A `persistent_notification.create` call. */
  datatype Notification = Notification(title: string, message: string, notificationId: string)

  /** The levels that have a colour mark of their own. */
  const MarkedLevels: set<string> := {"1", "2", "3", "4", "5"}

  /** The level's colour mark, white for an unknown level. */
  function LevelEmoji(level: string): (mark: string)
    ensures |mark| == 1 && mark[0] as int >= 0x80
    ensures level !in MarkedLevels <==> mark == "\U{26AA}"
  {
    if level == "1" then "\U{1F7E2}"
    else if level == "2" then "\U{1F7E1}"
    else if level == "3" then "\U{1F7E0}"
    else if level == "4" then "\U{1F534}"
    else if level == "5" then "\U{26AB}"
    else "\U{26AA}"
  }

  /** Different levels get different marks. */
  lemma LevelEmojiDistinct(a: string, b: string)
    requires a in MarkedLevels && b in MarkedLevels && a != b
    ensures LevelEmoji(a) != LevelEmoji(b)
  {
  }

  /**
   * The marks as `_send_alert_notification` spells them: the source file
   * holds each emoji's UTF-8 bytes read back as Windows-1252.
   */
  function LevelEmojiAsWritten(level: string): string {
    if level == "1" then "\U{F0}\U{178}\U{178}\U{A2}"
    else if level == "2" then "\U{F0}\U{178}\U{178}\U{A1}"
    else if level == "3" then "\U{F0}\U{178}\U{178}\U{A0}"
    else if level == "4" then "\U{F0}\U{178}\U{201D}\U{B4}"
    else if level == "5" then "\U{E2}\U{161}\U{AB}"
    else "\U{E2}\U{161}\U{AA}"
  }

  /** Every mark the source spells is the intended emoji garbled through UTF-8 and Windows-1252. */
  lemma LevelEmojiGarbled(level: string)
    ensures Cp1252(Utf8(LevelEmoji(level))) == Some(LevelEmojiAsWritten(level))
    ensures LevelEmojiAsWritten(level) != LevelEmoji(level)
    ensures |LevelEmojiAsWritten(level)| > 1
  {
    if level == "1" {
      GreenGarbled();
    } else if level == "2" {
      YellowGarbled();
    } else if level == "3" {
      OrangeGarbled();
    } else if level == "4" {
      RedGarbled();
    } else if level == "5" {
      BlackGarbled();
    } else {
      WhiteGarbled();
    }
  }

  lemma GreenGarbled()
    ensures Cp1252(Utf8("\U{1F7E2}")) == Some("\U{F0}\U{178}\U{178}\U{A2}")
  {
    Garbled4('\U{1F7E2}', 0xF0, 0x9F, 0x9F, 0xA2);
  }

  lemma YellowGarbled()
    ensures Cp1252(Utf8("\U{1F7E1}")) == Some("\U{F0}\U{178}\U{178}\U{A1}")
  {
    Garbled4('\U{1F7E1}', 0xF0, 0x9F, 0x9F, 0xA1);
  }

  lemma OrangeGarbled()
    ensures Cp1252(Utf8("\U{1F7E0}")) == Some("\U{F0}\U{178}\U{178}\U{A0}")
  {
    Garbled4('\U{1F7E0}', 0xF0, 0x9F, 0x9F, 0xA0);
  }

  lemma RedGarbled()
    ensures Cp1252(Utf8("\U{1F534}")) == Some("\U{F0}\U{178}\U{201D}\U{B4}")
  {
    Garbled4('\U{1F534}', 0xF0, 0x9F, 0x94, 0xB4);
  }

  lemma BlackGarbled()
    ensures Cp1252(Utf8("\U{26AB}")) == Some("\U{E2}\U{161}\U{AB}")
  {
    Garbled3('\U{26AB}', 0xE2, 0x9A, 0xAB);
  }

  lemma WhiteGarbled()
    ensures Cp1252(Utf8("\U{26AA}")) == Some("\U{E2}\U{161}\U{AA}")
  {
    Garbled3('\U{26AA}', 0xE2, 0x9A, 0xAA);
  }

  /** The mark of a resolved notification, and as the source spells it. */
  const ResolvedMark := "\U{2705}"
  const ResolvedMarkAsWritten := "\U{E2}\U{153}\U{2026}"

  lemma ResolvedMarkGarbled()
    ensures Cp1252(Utf8(ResolvedMark)) == Some(ResolvedMarkAsWritten)
    ensures ResolvedMarkAsWritten != ResolvedMark
  {
    Garbled3('\U{2705}', 0xE2, 0x9C, 0x85);
  }

  /** `warning_type.replace("_", " ").title()` */
  function TypeDisplay(t: string): (r: string)
    ensures |r| == |t|
    ensures forall i :: 0 <= i < |t| ==> (if t[i] == '_' then r[i] == ' ' else LowerChar(r[i]) == LowerChar(t[i]))
  {
    var spaced := ReplaceChar(t, '_', ' ');
    var r := Title(spaced);
    forall i | 0 <= i < |t| && t[i] != '_' ensures LowerChar(r[i]) == LowerChar(t[i]) {
      LowerUpper(t[i]);
    }
    r
  }

  /** The main text shortened to 97 characters and "..." when it is longer than 100. */
  function Shorten(s: string): (r: string)
    ensures |r| <= 100
    ensures |s| <= 100 ==> r == s
    ensures |s| > 100 ==> |r| == 100 && r[..97] == s[..97] && r[97..] == "..."
  {
    if |s| > 100 then s[..97] + "..." else s
  }

  function StatusText(status: Status): string {
    match status
    case New => "New"
    case Upgraded => "Upgraded"
  }

  /** A notification the coordinator sends: for an alert with its status, or for a resolved one. */
  datatype Call = AlertCall(state: AlertState, status: Status) | ResolvedCall(state: AlertState)

  /** The id a new or upgraded alert's notification is created under: county, type and `str(Id)`. */
  function AlertNotificationId(countyId: string, warningType: string, key: string): string {
    "norway_alerts_" + countyId + "_" + warningType + "_" + key
  }

  /** `_send_alert_notification`: the title, the message and the id of a new or upgraded alert. */
  function AlertNotification(st: AlertState, status: Status, countyId: string, names: map<string, string>): (n: Notification)
    ensures |n.title| > 2 && n.title[0] == LevelEmoji(st.level)[0] && n.title[1] == ' '
    ensures n.notificationId == AlertNotificationId(countyId, st.warningType, NotificationKey(st.alert))
  {
    var title := LevelEmoji(st.level) + " " + StatusText(status) + " " + TypeDisplay(st.warningType) + " Warning";
    Notification(title, AlertMessage(st, names), AlertNotificationId(countyId, st.warningType, NotificationKey(st.alert)))
  }

  /** The message of a new or upgraded alert: region, level name and the shortened main text. */
  function AlertMessage(st: AlertState, names: map<string, string>): string {
    var mainText := Shorten(st.alert.mainText);
    st.regionName + " - " + Title(Get(names, st.level, "unknown")) + " danger level"
      + (if mainText != "" then "\n\n" + mainText else "")
  }

  /**
   * An upgrade is announced under the same id as the alert's first
   * notification, so it takes that notification's place; alerts of one
   * type with different ids get notifications of their own.
   */
  lemma AlertNotificationIds(a: AlertState, b: AlertState, sa: Status, sb: Status, countyId: string,
                             names: map<string, string>)
    requires a.warningType == b.warningType
    ensures AlertNotification(a, sa, countyId, names).notificationId == AlertNotification(b, sb, countyId, names).notificationId
            <==> NotificationKey(a.alert) == NotificationKey(b.alert)
  {
    var p := "norway_alerts_" + countyId + "_" + a.warningType + "_";
    var ia := AlertNotificationId(countyId, a.warningType, NotificationKey(a.alert));
    var ib := AlertNotificationId(countyId, b.warningType, NotificationKey(b.alert));
    assert ia == p + NotificationKey(a.alert) && ib == p + NotificationKey(b.alert);
    if ia == ib {
      assert ia[|p|..] == NotificationKey(a.alert) && ib[|p|..] == NotificationKey(b.alert);
    }
  }

  /** `_send_resolved_notification` */
  function ResolvedNotification(st: AlertState, countyId: string): (n: Notification)
    ensures |n.title| > 11 && n.title[..11] == ResolvedMark + " Resolved "
    ensures n.message == st.regionName + " - Warning no longer active"
    ensures n.notificationId == "norway_alerts_resolved_" + countyId + "_" + st.warningType + "_" + st.regionName
  {
    Notification(ResolvedMark + " Resolved " + TypeDisplay(st.warningType) + " Warning",
                 st.regionName + " - Warning no longer active",
                 "norway_alerts_resolved_" + countyId + "_" + st.warningType + "_" + st.regionName)
  }

  /**
   * A resolved notification is keyed on the region name, not on the alert
   * id: resolved alerts of one type share a notification exactly when their
   * region names agree.
   */
  lemma ResolvedNotificationIds(a: AlertState, b: AlertState, countyId: string)
    requires a.warningType == b.warningType
    ensures ResolvedNotification(a, countyId).notificationId == ResolvedNotification(b, countyId).notificationId
            <==> a.regionName == b.regionName
  {
    var p := "norway_alerts_resolved_" + countyId + "_" + a.warningType + "_";
    var ra := ResolvedNotification(a, countyId).notificationId;
    var rb := ResolvedNotification(b, countyId).notificationId;
    assert ra == p + a.regionName && rb == p + b.regionName;
    if ra == rb {
      assert ra[|p|..] == a.regionName && rb[|p|..] == b.regionName;
    }
  }

  function Render(c: Call, countyId: string, names: map<string, string>): Notification {
    match c
    case AlertCall(st, status) => AlertNotification(st, status, countyId, names)
    case ResolvedCall(st) => ResolvedNotification(st, countyId)
  }

  /** The service calls for a list of notifications, one each, in order. */
  function RenderAll(cs: seq<Call>, countyId: string, names: map<string, string>): (ns: seq<Notification>)
    ensures |ns| == |cs|
    ensures forall i :: 0 <= i < |cs| ==> ns[i] == Render(cs[i], countyId, names)
  {
    seq(|cs|, i requires 0 <= i < |cs| => Render(cs[i], countyId, names))
  }

  lemma RenderAllAppend(a: seq<Call>, b: seq<Call>, countyId: string, names: map<string, string>)
    ensures RenderAll(a + b, countyId, names) == RenderAll(a, countyId, names) + RenderAll(b, countyId, names)
  {
  }

  /** A long main text reaches the message shortened to 100 characters, ending in "...". */
  lemma MessageShortened(st: AlertState, status: Status, countyId: string, names: map<string, string>)
    requires |st.alert.mainText| > 100
    ensures var n := AlertNotification(st, status, countyId, names);
      var prefix := st.regionName + " - " + Title(Get(names, st.level, "unknown")) + " danger level" + "\n\n";
      && |n.message| == |prefix| + 100
      && n.message[..|prefix| + 97] == prefix + st.alert.mainText[..97]
      && n.message[|prefix| + 97..] == "..."
  {
    var prefix := st.regionName + " - " + Title(Get(names, st.level, "unknown")) + " danger level" + "\n\n";
    var n := AlertNotification(st, status, countyId, names);
    var short := Shorten(st.alert.mainText);
    assert n.message == AlertMessage(st, names) == prefix + short;
    assert (prefix + short)[..|prefix| + 97] == prefix + short[..97];
    assert (prefix + short)[|prefix| + 97..] == short[97..];
  }

  /** What happens for one key of the current states. */
  datatype Verdict = Silent | Notify(status: Status) | Raises

  /** New when the key was not tracked, Upgraded when the level rose; the comparison raises on an unreadable old level. */
  function Classify(previous: Snapshot, k: string, st: AlertState, severity: Severity): Verdict {
    if !ShouldNotify(severity, st.level) then Silent
    else if k !in previous.states then Notify(New)
    else
      match ParseInt(previous.states[k].level)
      case None => Raises
      case Some(p) => if ParseInt(st.level).value > p then Notify(Upgraded) else Silent
  }

  /** Each verdict and exactly when it is reached. */
  lemma ClassifyMeaning(previous: Snapshot, k: string, st: AlertState, severity: Severity)
    ensures var v := Classify(previous, k, st, severity);
      && (v == Notify(New) <==> ShouldNotify(severity, st.level) && k !in previous.states)
      && (v == Raises <==>
            ShouldNotify(severity, st.level) && k in previous.states && ParseInt(previous.states[k].level).None?)
      && (v == Notify(Upgraded) <==>
            && ShouldNotify(severity, st.level) && k in previous.states
            && ParseInt(previous.states[k].level).Some?
            && ParseInt(st.level).value > ParseInt(previous.states[k].level).value)
  {
  }

  /** The snapshot's states in key order. */
  function StatesInOrder(s: Snapshot): (sts: seq<AlertState>)
    requires SnapshotOk(s)
    ensures |sts| == |s.keys|
  {
    seq(|s.keys|, j requires 0 <= j < |s.keys| => s.states[s.keys[j]])
  }

  /** The verdict for each key of the current states, in key order. */
  function Verdicts(previous: Snapshot, current: Snapshot, severity: Severity): (vs: seq<Verdict>)
    requires SnapshotOk(current)
    ensures |vs| == |current.keys|
  {
    seq(|current.keys|, j requires 0 <= j < |current.keys| =>
      Classify(previous, current.keys[j], current.states[current.keys[j]], severity))
  }

  /**
   * The first loop over the first `n` states with their verdicts: the
   * notifications in key order; Err holds those sent before it raised.
   */
  function FirstPass(sts: seq<AlertState>, vs: seq<Verdict>, n: nat): Result<seq<Call>, seq<Call>>
    requires |vs| == |sts| && n <= |vs|
  {
    if n == 0 then Ok([])
    else
      match FirstPass(sts, vs, n - 1)
      case Err(calls) => Err(calls)
      case Ok(calls) =>
        match vs[n - 1]
        case Silent => Ok(calls)
        case Raises => Err(calls)
        case Notify(status) => Ok(calls + [AlertCall(sts[n - 1], status)])
  }

  /** The second loop: a notification for every tracked key that is gone, in the old order. */
  function Resolved(previous: Snapshot, current: Snapshot, n: nat): seq<Call>
    requires SnapshotOk(previous) && n <= |previous.keys|
  {
    if n == 0 then []
    else
      var k := previous.keys[n - 1];
      Resolved(previous, current, n - 1)
        + (if k !in current.states then [ResolvedCall(previous.states[k])] else [])
  }

  /** The outcome of one call: the notifications sent, and the snapshot kept afterwards. */
  datatype Outcome = Outcome(calls: seq<Call>, snapshot: Snapshot)

  function Poll(previous: Snapshot, ws: seq<Warning>, severity: Severity): (o: Outcome)
    requires SnapshotOk(previous)
    ensures SnapshotOk(o.snapshot)
  {
    var current := CurrentStates(ws);
    match FirstPass(StatesInOrder(current), Verdicts(previous, current, severity), |current.keys|)
    case Err(calls) => Outcome(calls, previous)
    case Ok(calls) => Outcome(calls + Resolved(previous, current, |previous.keys|), current)
  }

  /** `current_alert_states`, built alert by alert. */
  method CollectStates(ws: seq<Warning>) returns (current: Snapshot)
    ensures current == CurrentStates(ws)
  {
    current := EmptySnapshot;
    for i := 0 to |ws|
      invariant current == CurrentStates(ws[..i])
    {
      assert ws[..i + 1][..i] == ws[..i];
      current := Put(current, NotificationKey(ws[i]), StateOf(ws[i]));
    }
    assert ws[..|ws|] == ws;
  }

  /** The first loop of `_send_notifications`: new and upgraded alerts, stopping where the comparison raises. */
  method NewAndUpgraded(previous: Snapshot, current: Snapshot, severity: Severity)
    returns (r: Result<seq<Call>, seq<Call>>)
    requires SnapshotOk(current)
    ensures r == FirstPass(StatesInOrder(current), Verdicts(previous, current, severity), |current.keys|)
  {
    ghost var sts, vs := StatesInOrder(current), Verdicts(previous, current, severity);
    var calls: seq<Call> := [];
    for n := 0 to |current.keys|
      invariant FirstPass(sts, vs, n) == Ok(calls)
    {
      var st := current.states[current.keys[n]];
      var verdict := ClassifyKey(previous, current, severity, n);
      assert st == sts[n];
      FirstPassNext(sts, vs, n);
      if verdict.Raises? {
        RaisedStays(sts, vs, n + 1);
        return Err(calls);
      }
      if verdict.Notify? {
        calls := calls + [AlertCall(st, verdict.status)];
      }
    }
    return Ok(calls);
  }

  /** One more step of the first loop, after the ones that did not raise. */
  lemma FirstPassNext(sts: seq<AlertState>, vs: seq<Verdict>, n: nat)
    requires |vs| == |sts| && n < |vs| && FirstPass(sts, vs, n).Ok?
    ensures var calls := FirstPass(sts, vs, n).value;
      FirstPass(sts, vs, n + 1)
        == match vs[n]
           case Silent => Ok(calls)
           case Raises => Err(calls)
           case Notify(status) => Ok(calls + [AlertCall(sts[n], status)])
  {
  }

  /** The comparison for the key at position `n`. */
  method ClassifyKey(previous: Snapshot, current: Snapshot, severity: Severity, n: nat) returns (v: Verdict)
    requires SnapshotOk(current) && n < |current.keys|
    ensures v == Verdicts(previous, current, severity)[n]
  {
    v := Classify(previous, current.keys[n], current.states[current.keys[n]], severity);
  }

  /** The second loop: resolved alerts. */
  method ResolvedCalls(previous: Snapshot, current: Snapshot) returns (calls: seq<Call>)
    requires SnapshotOk(previous)
    ensures calls == Resolved(previous, current, |previous.keys|)
  {
    calls := [];
    for n := 0 to |previous.keys|
      invariant calls == Resolved(previous, current, n)
    {
      var k := previous.keys[n];
      if k !in current.states {
        calls := calls + [ResolvedCall(previous.states[k])];
      }
    }
  }

  // ------------------------------------------------------------ the coordinator

  class NorwayAlertsCoordinator {
    const countyId: string
    const severity: Severity
    const names: map<string, string>
    /** `previous_alerts` */
    var previous: Snapshot
    /** The notification service calls made so far. */
    var sent: seq<Notification>

    ghost predicate Valid()
      reads this
    {
      SnapshotOk(previous)
    }

    constructor (countyId: string, severity: Severity, names: map<string, string>)
      ensures Valid()
      ensures this.countyId == countyId && this.severity == severity && this.names == names
      ensures previous == EmptySnapshot && sent == []
    {
      this.countyId := countyId;
      this.severity := severity;
      this.names := names;
      previous := EmptySnapshot;
      sent := [];
    }

    /** `_send_notifications` */
    method SendNotifications(ws: seq<Warning>)
      requires Valid()
      modifies this
      ensures Valid()
      ensures var o := Poll(old(previous), ws, severity);
        sent == old(sent) + RenderAll(o.calls, countyId, names) && previous == o.snapshot
    {
      var current := CollectStates(ws);
      var first := NewAndUpgraded(previous, current, severity);
      match first {
        case Err(calls) =>
          sent := sent + RenderAll(calls, countyId, names);
        case Ok(calls) =>
          var resolved := ResolvedCalls(previous, current);
          RenderAllAppend(calls, resolved, countyId, names);
          sent := sent + RenderAll(calls + resolved, countyId, names);
          previous := current;
      }
    }
  }

  /** Once the first loop has raised, the whole loop has raised with the same notifications sent. */
  lemma {:induction false} RaisedStays(sts: seq<AlertState>, vs: seq<Verdict>, n: nat)
    requires |vs| == |sts| && n <= |vs|
    requires FirstPass(sts, vs, n).Err?
    ensures FirstPass(sts, vs, |vs|) == FirstPass(sts, vs, n)
    decreases |vs| - n
  {
    if n < |vs| {
      RaisedStays(sts, vs, n + 1);
    }
  }

  // ------------------------------------------------------------ properties

  /** Polling again with the same alerts sends nothing and keeps the same snapshot. */
  lemma RepeatPollSilent(ws: seq<Warning>, severity: Severity)
    ensures Poll(CurrentStates(ws), ws, severity) == Outcome([], CurrentStates(ws))
  {
    var c := CurrentStates(ws);
    var vs := Verdicts(c, c, severity);
    forall j | 0 <= j < |vs|
      ensures vs[j] == Silent
    {
      ClassifyTracked(c, c.keys[j], severity);
    }
    SilentPass(StatesInOrder(c), vs, |vs|);
    SameNothingResolved(c, |c.keys|);
  }

  /** An alert compared with its own snapshot state is silent. */
  lemma ClassifyTracked(c: Snapshot, k: string, severity: Severity)
    requires k in c.states
    ensures Classify(c, k, c.states[k], severity) == Silent
  {
  }

  /** Where every verdict is silent the first loop sends nothing. */
  lemma {:induction false} SilentPass(sts: seq<AlertState>, vs: seq<Verdict>, n: nat)
    requires |vs| == |sts| && n <= |vs|
    requires forall j :: 0 <= j < n ==> vs[j] == Silent
    ensures FirstPass(sts, vs, n) == Ok([])
  {
    if n > 0 {
      SilentPass(sts, vs, n - 1);
    }
  }

  lemma {:induction false} SameNothingResolved(c: Snapshot, n: nat)
    requires SnapshotOk(c) && n <= |c.keys|
    ensures Resolved(c, c, n) == []
  {
    if n > 0 {
      SameNothingResolved(c, n - 1);
    }
  }

  /**
   * When the first loop does not raise, it sends one notification per
   * state whose verdict is to notify, with that verdict's status, and no other.
   */
  lemma FirstPassCalls(sts: seq<AlertState>, vs: seq<Verdict>)
    requires |vs| == |sts|
    requires FirstPass(sts, vs, |vs|).Ok?
    ensures forall j :: 0 <= j < |vs| && vs[j].Notify? ==>
      AlertCall(sts[j], vs[j].status) in FirstPass(sts, vs, |vs|).value
    ensures forall c :: c in FirstPass(sts, vs, |vs|).value ==>
      exists j :: 0 <= j < |vs| && vs[j].Notify? && c == AlertCall(sts[j], vs[j].status)
  {
    forall j | 0 <= j < |vs| && vs[j].Notify?
      ensures AlertCall(sts[j], vs[j].status) in FirstPass(sts, vs, |vs|).value
    {
      FirstPassComplete(sts, vs, |vs|, j);
    }
    forall c | c in FirstPass(sts, vs, |vs|).value
      ensures exists j :: 0 <= j < |vs| && vs[j].Notify? && c == AlertCall(sts[j], vs[j].status)
    {
      var j := FirstPassSound(sts, vs, |vs|, c);
    }
  }

  lemma {:induction false} FirstPassComplete(sts: seq<AlertState>, vs: seq<Verdict>, n: nat, j: nat)
    requires |vs| == |sts| && j < n <= |vs|
    requires FirstPass(sts, vs, n).Ok? && vs[j].Notify?
    ensures AlertCall(sts[j], vs[j].status) in FirstPass(sts, vs, n).value
  {
    if j < n - 1 {
      FirstPassComplete(sts, vs, n - 1, j);
    }
  }

  lemma {:induction false} FirstPassSound(sts: seq<AlertState>, vs: seq<Verdict>, n: nat, c: Call) returns (j: nat)
    requires |vs| == |sts| && n <= |vs|
    requires FirstPass(sts, vs, n).Ok? && c in FirstPass(sts, vs, n).value
    ensures j < n && vs[j].Notify? && c == AlertCall(sts[j], vs[j].status)
  {
    var prior := FirstPass(sts, vs, n - 1);
    if c in prior.value {
      j := FirstPassSound(sts, vs, n - 1, c);
    } else {
      j := n - 1;
    }
  }

  /** A tracked alert that is gone is reported resolved, whatever its level; nothing else is. */
  lemma {:induction false} ResolvedCallsExact(previous: Snapshot, current: Snapshot, n: nat)
    requires SnapshotOk(previous) && n <= |previous.keys|
    ensures forall j :: 0 <= j < n && previous.keys[j] !in current.states ==>
      ResolvedCall(previous.states[previous.keys[j]]) in Resolved(previous, current, n)
    ensures forall c :: c in Resolved(previous, current, n) ==>
      exists j :: 0 <= j < n && previous.keys[j] !in current.states && c == ResolvedCall(previous.states[previous.keys[j]])
  {
    if n > 0 {
      ResolvedCallsExact(previous, current, n - 1);
    }
  }

  /** The snapshot of a single alert. */
  lemma SingleState(w: Warning)
    ensures CurrentStates([w]) == Snapshot([NotificationKey(w)], map[NotificationKey(w) := StateOf(w)])
  {
    assert [w][..0] == [];
  }

  /** The first loop over one state. */
  lemma FirstPassOne(sts: seq<AlertState>, vs: seq<Verdict>)
    requires |vs| == |sts| == 1
    ensures FirstPass(sts, vs, 1)
         == match vs[0]
            case Silent => Ok([])
            case Raises => Err([])
            case Notify(status) => Ok([AlertCall(sts[0], status)])
  {
    assert FirstPass(sts, vs, 0) == Ok([]);
    match vs[0]
    case Silent =>
    case Raises =>
    case Notify(status) =>
      assert [] + [AlertCall(sts[0], status)] == [AlertCall(sts[0], status)];
  }

  /** From an empty snapshot, one notifying alert gives exactly one "New" notification. */
  lemma FirstSightNew(w: Warning, severity: Severity)
    requires ShouldNotify(severity, ActivityLevelOf(w))
    ensures Poll(EmptySnapshot, [w], severity) == Outcome([AlertCall(StateOf(w), New)], CurrentStates([w]))
  {
    SingleState(w);
    var c := CurrentStates([w]);
    var sts, vs := StatesInOrder(c), Verdicts(EmptySnapshot, c, severity);
    FirstPassOne(sts, vs);
    assert sts[0] == StateOf(w) && vs[0] == Notify(New);
  }

  /** The same alert again with a higher level gives exactly one "Upgraded" notification. */
  lemma EscalationUpgraded(w: Warning, w': Warning, severity: Severity)
    requires NotificationKey(w') == NotificationKey(w)
    requires ShouldNotify(severity, ActivityLevelOf(w'))
    requires ParseInt(ActivityLevelOf(w)).Some?
    requires ParseInt(ActivityLevelOf(w')).value > ParseInt(ActivityLevelOf(w)).value
    ensures Poll(CurrentStates([w]), [w'], severity) == Outcome([AlertCall(StateOf(w'), Upgraded)], CurrentStates([w']))
  {
    SingleState(w);
    SingleState(w');
    var p, c := CurrentStates([w]), CurrentStates([w']);
    var sts, vs := StatesInOrder(c), Verdicts(p, c, severity);
    FirstPassOne(sts, vs);
    assert sts[0] == StateOf(w') && vs[0] == Notify(Upgraded);
    SameKeysNothingResolved(p, c);
  }

  /** The same alert again at an equal or lower level sends nothing. */
  lemma NoEscalationSilent(w: Warning, w': Warning, severity: Severity)
    requires NotificationKey(w') == NotificationKey(w)
    requires ParseInt(ActivityLevelOf(w)).Some?
    requires ParseInt(ActivityLevelOf(w')).Some? ==>
      ParseInt(ActivityLevelOf(w')).value <= ParseInt(ActivityLevelOf(w)).value
    ensures Poll(CurrentStates([w]), [w'], severity) == Outcome([], CurrentStates([w']))
  {
    SingleState(w);
    SingleState(w');
    var p, c := CurrentStates([w]), CurrentStates([w']);
    var sts, vs := StatesInOrder(c), Verdicts(p, c, severity);
    FirstPassOne(sts, vs);
    assert vs[0] == Silent;
    SameKeysNothingResolved(p, c);
  }

  /** Nothing is resolved when the one tracked key is still there. */
  lemma SameKeysNothingResolved(p: Snapshot, c: Snapshot)
    requires SnapshotOk(p) && |p.keys| == 1 && p.keys[0] in c.states
    ensures Resolved(p, c, |p.keys|) == []
  {
    assert Resolved(p, c, 0) == [];
  }

  /** The alert disappearing gives exactly one "Resolved" notification and an empty snapshot. */
  lemma DisappearanceResolved(w: Warning, severity: Severity)
    ensures Poll(CurrentStates([w]), [], severity) == Outcome([ResolvedCall(StateOf(w))], EmptySnapshot)
  {
    SingleState(w);
    var p := CurrentStates([w]);
    assert Resolved(p, EmptySnapshot, 0) == [];
    assert FirstPass([], [], 0) == Ok([]);
  }

  /** A tracked level that is not an integer ends the call at that alert: the snapshot is kept, so it raises again next time. */
  lemma UnreadableLevelSticks(w: Warning, w': Warning, severity: Severity)
    requires NotificationKey(w') == NotificationKey(w)
    requires ParseInt(ActivityLevelOf(w)).None?
    requires ShouldNotify(severity, ActivityLevelOf(w'))
    ensures Poll(CurrentStates([w]), [w'], severity) == Outcome([], CurrentStates([w]))
  {
    SingleState(w);
    SingleState(w');
    var p, c := CurrentStates([w]), CurrentStates([w']);
    var sts, vs := StatesInOrder(c), Verdicts(p, c, severity);
    FirstPassOne(sts, vs);
    assert vs[0] == Raises;
  }
}
