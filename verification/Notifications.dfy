/** Operator notifications (app/agent/notifications.py): deduplication that survives restarts, debouncing
    and an hourly limit kept in a pruned queue. */
module Notifications {
  import opened Options
  import opened Sequences

  // ------------------------------------------------------------------ keys

  const EVENT_TYPES: seq<string> := [
    "trade_completed", "trade_failed", "order_rejected", "execution_degraded", "exchange_offline", "market_data_stale",
    "recovery_required", "risk_event", "unusual_slippage", "new_recommendation", "system_error", "daily_summary"]

  function Window(kind: string): (seconds: real) {
    if kind == "market_data_stale" then 900.0
    else if kind == "exchange_offline" then 600.0
    else if kind == "execution_degraded" then 1800.0
    else if kind == "system_error" then 300.0
    else 60.0
  }

  /** How an occurrence is told apart: by UTC day, by a given suffix, or by an id in its provenance. */
  datatype Keying = Daily(day: string) | Suffix(text: string) | Subject(text: string)

  datatype Event = Event(kind: string, keying: Keying, group: Option<string>)

  function Tail(k: Keying): (s: string) {
    match k
    case Daily(day) => "daily:" + day
    case Suffix(text) => text
    case Subject(text) => text
  }

  function DedupKey(e: Event): (s: string) { e.kind + ":" + Tail(e.keying) }

  function DayKey(day: string): (s: string) { "agent_notif_daily:" + day }

  /** The one key that is looked up before sending. */
  function CheckKey(e: Event): (s: string) { if e.keying.Daily? then DayKey(e.keying.day) else DedupKey(e) }

  function Group(e: Event): (s: string) {
    e.kind + ":" + if e.group.Some? && e.group.value != "" then e.group.value else DedupKey(e)
  }

  predicate NoColon(s: string) { forall i :: 0 <= i < |s| ==> s[i] != ':' }

  lemma {:induction false} ColonSplits(k: string, a: string, l: string, b: string)
    requires NoColon(k) && NoColon(l) && k + ":" + a == l + ":" + b
    ensures k == l && a == b
  {
    var s := k + ":" + a;
    assert s[|k|] == ':' && s[|l|] == ':';
    assert forall i :: 0 <= i < |k| ==> s[i] == k[i];
    assert forall i :: 0 <= i < |l| ==> s[i] == l[i];
    assert |k| == |l|;
    assert k == s[..|k|] && l == s[..|l|] && a == s[|k| + 1..] && b == s[|l| + 1..];
  }

  lemma TypesHaveNoColon(kind: string)
    requires kind in EVENT_TYPES
    ensures NoColon(kind) && kind != "agent_notif_daily"
  {
    if kind in EVENT_TYPES[..4] { FirstTypes(kind); }
    else if kind in EVENT_TYPES[4..8] { MiddleTypes(kind); }
    else { LastTypes(kind); }
  }

  lemma FirstTypes(kind: string)
    requires kind in ["trade_completed", "trade_failed", "order_rejected", "execution_degraded"]
    ensures NoColon(kind) && kind != "agent_notif_daily"
  {}

  lemma MiddleTypes(kind: string)
    requires kind in ["exchange_offline", "market_data_stale", "recovery_required", "risk_event"]
    ensures NoColon(kind) && kind != "agent_notif_daily"
  {}

  lemma LastTypes(kind: string)
    requires kind in ["unusual_slippage", "new_recommendation", "system_error", "daily_summary"]
    ensures NoColon(kind) && kind != "agent_notif_daily"
  {}

  // ------------------------------------------------------------------ the service

  /** The durable sent keys, the debounce marks and the times of recent sends. */
  datatype Memory = Memory(times: seq<real>, debounced: map<string, real>, sent: set<string>)

  /** The clock readings of one call, in the order the code takes them. */
  datatype Clock = Clock(debounceCheck: real, rateCheck: real, mark: real, append: real)

  /** One call of `notify`: `allowed` by the settings, `reachable` through a configured client with
      recipients, `delivered` to so many of them. */
  datatype Attempt = Attempt(event: Event, allowed: bool, reachable: bool, delivered: nat, clock: Clock)

  /** The queue without the heads older than an hour. */
  function Pruned(times: seq<real>, now: real): (r: seq<real>) {
    if times != [] && now - times[0] > 3600.0 then Pruned(times[1..], now) else times
  }

  predicate Debounced(m: Memory, e: Event, now: real) {
    Group(e) in m.debounced && now - m.debounced[Group(e)] < Window(e.kind)
  }

  predicate Considered(m: Memory, a: Attempt) {
    && a.event.kind in EVENT_TYPES && a.allowed && CheckKey(a.event) !in m.sent
    && !Debounced(m, a.event, a.clock.debounceCheck)
  }

  predicate Sends(m: Memory, a: Attempt, limit: int) {
    Considered(m, a) && |Pruned(m.times, a.clock.rateCheck)| < limit && a.reachable && a.delivered > 0
  }

  function Keys(e: Event): (keys: set<string>) { {DedupKey(e), CheckKey(e)} }

  function After(m: Memory, a: Attempt, limit: int): (r: Memory) {
    if !Considered(m, a) then m else
    var pruned := Pruned(m.times, a.clock.rateCheck);
    if Sends(m, a, limit) then Memory(pruned + [a.clock.append], m.debounced[Group(a.event) := a.clock.mark], m.sent + Keys(a.event))
    else m.(times := pruned)
  }

  class NotificationService {
    var times: seq<real>
    var debounced: map<string, real>
    var sent: set<string>

    ghost function View(): (m: Memory)
      reads this
    {
      Memory(times, debounced, sent)
    }

    /** A new process over the durable keys. */
    constructor (sent: set<string>)
      ensures View() == Memory([], map[], sent)
    {
      this.times, this.debounced, this.sent := [], map[], sent;
    }

    method RateOk(now: real, limit: int) returns (ok: bool)
      modifies this`times
      ensures times == Pruned(old(times), now)
      ensures ok <==> |Pruned(old(times), now)| < limit
    {
      while times != [] && now - times[0] > 3600.0
        invariant Pruned(times, now) == Pruned(old(times), now)
        decreases |times|
      {
        times := times[1..];
      }
      return |times| < limit;
    }

    /** `notify`: filter, deduplicate, debounce, limit, send, then mark. */
    method Notify(a: Attempt, limit: int) returns (count: nat)
      modifies this
      ensures View() == After(old(View()), a, limit)
      ensures count == if Sends(old(View()), a, limit) then a.delivered else 0
    {
      var e := a.event;
      if e.kind !in EVENT_TYPES || !a.allowed { return 0; }
      var key := DedupKey(e);
      if e.keying.Daily? {
        if DayKey(e.keying.day) in sent { return 0; }
      } else if key in sent { return 0; }
      var group := Group(e);
      if group in debounced && a.clock.debounceCheck - debounced[group] < Window(e.kind) { return 0; }
      var ok := RateOk(a.clock.rateCheck, limit);
      if !ok || !a.reachable || a.delivered == 0 { return 0; }
      sent := sent + {key};
      if e.keying.Daily? { sent := sent + {DayKey(e.keying.day)}; }
      debounced := debounced[group := a.clock.mark];
      times := times + [a.clock.append];
      assert sent == old(sent) + Keys(e);
      return a.delivered;
    }
  }

  // ------------------------------------------------------------------ one process

  function Process(m: Memory, acts: seq<Attempt>, limit: int): (r: Memory) {
    if acts == [] then m else After(Process(m, Before(acts), limit), Last(acts), limit)
  }

  /** The attempts of the run that sent something. */
  function SendLog(m: Memory, acts: seq<Attempt>, limit: int): (log: seq<Attempt>) {
    if acts == [] then [] else
    SendLog(m, Before(acts), limit) + if Sends(Process(m, Before(acts), limit), Last(acts), limit) then [Last(acts)] else []
  }

  function Now(start: real, acts: seq<Attempt>): (t: real) { if acts == [] then start else Last(acts).clock.append }

  /** A monotonic clock: no reading is earlier than the one before it. */
  predicate Monotonic(start: real, acts: seq<Attempt>) {
    acts != [] ==>
      && Monotonic(start, Before(acts))
      && Now(start, Before(acts)) <= Last(acts).clock.debounceCheck <= Last(acts).clock.rateCheck
      && Last(acts).clock.rateCheck <= Last(acts).clock.mark <= Last(acts).clock.append
  }

  function Times(log: seq<Attempt>): (r: seq<real>) { seq(|log|, i requires 0 <= i < |log| => log[i].clock.append) }

  /** The queue is the log from `from` on; what it dropped is more than an hour old. */
  ghost predicate QueueOk(log: seq<Attempt>, times: seq<real>, now: real, from: nat) {
    && from <= |log| && times == Times(log)[from..]
    && (forall i :: 0 <= i < from ==> now - log[i].clock.append > 3600.0)
    && (forall i :: 0 <= i < |log| ==> log[i].clock.append <= now)
  }

  lemma {:induction false} PrunedKeeps(log: seq<Attempt>, times: seq<real>, now: real, from: nat) returns (to: nat)
    requires QueueOk(log, times, now, from)
    ensures from <= to && QueueOk(log, Pruned(times, now), now, to)
    decreases |times|
  {
    to := from;
    if times != [] && now - times[0] > 3600.0 {
      assert times[0] == log[from].clock.append;
      assert times[1..] == Times(log)[from + 1..];
      to := PrunedKeeps(log, times[1..], now, from + 1);
    }
  }

  ghost predicate Spread(log: seq<Attempt>, limit: int) {
    limit >= 0 ==> forall i :: 0 <= i && i + limit < |log| ==> log[i + limit].clock.append - log[i].clock.append > 3600.0
  }

  lemma SpreadMore(log: seq<Attempt>, a: Attempt, limit: int, times: seq<real>, from: nat)
    requires Spread(log, limit) && QueueOk(log, times, a.clock.rateCheck, from) && |times| < limit
    requires a.clock.rateCheck <= a.clock.append
    ensures Spread(log + [a], limit) && QueueOk(log + [a], times + [a.clock.append], a.clock.append, from)
  {
    var more := log + [a];
    assert Times(more) == Times(log) + [a.clock.append];
    assert |times| == |log| - from;
    forall i | 0 <= i && i + limit < |more| ensures more[i + limit].clock.append - more[i].clock.append > 3600.0 {
      if i + limit == |log| { assert i < from; }
    }
  }

  lemma {:induction false} WindowRun(m: Memory, start: real, acts: seq<Attempt>, limit: int) returns (from: nat)
    requires m.times == [] && Monotonic(start, acts)
    ensures var log := SendLog(m, acts, limit);
            Spread(log, limit) && QueueOk(log, Process(m, acts, limit).times, Now(start, acts), from) && (limit <= 0 ==> log == [])
  {
    if acts == [] {
      from := 0;
    } else {
      var a, log, was := Last(acts), SendLog(m, Before(acts), limit), Process(m, Before(acts), limit);
      from := WindowRun(m, start, Before(acts), limit);
      if Sends(was, a, limit) { from := SentWindow(log, was, a, limit, Now(start, Before(acts)), from); }
      else { from := UnsentWindow(log, was, a, limit, Now(start, Before(acts)), from); }
    }
  }

  lemma SentWindow(log: seq<Attempt>, was: Memory, a: Attempt, limit: int, now: real, from: nat) returns (to: nat)
    requires Spread(log, limit) && QueueOk(log, was.times, now, from) && Sends(was, a, limit)
    requires now <= a.clock.rateCheck <= a.clock.append
    ensures limit > 0 && Spread(log + [a], limit) && QueueOk(log + [a], After(was, a, limit).times, a.clock.append, to)
  {
    assert QueueOk(log, was.times, a.clock.rateCheck, from);
    to := PrunedKeeps(log, was.times, a.clock.rateCheck, from);
    SpreadMore(log, a, limit, Pruned(was.times, a.clock.rateCheck), to);
  }

  lemma UnsentWindow(log: seq<Attempt>, was: Memory, a: Attempt, limit: int, now: real, from: nat) returns (to: nat)
    requires QueueOk(log, was.times, now, from) && !Sends(was, a, limit) && now <= a.clock.rateCheck <= a.clock.append
    ensures QueueOk(log, After(was, a, limit).times, a.clock.append, to)
  {
    to := from;
    if Considered(was, a) {
      assert QueueOk(log, was.times, a.clock.rateCheck, from);
      to := PrunedKeeps(log, was.times, a.clock.rateCheck, from);
    }
  }

  /** Over every run of one process with a monotonic clock, any limit+1 consecutive sent events span
      more than an hour, although only the pruned queue is kept. */
  lemma SlidingWindow(m: Memory, start: real, acts: seq<Attempt>, limit: int, i: nat)
    requires m.times == [] && Monotonic(start, acts) && limit >= 0
    requires i + limit < |SendLog(m, acts, limit)|
    ensures var log := SendLog(m, acts, limit); log[i + limit].clock.append - log[i].clock.append > 3600.0
  {
    var from := WindowRun(m, start, acts, limit);
  }

  /** Every logged send left its group marked, at its own time or later. */
  ghost predicate MarksOk(log: seq<Attempt>, m: Memory, now: real) {
    forall i :: 0 <= i < |log| ==>
      && log[i].event.kind in EVENT_TYPES && log[i].clock.mark <= now
      && Group(log[i].event) in m.debounced && log[i].clock.mark <= m.debounced[Group(log[i].event)]
  }

  ghost predicate Apart(log: seq<Attempt>) {
    forall i, j :: 0 <= i < j < |log| && Group(log[i].event) == Group(log[j].event) ==>
      log[j].event.kind == log[i].event.kind && log[j].clock.mark - log[i].clock.mark >= Window(log[i].event.kind)
  }

  lemma GroupTellsKind(e: Event, f: Event)
    requires e.kind in EVENT_TYPES && f.kind in EVENT_TYPES && Group(e) == Group(f)
    ensures e.kind == f.kind
  {
    TypesHaveNoColon(e.kind);
    TypesHaveNoColon(f.kind);
    ColonSplits(e.kind, if e.group.Some? && e.group.value != "" then e.group.value else DedupKey(e),
                f.kind, if f.group.Some? && f.group.value != "" then f.group.value else DedupKey(f));
  }

  lemma ApartMore(log: seq<Attempt>, m: Memory, a: Attempt, now: real)
    requires Apart(log) && MarksOk(log, m, now) && Considered(m, a)
    requires now <= a.clock.debounceCheck <= a.clock.mark
    ensures Apart(log + [a])
    ensures MarksOk(log + [a], m.(debounced := m.debounced[Group(a.event) := a.clock.mark]), a.clock.mark)
  {
    var more := log + [a];
    forall i, j | 0 <= i < j < |more| && Group(more[i].event) == Group(more[j].event)
      ensures more[j].event.kind == more[i].event.kind && more[j].clock.mark - more[i].clock.mark >= Window(more[i].event.kind)
    {
      GroupTellsKind(more[i].event, more[j].event);
    }
  }

  lemma {:induction false} ApartRun(m: Memory, start: real, acts: seq<Attempt>, limit: int)
    requires Monotonic(start, acts)
    ensures Apart(SendLog(m, acts, limit)) && MarksOk(SendLog(m, acts, limit), Process(m, acts, limit), Now(start, acts))
  {
    if acts != [] {
      ApartRun(m, start, Before(acts), limit);
      var a, log, was := Last(acts), SendLog(m, Before(acts), limit), Process(m, Before(acts), limit);
      if Sends(was, a, limit) { ApartMore(log, was, a, Now(start, Before(acts))); }
    }
  }

  /** Within one process, two sends of one debounce group are of one event type and at least that
      type's window apart. */
  lemma DebounceHolds(m: Memory, start: real, acts: seq<Attempt>, limit: int, i: nat, j: nat)
    requires Monotonic(start, acts) && i < j < |SendLog(m, acts, limit)|
    requires var log := SendLog(m, acts, limit); Group(log[i].event) == Group(log[j].event)
    ensures var log := SendLog(m, acts, limit);
            log[j].event.kind == log[i].event.kind && log[j].clock.mark - log[i].clock.mark >= Window(log[i].event.kind)
    ensures var log := SendLog(m, acts, limit);
            var kind, gap := log[i].event.kind, log[j].clock.mark - log[i].clock.mark;
            && gap >= 60.0 && (kind == "market_data_stale" ==> gap >= 900.0) && (kind == "exchange_offline" ==> gap >= 600.0)
            && (kind == "execution_degraded" ==> gap >= 1800.0) && (kind == "system_error" ==> gap >= 300.0)
  {
    ApartRun(m, start, acts, limit);
  }

  // ------------------------------------------------------------------ exactly when an event goes out

  ghost predicate Sorted(log: seq<Attempt>, now: real) {
    && (forall i, j :: 0 <= i < j < |log| ==> log[i].clock.append <= log[j].clock.append)
    && (forall i :: 0 <= i < |log| ==> log[i].clock.append <= now)
  }

  lemma {:induction false} SortedRun(m: Memory, start: real, acts: seq<Attempt>, limit: int)
    requires Monotonic(start, acts)
    ensures Sorted(SendLog(m, acts, limit), Now(start, acts))
  {
    if acts != [] { SortedRun(m, start, Before(acts), limit); }
  }

  lemma {:induction false} PrunedHead(times: seq<real>, now: real)
    ensures Pruned(times, now) != [] ==> now - Pruned(times, now)[0] <= 3600.0
  {
    if times != [] && now - times[0] > 3600.0 { PrunedHead(times[1..], now); }
  }

  /** The limit refuses an event exactly when that many events were sent within the last hour. */
  lemma RateLimitExact(m: Memory, start: real, acts: seq<Attempt>, limit: int, now: real)
    requires m.times == [] && Monotonic(start, acts) && Now(start, acts) <= now && limit >= 1
    ensures var log := SendLog(m, acts, limit);
            |Pruned(Process(m, acts, limit).times, now)| < limit <==> |log| < limit || now - log[|log| - limit].clock.append > 3600.0
  {
    var log, times := SendLog(m, acts, limit), Process(m, acts, limit).times;
    var from := WindowRun(m, start, acts, limit);
    SortedRun(m, start, acts, limit);
    assert QueueOk(log, times, now, from);
    var to := PrunedKeeps(log, times, now, from);
    PrunedHead(times, now);
    assert Pruned(times, now) == Times(log)[to..];
    if to < |log| { assert Pruned(times, now)[0] == log[to].clock.append; }
  }

  /** Every debounce mark is that of a logged send of its group. */
  ghost predicate MarksFrom(log: seq<Attempt>, m: Memory) {
    forall g :: g in m.debounced ==> exists i :: 0 <= i < |log| && Group(log[i].event) == g && log[i].clock.mark == m.debounced[g]
  }

  lemma MarksFromMore(log: seq<Attempt>, m: Memory, a: Attempt)
    requires MarksFrom(log, m)
    ensures MarksFrom(log + [a], m.(debounced := m.debounced[Group(a.event) := a.clock.mark]))
  {
    var more, n := log + [a], m.(debounced := m.debounced[Group(a.event) := a.clock.mark]);
    forall g | g in n.debounced ensures exists i :: 0 <= i < |more| && Group(more[i].event) == g && more[i].clock.mark == n.debounced[g] {
      if g == Group(a.event) {
        assert more[|log|] == a;
      } else {
        var i :| 0 <= i < |log| && Group(log[i].event) == g && log[i].clock.mark == m.debounced[g];
        assert more[i] == log[i];
      }
    }
  }

  lemma SameMarks(log: seq<Attempt>, m: Memory, n: Memory)
    requires MarksFrom(log, m) && n.debounced == m.debounced
    ensures MarksFrom(log, n)
  {}

  lemma {:induction false} MarksFromRun(m: Memory, acts: seq<Attempt>, limit: int)
    requires m.debounced == map[]
    ensures MarksFrom(SendLog(m, acts, limit), Process(m, acts, limit))
  {
    if acts != [] {
      MarksFromRun(m, Before(acts), limit);
      var was, now, log := Process(m, Before(acts), limit), Process(m, acts, limit), SendLog(m, Before(acts), limit);
      if Sends(was, Last(acts), limit) {
        MarksFromMore(log, was, Last(acts));
        SameMarks(log + [Last(acts)], was.(debounced := was.debounced[Group(Last(acts).event) := Last(acts).clock.mark]), now);
      } else {
        assert log + [] == log;
        SameMarks(log, was, now);
      }
    }
  }

  /** An event of that group went out less than the window ago. */
  ghost predicate Recent(log: seq<Attempt>, e: Event, now: real) {
    exists i :: 0 <= i < |log| && Group(log[i].event) == Group(e) && now - log[i].clock.mark < Window(e.kind)
  }

  lemma DebounceExact(m: Memory, start: real, acts: seq<Attempt>, limit: int, e: Event, now: real)
    requires m.debounced == map[] && Monotonic(start, acts)
    ensures Debounced(Process(m, acts, limit), e, now) <==> Recent(SendLog(m, acts, limit), e, now)
  {
    ApartRun(m, start, acts, limit);
    MarksFromRun(m, acts, limit);
  }

  /** In a process that started with nothing in memory, an attempt sends exactly when its event type is
      known and allowed, its key is not marked, no event of its group went out within the window, fewer
      than the limit went out within the hour, and somebody receives it. */
  lemma SendsIff(m: Memory, start: real, acts: seq<Attempt>, limit: int, a: Attempt)
    requires m.times == [] && m.debounced == map[] && Monotonic(start, acts + [a]) && limit >= 1
    ensures var log, was := SendLog(m, acts, limit), Process(m, acts, limit);
            Sends(was, a, limit) <==>
            && a.event.kind in EVENT_TYPES && a.allowed && a.reachable && a.delivered > 0 && CheckKey(a.event) !in was.sent
            && !Recent(log, a.event, a.clock.debounceCheck)
            && (|log| < limit || a.clock.rateCheck - log[|log| - limit].clock.append > 3600.0)
  {
    assert Before(acts + [a]) == acts && Last(acts + [a]) == a;
    RateLimitExact(m, start, acts, limit, a.clock.rateCheck);
    DebounceExact(m, start, acts, limit, a.event, a.clock.debounceCheck);
  }

  /** Sending marks the two keys of the event, its group and its time; anything else, such as an event no
      recipient received or the settings forbid, leaves keys and marks alone and adds no time. */
  lemma OnlySendsMark(m: Memory, a: Attempt, limit: int)
    ensures Sends(m, a, limit) ==>
              var n := After(m, a, limit);
              && n.sent == m.sent + {DedupKey(a.event), CheckKey(a.event)} && n.debounced == m.debounced[Group(a.event) := a.clock.mark]
              && n.times != [] && n.times[|n.times| - 1] == a.clock.append
    ensures !Sends(m, a, limit) ==>
              var n := After(m, a, limit); n.sent == m.sent && n.debounced == m.debounced && (n.times == m.times || n.times == Pruned(m.times, a.clock.rateCheck))
    ensures !a.allowed || !a.reachable || a.delivered == 0 ==> !Sends(m, a, limit)
  {}

  lemma {:induction false} PrunedLater(times: seq<real>, now: real, later: real)
    requires now <= later
    ensures |Pruned(times, later)| <= |Pruned(times, now)| && |Pruned(Pruned(times, now), later)| <= |Pruned(times, now)|
  {
    PrunedShrinks(Pruned(times, now), later);
    if times != [] && now - times[0] > 3600.0 { PrunedLater(times[1..], now, later); } else { PrunedShrinks(times, later); }
  }

  lemma {:induction false} PrunedShrinks(times: seq<real>, now: real)
    ensures |Pruned(times, now)| <= |times|
  {
    if times != [] && now - times[0] > 3600.0 { PrunedShrinks(times[1..], now); }
  }

  /** An event that would have gone out had somebody received it can still be sent later. */
  lemma CanBeSentLater(m: Memory, a: Attempt, limit: int, n: nat, later: Attempt)
    requires n > 0 && Sends(m, Attempt(a.event, true, true, n, a.clock), limit) && !Sends(m, a, limit)
    requires later.event == a.event && later.allowed && later.reachable && later.delivered > 0
    requires a.clock.debounceCheck <= later.clock.debounceCheck && a.clock.rateCheck <= later.clock.rateCheck
    ensures Sends(After(m, a, limit), later, limit)
  {
    PrunedLater(m.times, a.clock.rateCheck, later.clock.rateCheck);
  }

  /** What a group is: one name given for one event type, or one key. */
  lemma GroupsApart(e: Event, f: Event)
    requires e.kind in EVENT_TYPES && f.kind in EVENT_TYPES
    ensures e.kind == f.kind && e.group == f.group && e.group.Some? && e.group.value != "" ==> Group(e) == Group(f)
    ensures e.group.None? && f.group.None? ==> (Group(e) == Group(f) <==> DedupKey(e) == DedupKey(f))
    ensures e.group.Some? && f.group.Some? && e.group.value != "" && f.group.value != "" && e.group != f.group ==> Group(e) != Group(f)
  {
    if Group(e) == Group(f) {
      GroupTellsKind(e, f);
      assert Group(e)[|e.kind| + 1..] == Group(f)[|f.kind| + 1..];
      GroupTail(e);
      GroupTail(f);
    }
    if e.group.None? && f.group.None? && DedupKey(e) == DedupKey(f) { SameTail(e, f); }
  }

  lemma GroupTail(e: Event)
    ensures Group(e)[|e.kind| + 1..] == if e.group.Some? && e.group.value != "" then e.group.value else DedupKey(e)
  {}

  // ------------------------------------------------------------------ across restarts

  /** `Die` is a process that dies after delivering and before all its marks are written: `marked` says
      whether the first mark, the dedup key, was. */
  datatype Act = Call(a: Attempt) | Restart | Die(a: Attempt, marked: bool)

  function Step(m: Memory, act: Act, limit: int): (r: Memory) {
    match act
    case Call(a) => After(m, a, limit)
    case Restart => Memory([], map[], m.sent)
    case Die(a, marked) => Memory([], map[], if Sends(m, a, limit) && marked then m.sent + {DedupKey(a.event)} else m.sent)
  }

  function Run(m: Memory, acts: seq<Act>, limit: int): (r: Memory) {
    if acts == [] then m else Step(Run(m, Before(acts), limit), Last(acts), limit)
  }

  /** How often the run sends an event with the key of `e`, and how often it dies in doing so. */
  function Sent(m: Memory, acts: seq<Act>, limit: int, e: Event): (n: nat) {
    if acts == [] then 0 else
    var act := Last(acts);
    Sent(m, Before(acts), limit, e)
    + if !act.Restart? && DedupKey(act.a.event) == DedupKey(e) && Sends(Run(m, Before(acts), limit), act.a, limit) then 1 else 0
  }

  function Lost(m: Memory, acts: seq<Act>, limit: int, e: Event): (n: nat) {
    if acts == [] then 0 else
    var act := Last(acts);
    Lost(m, Before(acts), limit, e)
    + if act.Die? && DedupKey(act.a.event) == DedupKey(e) && Sends(Run(m, Before(acts), limit), act.a, limit) then 1 else 0
  }

  /** The run spells the key of `e` in one way: as a daily key, or as a suffix or id. */
  predicate OneSpelling(acts: seq<Act>, e: Event) {
    forall k :: 0 <= k < |acts| && !acts[k].Restart? && DedupKey(acts[k].a.event) == DedupKey(e) ==>
      acts[k].a.event.keying.Daily? == e.keying.Daily?
  }

  lemma SameTail(e: Event, f: Event)
    requires e.kind in EVENT_TYPES && f.kind in EVENT_TYPES && DedupKey(e) == DedupKey(f)
    ensures e.kind == f.kind && Tail(e.keying) == Tail(f.keying)
  {
    TypesHaveNoColon(e.kind);
    TypesHaveNoColon(f.kind);
    ColonSplits(e.kind, Tail(e.keying), f.kind, Tail(f.keying));
  }

  /** Events with one dedup key, spelled alike, are looked up under one key. */
  lemma OneCheckKey(e: Event, f: Event)
    requires e.kind in EVENT_TYPES && f.kind in EVENT_TYPES && DedupKey(e) == DedupKey(f) && e.keying.Daily? == f.keying.Daily?
    ensures CheckKey(e) == CheckKey(f)
  {
    SameTail(e, f);
    if e.keying.Daily? {
      DailyTail(e.keying.day);
      DailyTail(f.keying.day);
    }
  }

  lemma DailyTail(day: string)
    ensures var t := "daily:" + day; t[..6] == "daily:" && t[6..] == day
  {}

  lemma {:induction false} SentRun(m: Memory, acts: seq<Act>, limit: int, e: Event)
    requires e.kind in EVENT_TYPES && OneSpelling(acts, e)
    ensures Sent(m, acts, limit, e) <= Lost(m, acts, limit, e) + if CheckKey(e) in Run(m, acts, limit).sent then 1 else 0
  {
    if acts != [] {
      var act, was := Last(acts), Run(m, Before(acts), limit);
      SentRun(m, Before(acts), limit, e);
      if !act.Restart? && DedupKey(act.a.event) == DedupKey(e) && Sends(was, act.a, limit) { OneCheckKey(act.a.event, e); }
    }
  }

  /** Over every run with restarts, an occurrence is sent at most once, plus once for every process
      that died between delivering it and marking it, if the run spells its key in one way. */
  lemma AtMostOnce(m: Memory, acts: seq<Act>, limit: int, e: Event)
    requires e.kind in EVENT_TYPES && OneSpelling(acts, e)
    ensures Sent(m, acts, limit, e) <= 1 + Lost(m, acts, limit, e)
  {
    SentRun(m, acts, limit, e);
  }

  predicate NoDeaths(acts: seq<Act>) { forall k :: 0 <= k < |acts| ==> !acts[k].Die? }

  lemma {:induction false} NothingLost(m: Memory, acts: seq<Act>, limit: int, e: Event)
    requires NoDeaths(acts)
    ensures Lost(m, acts, limit, e) == 0
  {
    if acts != [] { NothingLost(m, Before(acts), limit, e); }
  }

  /** The tail reads like that of a daily key. */
  predicate LooksDaily(tail: string) { |tail| >= 6 && tail[..6] == "daily:" }

  /** Exactly which keys can be sent twice by a run in which no process dies: those whose suffix is
      spelled `daily:<day>`. */
  lemma SentTwiceIff(kind: string, tail: string)
    requires kind in EVENT_TYPES
    ensures (exists acts, limit :: NoDeaths(acts) && Sent(Memory([], map[], {}), acts, limit, Event(kind, Suffix(tail), None)) >= 2)
            <==> LooksDaily(tail)
  {
    var e, m := Event(kind, Suffix(tail), None), Memory([], map[], {});
    if LooksDaily(tail) {
      assert tail == "daily:" + tail[6..];
      var c, d := Clock(0.0, 0.0, 0.0, 0.0), Clock(1800.0, 1800.0, 1800.0, 1800.0);
      DailySpellingSendsTwice(kind, tail[6..], c, d, 2);
      var acts := [Call(Attempt(e, true, true, 1, c)), Call(Attempt(Event(kind, Daily(tail[6..]), None), true, true, 1, d))];
      assert NoDeaths(acts) && Sent(m, acts, 2, e) >= 2;
    } else {
      forall acts, limit | NoDeaths(acts) ensures Sent(m, acts, limit, e) <= 1 {
        PlainRun(m, acts, limit, e);
        NothingLost(m, acts, limit, e);
      }
    }
  }

  /** The bound for a key no daily event can have, with no condition on the run. */
  lemma {:induction false} PlainRun(m: Memory, acts: seq<Act>, limit: int, e: Event)
    requires e.kind in EVENT_TYPES && !e.keying.Daily? && !LooksDaily(Tail(e.keying))
    ensures Sent(m, acts, limit, e) <= Lost(m, acts, limit, e) + if CheckKey(e) in Run(m, acts, limit).sent then 1 else 0
  {
    if acts != [] {
      var act, was := Last(acts), Run(m, Before(acts), limit);
      PlainRun(m, Before(acts), limit, e);
      if !act.Restart? && DedupKey(act.a.event) == DedupKey(e) && Sends(was, act.a, limit) {
        SameTail(act.a.event, e);
        if act.a.event.keying.Daily? { DailyTail(act.a.event.keying.day); }
        OneCheckKey(act.a.event, e);
      }
    }
  }

  /** The spelling matters: an occurrence whose suffix reads `daily:<day>` and the daily event of that
      day share a dedup key, and the second is sent although the first was. */
  lemma DailySpellingSendsTwice(kind: string, day: string, c: Clock, d: Clock, limit: int)
    requires kind in EVENT_TYPES && limit >= 2 && d.debounceCheck - c.mark >= Window(kind)
    ensures var e := Event(kind, Suffix("daily:" + day), None);
            var f := Event(kind, Daily(day), None);
            var acts := [Call(Attempt(e, true, true, 1, c)), Call(Attempt(f, true, true, 1, d))];
            DedupKey(e) == DedupKey(f) && Sent(Memory([], map[], {}), acts, limit, e) == 2 && Lost(Memory([], map[], {}), acts, limit, e) == 0
  {
    var e, f := Event(kind, Suffix("daily:" + day), None), Event(kind, Daily(day), None);
    var m := Memory([], map[], {});
    var one := [Call(Attempt(e, true, true, 1, c))];
    var two := one + [Call(Attempt(f, true, true, 1, d))];
    assert Before(two) == one && Before(one) == [];
    assert Sends(m, one[0].a, limit);
    var n := After(m, one[0].a, limit);
    assert Run(m, [], limit) == m && Run(m, one, limit) == n;
    assert DayKey(day) !in n.sent by { DayKeyDiffers(kind, "daily:" + day, day); }
    assert Sends(n, two[1].a, limit);
    assert Sent(m, [], limit, e) == 0 && Lost(m, [], limit, e) == 0;
    assert Sent(m, one, limit, e) == 1 && Lost(m, one, limit, e) == 0;
    assert Sent(m, two, limit, e) == 2 && Lost(m, two, limit, e) == 0;
    assert two == [Call(Attempt(e, true, true, 1, c)), Call(Attempt(f, true, true, 1, d))];
  }

  lemma DayKeyDiffers(kind: string, tail: string, day: string)
    requires kind in EVENT_TYPES
    ensures kind + ":" + tail != DayKey(day)
  {
    TypesHaveNoColon(kind);
    if kind + ":" + tail == DayKey(day) {
      assert DayKey(day) == "agent_notif_daily" + ":" + day;
      ColonSplits(kind, tail, "agent_notif_daily", day);
      assert false;
    }
  }
}
