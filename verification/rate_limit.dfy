/** The in-memory abuse guards of src/lib/validations.ts: a fixed-window
    request counter per identifier (`checkRateLimit` over `rateLimitStore`)
    and a fixed-window counter per admin and action (`checkAdminMisuse` over
    `adminActionLog`). Both tables live for the life of the process and are
    updated in place. */
module RateLimit {
  import opened Common
  import opened Strings

  /** One counter: requests seen in the current window and the instant (ms)
      at which the window ends. */
  datatype Window = Window(count: int, resetTime: int)

  /** What a rate-limit check reports. */
  datatype Verdict = Verdict(allowed: bool, remaining: int, resetTime: int)

  /** The fixed-window rule for one key. An unseen key, or one whose window has
      ended (`now > resetTime`), starts a window of one request; within a
      window a full counter refuses and is left alone; otherwise the counter
      goes up by one. */
  function WindowStep(w: Option<Window>, maxRequests: int, windowMs: int, now: int): (r: (Verdict, Window))
    ensures r.0.resetTime == r.1.resetTime
    ensures !r.0.allowed ==> w.Some? && r.1 == w.value && r.0.remaining == 0
    ensures r.0.allowed ==> r.0.remaining == maxRequests - r.1.count
    ensures maxRequests >= 1 && (w.None? || w.value.count <= maxRequests) ==> r.1.count <= maxRequests
    ensures w.None? || now > w.value.resetTime ==>
              r == (Verdict(true, maxRequests - 1, now + windowMs), Window(1, now + windowMs))
    ensures w.Some? && now <= w.value.resetTime ==> (r.0.allowed <==> w.value.count < maxRequests)
    ensures r.0.allowed && w.Some? && now <= w.value.resetTime ==> r.1 == w.value.(count := w.value.count + 1)
  {
    if w.None? || now > w.value.resetTime then
      (Verdict(true, maxRequests - 1, now + windowMs), Window(1, now + windowMs))
    else if w.value.count >= maxRequests then
      (Verdict(false, 0, w.value.resetTime), w.value)
    else
      var counted := w.value.(count := w.value.count + 1);
      (Verdict(true, maxRequests - counted.count, counted.resetTime), counted)
  }

  /** A check against the whole table: only the checked key's entry changes. */
  function CheckStore(store: map<string, Window>, key: string, maxRequests: int, windowMs: int, now: int)
    : (r: (Verdict, map<string, Window>))
    ensures key in r.1 && r.1 - {key} == store - {key}
  {
    var step := WindowStep(Lookup(store, key), maxRequests, windowMs, now);
    (step.0, store[key := step.1])
  }

  /** How many of a sequence of calls for one key, arriving at `times`, are admitted. */
  function Admitted(w: Option<Window>, maxRequests: int, windowMs: int, times: seq<int>): nat
    decreases |times|
  {
    if times == [] then 0
    else
      var step := WindowStep(w, maxRequests, windowMs, times[0]);
      (if step.0.allowed then 1 else 0) + Admitted(Some(step.1), maxRequests, windowMs, times[1..])
  }

  /** Within an open window, no more calls are admitted than the room left in it. */
  lemma {:induction false} OpenWindowAdmitsAtMostRoom(w: Window, maxRequests: int, windowMs: int, times: seq<int>)
    requires forall i | 0 <= i < |times| :: times[i] <= w.resetTime
    ensures Admitted(Some(w), maxRequests, windowMs, times) <= if w.count >= maxRequests then 0 else maxRequests - w.count
    decreases |times|
  {
    if times != [] {
      var step := WindowStep(Some(w), maxRequests, windowMs, times[0]);
      assert step.1.resetTime == w.resetTime;
      OpenWindowAdmitsAtMostRoom(step.1, maxRequests, windowMs, times[1..]);
    }
  }

  /** A key's first window admits at most `maxRequests` calls (at least the
      first call is always admitted). */
  lemma FirstWindowAdmitsAtMostMax(maxRequests: int, windowMs: int, times: seq<int>)
    requires times != []
    requires forall i | 0 <= i < |times| :: times[i] <= times[0] + windowMs
    ensures Admitted(None, maxRequests, windowMs, times) <= if maxRequests >= 1 then maxRequests else 1
  {
    var step := WindowStep(None, maxRequests, windowMs, times[0]);
    OpenWindowAdmitsAtMostRoom(step.1, maxRequests, windowMs, times[1..]);
  }

  /** The rate-limit table of the process (`rateLimitStore`). */
  class RateLimiter {
    var store: map<string, Window>

    constructor ()
      ensures store == map[]
    {
      store := map[];
    }

    /** `checkRateLimit(identifier, maxRequests, windowMs)` at time `now`. */
    method Check(identifier: string, maxRequests: int, windowMs: int, now: int) returns (v: Verdict)
      modifies this
      ensures (v, store) == CheckStore(old(store), identifier, maxRequests, windowMs, now)
    {
      if identifier !in store {
        store := store[identifier := Window(1, now + windowMs)];
        v := Verdict(true, maxRequests - 1, now + windowMs);
        return;
      }
      var record := store[identifier];
      if now > record.resetTime {
        store := store[identifier := Window(1, now + windowMs)];
        v := Verdict(true, maxRequests - 1, now + windowMs);
        return;
      }
      if record.count >= maxRequests {
        assert store[identifier := record] == store;
        v := Verdict(false, 0, record.resetTime);
        return;
      }
      store := store[identifier := record.(count := record.count + 1)];
      v := Verdict(true, maxRequests - (record.count + 1), record.resetTime);
    }
  }

  /** One entry of the admin action log. */
  datatype ActionLog = ActionLog(adminToken: string, action: string, timestamp: int, window: Window)

  /** What an admin-misuse check reports. */
  datatype MisuseVerdict = MisuseVerdict(allowed: bool, remaining: int, reason: Option<string>)

  /** The log key `${adminToken}:${action}`. */
  function MisuseKey(adminToken: string, action: string): string
  {
    adminToken + ":" + action
  }

  /** For actions without a colon, the key determines the admin and the action,
      so distinct admins or actions are counted separately. */
  lemma MisuseKeySeparates(t1: string, a1: string, t2: string, a2: string)
    requires ':' !in a1 && ':' !in a2
    requires MisuseKey(t1, a1) == MisuseKey(t2, a2)
    ensures t1 == t2 && a1 == a2
  {
    var k := MisuseKey(t1, a1);
    assert k[|k| - 1 - |a1|] == ':' == k[|k| - 1 - |a2|];
    assert a1 == k[|k| - |a1|..] == a2;
    assert t1 == k[..|t1|] == t2;
  }

  /** A colon in the admin's name lets two different (admin, action) pairs
      share one counter. */
  lemma MisuseKeyCollision()
    ensures MisuseKey("a:b", "c") == MisuseKey("a", "b:c")
  {
  }

  /** `checkAdminMisuse` for one log entry: the same fixed-window rule over a
      window of `timeWindowSeconds`, with a reason attached to a refusal. A new
      entry records the admin, the action and its creation time. */
  function MisuseStep(entry: Option<ActionLog>, adminToken: string, action: string,
                      timeWindowSeconds: int, maxActions: int, now: int): (r: (MisuseVerdict, ActionLog))
    ensures !r.0.allowed <==> r.0.reason.Some?
    ensures !r.0.allowed ==> entry.Some? && r.1 == entry.value && r.0.remaining == 0
    ensures r.0.allowed ==> r.0.remaining == maxActions - r.1.window.count
    ensures entry.None? ==> r.1.adminToken == adminToken && r.1.action == action && r.1.timestamp == now
    ensures entry.Some? ==> r.1 == entry.value.(window := r.1.window)
    ensures entry.None? || now > entry.value.window.resetTime ==>
              r.0 == MisuseVerdict(true, maxActions - 1, None)
              && r.1.window == Window(1, now + timeWindowSeconds * 1000)
    ensures entry.Some? && now <= entry.value.window.resetTime ==>
              (r.0.allowed <==> entry.value.window.count < maxActions)
    ensures r.0.allowed && entry.Some? && now <= entry.value.window.resetTime ==>
              r.1.window == entry.value.window.(count := entry.value.window.count + 1)
    ensures !r.0.allowed ==> r.0.reason == Some("Too many " + action + " requests. Please try again later.")
    ensures maxActions >= 1 && (entry.None? || entry.value.window.count <= maxActions) ==>
              r.1.window.count <= maxActions
  {
    var step := WindowStep(if entry.Some? then Some(entry.value.window) else None,
                           maxActions, timeWindowSeconds * 1000, now);
    var reason := if step.0.allowed then None
                  else Some("Too many " + action + " requests. Please try again later.");
    var updated := if entry.Some? then entry.value.(window := step.1)
                   else ActionLog(adminToken, action, now, step.1);
    (MisuseVerdict(step.0.allowed, step.0.remaining, reason), updated)
  }

  /** A misuse check against the whole log: only the entry under the key
      `adminToken:action` changes. */
  function MisuseCheck(log: map<string, ActionLog>, adminToken: string, action: string,
                       timeWindowSeconds: int, maxActions: int, now: int)
    : (r: (MisuseVerdict, map<string, ActionLog>))
    ensures MisuseKey(adminToken, action) in r.1
    ensures r.1 - {MisuseKey(adminToken, action)} == log - {MisuseKey(adminToken, action)}
  {
    var key := MisuseKey(adminToken, action);
    var step := MisuseStep(Lookup(log, key), adminToken, action, timeWindowSeconds, maxActions, now);
    (step.0, log[key := step.1])
  }

  /** The admin action log of the process (`adminActionLog`). */
  class AdminMisuseTracker {
    var log: map<string, ActionLog>

    constructor ()
      ensures log == map[]
    {
      log := map[];
    }

    /** `checkAdminMisuse(adminToken, action, timeWindowSeconds, maxActionsInWindow)` at time `now`. */
    method Check(adminToken: string, action: string, timeWindowSeconds: int, maxActions: int, now: int)
      returns (v: MisuseVerdict)
      modifies this
      ensures (v, log) == MisuseCheck(old(log), adminToken, action, timeWindowSeconds, maxActions, now)
    {
      var key := adminToken + ":" + action;
      if key !in log {
        log := log[key := ActionLog(adminToken, action, now, Window(1, now + timeWindowSeconds * 1000))];
        v := MisuseVerdict(true, maxActions - 1, None);
        return;
      }
      var entry := log[key];
      if now > entry.window.resetTime {
        log := log[key := entry.(window := Window(1, now + timeWindowSeconds * 1000))];
        v := MisuseVerdict(true, maxActions - 1, None);
        return;
      }
      if entry.window.count >= maxActions {
        assert log[key := entry] == log;
        v := MisuseVerdict(false, 0, Some("Too many " + action + " requests. Please try again later."));
        return;
      }
      var counted := entry.window.(count := entry.window.count + 1);
      log := log[key := entry.(window := counted)];
      v := MisuseVerdict(true, maxActions - counted.count, None);
    }
  }
}
