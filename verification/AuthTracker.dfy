/** AuthAttemptTracker of pkg/ftp/driver.go: the timed lockout of source addresses and its
    janitor sweep. Times are integers (nanoseconds); the clock is read once per critical
    section and does not run backwards. */
module AuthTracker {
  import opened Results

  datatype Config = Config(maxAttempts: int, window: int, lockout: int)

  // firstFail None is Go's zero time.
  datatype Entry = Entry(count: int, firstFail: Option<int>, lastAttempt: int, lockedOut: bool, lockoutEnd: int)

  // ------------------------------------------------------------ one address

  predicate WindowExpired(c: Config, e: Entry, now: int) {
    e.firstFail.Some? && now - e.firstFail.value > c.window
  }

  // IsIPLockedOut: the entry afterwards and the answer
  function Check(c: Config, entry: Option<Entry>, now: int): (Option<Entry>, bool) {
    match entry
    case None => (None, false)
    case Some(e) =>
      if e.lockedOut then (if now < e.lockoutEnd then (entry, true) else (None, false))
      else if WindowExpired(c, e, now) then (None, false)
      else if e.firstFail.Some? && e.count >= c.maxAttempts then
        (Some(e.(lockedOut := true, lockoutEnd := now + c.lockout)), true)
      else (entry, false)
  }

  // RecordAuthAttempt after a failure: the entry afterwards and the result
  function RecordFail(c: Config, entry: Option<Entry>, now: int): (Entry, bool) {
    var prior := if entry.Some? then entry.value else Entry(0, None, now, false, 0);
    var first := if prior.firstFail.None? then now else prior.firstFail.value;
    var e := prior.(count := prior.count + 1, lastAttempt := now, firstFail := Some(first));
    if e.count < c.maxAttempts then (e, true)
    else if now - first <= c.window then (e.(lockedOut := true, lockoutEnd := now + c.lockout), false)
    else (e.(count := 1, firstFail := Some(now)), true)
  }

  // The janitor's decision about one entry
  predicate Sweepable(c: Config, e: Entry, now: int) {
    if e.lockedOut then now > e.lockoutEnd else WindowExpired(c, e, now)
  }

  function Sweep(c: Config, entry: Option<Entry>, now: int): Option<Entry> {
    if entry.Some? && Sweepable(c, entry.value, now) then None else entry
  }

  // ------------------------------------------------------------ the tracker

  class AuthAttemptTracker {
    var ipAttempts: map<string, Entry>
    const config: Config

    constructor (config: Config)
      ensures this.config == config && ipAttempts == map[]
    {
      this.config := config;
      ipAttempts := map[];
    }

    function Lookup(ip: string): Option<Entry>
      reads this
    {
      if ip in ipAttempts then Some(ipAttempts[ip]) else None
    }

    method IsIPLockedOut(ip: string, now: int) returns (locked: bool)
      modifies this
      ensures (Lookup(ip), locked) == Check(config, old(Lookup(ip)), now)
      ensures forall other :: other != ip ==> Lookup(other) == old(Lookup(other))
    {
      if ip in ipAttempts {
        var info := ipAttempts[ip];
        if info.lockedOut {
          if now < info.lockoutEnd {
            return true;
          }
          ipAttempts := ipAttempts - {ip};
          return false;
        }
        if info.firstFail.Some? && now - info.firstFail.value > config.window {
          ipAttempts := ipAttempts - {ip};
          return false;
        }
        if info.firstFail.Some? && info.count >= config.maxAttempts {
          ipAttempts := ipAttempts[ip := info.(lockedOut := true, lockoutEnd := now + config.lockout)];
          return true;
        }
      }
      return false;
    }

    method RecordAuthAttempt(ip: string, success: bool, now: int) returns (allowed: bool)
      modifies this
      ensures success ==> allowed && Lookup(ip) == None
      ensures !success ==> var (entry, ok) := RecordFail(config, old(Lookup(ip)), now);
                           Lookup(ip) == Some(entry) && allowed == ok
      ensures forall other :: other != ip ==> Lookup(other) == old(Lookup(other))
    {
      if success {
        ipAttempts := ipAttempts - {ip};
        return true;
      }
      var info := if ip in ipAttempts then ipAttempts[ip] else Entry(0, None, now, false, 0);
      info := info.(count := info.count + 1, lastAttempt := now);
      if info.firstFail == None {
        info := info.(firstFail := Some(now));
      }
      allowed := true;
      if info.count >= config.maxAttempts {
        if now - info.firstFail.value <= config.window {
          info := info.(lockedOut := true, lockoutEnd := now + config.lockout);
          allowed := false;
        } else {
          info := info.(count := 1, firstFail := Some(now));
        }
      }
      ipAttempts := ipAttempts[ip := info];
    }

    // One sweep of the janitor treats every address by itself.
    method SweepAll(now: int)
      modifies this
      ensures forall ip :: Lookup(ip) == Sweep(config, old(Lookup(ip)), now)
    {
      var todo := ipAttempts.Keys;
      while todo != {}
        invariant forall ip :: ip in todo ==> Lookup(ip) == old(Lookup(ip))
        invariant forall ip :: ip !in todo ==> Lookup(ip) == Sweep(config, old(Lookup(ip)), now)
        decreases todo
      {
        var ip :| ip in todo;
        todo := todo - {ip};
        if ip in ipAttempts && Sweepable(config, ipAttempts[ip], now) {
          ipAttempts := ipAttempts - {ip};
        }
      }
    }
  }

  // ------------------------------------------------------------ runs of one address

  datatype Op = Checked | Failed | Succeeded | Swept

  datatype Timed = At(time: int, op: Op)

  function Step(c: Config, entry: Option<Entry>, t: Timed): Option<Entry> {
    match t.op
    case Checked => Check(c, entry, t.time).0
    case Failed => Some(RecordFail(c, entry, t.time).0)
    case Succeeded => None
    case Swept => Sweep(c, entry, t.time)
  }

  function Run(c: Config, entry: Option<Entry>, ops: seq<Timed>): Option<Entry> {
    if ops == [] then entry else Step(c, Run(c, entry, ops[..|ops| - 1]), ops[|ops| - 1])
  }

  predicate Monotone(ops: seq<Timed>) {
    forall i, j :: 0 <= i < j < |ops| ==> ops[i].time <= ops[j].time
  }

  predicate EndsBy(ops: seq<Timed>, now: int) {
    forall i :: 0 <= i < |ops| ==> ops[i].time <= now
  }

  // ------------------------------------------------------------ soundness of a lockout

  // The failures recorded at or after from, since the last success
  function FailsSince(ops: seq<Timed>, from: int): nat {
    if ops == [] then 0
    else
      var last := ops[|ops| - 1];
      var before := FailsSince(ops[..|ops| - 1], from);
      if last.op == Succeeded then 0
      else if last.op == Failed && last.time >= from then before + 1
      else before
  }

  lemma {:induction false} FailsSinceEarlier(ops: seq<Timed>, from: int, later: int)
    requires from <= later
    ensures FailsSince(ops, from) >= FailsSince(ops, later)
  {
    if ops != [] { FailsSinceEarlier(ops[..|ops| - 1], from, later); }
  }

  // What every entry of every run satisfies
  predicate EntryOk(c: Config, ops: seq<Timed>, e: Entry, now: int) {
    && e.firstFail.Some? && e.firstFail.value <= now
    && 1 <= e.count <= FailsSince(ops, e.firstFail.value)
    && (!e.lockedOut ==> e.count < c.maxAttempts)
    && (e.lockedOut ==> e.lockoutEnd <= now + c.lockout)
  }

  // An unlocked entry always has fewer than maxAttempts failures, so the branch of
  // IsIPLockedOut that repairs such an entry is never taken.
  lemma {:induction false} RunEntryOk(c: Config, ops: seq<Timed>, now: int)
    requires c.window >= 0 && Monotone(ops) && EndsBy(ops, now)
    ensures Run(c, None, ops).Some? ==> EntryOk(c, ops, Run(c, None, ops).value, now)
  {
    if ops != [] {
      var before, last := ops[..|ops| - 1], ops[|ops| - 1];
      RunEntryOk(c, before, last.time);
    }
  }

  // A lockout set at time now means at least maxAttempts failures within the last window,
  // this one included, with no success between them.
  lemma LockoutSound(c: Config, ops: seq<Timed>, now: int)
    requires c.window >= 0 && Monotone(ops) && EndsBy(ops, now)
    requires !RecordFail(c, Run(c, None, ops), now).1
    ensures FailsSince(ops + [At(now, Failed)], now - c.window) >= c.maxAttempts
    ensures RecordFail(c, Run(c, None, ops), now).0.lockoutEnd == now + c.lockout
  {
    RunEntryOk(c, ops, now);
    var e := RecordFail(c, Run(c, None, ops), now).0;
    var all := ops + [At(now, Failed)];
    assert all[..|ops|] == ops;
    FailsSinceEarlier(all, now - c.window, e.firstFail.value);
  }

  // From a first failure on, while its window lasts and nothing succeeds, the failures are all
  // counted: fewer than maxAttempts lock nothing out, and the one that makes them maxAttempts
  // does, whatever checks and sweeps come between.
  lemma {:induction false} LockedAtLimit(c: Config, ops: seq<Timed>)
    requires Monotone(ops) && NoSuccess(ops) && ops != [] && ops[0].op == Failed
    requires ops[|ops| - 1].time <= ops[0].time + c.window && c.maxAttempts >= 1
    ensures var n, r := FailsSince(ops, ops[0].time), Run(c, None, ops);
            && (n < c.maxAttempts ==> r.Some? && !r.value.lockedOut)
            && (n == c.maxAttempts && ops[|ops| - 1].op == Failed ==> Locked(r))
    ensures var n, r := FailsSince(ops, ops[0].time), Run(c, None, ops);
            n < c.maxAttempts ==> r.value.count == n && r.value.firstFail == Some(ops[0].time)
  {
    var before, last := ops[..|ops| - 1], ops[|ops| - 1];
    if before != [] {
      LockedAtLimit(c, before);
    } else {
      assert Run(c, None, before) == None && FailsSince(before, ops[0].time) == 0;
    }
  }

  predicate NoSuccess(ops: seq<Timed>) {
    forall i :: 0 <= i < |ops| ==> ops[i].op != Succeeded
  }

  // Stability: until its end, whatever happens except a success, the lockout stays, its end
  // never moves back, and every check answers locked.
  lemma {:induction false} LockoutStable(c: Config, e: Entry, start: int, ops: seq<Timed>, now: int)
    requires e.lockedOut && e.lockoutEnd <= start + c.lockout
    requires Monotone(ops) && EndsBy(ops, now) && NoSuccess(ops) && now < e.lockoutEnd && start <= now
    requires forall i :: 0 <= i < |ops| ==> start <= ops[i].time
    ensures Run(c, Some(e), ops).Some?
    ensures var r := Run(c, Some(e), ops).value; r.lockedOut && e.lockoutEnd <= r.lockoutEnd <= now + c.lockout
    ensures Check(c, Run(c, Some(e), ops), now).1
  {
    if ops != [] {
      var before, last := ops[..|ops| - 1], ops[|ops| - 1];
      LockoutStable(c, e, start, before, last.time);
    }
  }

  // ------------------------------------------------------------ how many failures fit in a window

  // The failures recorded in [a, b]
  function FailsIn(ops: seq<Timed>, a: int, b: int): nat {
    if ops == [] then 0
    else
      var last := ops[|ops| - 1];
      FailsIn(ops[..|ops| - 1], a, b) + (if last.op == Failed && a <= last.time <= b then 1 else 0)
  }

  predicate Locked(entry: Option<Entry>) {
    entry.Some? && entry.value.lockedOut
  }

  // No state of the run is locked out.
  predicate NeverLocked(c: Config, entry: Option<Entry>, ops: seq<Timed>) {
    !Locked(Run(c, entry, ops)) && (ops == [] || NeverLocked(c, entry, ops[..|ops| - 1]))
  }

  function Bound(maxAttempts: int): int {
    if maxAttempts >= 2 then 2 * maxAttempts - 3 else 0
  }

  // The failures counted in [a, a + window] so far, against the entry they left behind:
  // consecutive values of firstFail are more than a window apart, so the interval meets at
  // most two of them, and not the first failure of the earlier one.
  predicate Budget(c: Config, entry: Option<Entry>, a: int, now: int, n: int) {
    var max := c.maxAttempts;
    && 0 <= n
    && (now < a ==> n == 0)
    && (entry.Some? ==> entry.value.firstFail.Some? && entry.value.firstFail.value <= now
                        && 1 <= entry.value.count < max)
    && (|| (now > a + c.window && n <= Bound(max))
        || (entry.None? && n <= (if max >= 2 then max - 2 else 0))
        || (entry.Some? && n <= (if entry.value.firstFail.value < a then entry.value.count - 1
                                 else entry.value.count + max - 2)))
  }

  lemma BudgetStep(c: Config, entry: Option<Entry>, a: int, before: int, n: int, t: Timed)
    requires c.window >= 0 && before <= t.time && t.op != Succeeded
    requires Budget(c, entry, a, before, n) && !Locked(entry) && !Locked(Step(c, entry, t))
    ensures Budget(c, Step(c, entry, t), a, t.time,
                   n + (if t.op == Failed && a <= t.time <= a + c.window then 1 else 0))
  {
  }

  function LastTime(ops: seq<Timed>, start: int): int {
    if ops == [] then start else ops[|ops| - 1].time
  }

  lemma {:induction false} BudgetRun(c: Config, ops: seq<Timed>, a: int, start: int)
    requires c.window >= 0 && Monotone(ops) && NoSuccess(ops) && NeverLocked(c, None, ops)
    requires forall i :: 0 <= i < |ops| ==> start <= ops[i].time
    ensures Budget(c, Run(c, None, ops), a, LastTime(ops, start), FailsIn(ops, a, a + c.window))
  {
    if ops != [] {
      var before, t := ops[..|ops| - 1], ops[|ops| - 1];
      BudgetRun(c, before, a, start);
      BudgetStep(c, Run(c, None, before), a, LastTime(before, start), FailsIn(before, a, a + c.window), t);
    }
  }

  // The rate limiter's counting bound: as long as no success and no lockout occurs, no time
  // interval as long as the window holds more than 2 * maxAttempts - 3 recorded failures.
  lemma WindowBound(c: Config, ops: seq<Timed>, a: int)
    requires c.window >= 0 && Monotone(ops) && NoSuccess(ops) && NeverLocked(c, None, ops)
    ensures FailsIn(ops, a, a + c.window) <= Bound(c.maxAttempts)
  {
    BudgetRun(c, ops, a, if ops == [] then a else ops[0].time);
  }

  // ------------------------------------------------------------ the bound is attained

  function Repeat(n: nat, t: int): (ops: seq<Timed>)
    ensures |ops| == n && forall i :: 0 <= i < n ==> ops[i] == At(t, Failed)
  {
    seq(n, i => At(t, Failed))
  }

  // Failures that stay below maxAttempts only count up.
  lemma {:induction false} RunRepeat(c: Config, ops: seq<Timed>, n: nat, t: int, a: int, b: int)
    requires NeverLocked(c, None, ops) && a <= t <= b
    requires Run(c, None, ops).Some?
    requires var e := Run(c, None, ops).value; e.firstFail.Some? && e.count + n < c.maxAttempts
    ensures var all := ops + Repeat(n, t);
            && NeverLocked(c, None, all) && Run(c, None, all).Some?
            && Run(c, None, all).value.count == Run(c, None, ops).value.count + n
            && Run(c, None, all).value.firstFail == Run(c, None, ops).value.firstFail
            && FailsIn(all, a, b) == FailsIn(ops, a, b) + n
  {
    var all := ops + Repeat(n, t);
    if n == 0 {
      assert all == ops;
    } else {
      RunRepeat(c, ops, n - 1, t, a, b);
      assert all[..|all| - 1] == ops + Repeat(n - 1, t);
    }
  }

  // One failure at 0, maxAttempts - 2 at the end of its window, maxAttempts - 1 just after it
  function Burst(c: Config): seq<Timed>
    requires c.maxAttempts >= 2
  {
    [At(0, Failed)] + Repeat(c.maxAttempts - 2, c.window) + [At(c.window + 1, Failed)]
    + Repeat(c.maxAttempts - 2, c.window + 1)
  }

  // A failure after a run that has not locked out
  lemma RunOne(c: Config, ops: seq<Timed>, t: int)
    ensures var all := ops + [At(t, Failed)];
            && Run(c, None, all) == Step(c, Run(c, None, ops), At(t, Failed))
            && (NeverLocked(c, None, all) <==> NeverLocked(c, None, ops) && !Locked(Run(c, None, all)))
            && forall a, b :: FailsIn(all, a, b) == FailsIn(ops, a, b) + (if a <= t <= b then 1 else 0)
  {
    assert (ops + [At(t, Failed)])[..|ops|] == ops;
  }

  lemma BurstShape(c: Config)
    requires c.maxAttempts >= 2 && c.window >= 1
    ensures Monotone(Burst(c)) && NoSuccess(Burst(c))
  {
  }

  lemma BurstRun(c: Config)
    requires c.maxAttempts >= 2 && c.window >= 1
    ensures NeverLocked(c, None, Burst(c))
    ensures FailsIn(Burst(c), 1, 1 + c.window) == Bound(c.maxAttempts)
  {
    var w, m := c.window, c.maxAttempts - 2;
    var first := [At(0, Failed)];
    RunOne(c, [], 0);
    assert [] + first == first;
    RunRepeat(c, first, m, w, 1, 1 + w);
    var second := first + Repeat(m, w);
    RunOne(c, second, w + 1);
    RunRepeat(c, second + [At(w + 1, Failed)], m, w + 1, 1, 1 + w);
  }

  // For every limit and window there is a run without a lockout that meets the bound.
  lemma WindowBoundAttained(c: Config)
    requires c.maxAttempts >= 2 && c.window >= 1
    ensures Monotone(Burst(c)) && NoSuccess(Burst(c)) && NeverLocked(c, None, Burst(c))
    ensures FailsIn(Burst(c), 1, 1 + c.window) == Bound(c.maxAttempts)
  {
    BurstShape(c);
    BurstRun(c);
  }

  // ------------------------------------------------------------ when a sweep can be noticed

  datatype Outcome = Failure | Success | NoRecord

  // AuthUser checks, then authenticates, then records. Between the check and the recording of one
  // login other logins from the address may do the same, and the janitor may sweep.
  datatype Event =
    | CheckIn(time: int)
    | Record(time: int, outcome: Outcome)
    | Janitor(time: int)

  // What the clients are told: locked out or let through by the check, or the result of the
  // recording
  datatype Reply = LockedOut | Passed | Recorded(allowed: bool) | NotRecorded

  // An address: its entry, and the number of logins that have passed the check and not recorded
  datatype Address = Address(entry: Option<Entry>, pending: nat)

  // A recording without a pending login does not happen.
  function Next(c: Config, a: Address, e: Event): (Address, seq<Reply>) {
    match e
    case CheckIn(now) =>
      var (checked, locked) := Check(c, a.entry, now);
      if locked then (Address(checked, a.pending), [LockedOut]) else (Address(checked, a.pending + 1), [Passed])
    case Record(now, outcome) =>
      if a.pending == 0 then (a, [])
      else (
        match outcome
        case Failure => var (r, ok) := RecordFail(c, a.entry, now); (Address(Some(r), a.pending - 1), [Recorded(ok)])
        case Success => (Address(None, a.pending - 1), [Recorded(true)])
        case NoRecord => (Address(a.entry, a.pending - 1), [NotRecorded])
      )
    case Janitor(now) => (Address(Sweep(c, a.entry, now), a.pending), [])
  }

  function Replies(c: Config, a: Address, es: seq<Event>): seq<Reply>
    decreases |es|
  {
    if es == [] then []
    else
      var (next, reply) := Next(c, a, es[0]);
      reply + Replies(c, next, es[1..])
  }

  function WithoutJanitor(es: seq<Event>): seq<Event> {
    if es == [] then []
    else if es[0].Janitor? then WithoutJanitor(es[1..])
    else [es[0]] + WithoutJanitor(es[1..])
  }

  // The clock runs forward through the events, starting from now.
  predicate Forward(es: seq<Event>, now: int) {
    es == [] || (now <= es[0].time && Forward(es[1..], es[0].time))
  }

  // What every entry of every run is like
  predicate Tidy(c: Config, entry: Option<Entry>, now: int) {
    entry.Some? ==>
      var e := entry.value;
      && e.firstFail.Some? && e.firstFail.value <= now && 1 <= e.count
      && (e.lockedOut ==> c.window >= 0)
      && (!e.lockedOut ==> e.lockoutEnd == 0 && (c.window >= 0 ==> e.count < c.maxAttempts))
  }

  lemma TidyStays(c: Config, a: Address, e: Event, now: int)
    requires Tidy(c, a.entry, now) && now <= e.time
    ensures Tidy(c, Next(c, a, e).0.entry, e.time)
  {
  }

  // A sweep at this time takes the entry from a pending login whose failure would still have
  // found it: a lockout that is over, or a window that is over with attempts left.
  predicate Visible(c: Config, a: Address, now: int) {
    && a.pending > 0 && c.window >= 0 && a.entry.Some? && Sweepable(c, a.entry.value, now)
    && (a.entry.value.lockedOut || a.entry.value.count + 1 < c.maxAttempts)
  }

  predicate Expired(c: Config, e: Entry, now: int) {
    if e.lockedOut then now >= e.lockoutEnd else WindowExpired(c, e, now)
  }

  predicate Unlocked(entry: Option<Entry>) {
    entry.Some? ==> !entry.value.lockedOut
  }

  // Neither run can tell the swept entry from the other one: they are equal, or the other one has
  // expired and no pending login would still find it, or nothing is ever locked.
  predicate Unseen(c: Config, swept: Option<Entry>, entry: Option<Entry>, pending: nat, now: int) {
    || swept == entry
    || (swept.None? && entry.Some? && Expired(c, entry.value, now)
        && (pending == 0 || (!entry.value.lockedOut && entry.value.count + 1 >= c.maxAttempts)))
    || (c.window < 0 && Unlocked(swept) && Unlocked(entry))
  }

  lemma UnseenStep(c: Config, swept: Option<Entry>, entry: Option<Entry>, pending: nat, e: Event, now: int)
    requires Tidy(c, swept, now) && Tidy(c, entry, now) && Unseen(c, swept, entry, pending, now) && now <= e.time
    ensures var (x, r) := Next(c, Address(swept, pending), e);
            var (y, q) := Next(c, Address(entry, pending), e);
            r == q && x.pending == y.pending && Unseen(c, x.entry, y.entry, x.pending, e.time)
  {
  }

  lemma {:induction false} UnseenReplies(c: Config, swept: Option<Entry>, entry: Option<Entry>, pending: nat,
                                         es: seq<Event>, now: int)
    requires Tidy(c, swept, now) && Tidy(c, entry, now) && Unseen(c, swept, entry, pending, now) && Forward(es, now)
    ensures Replies(c, Address(swept, pending), es) == Replies(c, Address(entry, pending), es)
    decreases |es|
  {
    if es != [] {
      var x, y := Address(swept, pending), Address(entry, pending);
      UnseenStep(c, swept, entry, pending, es[0], now);
      TidyStays(c, x, es[0], now);
      TidyStays(c, y, es[0], now);
      UnseenReplies(c, Next(c, x, es[0]).0.entry, Next(c, y, es[0]).0.entry, Next(c, x, es[0]).0.pending, es[1..],
                    es[0].time);
    }
  }

  // A sweep that is not visible is not seen.
  lemma SweepUnseen(c: Config, a: Address, now: int)
    requires Tidy(c, a.entry, now) && !Visible(c, a, now)
    ensures Unseen(c, Sweep(c, a.entry, now), a.entry, a.pending, now)
  {
  }

  // n logins at one time, one after the other, all failing
  function Failures(at: int, n: nat): seq<Event> {
    if n == 0 then [] else [CheckIn(at), Record(at, Failure)] + Failures(at, n - 1)
  }

  lemma {:induction false} FailuresForward(at: int, n: nat)
    ensures Forward(Failures(at, n), at)
  {
    if n > 0 {
      FailuresForward(at, n - 1);
      FailuresSplit(at, n);
    }
  }

  lemma FailuresSplit(at: int, n: nat)
    requires n > 0
    ensures var es := Failures(at, n);
            |es| >= 2 && es[0] == CheckIn(at) && es[1..][0] == Record(at, Failure)
            && es[1..][1..] == Failures(at, n - 1)
  {
  }

  // An entry of count failures at one time
  function Fresh(at: int, count: int): Entry {
    Entry(count, Some(at), at, false, 0)
  }

  // One of these logins that finds such an entry
  lemma RoundReplies(c: Config, at: int, count: int, pending: nat, n: nat)
    requires c.window >= 0 && 1 <= count < c.maxAttempts && n > 0
    ensures var a, next := Address(Some(Fresh(at, count)), pending), Fresh(at, count + 1);
            if count + 1 < c.maxAttempts then
              Replies(c, a, Failures(at, n))
              == [Passed, Recorded(true)] + Replies(c, Address(Some(next), pending), Failures(at, n - 1))
            else Recorded(false) in Replies(c, a, Failures(at, n))
  {
    FailuresSplit(at, n);
    var es, a := Failures(at, n), Address(Some(Fresh(at, count)), pending);
    assert Next(c, a, es[0]) == (a.(pending := pending + 1), [Passed]);
    assert Replies(c, a, es) == [Passed] + Replies(c, a.(pending := pending + 1), es[1..]);
    assert [Passed, Recorded(true)] == [Passed] + [Recorded(true)];
  }

  lemma {:induction false} FreshReplies(c: Config, at: int, count: int, pending: nat, n: nat)
    requires c.window >= 0 && 1 <= count && count + n <= c.maxAttempts && (n > 0 || count < c.maxAttempts)
    ensures Recorded(false) in Replies(c, Address(Some(Fresh(at, count)), pending), Failures(at, n))
            <==> count + n == c.maxAttempts
    decreases n
  {
    if n > 0 {
      RoundReplies(c, at, count, pending, n);
      if count + 1 < c.maxAttempts { FreshReplies(c, at, count + 1, pending, n - 1); }
    }
  }

  // Late enough that nothing of the entry's window is left
  function Late(c: Config, e: Entry, now: int): int
    requires e.firstFail.Some?
  {
    if e.firstFail.value + c.window + 1 > now then e.firstFail.value + c.window + 1 else now
  }

  // The next failures, as many as are left until maxAttempts
  function Telling(c: Config, at: int): seq<Event> {
    [Record(at, Failure)] + Failures(at, if c.maxAttempts > 1 then c.maxAttempts - 1 else 0)
  }

  lemma {:induction false} SweptIsTold(c: Config, pending: nat, at: int)
    requires pending > 0 && c.window >= 0
    ensures Recorded(false) in Replies(c, Address(None, pending), Telling(c, at))
  {
    var es := Telling(c, at);
    assert es[1..] == Failures(at, if c.maxAttempts > 1 then c.maxAttempts - 1 else 0);
    if c.maxAttempts > 1 {
      assert Next(c, Address(None, pending), es[0]) == (Address(Some(Fresh(at, 1)), pending - 1), [Recorded(true)]);
      FreshReplies(c, at, 1, pending - 1, c.maxAttempts - 1);
    }
  }

  // An expired entry is gone once a login checks, and then maxAttempts - 1 failures lock nothing.
  lemma {:induction false} ExpiredNotTold(c: Config, entry: Option<Entry>, pending: nat, at: int, n: nat)
    requires c.window >= 0 && n < c.maxAttempts && entry.Some? && Expired(c, entry.value, at)
    ensures Recorded(false) !in Replies(c, Address(entry, pending), Failures(at, n))
  {
    if n > 0 {
      FailuresSplit(at, n);
      var es, a := Failures(at, n), Address(entry, pending);
      assert Next(c, a, es[0]) == (Address(None, pending + 1), [Passed]);
      assert Next(c, Address(None, pending + 1), es[1..][0])
             == (Address(Some(Fresh(at, 1)), pending), [Recorded(true)]);
      FreshReplies(c, at, 1, pending, n - 1);
    }
  }

  lemma {:induction false} UnsweptNotTold(c: Config, a: Address, now: int)
    requires Tidy(c, a.entry, now) && Visible(c, a, now)
    ensures Recorded(false) !in Replies(c, a, Telling(c, Late(c, a.entry.value, now)))
  {
    var at := Late(c, a.entry.value, now);
    var es, n := Telling(c, at), if c.maxAttempts > 1 then c.maxAttempts - 1 else 0;
    assert es[1..] == Failures(at, n);
    var (r, ok) := RecordFail(c, a.entry, at);
    assert Next(c, a, es[0]) == (Address(Some(r), a.pending - 1), [Recorded(true)]);
    if n > 0 { ExpiredNotTold(c, Some(r), a.pending - 1, at, n); }
  }

  // A janitor sweep can be told from its absence by some later events exactly if it is visible:
  // it falls between the check and the recording of a login, and takes an entry whose lockout is
  // over, or whose window is over with at least two attempts left.
  lemma {:induction false} SweepVisibleIff(c: Config, a: Address, now: int)
    requires Tidy(c, a.entry, now)
    ensures Visible(c, a, now) <==>
            exists more :: && Forward(more, now)
                           && Replies(c, a.(entry := Sweep(c, a.entry, now)), more) != Replies(c, a, more)
  {
    if Visible(c, a, now) {
      var at := Late(c, a.entry.value, now);
      var n: nat := if c.maxAttempts > 1 then c.maxAttempts - 1 else 0;
      SweptIsTold(c, a.pending, at);
      UnsweptNotTold(c, a, now);
      FailuresForward(at, n);
      assert Telling(c, at)[1..] == Failures(at, n);
      assert Forward(Telling(c, at), now);
    } else {
      forall more | Forward(more, now)
        ensures Replies(c, a.(entry := Sweep(c, a.entry, now)), more) == Replies(c, a, more)
      {
        SweepUnseen(c, a, now);
        UnseenReplies(c, Sweep(c, a.entry, now), a.entry, a.pending, more, now);
      }
    }
  }

  // No sweep of the run is visible where it falls.
  predicate NoneVisible(c: Config, a: Address, es: seq<Event>)
    decreases |es|
  {
    es == [] || ((es[0].Janitor? ==> !Visible(c, a, es[0].time)) && NoneVisible(c, Next(c, a, es[0]).0, es[1..]))
  }

  lemma UnseenTransitive(c: Config, x: Option<Entry>, y: Option<Entry>, z: Option<Entry>, pending: nat, now: int)
    requires Tidy(c, x, now) && Tidy(c, y, now) && Tidy(c, z, now)
    requires Unseen(c, x, y, pending, now) && Unseen(c, y, z, pending, now)
    ensures Unseen(c, x, z, pending, now)
  {
  }

  lemma UnseenLater(c: Config, x: Option<Entry>, y: Option<Entry>, pending: nat, now: int, later: int)
    requires Unseen(c, x, y, pending, now) && now <= later
    ensures Unseen(c, x, y, pending, later)
  {
  }

  lemma {:induction false} SweptRun(c: Config, swept: Option<Entry>, entry: Option<Entry>, pending: nat, es: seq<Event>,
                                    now: int)
    requires Forward(es, now) && Tidy(c, swept, now) && Tidy(c, entry, now)
    requires Unseen(c, swept, entry, pending, now) && NoneVisible(c, Address(swept, pending), es)
    ensures Replies(c, Address(swept, pending), es) == Replies(c, Address(entry, pending), WithoutJanitor(es))
    decreases |es|
  {
    if es != [] {
      var e, x, y := es[0], Address(swept, pending), Address(entry, pending);
      TidyStays(c, x, e, now);
      if e.Janitor? {
        SweepUnseen(c, x, e.time);
        UnseenLater(c, swept, entry, pending, now, e.time);
        UnseenTransitive(c, Sweep(c, swept, e.time), swept, entry, pending, e.time);
        SweptRun(c, Sweep(c, swept, e.time), entry, pending, es[1..], e.time);
      } else {
        UnseenStep(c, swept, entry, pending, e, now);
        TidyStays(c, y, e, now);
        SweptRun(c, Next(c, x, e).0.entry, Next(c, y, e).0.entry, Next(c, x, e).0.pending, es[1..], e.time);
        assert WithoutJanitor(es)[1..] == WithoutJanitor(es[1..]);
      }
    }
  }

  // However the logins of an address overlap, sweeps none of which is visible change no answer of
  // a check and no result of a recording.
  lemma SweepsUnobservable(c: Config, es: seq<Event>, now: int)
    requires Forward(es, now) && NoneVisible(c, Address(None, 0), es)
    ensures Replies(c, Address(None, 0), es) == Replies(c, Address(None, 0), WithoutJanitor(es))
  {
    SweptRun(c, None, None, 0, es, now);
  }

  // No sweep falls between the check and the recording of a login.
  predicate BetweenLogins(c: Config, a: Address, es: seq<Event>)
    decreases |es|
  {
    es == [] || ((es[0].Janitor? ==> a.pending == 0) && BetweenLogins(c, Next(c, a, es[0]).0, es[1..]))
  }

  // Such sweeps are never visible.
  lemma {:induction false} BetweenLoginsUnseen(c: Config, a: Address, es: seq<Event>)
    requires BetweenLogins(c, a, es)
    ensures NoneVisible(c, a, es)
    decreases |es|
  {
    if es != [] { BetweenLoginsUnseen(c, Next(c, a, es[0]).0, es[1..]); }
  }

  // The check before the recording is what hides the sweep: with bare recordings a sweep
  // changes when the lockout comes.
  lemma SweepObservableWithoutCheck()
    ensures var c := Config(3, 10, 5);
            var stale := Run(c, None, [At(0, Failed)]);
            var ops := [At(20, Failed), At(20, Failed)];
            RecordFail(c, Run(c, stale, ops), 20).1 && !RecordFail(c, Run(c, Sweep(c, stale, 20), ops), 20).1
  {
    var c := Config(3, 10, 5);
    var one := [At(0, Failed)];
    assert one[..0] == [];
    var stale := Run(c, None, one);
    var ops := [At(20, Failed), At(20, Failed)];
    assert ops[..1] == [At(20, Failed)];
    assert ops[..1][..0] == [];
    assert Run(c, stale, ops[..1]) == Step(c, stale, At(20, Failed));
    var swept := Sweep(c, stale, 20);
    assert Run(c, swept, ops[..1]) == Step(c, swept, At(20, Failed));
  }
}
