/**
  The per-IP login limiter (backend/app/gateway/routers/auth.py): a bounded table of failure counts and lockouts.

  The class has the module-level dict as its field. Clock readings are parameters. The order in which Python lists
  the dict is not tracked, so among equal lock times any entry may be evicted first.
 */
module LoginLimiter {
  import Eviction

  const MAX_LOGIN_ATTEMPTS: nat := 5
  const LOCKOUT_SECONDS := 300.0
  const MAX_TRACKED_IPS: nat := 10000

  datatype Entry = Entry(failCount: nat, lockUntil: real)

  type Table = map<string, Entry>

  // ---- Specification of the three operations on the table ------------------------------

  predicate Limited(table: Table, ip: string, now: real) {
    ip in table && table[ip].failCount >= MAX_LOGIN_ATTEMPTS && now < table[ip].lockUntil
  }

  function Checked(table: Table, ip: string, now: real): Table {
    if ip in table && table[ip].failCount >= MAX_LOGIN_ATTEMPTS && now >= table[ip].lockUntil then table - {ip}
    else table
  }

  function WithoutExpired(table: Table, now: real): Table {
    map ip | ip in table && !(table[ip].failCount >= MAX_LOGIN_ATTEMPTS && now >= table[ip].lockUntil) :: table[ip]
  }

  function LockUntil(entry: Entry): real {
    entry.lockUntil
  }

  // Expired lockouts go first, then the half locked least.
  ghost predicate Evicts(table: Table, now: real, kept: Table) {
    Eviction.Evicts(table, WithoutExpired(table, now), MAX_TRACKED_IPS, kept, LockUntil)
  }

  function Counted(table: Table, ip: string, now: real): Table {
    if ip !in table then table[ip := Entry(1, 0.0)]
    else
      var n := table[ip].failCount + 1;
      table[ip := Entry(n, if n >= MAX_LOGIN_ATTEMPTS then now + LOCKOUT_SECONDS else 0.0)]
  }

  // ---- sorted(items, key=lock time) ----------------------------------------------------

  type Items = seq<(string, Entry)>

  function Insert(item: (string, Entry), items: Items): Items {
    if items == [] || item.1.lockUntil < items[0].1.lockUntil then [item] + items
    else [items[0]] + Insert(item, items[1..])
  }

  // Stable: later items go after earlier ones with the same lock time.
  function SortedByLock(items: Items): Items {
    if items == [] then [] else Insert(items[|items| - 1], SortedByLock(items[..|items| - 1]))
  }

  ghost predicate Ascending(items: Items) {
    forall i, j :: 0 <= i < j < |items| ==> items[i].1.lockUntil <= items[j].1.lockUntil
  }

  ghost function IpsOf(items: Items): set<string> {
    if items == [] then {} else IpsOf(items[..|items| - 1]) + {items[|items| - 1].0}
  }

  // items lists entries of the table, no ip twice.
  ghost predicate Lists(items: Items, table: Table) {
    Entries(items, table) && |IpsOf(items)| == |items|
  }

  ghost predicate Entries(items: Items, table: Table) {
    forall i :: 0 <= i < |items| ==> items[i].0 in table && items[i].1 == table[items[i].0]
  }

  lemma {:induction false} IndexOf(items: Items, ip: string) returns (i: nat)
    requires ip in IpsOf(items)
    ensures i < |items| && items[i].0 == ip
  {
    i := |items| - 1;
    if items[i].0 != ip {
      i := IndexOf(items[..i], ip);
    }
  }

  lemma {:induction false} AtIndex(items: Items, i: nat)
    requires i < |items|
    ensures items[i].0 in IpsOf(items)
  {
    if i < |items| - 1 {
      AtIndex(items[..|items| - 1], i);
    }
  }

  // Taking a prefix of a list without repeated ips gives as many ips as entries.
  lemma {:induction false} PrefixCount(items: Items, n: nat)
    requires n <= |items| && |IpsOf(items)| == |items|
    ensures |IpsOf(items[..n])| == n
  {
    if n < |items| {
      var front := items[..|items| - 1];
      AtMostOneEach(front);
      assert |IpsOf(items)| <= |IpsOf(front)| + 1;
      PrefixCount(front, n);
      assert front[..n] == items[..n];
    } else {
      assert items[..n] == items;
    }
  }

  lemma {:induction false} AtMostOneEach(items: Items)
    ensures |IpsOf(items)| <= |items|
  {
    if items != [] {
      AtMostOneEach(items[..|items| - 1]);
    }
  }

  lemma {:induction false} Prepended(item: (string, Entry), items: Items)
    ensures IpsOf([item] + items) == {item.0} + IpsOf(items)
  {
    var longer := [item] + items;
    if items != [] {
      assert longer[..|longer| - 1] == [item] + items[..|items| - 1];
      Prepended(item, items[..|items| - 1]);
    } else {
      assert longer[..0] == [];
    }
  }

  lemma {:induction false} InsertIps(item: (string, Entry), items: Items)
    ensures IpsOf(Insert(item, items)) == IpsOf(items) + {item.0} && |Insert(item, items)| == |items| + 1
  {
    if items != [] && item.1.lockUntil >= items[0].1.lockUntil {
      InsertIps(item, items[1..]);
      Prepended(items[0], items[1..]);
      assert items == [items[0]] + items[1..];
      Prepended(items[0], Insert(item, items[1..]));
    } else {
      Prepended(item, items);
    }
  }

  lemma {:induction false} InsertSorted(item: (string, Entry), items: Items)
    requires Ascending(items)
    ensures Ascending(Insert(item, items))
  {
    if items != [] && item.1.lockUntil >= items[0].1.lockUntil {
      var rest := Insert(item, items[1..]);
      InsertSorted(item, items[1..]);
      InsertMembers(item, items[1..]);
      hide Insert;
      assert forall j :: 0 <= j < |rest| ==> rest[j] in rest && items[0].1.lockUntil <= rest[j].1.lockUntil;
    }
  }

  lemma {:induction false} InsertMembers(item: (string, Entry), items: Items)
    ensures forall x :: x in Insert(item, items) ==> x == item || x in items
  {
    if items != [] && item.1.lockUntil >= items[0].1.lockUntil {
      InsertMembers(item, items[1..]);
    }
  }

  lemma LastIsNew(items: Items)
    requires items != [] && |IpsOf(items)| == |items|
    ensures var front := items[..|items| - 1];
            |IpsOf(front)| == |front| && items[|items| - 1].0 !in IpsOf(front)
  {
    PrefixCount(items, |items| - 1);
  }

  lemma InsertLists(item: (string, Entry), items: Items, table: Table)
    requires Lists(items, table) && Ascending(items)
    requires item.0 in table && item.1 == table[item.0] && item.0 !in IpsOf(items)
    ensures Ascending(Insert(item, items)) && Lists(Insert(item, items), table)
  {
    InsertSorted(item, items);
    InsertMembers(item, items);
    InsertIps(item, items);
    hide Insert, Ascending, IpsOf;
    var more := Insert(item, items);
    assert forall j :: 0 <= j < |more| ==> more[j] in more;
  }

  lemma {:induction false} SortSorts(items: Items, table: Table)
    requires Lists(items, table)
    ensures Ascending(SortedByLock(items)) && Lists(SortedByLock(items), table)
    ensures IpsOf(SortedByLock(items)) == IpsOf(items) && |SortedByLock(items)| == |items|
  {
    hide Insert, Ascending;
    if items == [] {
      NothingSorted(table);
    } else {
      var front, last := items[..|items| - 1], items[|items| - 1];
      LastIsNew(items);
      SortSorts(front, table);
      InsertLists(last, SortedByLock(front), table);
      InsertIps(last, SortedByLock(front));
    }
  }

  lemma NothingSorted(table: Table)
    ensures Ascending([]) && Lists([], table)
  {
  }

  // ---- The limiter ---------------------------------------------------------------------

  lemma RemovalSize(table: Table, ips: set<string>)
    requires ips <= table.Keys
    ensures |table - ips| == |table| - |ips|
  {
  }

  // The first half of the sorted list can be dropped: that is the cheapest half.
  lemma DropsFirstHalf(table: Table, byTime: Items, kept: Table)
    requires Lists(byTime, table) && Ascending(byTime) && IpsOf(byTime) == table.Keys
    requires kept == table - IpsOf(byTime[..|byTime| / 2])
    ensures Eviction.DropsLowestHalf(table, kept, LockUntil)
  {
    var half := |byTime| / 2;
    PrefixCount(byTime, half);
    assert |table.Keys| == |table|;
    FirstHalf(table, byTime, half);
    RemovalSize(table, IpsOf(byTime[..half]));
  }

  lemma FirstHalf(table: Table, byTime: Items, half: nat)
    requires Lists(byTime, table) && Ascending(byTime) && IpsOf(byTime) == table.Keys && half <= |byTime|
    ensures IpsOf(byTime[..half]) <= table.Keys
    ensures forall out, stays :: out in IpsOf(byTime[..half]) && stays in table && stays !in IpsOf(byTime[..half]) ==>
              table[out].lockUntil <= table[stays].lockUntil
  {
    var dropped := byTime[..half];
    hide IpsOf;
    forall out | out in IpsOf(dropped) ensures out in IpsOf(byTime) {
      var i := IndexOf(dropped, out);
      AtIndex(byTime, i);
    }
    forall out, stays | out in IpsOf(dropped) && stays in table && stays !in IpsOf(dropped)
      ensures table[out].lockUntil <= table[stays].lockUntil
    {
      var i := IndexOf(dropped, out);
      var j := IndexOf(byTime, stays);
      if j < half {
        AtIndex(dropped, j);
      }
      assert byTime[i] == dropped[i] && i < j;
    }
  }

  lemma ListsMore(items: Items, table: Table, ip: string)
    requires Lists(items, table) && ip in table && ip !in IpsOf(items)
    ensures Lists(items + [(ip, table[ip])], table)
    ensures IpsOf(items + [(ip, table[ip])]) == IpsOf(items) + {ip}
  {
  }

  // The entries for the given ips, in an order nothing is known about.
  method ListItems(table: Table, ips: set<string>) returns (items: Items)
    requires ips <= table.Keys
    ensures Lists(items, table) && IpsOf(items) == ips
    decreases |ips|
  {
    if ips == {} {
      return [];
    }
    var ip :| ip in ips;
    items := ListItems(table, ips - {ip});
    ListsMore(items, table, ip);
    items := items + [(ip, table[ip])];
  }

  lemma MinusMore(table: Table, ips: set<string>, ip: string)
    ensures table - ips - {ip} == table - (ips + {ip})
  {
  }

  lemma NoIps(items: Items)
    ensures IpsOf(items[..0]) == {}
  {
  }

  lemma OneMore(items: Items, i: nat)
    requires i < |items|
    ensures IpsOf(items[..i + 1]) == IpsOf(items[..i]) + {items[i].0}
  {
    assert items[..i + 1][..i] == items[..i];
  }

  class Limiter {
    var attempts: Table

    constructor ()
      ensures attempts == map[]
    {
      attempts := map[];
    }

    // Raises 429 (limited) while the ip is locked out; forgets an expired lockout.
    method CheckRateLimit(ip: string, now: real) returns (limited: bool)
      modifies this
      ensures limited == Limited(old(attempts), ip, now)
      ensures limited <==> ip in old(attempts) && old(attempts)[ip].failCount >= 5 && now < old(attempts)[ip].lockUntil
      ensures attempts == Checked(old(attempts), ip, now)
      ensures attempts ==
              if ip in old(attempts) && old(attempts)[ip].failCount >= 5 && now >= old(attempts)[ip].lockUntil
              then old(attempts) - {ip} else old(attempts)
    {
      if ip !in attempts {
        return false;
      }
      var record := attempts[ip];
      if record.failCount >= MAX_LOGIN_ATTEMPTS {
        if now < record.lockUntil {
          return true;
        }
        attempts := attempts - {ip};
      }
      return false;
    }

    method DropExpired(now: real)
      modifies this
      ensures attempts == WithoutExpired(old(attempts), now)
    {
      var expired := set ip |
        ip in attempts && attempts[ip].failCount >= MAX_LOGIN_ATTEMPTS && now >= attempts[ip].lockUntil;
      while expired != {}
        invariant expired <= attempts.Keys
        invariant attempts - expired == WithoutExpired(old(attempts), now)
        decreases |expired|
      {
        var ip :| ip in expired;
        attempts, expired := attempts - {ip}, expired - {ip};
      }
      assert attempts - {} == attempts;
    }

    method DropHalf()
      modifies this
      ensures Eviction.DropsLowestHalf(old(attempts), attempts, LockUntil)
    {
      hide SortedByLock, Ascending, Lists, IpsOf, Eviction.DropsLowestHalf;
      ghost var table := attempts;
      var items := ListItems(attempts, attempts.Keys);
      var byTime := SortedByLock(items);
      SortSorts(items, table);
      NoIps(byTime);
      for i := 0 to |byTime| / 2
        invariant attempts == table - IpsOf(byTime[..i])
      {
        OneMore(byTime, i);
        MinusMore(table, IpsOf(byTime[..i]), byTime[i].0);
        attempts := attempts - {byTime[i].0};
      }
      DropsFirstHalf(table, byTime, attempts);
    }

    method Evict(now: real)
      modifies this
      ensures Evicts(old(attempts), now, attempts)
    {
      if |attempts| >= MAX_TRACKED_IPS {
        DropExpired(now);
        if |attempts| >= MAX_TRACKED_IPS {
          DropHalf();
        }
      }
    }

    method RecordLoginFailure(ip: string, evictAt: real, now: real) returns (ghost kept: Table)
      modifies this
      ensures Evicts(old(attempts), evictAt, kept)
      ensures attempts == Counted(kept, ip, now)
    {
      Evict(evictAt);
      kept := attempts;
      if ip !in attempts {
        attempts := attempts[ip := Entry(1, 0.0)];
      } else {
        var newCount := attempts[ip].failCount + 1;
        var lockUntil := if newCount >= MAX_LOGIN_ATTEMPTS then now + LOCKOUT_SECONDS else 0.0;
        attempts := attempts[ip := Entry(newCount, lockUntil)];
      }
    }

    method RecordLoginSuccess(ip: string)
      modifies this
      ensures attempts == old(attempts) - {ip}
    {
      attempts := attempts - {ip};
    }
  }

  // ---- Runs ----------------------------------------------------------------------------

  // What the endpoint does to the table, with the clock readings it takes, and whether it refused. A login checks the
  // limit, and later, after the password check, records a failure or a success; logins of different ips interleave
  // freely.
  datatype Event =
    | Check(ip: string, at: real, refused: bool)
    | Failure(ip: string, evictAt: real, at: real)
    | Success(ip: string)

  // One event takes table to next; kept is the table after eviction (a failure's first stage).
  ghost predicate Step(e: Event, table: Table, kept: Table, next: Table) {
    match e
    case Check(ip, at, refused) => kept == table && next == Checked(table, ip, at) && refused == Limited(table, ip, at)
    case Failure(ip, evictAt, at) => Evicts(table, evictAt, kept) && next == Counted(kept, ip, at)
    case Success(ip) => kept == table && next == table - {ip}
  }

  // The limiter takes every step; the caller of a check learns whether it was refused.
  method Perform(limiter: Limiter, e: Event) returns (done: Event, ghost kept: Table)
    modifies limiter
    ensures Step(done, old(limiter.attempts), kept, limiter.attempts)
    ensures if e.Check? then done == Check(e.ip, e.at, done.Check? && done.refused) else done == e
  {
    done, kept := e, limiter.attempts;
    match e {
      case Check(ip, at, _) =>
        var refused := limiter.CheckRateLimit(ip, at);
        done := Check(ip, at, refused);
      case Failure(ip, evictAt, at) => kept := limiter.RecordLoginFailure(ip, evictAt, at);
      case Success(ip) => limiter.RecordLoginSuccess(ip);
    }
  }

  ghost predicate IsRun(events: seq<Event>, tables: seq<Table>, kept: seq<Table>) {
    && |tables| == |events| + 1 && |kept| == |events| && tables[0] == map[]
    && forall i :: 0 <= i < |events| ==> Step(events[i], tables[i], kept[i], tables[i + 1])
  }

  ghost predicate WellFormed(table: Table) {
    |table| <= MAX_TRACKED_IPS
    && forall ip :: ip in table ==>
       table[ip].failCount > 0 && (table[ip].lockUntil > 0.0 <==> table[ip].failCount >= MAX_LOGIN_ATTEMPTS)
  }

  lemma StepWellFormed(e: Event, table: Table, kept: Table, next: Table)
    requires WellFormed(table) && Step(e, table, kept, next)
    requires e.Failure? ==> e.at >= 0.0
    ensures WellFormed(next)
  {
    hide Evicts, Counted;
    match e
    case Failure(ip, evictAt, at) =>
      EvictionFits(table, evictAt, kept);
      CountFits(kept, ip, at);
    case _ =>
      SubmapSize(next, table);
  }

  lemma EvictionFits(table: Table, now: real, kept: Table)
    requires WellFormed(table) && Evicts(table, now, kept)
    ensures WellFormed(kept) && |kept| < MAX_TRACKED_IPS
  {
    SubmapSize(WithoutExpired(table, now), table);
    Eviction.EvictsWithin(table, WithoutExpired(table, now), MAX_TRACKED_IPS, kept, LockUntil);
  }

  lemma CountFits(table: Table, ip: string, now: real)
    requires WellFormed(table) && |table| < MAX_TRACKED_IPS && now >= 0.0
    ensures WellFormed(Counted(table, ip, now))
  {
    assert |Counted(table, ip, now)| <= |table| + 1;
  }

  lemma SubmapSize(a: Table, b: Table)
    requires a.Keys <= b.Keys
    ensures |a| <= |b|
  {
    assert |b.Keys - a.Keys| == |b.Keys| - |a.Keys|;
    assert |a.Keys| == |a| && |b.Keys| == |b|;
  }

  ghost function Unexpired(table: Table, now: real): set<string> {
    set ip | ip in table && (table[ip].failCount < 5 || now < table[ip].lockUntil)
  }

  // Nothing is dropped from fewer than 10000 entries. Otherwise the expired lockouts go, all of them and alone if that
  // leaves fewer than 10000 entries; if not, half of the rest goes too, none locked longer than one that stays.
  lemma EvictionMeans(table: Table, now: real, kept: Table)
    requires Evicts(table, now, kept)
    ensures forall ip :: ip in kept ==> ip in table && kept[ip] == table[ip]
    ensures |table| < 10000 ==> kept == table
    ensures |table| >= 10000 ==> kept.Keys <= Unexpired(table, now)
    ensures |table| >= 10000 && |Unexpired(table, now)| < 10000 ==> kept.Keys == Unexpired(table, now)
    ensures |table| >= 10000 && |Unexpired(table, now)| >= 10000 ==>
            && |kept| == |Unexpired(table, now)| - |Unexpired(table, now)| / 2
            && forall out, stays :: out in Unexpired(table, now) && out !in kept && stays in kept ==>
               table[out].lockUntil <= table[stays].lockUntil
  {
    var current := WithoutExpired(table, now);
    assert current.Keys == Unexpired(table, now) && |current| == |current.Keys|;
  }

  // In every reachable state, with a clock that is never negative, the table holds at most 10000 entries, and an entry
  // has a positive lock time iff it counts at least five failures.
  lemma {:induction false} TableBounded(events: seq<Event>, tables: seq<Table>, kept: seq<Table>, n: nat)
    requires IsRun(events, tables, kept) && n <= |events|
    requires forall i :: 0 <= i < |events| && events[i].Failure? ==> events[i].at >= 0.0
    ensures WellFormed(tables[n])
  {
    if n > 0 {
      TableBounded(events, tables, kept, n - 1);
      assert Step(events[n - 1], tables[n - 1], kept[n - 1], tables[n - 1 + 1]);
      hide Step, WellFormed;
      StepWellFormed(events[n - 1], tables[n - 1], kept[n - 1], tables[n]);
    }
  }

  ghost function BelowThreshold(table: Table): set<string> {
    set ip | ip in table && table[ip].failCount < MAX_LOGIN_ATTEMPTS
  }

  // A lockout is dropped under pressure only when all the records below the threshold go too and do not fill the
  // dropped half.
  lemma LockoutDroppedLast(table: Table, kept: Table, ip: string)
    requires WellFormed(table) && Eviction.DropsLowestHalf(table, kept, LockUntil)
    requires ip in table && ip !in kept && table[ip].failCount >= MAX_LOGIN_ATTEMPTS
    ensures BelowThreshold(table) !! kept.Keys
    ensures |BelowThreshold(table)| < |table| / 2
  {
    var dropped := table.Keys - kept.Keys;
    var below := BelowThreshold(table);
    assert below !! kept.Keys;
    assert below + {ip} <= dropped;
    assert |dropped| == |table.Keys| - |kept.Keys| && |table.Keys| == |table| && |kept.Keys| == |kept|;
    assert |dropped - (below + {ip})| == |dropped| - |below + {ip}|;
  }

  // ---- The failure window --------------------------------------------------------------

  function Start(e: Event): real {
    match e case Check(_, at, _) => at case Failure(_, evictAt, _) => evictAt case Success(_) => 0.0
  }

  // The clock never goes back, within an event or between events.
  ghost predicate ClockForward(events: seq<Event>) {
    && (forall i :: 0 <= i < |events| && events[i].Failure? ==> events[i].evictAt <= events[i].at)
    && (forall i, j :: 0 <= i < j < |events| && !events[i].Success? && !events[j].Success? ==>
        events[i].at <= Start(events[j]))
  }

  // After n events, a login of ip is past its rate check and before its outcome.
  predicate InLogin(events: seq<Event>, ip: string, n: nat)
    requires n <= |events|
  {
    n > 0 &&
    var e := events[n - 1];
    if e.ip != ip then InLogin(events, ip, n - 1) else e.Check? && !e.refused
  }

  // Logins of ip come one at a time: an outcome is recorded only by the login whose check was ip's previous event.
  ghost predicate OneAtATime(events: seq<Event>, ip: string) {
    forall i :: 0 <= i < |events| && events[i].ip == ip && !events[i].Check? ==> InLogin(events, ip, i)
  }

  predicate Spared(e: Event, table: Table, kept: Table, ip: string) {
    e.Failure? && ip in WithoutExpired(table, e.evictAt) ==> ip in kept
  }

  // No eviction drops ip's record for want of room. Dropping its expired lockout is allowed.
  ghost predicate RecordKept(events: seq<Event>, tables: seq<Table>, kept: seq<Table>, ip: string)
    requires |tables| == |events| + 1 && |kept| == |events|
  {
    forall i :: 0 <= i < |events| ==> Spared(events[i], tables[i], kept[i], ip)
  }

  // When ip failed since its last success, within the first n events.
  function FailTimes(events: seq<Event>, ip: string, n: nat): seq<real>
    requires n <= |events|
  {
    if n == 0 then []
    else
      var e := events[n - 1];
      if e.ip != ip || e.Check? then FailTimes(events, ip, n - 1)
      else if e.Failure? then FailTimes(events, ip, n - 1) + [e.at]
      else []
  }

  // Failures come in groups of five, a lockout apart.
  ghost predicate Grouped(times: seq<real>) {
    forall i :: 0 <= i < |times| - 1 ==>
      if (i + 1) % 5 == 0 then times[i + 1] >= times[i] + LOCKOUT_SECONDS else times[i + 1] >= times[i]
  }

  // ip's record agrees with its failures since its last success; the clock has not yet passed clock.
  ghost predicate Tracks(table: Table, ip: string, times: seq<real>, inLogin: bool, clock: real) {
    var n := |times|;
    && Grouped(times)
    && (n > 0 ==> times[n - 1] <= clock)
    && (if n % 5 != 0 then ip in table && table[ip].failCount == n % 5
        else if ip in table then n > 0 && table[ip] == Entry(5, times[n - 1] + LOCKOUT_SECONDS) && !inLogin
        else n > 0 ==> clock >= times[n - 1] + LOCKOUT_SECONDS)
  }

  // An eviction leaves ip's record alone, or drops its lockout once it has expired.
  lemma EvictionTracks(table: Table, kept: Table, ip: string, times: seq<real>, inLogin: bool, clock: real,
                       evictAt: real)
    requires Tracks(table, ip, times, inLogin, clock) && clock <= evictAt
    requires Evicts(table, evictAt, kept) && (ip in WithoutExpired(table, evictAt) ==> ip in kept)
    ensures Tracks(kept, ip, times, inLogin, evictAt)
  {
    hide Grouped;
  }

  // Another ip's event does no more.
  lemma OtherTracks(e: Event, table: Table, kept: Table, next: Table, ip: string, times: seq<real>,
                    inLogin: bool, clock: real, clock': real)
    requires Tracks(table, ip, times, inLogin, clock) && Step(e, table, kept, next)
    requires e.ip != ip && Spared(e, table, kept, ip)
    requires clock <= clock' && (e.Failure? ==> clock <= e.evictAt <= clock')
    ensures Tracks(next, ip, times, inLogin, clock')
  {
    hide Grouped, Evicts;
    if e.Failure? {
      EvictionTracks(table, kept, ip, times, inLogin, clock, e.evictAt);
    }
  }

  lemma CheckTracks(table: Table, ip: string, times: seq<real>, inLogin: bool, clock: real, at: real)
    requires Tracks(table, ip, times, inLogin, clock) && clock <= at
    ensures Tracks(Checked(table, ip, at), ip, times, !Limited(table, ip, at), at)
  {
  }

  lemma CountTracks(table: Table, ip: string, times: seq<real>, clock: real, at: real)
    requires Tracks(table, ip, times, true, clock) && clock <= at
    ensures Tracks(Counted(table, ip, at), ip, times + [at], false, at)
  {
  }

  lemma TracksStep(e: Event, table: Table, kept: Table, next: Table, ip: string, times: seq<real>,
                   inLogin: bool, clock: real, clock': real)
    requires Tracks(table, ip, times, inLogin, clock) && Step(e, table, kept, next)
    requires Spared(e, table, kept, ip)
    requires if e.Success? then clock' == clock else clock <= Start(e) <= e.at == clock'
    requires e.ip == ip && !e.Check? ==> inLogin
    ensures Tracks(next, ip, if e.ip != ip || e.Check? then times else if e.Failure? then times + [e.at] else [],
                   if e.ip != ip then inLogin else e.Check? && !e.refused, clock')
  {
    if e.ip != ip {
      OtherTracks(e, table, kept, next, ip, times, inLogin, clock, clock');
    } else {
      match e
      case Check(_, at, _) => CheckTracks(table, ip, times, inLogin, clock, at);
      case Failure(_, evictAt, at) =>
        EvictionTracks(table, kept, ip, times, true, clock, evictAt);
        CountTracks(kept, ip, times, evictAt, at);
      case Success(_) =>
    }
  }

  // The latest clock reading among the first n events.
  function Clock(events: seq<Event>, n: nat): real
    requires n <= |events|
  {
    if n == 0 then 0.0
    else if events[n - 1].Success? then Clock(events, n - 1)
    else events[n - 1].at
  }

  lemma {:induction false} ClockBefore(events: seq<Event>, n: nat)
    requires ClockForward(events) && n < |events| && !events[n].Success?
    requires forall i :: 0 <= i < |events| && !events[i].Success? ==> Start(events[i]) >= 0.0
    ensures Clock(events, n) <= Start(events[n]) <= events[n].at
  {
    var k := n;
    while k > 0 && events[k - 1].Success?
      invariant 0 <= k <= n && Clock(events, n) == Clock(events, k)
    {
      k := k - 1;
    }
  }

  lemma {:induction false} RunTracks(events: seq<Event>, tables: seq<Table>, kept: seq<Table>, ip: string, n: nat)
    requires IsRun(events, tables, kept) && ClockForward(events) && n <= |events|
    requires forall i :: 0 <= i < |events| && !events[i].Success? ==> Start(events[i]) >= 0.0
    requires OneAtATime(events, ip) && RecordKept(events, tables, kept, ip)
    ensures Tracks(tables[n], ip, FailTimes(events, ip, n), InLogin(events, ip, n), Clock(events, n))
  {
    if n > 0 {
      RunTracks(events, tables, kept, ip, n - 1);
      var e := events[n - 1];
      assert Step(e, tables[n - 1], kept[n - 1], tables[n - 1 + 1]) && Spared(e, tables[n - 1], kept[n - 1], ip);
      if !e.Success? {
        ClockBefore(events, n - 1);
      }
      TracksStep(e, tables[n - 1], kept[n - 1], tables[n], ip, FailTimes(events, ip, n - 1),
                 InLogin(events, ip, n - 1), Clock(events, n - 1), Clock(events, n));
    }
  }

  // A check is refused exactly when the failures since the last success come to a multiple of five and the last of them
  // is less than 300 seconds old.
  lemma RefusedExactly(events: seq<Event>, tables: seq<Table>, kept: seq<Table>, ip: string, n: nat)
    requires IsRun(events, tables, kept) && ClockForward(events) && n < |events|
    requires forall i :: 0 <= i < |events| && !events[i].Success? ==> Start(events[i]) >= 0.0
    requires OneAtATime(events, ip) && RecordKept(events, tables, kept, ip)
    requires events[n].Check? && events[n].ip == ip
    ensures var times := FailTimes(events, ip, n);
            events[n].refused <==>
              times != [] && |times| % 5 == 0 && events[n].at < times[|times| - 1] + 300.0
  {
    RunTracks(events, tables, kept, ip, n);
    ClockBefore(events, n);
    assert Step(events[n], tables[n], kept[n], tables[n + 1]);
    hide IsRun, ClockForward, OneAtATime, RecordKept, FailTimes, InLogin, Grouped;
    var times := FailTimes(events, ip, n);
    TracksLimits(tables[n], ip, times, InLogin(events, ip, n), Clock(events, n), events[n].at);
  }

  lemma TracksLimits(table: Table, ip: string, times: seq<real>, inLogin: bool, clock: real, at: real)
    requires Tracks(table, ip, times, inLogin, clock) && clock <= at
    ensures Limited(table, ip, at) <==>
            times != [] && |times| % 5 == 0 && at < times[|times| - 1] + LOCKOUT_SECONDS
  {
    hide Grouped;
  }

  lemma {:induction false} GroupedMonotone(times: seq<real>, i: nat, j: nat)
    requires Grouped(times) && i <= j < |times|
    ensures times[i] <= times[j]
  {
    if i < j {
      GroupedMonotone(times, i, j - 1);
      assert times[j - 1 + 1] >= times[j - 1];
    }
  }

  // Between two failures with no success between them, less than 300 seconds apart, there are at most five failures.
  // (FailTimes at n lists a success-free stretch ending at event n, so this covers every span.)
  lemma FailureWindow(events: seq<Event>, tables: seq<Table>, kept: seq<Table>, ip: string, n: nat, i: nat, j: nat)
    requires IsRun(events, tables, kept) && ClockForward(events) && n <= |events|
    requires forall i :: 0 <= i < |events| && !events[i].Success? ==> Start(events[i]) >= 0.0
    requires OneAtATime(events, ip) && RecordKept(events, tables, kept, ip)
    requires i <= j < |FailTimes(events, ip, n)|
    requires FailTimes(events, ip, n)[j] - FailTimes(events, ip, n)[i] < LOCKOUT_SECONDS
    ensures j - i + 1 <= MAX_LOGIN_ATTEMPTS
  {
    RunTracks(events, tables, kept, ip, n);
    TracksGrouped(tables[n], ip, FailTimes(events, ip, n), InLogin(events, ip, n), Clock(events, n));
    hide *;
    FiveInAWindow(FailTimes(events, ip, n), i, j);
  }

  lemma TracksGrouped(table: Table, ip: string, times: seq<real>, inLogin: bool, clock: real)
    requires Tracks(table, ip, times, inLogin, clock)
    ensures Grouped(times)
  {
  }

  lemma GroupBoundary(times: seq<real>, i: nat, j: nat)
    requires Grouped(times) && i + 5 <= j < |times|
    ensures var boundary := i + 4 - i % 5;
            i <= boundary && boundary + 1 <= j && times[boundary + 1] >= times[boundary] + LOCKOUT_SECONDS
  {
    var boundary := i + 4 - i % 5;
    assert (boundary + 1) % 5 == 0;
  }

  lemma FiveInAWindow(times: seq<real>, i: nat, j: nat)
    requires Grouped(times) && i <= j < |times| && times[j] - times[i] < LOCKOUT_SECONDS
    ensures j - i + 1 <= MAX_LOGIN_ATTEMPTS
  {
    hide Grouped;
    if j >= i + 5 {
      var boundary := i + 4 - i % 5;
      GroupBoundary(times, i, j);
      GroupedMonotone(times, i, boundary);
      GroupedMonotone(times, boundary + 1, j);
    }
  }
}
