/** The timer queue of planned jobs (src/master/cron_manager.cpp:73-132, 190-234): cancellation only
    marks a handler, and the queue drops it when its time comes. */
module Cron {

  type Time = int
  type Name = string

  datatype Handler = Handler(id: nat, name: Name, deadline: Time)

  /** `queue` is the multimap `jobs_` in its order, `removed` the set of handlers with the flag set. */
  datatype Table = Table(queue: seq<Handler>, names: map<Name, Handler>, removed: set<nat>, next: nat)

  const Nothing: Table := Table([], map[], {}, 0)

  // ---- steps ----

  /** Insertion behind the entries that are not later. */
  function Insert(q: seq<Handler>, h: Handler): seq<Handler> {
    if q == [] || q[|q| - 1].deadline <= h.deadline then q + [h]
    else Insert(q[..|q| - 1], h) + [q[|q| - 1]]
  }

  /** `PushJob` and `PushMetaJob`. */
  function Push(c: Table, name: Name, deadline: Time): Table {
    var h := Handler(c.next, name, deadline);
    c.(queue := Insert(c.queue, h), names := c.names[name := h], next := c.next + 1)
  }

  function StopJob(c: Table, name: Name): Table {
    if name in c.names then c.(removed := c.removed + {c.names[name].id}, names := c.names - {name}) else c
  }

  function Ids(q: seq<Handler>): set<nat> {
    set h | h in q :: h.id
  }

  function StopAllJobs(c: Table): Table {
    c.(queue := [], names := map[], removed := c.removed + Ids(c.queue))
  }

  /** `CheckTimeouts`: the handlers to run and the table without the entries that are due. */
  function Check(c: Table, now: Time): (seq<Handler>, Table)
    decreases |c.queue|
  {
    if c.queue == [] || now < c.queue[0].deadline then ([], c) else
      var h, rest := c.queue[0], c.queue[1..];
      if h.id in c.removed then Check(c.(queue := rest), now)
      else
        var (fired, c1) := Check(c.(queue := rest, names := c.names - {h.name}), now);
        ([h] + fired, c1)
  }

  // ---- the invariant ----

  /** By deadline, and among equal deadlines in the order in which they were pushed. */
  ghost predicate Sorted(q: seq<Handler>) {
    forall i, k | 0 <= i < k < |q| ::
      q[i].deadline < q[k].deadline || (q[i].deadline == q[k].deadline && q[i].id < q[k].id)
  }

  /** `h` comes before `l` in that order. */
  ghost predicate Earlier(h: Handler, l: Handler) {
    h.deadline < l.deadline || (h.deadline == l.deadline && h.id < l.id)
  }

  ghost predicate DistinctIds(q: seq<Handler>) {
    forall i, k | 0 <= i < k < |q| :: q[i].id != q[k].id
  }

  ghost predicate Live(c: Table, h: Handler) {
    h in c.queue && h.id !in c.removed
  }

  /** What holds whatever is pushed. */
  ghost predicate QueueOk(c: Table) {
    && Sorted(c.queue) && DistinctIds(c.queue)
    && (forall h | h in c.queue :: h.id < c.next) && (forall x | x in c.removed :: x < c.next)
    && (forall n | n in c.names :: c.names[n].name == n && c.names[n].id < c.next)
  }

  /** The name index is exactly the live handlers: `names` is then the eager table that a
      cancellation or a check would have updated at once. */
  ghost predicate Exact(c: Table) {
    && (forall h | Live(c, h) :: h.name in c.names && c.names[h.name] == h)
    && (forall n | n in c.names :: Live(c, c.names[n]))
  }

  // ---- insertion ----

  lemma {:induction false} InsertedContents(q: seq<Handler>, h: Handler)
    ensures forall x :: x in Insert(q, h) <==> x in q || x == h
    decreases |q|
  {
    if !(q == [] || q[|q| - 1].deadline <= h.deadline) {
      assert q == q[..|q| - 1] + [q[|q| - 1]];
      InsertedContents(q[..|q| - 1], h);
    }
  }

  lemma Appended(q: seq<Handler>, l: Handler)
    requires Sorted(q) && DistinctIds(q) && forall x | x in q :: Earlier(x, l) && x.id != l.id
    ensures Sorted(q + [l]) && DistinctIds(q + [l])
  {
  }

  lemma Prefix(q: seq<Handler>)
    requires Sorted(q) && DistinctIds(q) && q != []
    ensures var p, l := q[..|q| - 1], q[|q| - 1];
            && Sorted(p) && DistinctIds(p) && q == p + [l]
            && forall x | x in p :: x in q && Earlier(x, l) && x.id != l.id
  {
    forall x | x in q[..|q| - 1] ensures x in q && Earlier(x, q[|q| - 1]) && x.id != q[|q| - 1].id {
      var i :| 0 <= i < |q| - 1 && q[i] == x;
    }
  }

  lemma {:induction false} Inserted(q: seq<Handler>, h: Handler)
    requires Sorted(q) && DistinctIds(q) && forall x | x in q :: x.id < h.id
    ensures Sorted(Insert(q, h)) && DistinctIds(Insert(q, h))
    decreases |q|
  {
    hide Sorted, DistinctIds;
    if q == [] {
      Appended(q, h);
    } else {
      var p, l := q[..|q| - 1], q[|q| - 1];
      Prefix(q);
      if l.deadline <= h.deadline {
        Appended(q, h);
      } else {
        Inserted(p, h);
        InsertedContents(p, h);
        Appended(Insert(p, h), l);
      }
    }
  }

  lemma PushOk(c: Table, name: Name, deadline: Time)
    requires QueueOk(c)
    ensures QueueOk(Push(c, name, deadline))
    ensures forall x :: x in Push(c, name, deadline).queue <==> x in c.queue || x == Handler(c.next, name, deadline)
  {
    hide Insert, Sorted, DistinctIds;
    Inserted(c.queue, Handler(c.next, name, deadline));
    InsertedContents(c.queue, Handler(c.next, name, deadline));
  }

  /** A push keeps the index exact if and only if the name is not in use. */
  lemma PushExactIff(c: Table, name: Name, deadline: Time)
    requires QueueOk(c) && Exact(c)
    ensures Exact(Push(c, name, deadline)) <==> name !in c.names
  {
    hide Sorted, DistinctIds, Insert;
    PushOk(c, name, deadline);
    var c1, h := Push(c, name, deadline), Handler(c.next, name, deadline);
    assert h.id !in c.removed && h !in c.queue;
    if name in c.names {
      var first := c.names[name];
      assert Live(c, first);
      assert Live(c1, first) && c1.names[first.name] != first;
    } else {
      forall x | Live(c1, x) ensures x.name in c1.names && c1.names[x.name] == x {
        if x != h {
          assert Live(c, x);
        }
      }
      forall n | n in c1.names ensures Live(c1, c1.names[n]) {
        if n != name {
          assert Live(c, c.names[n]);
        }
      }
    }
  }

  // ---- cancellation ----

  lemma StopOk(c: Table, name: Name)
    requires QueueOk(c)
    ensures QueueOk(StopJob(c, name))
    ensures Exact(c) ==> Exact(StopJob(c, name))
  {
    hide Sorted;
    if name in c.names && Exact(c) {
      var h, c1 := c.names[name], StopJob(c, name);
      forall x | Live(c1, x) ensures x.name in c1.names && c1.names[x.name] == x {
        assert Live(c, x);
      }
      forall n | n in c1.names ensures Live(c1, c1.names[n]) {
        assert Live(c, c.names[n]) && Live(c, h) && c.names[n] != h;
        SameId(c.queue, c.names[n], h);
      }
    }
  }

  lemma SameId(q: seq<Handler>, a: Handler, b: Handler)
    requires DistinctIds(q) && a in q && b in q && a != b
    ensures a.id != b.id
  {
    var i :| 0 <= i < |q| && q[i] == a;
    var k :| 0 <= k < |q| && q[k] == b;
  }

  // ---- checking ----

  lemma Tail(c: Table)
    requires QueueOk(c) && c.queue != []
    ensures QueueOk(c.(queue := c.queue[1..])) && QueueOk(c.(queue := c.queue[1..], names := c.names - {c.queue[0].name}))
    ensures forall x | x in c.queue[1..] :: x != c.queue[0] && Earlier(c.queue[0], x)
  {
    forall x | x in c.queue[1..] ensures x in c.queue && x.id != c.queue[0].id && Earlier(c.queue[0], x) {
      var i :| 1 <= i < |c.queue| && c.queue[i] == x;
    }
  }

  lemma TailExact(c: Table)
    requires QueueOk(c) && Exact(c) && c.queue != []
    ensures var h, rest := c.queue[0], c.queue[1..];
            if h.id in c.removed then Exact(c.(queue := rest))
            else Exact(c.(queue := rest, names := c.names - {h.name}))
  {
    hide QueueOk;
    Tail(c);
    var h, rest := c.queue[0], c.queue[1..];
    assert forall x :: x in c.queue <==> x == h || x in rest;
    var c1 := if h.id in c.removed then c.(queue := rest) else c.(queue := rest, names := c.names - {h.name});
    forall x | Live(c1, x) ensures x.name in c1.names && c1.names[x.name] == x {
      assert Live(c, x);
      assert Live(c, h) ==> c.names[h.name] == h;
    }
    forall n | n in c1.names ensures Live(c1, c1.names[n]) {
      assert Live(c, c.names[n]);
      NameOf(c, n);
    }
  }

  lemma NameOf(c: Table, n: Name)
    requires QueueOk(c) && n in c.names
    ensures c.names[n].name == n
  {
  }

  /** A check fires exactly the handlers of the index that are due, in the order of their deadlines and
      once each, and leaves the others. */
  lemma {:induction false} CheckFires(c: Table, now: Time)
    requires QueueOk(c) && Exact(c)
    ensures var (fired, c1) := Check(c, now);
            && QueueOk(c1) && Exact(c1)
            && (forall h :: h in fired <==> h.name in c.names && c.names[h.name] == h && h.deadline <= now)
            && Sorted(fired) && DistinctIds(fired)
            && (forall n :: n in c1.names <==> n in c.names && now < c.names[n].deadline)
            && (forall n | n in c1.names :: c1.names[n] == c.names[n])
    decreases |c.queue|
  {
    hide QueueOk, Exact, Sorted, DistinctIds;
    if c.queue == [] || now < c.queue[0].deadline {
      NothingDue(c, now);
    } else {
      var h, rest := c.queue[0], c.queue[1..];
      Tail(c);
      TailExact(c);
      if h.id in c.removed {
        CheckFires(c.(queue := rest), now);
      } else {
        HeadIsNamed(c);
        var c0 := c.(queue := rest, names := c.names - {h.name});
        CheckFires(c0, now);
        FiredInOrder(c, now);
        forall n | n in c.names ensures c.names[n].name == n {
          NameOf(c, n);
        }
      }
    }
  }

  lemma HeadIsNamed(c: Table)
    requires Exact(c) && c.queue != [] && c.queue[0].id !in c.removed
    ensures c.queue[0].name in c.names && c.names[c.queue[0].name] == c.queue[0]
  {
    assert Live(c, c.queue[0]);
  }

  lemma NothingDue(c: Table, now: Time)
    requires QueueOk(c) && Exact(c) && (c.queue == [] || now < c.queue[0].deadline)
    ensures forall n | n in c.names :: now < c.names[n].deadline
    ensures Sorted([]) && DistinctIds([])
  {
    forall n | n in c.names ensures now < c.names[n].deadline {
      assert Live(c, c.names[n]);
      var i :| 0 <= i < |c.queue| && c.queue[i] == c.names[n];
    }
  }

  lemma Prepended(h: Handler, q: seq<Handler>)
    requires Sorted(q) && DistinctIds(q) && forall x | x in q :: Earlier(h, x) && h.id != x.id
    ensures Sorted([h] + q) && DistinctIds([h] + q)
  {
  }

  /** What a check fires comes from the queue, whatever the index says. */
  lemma {:induction false} FiredFromQueue(c: Table, now: Time)
    requires QueueOk(c)
    ensures var (fired, c1) := Check(c, now);
            && QueueOk(c1) && c1.removed == c.removed && c1.next == c.next
            && (forall h | h in fired :: Live(c, h) && h !in c1.queue)
            && (forall h | h in c1.queue :: h in c.queue)
            && Sorted(fired) && DistinctIds(fired)
    decreases |c.queue|
  {
    hide QueueOk, Sorted, DistinctIds;
    NothingInOrder();
    if !(c.queue == [] || now < c.queue[0].deadline) {
      var h, rest := c.queue[0], c.queue[1..];
      Tail(c);
      TailIds(c);
      var c0 := if h.id in c.removed then c.(queue := rest) else c.(queue := rest, names := c.names - {h.name});
      FiredFromQueue(c0, now);
      assert forall x | x in rest :: x in c.queue;
      Prepended(h, Check(c0, now).0);
    }
  }

  lemma NothingInOrder()
    ensures Sorted([]) && DistinctIds([])
  {
  }

  /** A check takes exactly the names of what it fires out of the index, also when a name stands for a
      later push by now. */
  lemma {:induction false} CheckNames(c: Table, now: Time)
    ensures var (fired, c1) := Check(c, now);
            && (forall n :: n in c1.names <==> n in c.names && forall h | h in fired :: h.name != n)
            && (forall n | n in c1.names :: c1.names[n] == c.names[n])
    decreases |c.queue|
  {
    if !(c.queue == [] || now < c.queue[0].deadline) {
      var h, rest := c.queue[0], c.queue[1..];
      CheckNames(if h.id in c.removed then c.(queue := rest) else c.(queue := rest, names := c.names - {h.name}), now);
    }
  }

  lemma TailIds(c: Table)
    requires QueueOk(c) && c.queue != []
    ensures forall x | x in c.queue[1..] :: x.id != c.queue[0].id
  {
    forall x | x in c.queue[1..] ensures x.id != c.queue[0].id {
      var i :| 1 <= i < |c.queue| && c.queue[i] == x;
    }
  }

  lemma FiredInOrder(c: Table, now: Time)
    requires QueueOk(c)
    ensures Sorted(Check(c, now).0) && DistinctIds(Check(c, now).0)
  {
    FiredFromQueue(c, now);
  }

  // ---- runs ----

  datatype Event = Pushed(name: Name, deadline: Time) | Stopped(name: Name) | AllStopped | Checked(now: Time)

  function Next(c: Table, e: Event): Table {
    match e
    case Pushed(name, deadline) => Push(c, name, deadline)
    case Stopped(name) => StopJob(c, name)
    case AllStopped => StopAllJobs(c)
    case Checked(now) => Check(c, now).1
  }

  function Fired(c: Table, e: Event): seq<Handler> {
    if e.Checked? then Check(c, e.now).0 else []
  }

  function After(es: seq<Event>): Table {
    if es == [] then Nothing else Next(After(es[..|es| - 1]), es[|es| - 1])
  }

  lemma StopAllOk(c: Table)
    requires QueueOk(c)
    ensures QueueOk(StopAllJobs(c)) && Exact(StopAllJobs(c))
    ensures forall h | h in c.queue :: h.id in StopAllJobs(c).removed
  {
    forall x | x in Ids(c.queue) ensures x < c.next {
    }
  }

  lemma NextOk(c: Table, e: Event)
    requires QueueOk(c)
    ensures QueueOk(Next(c, e))
  {
    hide QueueOk, Check;
    match e
    case Pushed(name, deadline) => PushOk(c, name, deadline);
    case Stopped(name) => StopOk(c, name);
    case AllStopped => StopAllOk(c);
    case Checked(now) => FiredFromQueue(c, now);
  }

  lemma {:induction false} RunOk(es: seq<Event>)
    ensures QueueOk(After(es))
    decreases |es|
  {
    hide Next;
    if es != [] {
      RunOk(es[..|es| - 1]);
      NextOk(After(es[..|es| - 1]), es[|es| - 1]);
    }
  }

  /** Over every run, whatever is pushed and stopped: the queue is in the order of deadlines and, among
      equal ones, of pushes, and a check fires in that order. */
  lemma OrderOverRuns(es: seq<Event>, now: Time)
    ensures var q, fired := After(es).queue, Fired(After(es), Checked(now));
            && (forall i, k | 0 <= i < k < |q| ::
                  q[i].deadline < q[k].deadline || (q[i].deadline == q[k].deadline && q[i].id < q[k].id))
            && (forall i, k | 0 <= i < k < |fired| ::
                  fired[i].deadline < fired[k].deadline
                  || (fired[i].deadline == fired[k].deadline && fired[i].id < fired[k].id))
  {
    RunOk(es);
    FiredFromQueue(After(es), now);
    hide After, Check;
  }

  // ---- the eager table ----

  /** What a cron service without lazy cancellation would keep: a name has at most one deadline, and
      stopping or firing takes it out at once. */
  datatype Plan = Plan(due: map<Name, Handler>, next: nat)

  function Eager(es: seq<Event>): Plan {
    if es == [] then Plan(map[], 0) else
      var m := Eager(es[..|es| - 1]);
      match es[|es| - 1]
      case Pushed(name, deadline) => Plan(m.due[name := Handler(m.next, name, deadline)], m.next + 1)
      case Stopped(name) => m.(due := m.due - {name})
      case AllStopped => m.(due := map[])
      case Checked(now) => m.(due := map n | n in m.due && now < m.due[n].deadline :: m.due[n])
  }

  /** Every push uses a name that is not planned. */
  predicate FreshRun(es: seq<Event>) {
    es == [] ||
    (FreshRun(es[..|es| - 1]) &&
     (es[|es| - 1].Pushed? ==> es[|es| - 1].name !in After(es[..|es| - 1]).names))
  }

  ghost predicate AlwaysExact(es: seq<Event>) {
    Exact(After(es)) && (es == [] || AlwaysExact(es[..|es| - 1]))
  }

  lemma NextExactIff(c: Table, e: Event)
    requires QueueOk(c) && Exact(c)
    ensures Exact(Next(c, e)) <==> (e.Pushed? ==> e.name !in c.names)
  {
    hide QueueOk, Exact, Check, Push, StopJob, StopAllJobs;
    match e
    case Pushed(name, deadline) => PushExactIff(c, name, deadline);
    case Stopped(name) => StopOk(c, name);
    case AllStopped => StopAllOk(c);
    case Checked(now) => CheckFires(c, now);
  }

  /** The index stays exact throughout a run if and only if every push uses a free name. */
  lemma {:induction false} ExactIffFresh(es: seq<Event>)
    ensures AlwaysExact(es) <==> FreshRun(es)
    decreases |es|
  {
    hide Next, Exact;
    if es == [] {
      NothingExact();
    } else {
      var p := es[..|es| - 1];
      ExactIffFresh(p);
      RunOk(p);
      if AlwaysExact(p) {
        NextExactIff(After(p), es[|es| - 1]);
      }
    }
  }

  lemma NothingExact()
    ensures Exact(Nothing)
  {
  }

  lemma SamePlan(c: Table, now: Time)
    requires QueueOk(c) && Exact(c)
    ensures Check(c, now).1.names == map n | n in c.names && now < c.names[n].deadline :: c.names[n]
    ensures Check(c, now).1.next == c.next
  {
    hide QueueOk, Exact, Check;
    CheckFires(c, now);
    FiredFromQueue(c, now);
  }

  /** Lazy cancellation refines the eager table: with fresh names the index is the eager table after
      every run, and a check fires exactly what the eager table has due. */
  lemma {:induction false} RefinesEager(es: seq<Event>, now: Time)
    requires FreshRun(es)
    ensures After(es).names == Eager(es).due && After(es).next == Eager(es).next
    ensures forall h :: h in Fired(After(es), Checked(now)) <==>
                        h.name in Eager(es).due && Eager(es).due[h.name] == h && h.deadline <= now
    decreases |es|
  {
    hide Exact, QueueOk, Check;
    if es != [] {
      RefinesEager(es[..|es| - 1], now);
      ExactIffFresh(es[..|es| - 1]);
      RunOk(es[..|es| - 1]);
      if es[|es| - 1].Checked? {
        SamePlan(After(es[..|es| - 1]), es[|es| - 1].now);
      }
    }
    ExactIffFresh(es);
    RunOk(es);
    CheckFires(After(es), now);
  }

  // ---- each handler fires at most once ----

  ghost predicate Gone(c: Table, id: nat) {
    id < c.next && (id in c.removed || forall h | h in c.queue :: h.id != id)
  }

  lemma CheckedGone(c: Table, now: Time, id: nat)
    requires QueueOk(c)
    ensures Gone(c, id) ==> Gone(Check(c, now).1, id) && forall h | h in Check(c, now).0 :: h.id != id
    ensures (exists h :: h in Check(c, now).0 && h.id == id) ==> Gone(Check(c, now).1, id)
  {
    FiredFromQueue(c, now);
    var (fired, c1) := Check(c, now);
    if h :| h in fired && h.id == id {
      assert Live(c, h) && h.id < c.next;
      forall x | x in c1.queue ensures x.id != id {
        SameId(c.queue, x, h);
      }
    }
    hide Check, Sorted, DistinctIds;
  }

  /** A handler that was stopped, fired or dropped never fires again; one that fires is gone. */
  lemma GoneStays(c: Table, e: Event, id: nat)
    requires QueueOk(c)
    ensures Gone(c, id) ==> Gone(Next(c, e), id) && forall h | h in Fired(c, e) :: h.id != id
    ensures (exists h :: h in Fired(c, e) && h.id == id) ==> Gone(Next(c, e), id)
  {
    hide Check, Insert, Sorted, DistinctIds;
    match e
    case Pushed(name, deadline) => PushOk(c, name, deadline);
    case Stopped(name) =>
    case AllStopped =>
    case Checked(now) => CheckedGone(c, now, id);
  }

  predicate Fires(c: Table, e: Event, id: nat) {
    exists h :: h in Fired(c, e) && h.id == id
  }

  function FireCount(es: seq<Event>, id: nat): nat {
    if es == [] then 0 else
      var p := es[..|es| - 1];
      FireCount(p, id) + if Fires(After(p), es[|es| - 1], id) then 1 else 0
  }

  /** Over every run, whatever names are pushed, each handler fires at most once. */
  lemma {:induction false} FiresOnce(es: seq<Event>, id: nat)
    ensures FireCount(es, id) <= 1
    ensures FireCount(es, id) == 1 ==> Gone(After(es), id)
    decreases |es|
  {
    hide Next, Fired, Gone;
    if es != [] {
      var p := es[..|es| - 1];
      FiresOnce(p, id);
      RunOk(p);
      GoneStays(After(p), es[|es| - 1], id);
    }
  }

  lemma {:induction false} GoneForever(es: seq<Event>, more: seq<Event>, id: nat)
    requires Gone(After(es), id)
    ensures Gone(After(es + more), id) && FireCount(es + more, id) == FireCount(es, id)
    decreases |more|
  {
    hide Next, Fired, Gone;
    if more == [] {
      assert es + more == es;
    } else {
      var m := more[..|more| - 1];
      GoneForever(es, m, id);
      assert (es + more)[..|es + more| - 1] == es + m;
      RunOk(es + m);
      GoneStays(After(es + m), more[|more| - 1], id);
    }
  }

  /** A stopped handler never fires afterwards, even if its name is pushed again before its old
      deadline. */
  lemma StoppedNeverFires(es: seq<Event>, name: Name, more: seq<Event>)
    requires name in After(es).names
    ensures var id := After(es).names[name].id;
            FireCount(es + [Stopped(name)] + more, id) == FireCount(es, id)
  {
    var id, es1 := After(es).names[name].id, es + [Stopped(name)];
    RunOk(es);
    assert es1[..|es1| - 1] == es;
    assert Gone(After(es1), id);
    assert !Fires(After(es), Stopped(name), id);
    GoneForever(es1, more, id);
  }

  lemma PushedTwice()
    ensures var es := [Pushed("job", 5), Pushed("job", 9)];
            var h0, h1 := Handler(0, "job", 5), Handler(1, "job", 9);
            !FreshRun(es) && After(es) == Table([h0, h1], map["job" := h1], {}, 2)
  {
    var e0, e1 := Pushed("job", 5), Pushed("job", 9);
    var h0, h1 := Handler(0, "job", 5), Handler(1, "job", 9);
    assert [e0][..0] == [] && [e0, e1][..1] == [e0];
    assert Insert([], h0) == [h0] && Insert([h0], h1) == [h0, h1];
    assert After([e0]) == Table([h0], map["job" := h0], {}, 1);
  }

  /** Pushing a name that is still planned: the first handler leaves the index but stays in the queue,
      so stopping the name does not keep it from firing. */
  lemma StopMissesEarlierPush()
    ensures var es := [Pushed("job", 5), Pushed("job", 9), Stopped("job")];
            !FreshRun(es) && Fired(After(es), Checked(5)) == [Handler(0, "job", 5)]
  {
    hide Insert;
    PushedTwice();
    var e0, e1, e2 := Pushed("job", 5), Pushed("job", 9), Stopped("job");
    var h0, h1 := Handler(0, "job", 5), Handler(1, "job", 9);
    assert [e0, e1, e2][..2] == [e0, e1];
    var c := After([e0, e1, e2]);
    assert c == Table([h0, h1], map[], {1}, 2);
    assert c.queue[1..] == [h1];
    var c1 := c.(queue := [h1], names := c.names - {"job"});
    assert Check(c1, 5) == ([], c1);
  }

  // ---- the object ----

  class CronManager {
    var jobs: seq<Handler>
    var names: map<Name, Handler>
    var removed: set<nat>
    var next: nat

    ghost function View(): Table
      reads this
    {
      Table(jobs, names, removed, next)
    }

    constructor ()
      ensures View() == Nothing
    {
      jobs, names, removed, next := [], map[], {}, 0;
    }

    method PushJob(name: Name, deadline: Time)
      modifies this
      ensures View() == Push(old(View()), name, deadline)
    {
      var handler := Handler(next, name, deadline);
      next := next + 1;
      var i := |jobs|;
      assert jobs[..i] == jobs && jobs[i..] == [];
      while i > 0 && deadline < jobs[i - 1].deadline
        invariant 0 <= i <= |jobs|
        invariant Insert(jobs, handler) == Insert(jobs[..i], handler) + jobs[i..]
      {
        assert jobs[..i][..i - 1] == jobs[..i - 1];
        i := i - 1;
      }
      jobs := jobs[..i] + [handler] + jobs[i..];
      names := names[name := handler];
    }

    method Stop(name: Name)
      modifies this
      ensures View() == StopJob(old(View()), name)
    {
      if name in names {
        removed := removed + {names[name].id};
        names := names - {name};
      }
    }

    method StopAll()
      modifies this
      ensures View() == StopAllJobs(old(View()))
    {
      var i := 0;
      while i < |jobs|
        invariant 0 <= i <= |jobs| && jobs == old(jobs) && next == old(next)
        invariant removed == old(removed) + Ids(jobs[..i])
      {
        assert jobs[..i + 1] == jobs[..i] + [jobs[i]];
        removed := removed + {jobs[i].id};
        i := i + 1;
      }
      assert jobs[..i] == jobs;
      assert removed == old(removed) + Ids(old(jobs));
      jobs, names := [], map[];
    }

    method CheckTimeouts(now: Time) returns (ready: seq<Handler>)
      modifies this
      ensures (ready, View()) == Check(old(View()), now)
    {
      ready := [];
      while |jobs| > 0 && jobs[0].deadline <= now
        invariant removed == old(removed) && next == old(next)
        invariant Check(old(View()), now).0 == ready + Check(View(), now).0
        invariant Check(old(View()), now).1 == Check(View(), now).1
        decreases |jobs|
      {
        var handler := jobs[0];
        ghost var fired := Check(View(), now).0;
        assert handler.id !in removed ==> ready + fired == ready + [handler] + fired[1..];
        if handler.id !in removed {
          ready := ready + [handler];
          names := names - {handler.name};
        }
        jobs := jobs[1..];
      }
      assert ready + [] == ready;
    }
  }
}
