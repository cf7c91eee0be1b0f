/** The whereabouts of the tasks of one job.  A row collects, from all the tables of the
    scheduler, what concerns one job; the conservation law is a law about rows. */
module Rows {
  import opened Ordering
  import opened WorkerJobs

  type Holding = map<IP, set<TaskId>>

  /** `limbo` holds the tasks that have been taken off a worker but not yet been put back. */
  datatype Row = Row(
    pending: set<TaskId>, resched: set<TaskId>, held: Holding, limbo: set<TaskId>,
    execs: int, running: int, planned: nat)

  ghost function AllHeld(h: Holding): set<TaskId> {
    set ip, t | ip in h && t in h[ip] :: t
  }

  ghost function Unfinished(r: Row): set<TaskId> {
    r.pending + r.resched + AllHeld(r.held) + r.limbo
  }

  /** Tasks of the interval `[0, planned)` that are nowhere: credited or dropped. */
  ghost function Done(r: Row): set<TaskId> {
    Below(r.planned) - Unfinished(r)
  }

  /** Cardinality, as a function of its own so that proofs can treat it as a symbol. */
  ghost function Size(s: set<TaskId>): nat {
    |s|
  }

  ghost predicate HeldOnce(h: Holding) {
    forall a, b | a in h && b in h && a != b :: h[a] !! h[b]
  }

  ghost predicate Apart(p: set<TaskId>, q: set<TaskId>, h: set<TaskId>, l: set<TaskId>) {
    p !! q && l !! p + q && h !! p + q + l
  }

  /** Each task is in at most one place, no place knows a task beyond the planned ones, and the
      two counters count what they are named after. */
  ghost predicate RowOk(r: Row) {
    && Apart(r.pending, r.resched, AllHeld(r.held), r.limbo)
    && HeldOnce(r.held)
    && Unfinished(r) <= Below(r.planned)
    && r.execs == Size(Unfinished(r))
    && r.running == Size(AllHeld(r.held) + r.limbo)
  }

  // ---- who holds what ----

  lemma WithoutHolder(h: Holding, ip: IP)
    requires ip in h && HeldOnce(h)
    ensures AllHeld(h) == AllHeld(h - {ip}) + h[ip]
    ensures AllHeld(h - {ip}) !! h[ip]
    ensures HeldOnce(h - {ip})
  {
    assert forall x | x in h - {ip} :: x in h && (h - {ip})[x] == h[x];
  }

  lemma WithHolder(h: Holding, ip: IP, ts: set<TaskId>)
    ensures AllHeld(h[ip := ts]) == AllHeld(h - {ip}) + ts
  {
    var h0, h1 := h - {ip}, h[ip := ts];
    forall t | t in AllHeld(h1) ensures t in AllHeld(h0) + ts {
      var x :| x in h1 && t in h1[x];
      if x != ip {
        assert x in h0 && t in h0[x];
      }
    }
    forall t | t in AllHeld(h0) + ts ensures t in AllHeld(h1) {
      if t in ts {
        assert t in h1[ip];
      } else {
        var x :| x in h0 && t in h0[x];
        assert x in h1 && t in h1[x];
      }
    }
  }

  lemma SentHolding(h: Holding, ip: IP, b: set<TaskId>)
    requires HeldOnce(h) && AllHeld(h) !! b
    ensures var h1 := h[ip := (if ip in h then h[ip] else {}) + b];
            HeldOnce(h1) && AllHeld(h1) == AllHeld(h) + b
  {
    var before := if ip in h then h[ip] else {};
    var h1 := h[ip := before + b];
    WithHolder(h, ip, before + b);
    if ip in h {
      WithoutHolder(h, ip);
    } else {
      assert h - {ip} == h;
    }
    forall x | x in h && x != ip ensures h[x] !! before + b {
      assert forall t | t in h[x] :: t in AllHeld(h);
    }
  }

  lemma CreditedHolding(h: Holding, ip: IP, t: TaskId)
    requires HeldOnce(h) && ip in h && t in h[ip]
    ensures var h1 := if h[ip] == {t} then h - {ip} else h[ip := h[ip] - {t}];
            HeldOnce(h1) && AllHeld(h1) == AllHeld(h) - {t}
    ensures t in AllHeld(h)
  {
    WithoutHolder(h, ip);
    if h[ip] != {t} {
      WithHolder(h, ip, h[ip] - {t});
      forall x | x in h && x != ip ensures h[x] !! h[ip] - {t} {
      }
    }
  }

  // ---- moving tasks between places ----

  /** All that worker `ip` holds goes to limbo. */
  ghost function Lifted(r: Row, ip: IP): Row {
    if ip in r.held then r.(held := r.held - {ip}, limbo := r.held[ip]) else r
  }

  lemma LiftedSets(p: set<TaskId>, q: set<TaskId>, h: set<TaskId>, l: set<TaskId>)
    requires Apart(p, q, h + l, {}) && h !! l
    ensures Apart(p, q, h, l)
    ensures p + q + (h + l) + {} == p + q + h + l
    ensures h + l + {} == h + l
  {
  }

  lemma LiftedOk(r: Row, ip: IP)
    requires RowOk(r) && r.limbo == {}
    ensures RowOk(Lifted(r, ip))
  {
    hide AllHeld, HeldOnce, Below, Size, Apart;
    if ip in r.held {
      WithoutHolder(r.held, ip);
      var r1 := Lifted(r, ip);
      LiftedSets(r.pending, r.resched, AllHeld(r1.held), r1.limbo);
    }
  }

  ghost function Relisted(r: Row): Row {
    r.(resched := r.resched + r.limbo, limbo := {}, running := r.running - Size(r.limbo))
  }

  lemma SizeOfApart(a: set<TaskId>, b: set<TaskId>)
    requires a !! b
    ensures Size(a + b) == Size(a) + Size(b)
  {
  }

  lemma SizeWithout(a: set<TaskId>, t: TaskId)
    requires t in a
    ensures Size(a - {t}) == Size(a) - 1
  {
  }

  lemma RelistedOk(r: Row)
    requires RowOk(r)
    ensures RowOk(Relisted(r))
  {
    hide AllHeld, HeldOnce, Below, Size;
    SizeOfApart(AllHeld(r.held), r.limbo);
    assert Unfinished(Relisted(r)) == Unfinished(r);
    assert AllHeld(r.held) + {} == AllHeld(r.held);
  }

  ghost function Dropped(r: Row): Row {
    r.(limbo := {}, execs := r.execs - Size(r.limbo), running := r.running - Size(r.limbo))
  }

  lemma DroppedOk(r: Row)
    requires RowOk(r)
    ensures RowOk(Dropped(r))
    ensures Unfinished(Dropped(r)) == Unfinished(r) - r.limbo
  {
    hide AllHeld, HeldOnce, Below, Size;
    SizeOfApart(AllHeld(r.held), r.limbo);
    SizeOfApart(r.pending + r.resched + AllHeld(r.held), r.limbo);
    assert Unfinished(Dropped(r)) == r.pending + r.resched + AllHeld(r.held);
    assert AllHeld(r.held) + {} == AllHeld(r.held);
  }

  /** A batch moves from the two waiting places to worker `ip`. */
  ghost function Sent(r: Row, ip: IP, b: set<TaskId>): Row {
    r.(pending := r.pending - b, resched := r.resched - b,
       held := r.held[ip := (if ip in r.held then r.held[ip] else {}) + b],
       running := r.running + Size(b))
  }

  lemma SentSets(p: set<TaskId>, q: set<TaskId>, h: set<TaskId>, b: set<TaskId>)
    requires Apart(p, q, h, {}) && b <= p + q
    ensures Apart(p - b, q - b, h + b, {}) && h !! b
    ensures (p - b) + (q - b) + (h + b) + {} == p + q + h + {}
    ensures h + b + {} == h + b && h + {} == h
  {
  }

  lemma SentOk(r: Row, ip: IP, b: set<TaskId>)
    requires RowOk(r) && r.limbo == {} && b <= r.pending + r.resched
    ensures RowOk(Sent(r, ip, b))
  {
    hide AllHeld, HeldOnce, Below, Size, Apart;
    SentSets(r.pending, r.resched, AllHeld(r.held), b);
    SentHolding(r.held, ip, b);
    SizeOfApart(AllHeld(r.held), b);
  }

  /** A success report takes task `t` off worker `ip`. */
  ghost function Credited(r: Row, ip: IP, t: TaskId): Row
    requires ip in r.held
  {
    r.(held := if r.held[ip] == {t} then r.held - {ip} else r.held[ip := r.held[ip] - {t}],
       execs := r.execs - 1, running := r.running - 1)
  }

  lemma CreditedSets(p: set<TaskId>, q: set<TaskId>, h: set<TaskId>, t: TaskId)
    requires Apart(p, q, h, {}) && t in h
    ensures Apart(p, q, h - {t}, {})
    ensures p + q + (h - {t}) + {} == p + q + h + {} - {t}
    ensures h - {t} + {} == h - {t} && h + {} == h
  {
  }

  lemma CreditedOk(r: Row, ip: IP, t: TaskId)
    requires RowOk(r) && r.limbo == {} && ip in r.held && t in r.held[ip]
    ensures RowOk(Credited(r, ip, t))
    ensures Done(Credited(r, ip, t)) == Done(r) + {t} && t !in Done(r)
  {
    hide AllHeld, HeldOnce, Below, Size, Apart;
    CreditedHolding(r.held, ip, t);
    CreditedSets(r.pending, r.resched, AllHeld(r.held), t);
    SizeWithout(AllHeld(r.held), t);
    SizeWithout(Unfinished(r), t);
  }

  /** One task goes from worker `ip` to limbo. */
  ghost function TaskLifted(r: Row, ip: IP, t: TaskId): Row
    requires ip in r.held
  {
    r.(held := if r.held[ip] == {t} then r.held - {ip} else r.held[ip := r.held[ip] - {t}], limbo := {t})
  }

  lemma TaskLiftedOk(r: Row, ip: IP, t: TaskId)
    requires RowOk(r) && r.limbo == {} && ip in r.held && t in r.held[ip]
    ensures RowOk(TaskLifted(r, ip, t))
  {
    hide AllHeld, HeldOnce, Below, Size, Apart;
    CreditedHolding(r.held, ip, t);
    var h := AllHeld(r.held) - {t};
    assert AllHeld(r.held) == h + {t};
    LiftedSets(r.pending, r.resched, h, {t});
  }

  // ---- rows that cannot be right ----

  /** The running count is wrong as soon as it changes while the holdings do not. */
  lemma MiscountedRow(r: Row, r1: Row)
    requires RowOk(r) && r.limbo == {} && r1.limbo == {}
    requires r1.held == r.held && r1.running != r.running
    ensures !RowOk(r1)
  {
  }

  /** Tasks that vanish from a worker without a trace are missed. */
  lemma ShrunkRow(r: Row, ip: IP)
    requires RowOk(r) && r.limbo == {} && ip in r.held && r.held[ip] != {}
    ensures !RowOk(r.(held := r.held - {ip}))
  {
    hide AllHeld, HeldOnce, Below, Size, Apart, Unfinished;
    WithoutHolder(r.held, ip);
    NothingAdded(AllHeld(r.held));
    NothingAdded(AllHeld(r.held - {ip}));
    SizeOfApart(AllHeld(r.held - {ip}), r.held[ip]);
    SizePositive(r.held[ip]);
  }

  lemma NothingAdded(a: set<TaskId>)
    ensures a + {} == a
  {
  }

  lemma SizePositive(a: set<TaskId>)
    requires a != {}
    ensures Size(a) >= 1
  {
    var t :| t in a;
    SizeWithout(a, t);
  }
}
