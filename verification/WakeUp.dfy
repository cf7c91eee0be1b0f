/** The wake-up protocol between the scheduler's observers and the sender thread
    (src/master/job_sender.cpp:34-76), as a state machine over its atomic sections.  `notices` counts
    the notifications so far; `seen` is the value it had when the flag was last cleared, `begun` and
    `covered` those when the scan under way and the latest completed scan began; `scans` counts the
    completed scans and `idle` tells that the latest of them found nothing to send. */
module WakeUp {

  /** `Top`: before the lock is taken; `Asleep`: in `wait`; `Roused`: woken but without the lock yet;
      `Ready`: about to call `GetTaskToSend`; `Scanning`: inside it. */
  datatype Position = Top | Asleep | Roused | Ready | Scanning

  datatype Sender = Sender(
    at: Position, flag: bool, notices: nat, seen: nat, begun: nat, covered: nat, scans: nat, idle: bool)

  /** The sender after it has subscribed; there is no notification yet. */
  const Start: Sender := Sender(Top, false, 0, 0, 0, 0, 0, false)

  datatype Action =
      /** `NotifyObserver`, by any thread. */
    | Notify
      /** The critical section at the head of the loop, up to `wait` or past it. */
    | Check
      /** The condition variable returns although nobody notified. */
    | WakeSpuriously
      /** The lock is taken again after `wait`. */
    | Resume
    | Begin
      /** `GetTaskToSend` returns; with a task the loop goes straight to the next scan. */
    | End(got: bool)

  predicate Enabled(s: Sender, a: Action) {
    match a
    case Notify => true
    case Check => s.at == Top
    case WakeSpuriously => s.at == Asleep
    case Resume => s.at == Roused
    case Begin => s.at == Ready
    case End(_) => s.at == Scanning
  }

  function Next(s: Sender, a: Action): Sender {
    match a
    case Notify => s.(flag := true, notices := s.notices + 1, at := if s.at == Asleep then Roused else s.at)
    case Check => if s.flag then s.(flag := false, seen := s.notices, at := Ready) else s.(at := Asleep)
    case WakeSpuriously => s.(at := Roused)
    case Resume => s.(flag := false, seen := s.notices, at := Ready)
    case Begin => s.(begun := s.notices, at := Scanning)
    case End(got) => s.(covered := s.begun, scans := s.scans + 1, idle := !got, at := if got then Ready else Top)
  }

  function After(run: seq<Action>): Sender {
    if run == [] then Start else Next(After(run[..|run| - 1]), run[|run| - 1])
  }

  predicate Possible(run: seq<Action>) {
    run == [] || (Possible(run[..|run| - 1]) && Enabled(After(run[..|run| - 1]), run[|run| - 1]))
  }

  /** Every notification is either covered by a completed scan or will be covered before the sender
      can sleep: the flag is up, a scan is due, or the scan under way began after it. */
  ghost predicate Attentive(s: Sender) {
    && s.covered <= s.begun <= s.notices && (s.flag <==> s.seen < s.notices) && s.seen <= s.notices
    && (s.at == Asleep ==> !s.flag) && (s.covered > 0 ==> s.scans > 0)
    && (s.scans > 0 && (s.at == Top || s.at == Asleep) ==> s.idle)
    && (s.flag || s.at == Roused || s.at == Ready || s.covered == s.notices
        || (s.at == Scanning && s.begun == s.notices))
  }

  lemma NextAttentive(s: Sender, a: Action)
    requires Attentive(s) && Enabled(s, a)
    ensures Attentive(Next(s, a))
  {
  }

  lemma {:induction false} RunAttentive(run: seq<Action>)
    requires Possible(run)
    ensures Attentive(After(run))
    decreases |run|
  {
    hide Attentive, Enabled, Next;
    if run == [] {
      StartAttentive();
    } else {
      RunAttentive(run[..|run| - 1]);
      NextAttentive(After(run[..|run| - 1]), run[|run| - 1]);
    }
  }

  lemma StartAttentive()
    ensures Attentive(Start)
  {
  }

  /** No busy waiting: in every interleaving, a sender at the head of its loop goes to sleep unless there
      was a notification after it last took the flag. */
  lemma SleepsUnlessNotified(run: seq<Action>)
    requires Possible(run + [Check])
    ensures Next(After(run), Check).at == Asleep <==> After(run).notices == After(run).seen
  {
    assert (run + [Check])[..|run|] == run;
    RunAttentive(run);
    hide After;
  }

  /** No lost wake-up: in every interleaving, spurious wake-ups included, a sender that sleeps has
      completed a scan that began after the latest notification, and its latest scan found nothing.
      Before the first notification it may sleep without any scan: there is nothing to be missed. */
  lemma NoLostWakeUp(run: seq<Action>)
    requires Possible(run)
    ensures var s := After(run);
            s.at == Asleep ==>
              && s.covered == s.notices
              && (s.notices > 0 ==> s.scans > 0)
              && (s.scans > 0 ==> s.idle)
  {
    RunAttentive(run);
    hide After;
  }
}
