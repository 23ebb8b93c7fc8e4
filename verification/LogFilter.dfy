/** Suppressing repeated log messages, and counting the log lines dropped on the way to the application. */
module LogFilter {
  import opened Basics

  datatype Status = Status(text: string, counter: nat)

  const COUNTER_LIMIT: nat := 0x1_0000_0000
  const REPEATED: string := "[repeated 100 times!] "

  function Next(s: Status, msg: string): Status {
    if s.text != msg then Status(msg, 0) else s.(counter := s.counter + 1)
  }

  function Line(s: Status, msg: string): Option<string> {
    if s.text != msg then Some(msg)
    else if s.counter > 0 && s.counter % 100 == 0 then Some(REPEATED + msg)
    else if s.counter < 10 then Some(msg)
    else None
  }

  /** The lines dropped so far, and those dropped by the last check. */
  datatype Tally = Tally(dropped: nat, lastChecked: nat)
  datatype Action = Drop | Check

  predicate Consistent(t: Tally) {
    t.lastChecked <= t.dropped
  }

  function Act(t: Tally, a: Action): Tally {
    match a
    case Drop => t.(dropped := t.dropped + 1)
    case Check => t.(lastChecked := t.dropped)
  }

  /** What a check reports. */
  function Reading(t: Tally): nat
    requires Consistent(t)
  {
    t.dropped - t.lastChecked
  }

  class Logger {
    var status: Status
    var dropped: nat
    var lastChecked: nat

    constructor ()
      ensures status == Status("", 0) && dropped == 0 && lastChecked == 0
    {
      status := Status("", 0);
      dropped, lastChecked := 0, 0;
    }

    /** The 32-bit counter must not overflow. */
    method FilterLogMessage(msg: string) returns (line: Option<string>)
      requires status.text == msg ==> status.counter + 1 < COUNTER_LIMIT
      modifies this`status
      ensures line == Line(old(status), msg) && status == Next(old(status), msg)
    {
      if status.text != msg {
        status := Status(msg, 0);
        return Some(msg);
      }
      if status.counter > 0 && status.counter % 100 == 0 {
        status := status.(counter := status.counter + 1);
        return Some(REPEATED + msg);
      }
      if status.counter < 10 {
        status := status.(counter := status.counter + 1);
        return Some(msg);
      }
      status := status.(counter := status.counter + 1);
      return None;
    }

    ghost function Counters(): Tally
      reads this
    {
      Tally(dropped, lastChecked)
    }

    method CountDropped()
      modifies this`dropped
      ensures Counters() == Act(old(Counters()), Drop)
    {
      dropped := dropped + 1;
    }

    method DroppedSinceLastChecked() returns (n: nat)
      requires Consistent(Counters())
      modifies this`lastChecked
      ensures Counters() == Act(old(Counters()), Check) && n == Reading(old(Counters()))
    {
      var current := dropped;
      var last := lastChecked;
      lastChecked := current;
      n := current - last;
    }
  }

  function StatusAfter(s: Status, msgs: seq<string>): Status {
    if msgs == [] then s else Next(StatusAfter(s, msgs[..|msgs| - 1]), msgs[|msgs| - 1])
  }

  /** The number of lines emitted for a sequence of messages. */
  function Emitted(s: Status, msgs: seq<string>): nat {
    if msgs == [] then 0
    else
      var init, msg := msgs[..|msgs| - 1], msgs[|msgs| - 1];
      Emitted(s, init) + if Line(StatusAfter(s, init), msg).Some? then 1 else 0
  }

  function Min(a: nat, b: nat): nat {
    if a <= b then a else b
  }

  function Repeats(msg: string, n: nat): seq<string> {
    seq(n, _ => msg)
  }

  /** The first ten repeats pass, and after them one in every hundred. */
  lemma {:induction false} RepeatsEmitted(msg: string, r: nat)
    ensures StatusAfter(Status(msg, 0), Repeats(msg, r)) == Status(msg, r)
    ensures Emitted(Status(msg, 0), Repeats(msg, r)) == Min(r, 10) + if r == 0 then 0 else (r - 1) / 100
  {
    if r > 0 {
      var all := Repeats(msg, r);
      assert all[..r - 1] == Repeats(msg, r - 1);
      RepeatsEmitted(msg, r - 1);
      assert all[r - 1] == msg;
      HundredStep(r);
    }
  }

  lemma HundredStep(r: nat)
    requires r > 0
    ensures (r - 1) / 100 == (if r == 1 then 0 else (r - 2) / 100) + if r > 1 && (r - 1) % 100 == 0 then 1 else 0
  {
  }

  lemma {:induction false} EmittedConcat(s: Status, a: seq<string>, b: seq<string>)
    ensures StatusAfter(s, a + b) == StatusAfter(StatusAfter(s, a), b)
    ensures Emitted(s, a + b) == Emitted(s, a) + Emitted(StatusAfter(s, a), b)
    decreases |b|
  {
    if b == [] {
      assert a + b == a;
    } else {
      var init, msg := b[..|b| - 1], b[|b| - 1];
      EmittedConcat(s, a, init);
      assert (a + b)[..|a + b| - 1] == a + init;
    }
  }

  /** Whatever was logged before, a new message followed by `r` repeats emits this many lines, and remembers the run. */
  lemma RunEmits(before: seq<string>, msg: string, r: nat)
    requires StatusAfter(Status("", 0), before).text != msg
    ensures Emitted(Status("", 0), before + [msg] + Repeats(msg, r)) ==
            Emitted(Status("", 0), before) + 1 + Min(r, 10) + if r == 0 then 0 else (r - 1) / 100
    ensures StatusAfter(Status("", 0), before + [msg] + Repeats(msg, r)) == Status(msg, r)
  {
    var s := Status("", 0);
    EmittedConcat(s, before, [msg]);
    EmittedConcat(s, before + [msg], Repeats(msg, r));
    assert [msg][..0] == [];
    assert StatusAfter(StatusAfter(s, before), [msg]) == Status(msg, 0);
    RepeatsEmitted(msg, r);
  }

  // ---- Dropped lines ----

  function TallyAfter(acts: seq<Action>): (t: Tally)
    ensures Consistent(t)
  {
    if acts == [] then Tally(0, 0) else Act(TallyAfter(acts[..|acts| - 1]), acts[|acts| - 1])
  }

  /** What the checks among the actions report, in order. */
  function Readings(acts: seq<Action>): seq<nat> {
    if acts == [] then []
    else
      var init, a := acts[..|acts| - 1], acts[|acts| - 1];
      Readings(init) + if a == Check then [Reading(TallyAfter(init))] else []
  }

  function Drops(acts: seq<Action>): nat {
    if acts == [] then 0 else Drops(acts[..|acts| - 1]) + if acts[|acts| - 1] == Drop then 1 else 0
  }

  function Sum(ns: seq<nat>): nat {
    if ns == [] then 0 else Sum(ns[..|ns| - 1]) + ns[|ns| - 1]
  }

  lemma SumSnoc(ns: seq<nat>, n: nat)
    ensures Sum(ns + [n]) == Sum(ns) + n
  {
    assert (ns + [n])[..|ns|] == ns;
  }

  /** One caller's successive readings add up to the lines dropped by the last check: right after one, to all. */
  lemma {:induction false} ReadingsAddUp(acts: seq<Action>)
    ensures TallyAfter(acts).dropped == Drops(acts)
    ensures Sum(Readings(acts)) == TallyAfter(acts).lastChecked
    ensures acts != [] && acts[|acts| - 1] == Check ==> Sum(Readings(acts)) == Drops(acts)
  {
    if acts != [] {
      hide Sum;
      var init := acts[..|acts| - 1];
      ReadingsAddUp(init);
      if acts[|acts| - 1] == Check {
        SumSnoc(Readings(init), Reading(TallyAfter(init)));
      } else {
        assert Readings(acts) == Readings(init);
      }
    }
  }
}
