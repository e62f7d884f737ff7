// How long the hammer runs: the closure that answers run_hammer after every sweep, and the
// sessions it can go through with the pressure thread.

module Patience {
  import opened Words

  // Nanoseconds on a monotone clock.
  const HOLD: nat := 8_000_000_000
  const TAIL: nat := 2_000_000_000

  // The one-message channel from the pressure thread: silent, message sent, or hung up.
  // A sent message is delivered before a hang-up is seen.
  datatype Channel = Silent | Sent(ok: bool) | HungUp

  datatype Poll = Empty | Message(ok: bool) | Disconnected

  function TryRecv(c: Channel): (Poll, Channel) {
    match c
    case Silent => (Empty, Silent)
    case Sent(ok) => (Message(ok), HungUp)
    case HungUp => (Disconnected, HungUp)
  }

  // The captured variables of the keep_going closure.
  datatype Capture = Capture(guard: bool, holdSince: Option<nat>, releasedAt: Option<nat>)

  datatype Answer = Continue | Stop | Panic

  // One call. The clock is read at most four times, at c[0] <= c[1] <= c[2] <= c[3]: when the
  // guard arrives, for the hold check, at release, and for the tail check.
  class KeepGoing {
    var guard: bool
    var holdSince: Option<nat>
    var releasedAt: Option<nat>

    constructor ()
      ensures Captured() == Capture(false, None, None)
    {
      guard, holdSince, releasedAt := false, None, None;
    }

    function Captured(): Capture
      reads this
    {
      Capture(guard, holdSince, releasedAt)
    }

    method Call(chan: Channel, c: seq<nat>) returns (answer: Answer, chan': Channel)
      requires |c| == 4 && c[0] <= c[1] <= c[2] <= c[3]
      requires holdSince.Some? ==> holdSince.value <= c[0]
      requires releasedAt.Some? ==> releasedAt.value <= c[0]
      modifies this
      ensures (answer, chan', Captured()) == Turn(old(Captured()), chan, c)
    {
      chan' := chan;
      if !guard && releasedAt.None? {
        var poll;
        poll, chan' := TryRecv(chan).0, TryRecv(chan).1;
        match poll {
          case Message(true) =>
            guard := true;
            holdSince := Some(c[0]);
          case Message(false) => return Panic, chan';
          case Empty =>
          case Disconnected => return Panic, chan';
        }
      }
      if releasedAt.None? && holdSince.Some? && c[1] - holdSince.value >= HOLD {
        guard := false;
        releasedAt := Some(c[2]);
      }
      answer := if releasedAt.None? || c[3] - releasedAt.value < TAIL then Continue else Stop;
    }

    // Up to and including the next call of a session: first whatever the pressure thread does
    // before it, then the call.
    method Next(hs: seq<Happening>, i: nat, chan: Channel) returns (answer: Answer, chan': Channel, i': nat)
      requires Finished(hs) && i <= |hs| && Session?(hs[..i])
      requires Standing(After(hs[..i]), Captured(), chan, Continue)
      modifies this
      ensures i < i' <= |hs| && Session?(hs[..i']) && CallsIn(hs[..i']) == CallsIn(hs[..i]) + 1
      ensures Standing(After(hs[..i']), Captured(), chan', answer)
      ensures answer != Continue ==> i' == |hs|
    {
      hide Turn;
      hide CallsIn;
      hide Session?;
      assert hs[..|hs|] == hs;
      i', chan' := i, chan;
      while !hs[i'].Calls?
        invariant i <= i' < |hs| && Session?(hs[..i']) && CallsIn(hs[..i']) == CallsIn(hs[..i])
        invariant Standing(After(hs[..i']), Captured(), chan', Continue)
        invariant Captured() == old(Captured())
        decreases |hs| - i'
      {
        SessionNext(hs, i');
        chan' := if hs[i'].Sends? then Sent(hs[i'].ok) else HungUp;
        i' := i' + 1;
      }
      SessionNext(hs, i');
      SessionPrefix(hs, i');
      SessionOrderly(hs[..i']);
      answer, chan' := Call(chan', hs[i'].c);
      i' := i' + 1;
      if answer != Continue {
        NoCallAfter(hs, i');
      }
    }
  }

  function Turn(s: Capture, chan: Channel, c: seq<nat>): (Answer, Channel, Capture)
    requires |c| == 4
  {
    var polled := !s.guard && s.releasedAt.None?;
    var (poll, chan') := if polled then TryRecv(chan) else (Empty, chan);
    if poll == Disconnected || poll == Message(false) then (Panic, chan', s)
    else
      var s1 := if poll == Message(true) then s.(guard := true, holdSince := Some(c[0])) else s;
      var s2 :=
        if s1.releasedAt.None? && s1.holdSince.Some? && c[1] - s1.holdSince.value >= HOLD
        then s1.(guard := false, releasedAt := Some(c[2])) else s1;
      (if s2.releasedAt.None? || c[3] - s2.releasedAt.value < TAIL then Continue else Stop, chan', s2)
  }

  // The channel may change between calls: the pressure thread sends its result or dies.
  datatype Happening = Sends(ok: bool) | Dies | Calls(c: seq<nat>)

  datatype Session = Session(s: Capture, chan: Channel, now: nat, last: Answer, sent: bool)

  const FRESH: Session := Session(Capture(false, None, None), Silent, 0, Continue, false)

  // The clock is monotone, and a panicked or stopped hammer makes no further calls.
  predicate Possible(x: Session, h: Happening) {
    match h
    case Sends(_) => !x.sent && x.chan == Silent
    case Dies => x.chan == Silent
    case Calls(c) => x.last == Continue && |c| == 4 && x.now <= c[0] <= c[1] <= c[2] <= c[3]
  }

  function Happen(x: Session, h: Happening): Session
    requires Possible(x, h)
  {
    match h
    case Sends(ok) => x.(chan := Sent(ok), sent := ok)
    case Dies => x.(chan := HungUp)
    case Calls(c) =>
      var (answer, chan', s') := Turn(x.s, x.chan, c);
      x.(s := s', chan := chan', now := c[3], last := answer)
  }

  ghost predicate Session?(hs: seq<Happening>)
    decreases |hs|, 0
  {
    hs == [] || (Session?(hs[..|hs| - 1]) && Possible(After(hs[..|hs| - 1]), hs[|hs| - 1]))
  }

  ghost function After(hs: seq<Happening>): Session
    requires Session?(hs)
    decreases |hs|, 1
  {
    if hs == [] then FRESH else Happen(After(hs[..|hs| - 1]), hs[|hs| - 1])
  }

  datatype Phase = Waiting | Holding | Released | Muddled

  function PhaseOf(s: Capture): Phase {
    match s
    case Capture(false, None, None) => Waiting
    case Capture(true, Some(_), None) => Holding
    case Capture(false, Some(_), Some(_)) => Released
    case _ => Muddled
  }

  function PhaseRank(p: Phase): nat {
    match p case Waiting => 0 case Holding => 1 case Released => 2 case Muddled => 3
  }

  // What holds at every moment of every session: only the three intended phases occur; the
  // guard has been held at least HOLD when it was let go; the hammer has stopped only after a
  // TAIL of sweeping; and once the generator's success message is out, no call panics.
  ghost predicate Orderly(x: Session) {
    var s := x.s;
    && PhaseOf(s) != Muddled
    && (s.holdSince.Some? ==> s.holdSince.value <= x.now)
    && (s.releasedAt.Some? ==> s.holdSince.value + HOLD <= s.releasedAt.value <= x.now)
    && (x.last == Stop ==> s.releasedAt.Some? && s.releasedAt.value + TAIL <= x.now)
    && (x.sent ==> x.last != Panic && (x.chan == Sent(true) || PhaseOf(s) != Waiting))
    && (PhaseOf(s) != Waiting ==> x.chan == HungUp && x.sent)
    && (PhaseOf(s) == Waiting && x.chan == HungUp ==> !x.sent)
    && (x.chan == Sent(true) ==> x.sent)
    && (x.last == Panic ==> x.chan == HungUp)
  }

  lemma HappenOrderly(x: Session, h: Happening)
    requires Orderly(x) && Possible(x, h)
    ensures Orderly(Happen(x, h))
    ensures PhaseRank(PhaseOf(Happen(x, h).s)) >= PhaseRank(PhaseOf(x.s))
  {
  }

  // The hammer's whole session, whatever the pressure thread does and whenever.
  lemma {:induction false} SessionOrderly(hs: seq<Happening>)
    requires Session?(hs)
    ensures Orderly(After(hs))
    decreases |hs|
  {
    if hs != [] {
      SessionOrderly(hs[..|hs| - 1]);
      HappenOrderly(After(hs[..|hs| - 1]), hs[|hs| - 1]);
    }
  }

  // Phases never go back.
  lemma {:induction false} PhasesAdvance(hs: seq<Happening>, n: nat)
    requires Session?(hs) && n <= |hs|
    ensures Session?(hs[..n])
    ensures PhaseRank(PhaseOf(After(hs[..n]).s)) <= PhaseRank(PhaseOf(After(hs).s))
    decreases |hs|
  {
    if n == |hs| {
      assert hs[..n] == hs;
    } else {
      var init := hs[..|hs| - 1];
      assert init[..n] == hs[..n];
      PhasesAdvance(init, n);
      SessionOrderly(init);
      HappenOrderly(After(init), hs[|hs| - 1]);
    }
  }

  // A call asks the host to stop exactly when the guard was let go at least TAIL before, and
  // it panics exactly when it is still waiting and finds the thread dead or its result bad.
  lemma CallOutcome(x: Session, c: seq<nat>)
    requires Orderly(x) && Possible(x, Calls(c))
    ensures var y := Happen(x, Calls(c));
      && (y.last == Panic <==> PhaseOf(x.s) == Waiting && (x.chan == HungUp || x.chan == Sent(false)))
      && (y.last == Stop <==> y.last != Panic && y.s.releasedAt.Some? && c[3] - y.s.releasedAt.value >= TAIL)
      && (PhaseOf(x.s) != Waiting ==> y.chan == x.chan)
  {
  }

  // ---- Sessions on record ----

  // How many calls the closure got.
  function CallsIn(hs: seq<Happening>): nat {
    if hs == [] then 0 else CallsIn(hs[..|hs| - 1]) + if hs[|hs| - 1].Calls? then 1 else 0
  }

  lemma {:induction false} CallsInBound(hs: seq<Happening>)
    ensures CallsIn(hs) <= |hs|
    decreases |hs|
  {
    if hs != [] {
      CallsInBound(hs[..|hs| - 1]);
    }
  }

  lemma {:induction false} SessionPrefix(hs: seq<Happening>, n: nat)
    requires Session?(hs) && n <= |hs|
    ensures Session?(hs[..n])
    ensures n < |hs| ==> Possible(After(hs[..n]), hs[n])
    decreases |hs|
  {
    if n == |hs| {
      assert hs[..n] == hs;
    } else {
      var init := hs[..|hs| - 1];
      assert init[..n] == hs[..n];
      SessionPrefix(init, n);
      if n == |hs| - 1 {
        assert hs[..n] == init;
      }
    }
  }

  lemma SessionNext(hs: seq<Happening>, n: nat)
    requires Session?(hs) && n < |hs|
    ensures Session?(hs[..n]) && Session?(hs[..n + 1]) && Possible(After(hs[..n]), hs[n])
    ensures After(hs[..n + 1]) == Happen(After(hs[..n]), hs[n])
    ensures CallsIn(hs[..n + 1]) == CallsIn(hs[..n]) + if hs[n].Calls? then 1 else 0
  {
    SessionPrefix(hs, n);
    SessionPrefix(hs, n + 1);
    assert hs[..n + 1][..n] == hs[..n];
  }

  // Once the closure has answered otherwise than with "continue", it is not called again.
  lemma {:induction false} NoCallAfter(hs: seq<Happening>, n: nat)
    requires Session?(hs) && n <= |hs| && Session?(hs[..n]) && After(hs[..n]).last != Continue
    ensures After(hs).last == After(hs[..n]).last && forall i :: n <= i < |hs| ==> !hs[i].Calls?
    decreases |hs|
  {
    if n == |hs| {
      assert hs[..n] == hs;
    } else {
      var init := hs[..|hs| - 1];
      assert init[..n] == hs[..n];
      NoCallAfter(init, n);
    }
  }

  // Where a session stands, as its two ends see it.
  predicate Standing(x: Session, captured: Capture, chan: Channel, last: Answer) {
    x.s == captured && x.chan == chan && x.last == last
  }

  // A session that has run its course: the last thing in it is the call that did not answer
  // "continue".
  ghost predicate Finished(hs: seq<Happening>) {
    Session?(hs) && hs != [] && hs[|hs| - 1].Calls? && After(hs).last != Continue
  }

  // Every session in which the generator reports success ends: a call after the report takes
  // the guard, the first call at least HOLD later lets it go, and the first call at least TAIL
  // after that stops the hammer.
  lemma ThreeCallsEnd(x: Session, c1: seq<nat>, c2: seq<nat>, c3: seq<nat>)
    requires Orderly(x) && x.sent && Possible(x, Calls(c1))
    requires |c2| == 4 && c1[3] <= c2[0] <= c2[1] <= c2[2] <= c2[3] && c2[1] - c1[0] >= HOLD
    requires |c3| == 4 && c2[3] <= c3[0] <= c3[1] <= c3[2] <= c3[3] && c3[3] - c2[2] >= TAIL
    ensures var y1 := Happen(x, Calls(c1));
      || y1.last == Stop
      || (Possible(y1, Calls(c2)) &&
          var y2 := Happen(y1, Calls(c2));
          || y2.last == Stop
          || (Possible(y2, Calls(c3)) && Happen(y2, Calls(c3)).last == Stop))
  {
    HappenOrderly(x, Calls(c1));
    if Happen(x, Calls(c1)).last == Continue {
      HappenOrderly(Happen(x, Calls(c1)), Calls(c2));
    }
  }

  // ---- A session by the clock ----

  // Call i finds the generator's success message. Nothing but a call can follow a message, so
  // it is the very next happening.
  predicate TakesAt(hs: seq<Happening>, i: nat) {
    1 <= i < |hs| && hs[i - 1] == Sends(true) && hs[i].Calls? && |hs[i].c| == 4
  }

  // Call i finds the thread dead or its result bad.
  predicate FailsAt(hs: seq<Happening>, i: int) {
    1 <= i < |hs| && (hs[i - 1] == Dies || hs[i - 1] == Sends(false)) && hs[i].Calls?
  }

  // At call m the guard taken at call i has been held for HOLD.
  predicate Due(hs: seq<Happening>, i: nat, m: nat)
    requires TakesAt(hs, i)
  {
    m < |hs| && hs[m].Calls? && |hs[m].c| == 4 && hs[m].c[1] - hs[i].c[0] >= HOLD
  }

  // Call j is the first of these.
  predicate DropsAt(hs: seq<Happening>, i: nat, j: nat)
    requires TakesAt(hs, i)
  {
    i <= j && Due(hs, i, j) && forall m: nat :: i <= m < j ==> !Due(hs, i, m)
  }

  lemma DuePrefix(hs: seq<Happening>, seen: seq<Happening>, i: nat)
    requires TakesAt(hs, i) && i < |seen| && seen <= hs
    ensures TakesAt(seen, i)
    ensures forall m: nat :: m < |seen| ==> (Due(seen, i, m) <==> Due(hs, i, m))
  {
  }

  // What a message leaves the next call to find.
  lemma MessageWaits(hs: seq<Happening>, i: nat)
    requires Session?(hs) && |hs| == i + 1 && TakesAt(hs, i)
    ensures Session?(hs[..i])
    ensures After(hs[..i]) == Session(FRESH.s, Sent(true), After(hs[..i]).now, Continue, true)
  {
    var sent := hs[..i];
    var before := sent[..i - 1];
    assert sent[i - 1] == hs[i - 1];
    SessionOrderly(before);
  }

  // The guard is held from the call that got it, as long as no call comes HOLD later.
  lemma {:induction false} Held(hs: seq<Happening>, i: nat)
    requires Session?(hs) && TakesAt(hs, i) && forall m: nat :: i <= m < |hs| ==> !Due(hs, i, m)
    ensures var x := After(hs);
      x.s == Capture(true, Some(hs[i].c[0]), None) && x.chan == HungUp && x.last == Continue
    decreases |hs|
  {
    if |hs| == i + 1 {
      MessageWaits(hs, i);
      assert !Due(hs, i, i);
    } else {
      var init := hs[..|hs| - 1];
      DuePrefix(hs, init, i);
      Held(init, i);
      assert !Due(hs, i, |hs| - 1);
    }
  }

  // Let go at call j, it is not taken again, and a call stops the hammer if and only if it
  // comes TAIL after that one.
  lemma {:induction false} LetGo(hs: seq<Happening>, i: nat, j: nat)
    requires Session?(hs) && TakesAt(hs, i) && DropsAt(hs, i, j)
    ensures var x := After(hs);
      && x.s == Capture(false, Some(hs[i].c[0]), Some(hs[j].c[2])) && x.chan == HungUp && x.last != Panic
      && hs[|hs| - 1].Calls? && |hs[|hs| - 1].c| == 4
      && (x.last == Stop <==> hs[|hs| - 1].c[3] - hs[j].c[2] >= TAIL)
    decreases |hs|
  {
    var init := hs[..|hs| - 1];
    if |hs| == i + 1 {
      MessageWaits(hs, i);
    } else {
      DuePrefix(hs, init, i);
      if |hs| == j + 1 {
        Held(init, i);
      } else {
        LetGo(init, i, j);
      }
    }
  }

  // Before any message is found, nothing is captured; and the closure panics if and only if it
  // finds the thread dead or the result bad.
  lemma {:induction false} Untaken(hs: seq<Happening>)
    requires Session?(hs) && forall i: nat :: i < |hs| ==> !TakesAt(hs, i)
    ensures var x := After(hs);
      && x.s == FRESH.s && x.last == (if FailsAt(hs, |hs| - 1) then Panic else Continue)
      && (x.chan == Sent(true) <==> hs != [] && hs[|hs| - 1] == Sends(true))
      && (x.chan == Sent(false) <==> hs != [] && hs[|hs| - 1] == Sends(false))
      && (x.chan == HungUp <==> hs != [] && (hs[|hs| - 1] == Dies || FailsAt(hs, |hs| - 1)))
    decreases |hs|
  {
    if hs != [] {
      var n := |hs| - 1;
      var init := hs[..n];
      forall i: nat | i < n ensures !TakesAt(init, i) {
        assert !TakesAt(hs, i);
      }
      Untaken(init);
      assert !TakesAt(hs, n);
      assert n > 0 ==> init[n - 1] == hs[n - 1];
    }
  }

  // When the guard is held, by the readings of the clock alone: from the call that found the
  // message to the first call HOLD later.
  lemma GuardHeldExactly(hs: seq<Happening>, i: nat, n: nat)
    requires Session?(hs) && TakesAt(hs, i) && n <= |hs|
    ensures Session?(hs[..n])
    ensures After(hs[..n]).s.guard <==> i < n && forall m: nat :: i <= m < n ==> !Due(hs, i, m)
  {
    SessionPrefix(hs, n);
    var seen := hs[..n];
    if n <= i {
      NotYet(hs, i, n);
    } else {
      DuePrefix(hs, seen, i);
      if forall m: nat :: i <= m < n ==> !Due(hs, i, m) {
        Held(seen, i);
      } else {
        var j := FirstDue(seen, i, n);
        LetGo(seen, i, j);
      }
    }
  }

  lemma NotYet(hs: seq<Happening>, i: nat, n: nat)
    requires Session?(hs) && TakesAt(hs, i) && n <= i && Session?(hs[..n])
    ensures After(hs[..n]).s == FRESH.s
  {
    var taken := hs[..i + 1];
    SessionPrefix(hs, i + 1);
    assert taken[..i] == hs[..i] && TakesAt(taken, i);
    MessageWaits(taken, i);
    assert hs[..i][..n] == hs[..n];
    PhasesAdvance(hs[..i], n);
    SessionOrderly(hs[..n]);
  }

  lemma {:induction false} FirstDue(hs: seq<Happening>, i: nat, n: nat) returns (j: nat)
    requires TakesAt(hs, i) && n <= |hs| && exists m: nat :: i <= m < n && Due(hs, i, m)
    ensures DropsAt(hs, i, j) && j < n
    decreases n
  {
    if m: nat :| i <= m < n - 1 && Due(hs, i, m) {
      j := FirstDue(hs, i, n - 1);
    } else {
      j := n - 1;
    }
  }

  // The hammer stops if and only if the guard was taken, held for HOLD, let go at the first
  // call after that, and the present call comes TAIL later.
  lemma StopsExactly(hs: seq<Happening>)
    requires Session?(hs) && hs != []
    ensures After(hs).last == Stop <==>
            exists i: nat, j: nat ::
              && TakesAt(hs, i) && DropsAt(hs, i, j) && hs[|hs| - 1].Calls? && |hs[|hs| - 1].c| == 4
              && hs[|hs| - 1].c[3] - hs[j].c[2] >= TAIL
  {
    if i: nat :| i < |hs| && TakesAt(hs, i) {
      OneMessage(hs, i);
      if forall m: nat :: i <= m < |hs| ==> !Due(hs, i, m) {
        Held(hs, i);
      } else {
        var j := FirstDue(hs, i, |hs|);
        LetGo(hs, i, j);
        forall j': nat | DropsAt(hs, i, j') ensures j' == j {
        }
      }
    } else {
      Untaken(hs);
    }
  }

  // The message comes once.
  lemma OneMessage(hs: seq<Happening>, i: nat)
    requires Session?(hs) && TakesAt(hs, i)
    ensures forall k: nat :: TakesAt(hs, k) ==> k == i
  {
    forall k: nat | TakesAt(hs, k) ensures k == i {
      if k < i {
        NoneBefore(hs, k, i);
      } else if i < k {
        NoneBefore(hs, i, k);
      }
    }
  }

  // Once the guard was taken, the channel is closed for good.
  lemma ChannelClosed(hs: seq<Happening>, i: nat)
    requires Session?(hs) && TakesAt(hs, i)
    ensures After(hs).chan == HungUp
  {
    if forall m: nat :: i <= m < |hs| ==> !Due(hs, i, m) {
      Held(hs, i);
    } else {
      var j := FirstDue(hs, i, |hs|);
      LetGo(hs, i, j);
    }
  }

  lemma NoneBefore(hs: seq<Happening>, i: nat, k: nat)
    requires Session?(hs) && TakesAt(hs, i) && i < k
    ensures !TakesAt(hs, k)
  {
    if TakesAt(hs, k) {
      SessionPrefix(hs, k - 1);
      assert TakesAt(hs[..k - 1], i);
      ChannelClosed(hs[..k - 1], i);
      assert false;
    }
  }
}
