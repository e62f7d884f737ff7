// The fleet protocol: the command server in the guest, the bridge, and the driver that waits
// for one reply to each command.

module Fleet {
  import opened Words
  import opened Text

  const TAG := "RATCHET "
  const STARTED := "RATCHET FLEET-STARTED"
  const STOPPED := "RATCHET FLEET-STOPPED"
  const MEMORY := "RATCHET MEM"
  const TOUCHED := "RATCHET TOUCHED"
  const FREED := "RATCHET FREED"
  const BALLOON := "HARNESS balloon-target"

  const GIB: nat := 0x4000_0000

  // What the server prints for a command, given how many children there are afterwards.
  function Reply(cmd: Command, children: nat, kib: nat): string {
    TAG + (match cmd
             case Blank => ""
             case TouchGib(gib) => "TOUCHED " + Decimal(gib)
             case Free => "FREED"
             case Mem => "MEM " + Decimal(kib)
             case FleetStart(_, _) => "FLEET-STARTED " + Decimal(children)
             case StopOne => "FLEET-STOPPED " + Decimal(children)
             case StopAll => "FLEET-STOPPED " + Decimal(children)
             case Unknown(line) => "ERR unknown command: " + line)
  }

  lemma ReplyTexts(gib: nat, line: string, children: nat, kib: nat)
    ensures Reply(TouchGib(gib), children, kib) == "RATCHET TOUCHED " + Decimal(gib)
    ensures Reply(Free, children, kib) == "RATCHET FREED"
    ensures Reply(Unknown(line), children, kib) == "RATCHET ERR unknown command: " + line
  {
    Regroup("RATCHET ", "TOUCHED ", Decimal(gib));
    Regroup("RATCHET ", "ERR unknown command: ", line);
  }

  // The bytes a touch asks for: the product wraps in a release build.
  function TouchBytes(gib: nat): nat {
    Wrap(gib * GIB)
  }

  // They are gib * 2^30, as long as that fits, and none at all exactly for multiples of 2^34.
  lemma TouchBytesAre(gib: nat)
    ensures gib < 0x4_0000_0000 ==> TouchBytes(gib) == gib * 1024 * 1024 * 1024
    ensures TouchBytes(gib) == 0 <==> gib % 0x4_0000_0000 == 0
  {
    var q, r := gib / 0x4_0000_0000, gib % 0x4_0000_0000;
    assert gib * GIB == q * TWO64 + r * GIB;
    assert (q * TWO64 + r * GIB) % TWO64 == r * GIB;
  }

  // All there is to know about the server.
  datatype GuestState = GuestState(alive: bool, held: seq<nat>, fleet: seq<int>, mapped: seq<nat>, unmapped: seq<nat>,
                                   forked: seq<int>, sets: seq<nat>, killed: seq<int>, reaped: seq<int>)

  function Copies(n: nat, x: nat): seq<nat> {
    seq(n, _ => x)
  }

  // Is this command the end of the server? `drain(..1)` panics on an empty fleet, and a failed
  // mmap is asserted against; mmap refuses a length of zero, and one beyond the limit.
  predicate Fatal(cmd: Command, s: GuestState, limit: nat) {
    match cmd
    case StopOne => s.fleet == []
    case TouchGib(gib) => TouchBytes(gib) == 0 || TouchBytes(gib) > limit
    case _ => false
  }

  // What a command makes of the server. Only the pids of new children are not determined.
  predicate Obeyed(cmd: Command, s: GuestState, t: GuestState, limit: nat) {
    if Fatal(cmd, s, limit) then t == s.(alive := false)
    else
      match cmd
      case TouchGib(gib) => t == s.(held := s.held + [TouchBytes(gib)], mapped := s.mapped + [TouchBytes(gib)])
      case Free => t == s.(held := [], unmapped := s.unmapped + s.held)
      case FleetStart(k, mib) =>
        && |t.fleet| == |s.fleet| + k && t.fleet[..|s.fleet|] == s.fleet
        && t == s.(fleet := t.fleet, forked := s.forked + t.fleet[|s.fleet|..], sets := s.sets + Copies(k, mib))
      case StopOne =>
        t == s.(fleet := s.fleet[1..], killed := s.killed + s.fleet[..1], reaped := s.reaped + s.fleet[..1])
      case StopAll => t == s.(fleet := [], killed := s.killed + s.fleet, reaped := s.reaped + s.fleet)
      case _ => t == s
  }

  // PID 1 of the guest.
  class Server {
    const limit: nat               // the largest mapping the guest kernel grants
    var alive: bool
    var held: seq<nat>             // sizes of the mappings held
    var fleet: seq<int>            // pids of the children, oldest first
    ghost var mapped: seq<nat>
    ghost var unmapped: seq<nat>
    ghost var forked: seq<int>
    ghost var sets: seq<nat>       // the working sets, in MiB, they were forked to hold
    ghost var killed: seq<int>
    ghost var reaped: seq<int>

    // Children are killed and reaped in the order they were forked, each once and none that
    // is still in the fleet; mappings likewise.
    ghost predicate Valid()
      reads this
    {
      && forked == reaped + fleet && killed == reaped
      && mapped == unmapped + held && |sets| == |forked|
      && (forall i, j :: 0 <= i < j < |fleet| ==> fleet[i] != fleet[j])
    }

    constructor (limit: nat)
      ensures Valid() && State() == GuestState(true, [], [], [], [], [], [], [], [])
    {
      this.limit := limit;
      alive, held, fleet := true, [], [];
      mapped, unmapped, forked, sets, killed, reaped := [], [], [], [], [], [];
    }

    ghost function State(): GuestState
      reads this
    {
      GuestState(alive, held, fleet, mapped, unmapped, forked, sets, killed, reaped)
    }

    // Fork k children with working sets of that size. The kernel gives each a pid no living
    // child has.
    method Start(k: nat, mib: nat)
      requires Valid()
      modifies this`fleet, this`forked, this`sets
      ensures Valid()
      ensures |fleet| == |old(fleet)| + k && fleet[..|old(fleet)|] == old(fleet)
      ensures forked == old(forked) + fleet[|old(fleet)|..] && sets == old(sets) + Copies(k, mib)
    {
      for i := 0 to k
        invariant Valid()
        invariant |fleet| == |old(fleet)| + i && fleet[..|old(fleet)|] == old(fleet)
        invariant forked == old(forked) + fleet[|old(fleet)|..] && sets == old(sets) + Copies(i, mib)
      {
        FreshPid(fleet);
        var pid: int :| pid !in fleet;
        assert Copies(i + 1, mib) == Copies(i, mib) + [mib];
        fleet, forked, sets := fleet + [pid], forked + [pid], sets + [mib];
      }
    }

    // Kill and reap the oldest n children.
    method Stop(n: nat)
      requires Valid() && n <= |fleet|
      modifies this`fleet, this`killed, this`reaped
      ensures Valid()
      ensures fleet == old(fleet)[n..]
      ensures killed == old(killed) + old(fleet)[..n] && reaped == old(reaped) + old(fleet)[..n]
    {
      for i := 0 to n
        invariant fleet == old(fleet)[i..] && reaped == old(reaped) + old(fleet)[..i] && killed == reaped
      {
        var pid := fleet[0];
        killed := killed + [pid];
        reaped := reaped + [pid];
        fleet := fleet[1..];
      }
      assert old(fleet) == old(fleet)[..n] + old(fleet)[n..];
    }

    method Release()
      requires Valid()
      modifies this`held, this`unmapped
      ensures Valid() && held == [] && unmapped == old(unmapped) + old(held)
    {
      while held != []
        invariant old(unmapped) + old(held) == unmapped + held && mapped == unmapped + held
        decreases |held|
      {
        unmapped := unmapped + [held[0]];
        held := held[1..];
      }
    }

    // Carry out a command.
    method Obey(cmd: Command)
      requires Valid() && alive
      modifies this
      ensures Valid() && Obeyed(cmd, old(State()), State(), limit)
    {
      match cmd {
        case TouchGib(gib) =>
          var size := TouchBytes(gib);
          if size == 0 || size > limit {
            alive := false;
          } else {
            held, mapped := held + [size], mapped + [size];
          }
        case Free =>
          Release();
        case FleetStart(k, mib) =>
          Start(k, mib);
        case StopOne =>
          if |fleet| < 1 {
            alive := false;
          } else {
            Stop(1);
          }
        case StopAll =>
          Stop(|fleet|);
          assert old(fleet)[..|old(fleet)|] == old(fleet);
        case Blank =>
        case Mem =>
        case Unknown(_) =>
      }
    }

    // One line of console input. No reply to a blank line, nor from a server that dies of it.
    method Handle(raw: string, kib: nat, ghost cmd: Command) returns (reply: Option<string>)
      requires Valid() && alive && cmd == Parse(raw)
      modifies this
      ensures Valid() && Obeyed(cmd, old(State()), State(), limit)
      ensures reply == if alive && cmd != Blank then Some(Reply(cmd, |fleet|, kib)) else None
    {
      hide Parse;
      hide Obeyed;
      var parsed := Parse(raw);
      Obey(parsed);
      reply := if alive && parsed != Blank then Some(Reply(parsed, |fleet|, kib)) else None;
    }
  }

  lemma {:induction false} PidBound(s: seq<int>) returns (b: int)
    ensures forall i :: 0 <= i < |s| ==> s[i] < b
    decreases |s|
  {
    if s == [] {
      b := 0;
    } else {
      var c := PidBound(s[1..]);
      b := if c > s[0] then c else s[0] + 1;
      forall i | 0 <= i < |s| ensures s[i] < b {
        assert i > 0 ==> s[i] == s[1..][i - 1];
      }
    }
  }

  lemma FreshPid(s: seq<int>)
    ensures exists pid: int :: pid !in s
  {
    var b := PidBound(s);
    assert b !in s;
  }

  // ---- The host's end ----

  // A line no wait of the driver is looking for: kernel messages, echoes, other events.
  predicate Unrelated(line: string) {
    && !(STARTED <= line) && !(STOPPED <= line) && !(MEMORY <= line)
    && !(TOUCHED <= line) && !(FREED <= line) && !(BALLOON <= line)
  }

  predicate Quiet(lines: seq<string>) {
    forall line :: line in lines ==> Unrelated(line)
  }

  // Whatever else the machine has to say.
  method Chatter() returns (lines: seq<string>)
    ensures Quiet(lines)
  {
    lines := *;
    if !Quiet(lines) {
      lines := [];
    }
  }

  // Index of the first line that starts with the prefix; their number if there is none.
  function FirstMatch(lines: seq<string>, prefix: string): (i: nat)
    ensures i <= |lines| && (i < |lines| ==> prefix <= lines[i])
  {
    if lines == [] || prefix <= lines[0] then 0 else 1 + FirstMatch(lines[1..], prefix)
  }

  // Over unrelated lines a wait finds the reply that was sent, and takes nothing after it.
  lemma {:induction false} OwnReply(before: seq<string>, reply: string, after: seq<string>, prefix: string)
    requires Quiet(before) && prefix <= reply
    requires prefix in {STARTED, STOPPED, MEMORY, TOUCHED, FREED, BALLOON}
    ensures FirstMatch(before + [reply] + after, prefix) == |before|
    decreases |before|
  {
    var lines := before + [reply] + after;
    if before == [] {
      assert lines[0] == reply;
    } else {
      assert lines[0] == before[0];
      assert before[0] in before && forall line :: line in before[1..] ==> line in before;
      OwnReply(before[1..], reply, after, prefix);
      assert lines[1..] == before[1..] + [reply] + after;
    }
  }

  // The commands a driver sends and waits for.
  predicate Asked(cmd: Command) {
    !cmd.Blank? && !cmd.Unknown?
  }

  function PrefixOf(cmd: Command): string
    requires Asked(cmd)
  {
    match cmd
    case TouchGib(_) => TOUCHED
    case Free => FREED
    case Mem => MEMORY
    case FleetStart(_, _) => STARTED
    case StopOne => STOPPED
    case StopAll => STOPPED
  }

  // What the driver makes of the rest of the reply.
  function Answer(cmd: Command, children: nat, kib: nat): string {
    match cmd
    case Free => ""
    case TouchGib(gib) => Decimal(gib)
    case Mem => Decimal(kib)
    case _ => Decimal(children)
  }

  lemma Cut(word: string, d: string)
    ensures TAG + ((word + " ") + d) == (TAG + word) + (" " + d)
  {
  }

  lemma ReplyTail(cmd: Command, children: nat, kib: nat)
    requires Asked(cmd) && cmd != Free
    ensures Reply(cmd, children, kib) == PrefixOf(cmd) + (" " + Answer(cmd, children, kib))
  {
    hide Decimal;
    var d := Answer(cmd, children, kib);
    if cmd.TouchGib? {
      Cut("TOUCHED", d);
      assert "TOUCHED " == "TOUCHED" + " " && TAG + "TOUCHED" == TOUCHED;
    } else if cmd == Mem {
      Cut("MEM", d);
      assert "MEM " == "MEM" + " " && TAG + "MEM" == MEMORY;
    } else if cmd.FleetStart? {
      Cut("FLEET-STARTED", d);
      assert "FLEET-STARTED " == "FLEET-STARTED" + " " && TAG + "FLEET-STARTED" == STARTED;
    } else {
      Cut("FLEET-STOPPED", d);
      assert "FLEET-STOPPED " == "FLEET-STOPPED" + " " && TAG + "FLEET-STOPPED" == STOPPED;
    }
  }

  lemma ReplyShape(cmd: Command, children: nat, kib: nat)
    requires Asked(cmd)
    ensures var reply, n := Reply(cmd, children, kib), |PrefixOf(cmd)|;
      PrefixOf(cmd) <= reply && Trim(reply[n..]) == Answer(cmd, children, kib)
  {
    if cmd == Free {
      FreedReply(children, kib);
    } else {
      ReplyTail(cmd, children, kib);
      AnswerTrims(cmd, children, kib);
      hide Reply;
      hide PrefixOf;
      hide Answer;
      hide Trim;
      PrefixAndRest(PrefixOf(cmd), " " + Answer(cmd, children, kib));
    }
  }

  lemma FreedReply(children: nat, kib: nat)
    ensures Reply(Free, children, kib) == FREED && FREED[|FREED|..] == "" && Trim("") == ""
  {
    assert TAG + "FREED" == FREED;
  }

  lemma AnswerTrims(cmd: Command, children: nat, kib: nat)
    requires Asked(cmd) && cmd != Free
    ensures Trim(" " + Answer(cmd, children, kib)) == Answer(cmd, children, kib)
  {
    hide Trim;
    TrimSpaceDigits(Answer(cmd, children, kib));
  }

  lemma Regroup(a: string, b: string, c: string)
    ensures a + (b + c) == a + b + c
  {
  }

  lemma PrefixAndRest(p: string, rest: string)
    ensures p <= p + rest && (p + rest)[|p|..] == rest
  {
  }

  // The bridge: what a line of its input makes appear on its output, beside chatter.
  function BalloonReply(text: string): string {
    var mib := ParseUsize(text);
    if mib.Some? then BALLOON + (" " + Decimal(mib.value)) else "HARNESS balloon-error"
  }

  lemma ObeyedAlive(cmd: Command, s: GuestState, limit: nat)
    requires s.alive
    ensures forall t :: Obeyed(cmd, s, t, limit) ==> (t.alive <==> !Fatal(cmd, s, limit))
  {
  }

  lemma {:induction false} NoMatch(lines: seq<string>, prefix: string)
    requires Quiet(lines) && prefix in {STARTED, STOPPED, MEMORY, TOUCHED, FREED, BALLOON}
    ensures FirstMatch(lines, prefix) == |lines|
    decreases |lines|
  {
    if lines != [] {
      assert lines[0] in lines && forall line :: line in lines[1..] ==> line in lines;
      NoMatch(lines[1..], prefix);
    }
  }

  class Harness {
    const guest: Server
    var lines: seq<string>         // read but not yet waited for

    constructor (guest: Server)
      ensures this.guest == guest && lines == []
    {
      this.guest := guest;
      lines := [];
    }

    // `guest <line>`: the line goes to the server's console.
    method SendGuest(text: string, kib: nat, ghost cmd: Command)
      requires guest.Valid() && guest.alive && Quiet(lines)
      requires cmd == Parse(text) && Asked(cmd)
      modifies this, guest
      ensures guest.Valid() && Obeyed(cmd, old(guest.State()), guest.State(), guest.limit)
      ensures if guest.alive
              then exists before, after :: Quiet(before) && Quiet(after) &&
                     lines == before + [Reply(cmd, |guest.fleet|, kib)] + after
              else Quiet(lines)
    {
      hide Obeyed;
      hide Parse;
      hide Unrelated;
      var before := Chatter();
      var after := Chatter();
      var reply := guest.Handle(text, kib, cmd);
      lines := (lines + before) + (if reply.Some? then [reply.value] else []) + after;
    }

    // Consume lines until one starts with the prefix; its remainder, trimmed. None stands for
    // the panic when no such line comes.
    method Wait(prefix: string) returns (r: Option<string>)
      modifies this`lines
      ensures var i := FirstMatch(old(lines), prefix);
        if i < |old(lines)| then r == Some(Trim(old(lines)[i][|prefix|..])) && lines == old(lines)[i + 1..]
        else r == None && lines == []
    {
      while lines != []
        invariant |lines| <= |old(lines)| && lines == old(lines)[|old(lines)| - |lines|..]
        invariant FirstMatch(old(lines), prefix) == |old(lines)| - |lines| + FirstMatch(lines, prefix)
        decreases |lines|
      {
        var line := lines[0];
        lines := lines[1..];
        if prefix <= line {
          return Some(Trim(line[|prefix|..]));
        }
      }
      r := None;
    }

    // A command to the guest and the wait for its reply: the reply heard is the one this
    // command caused, and only chatter is left behind. The wait comes up empty exactly when the
    // command was the end of the server.
    method Ask(text: string, prefix: string, kib: nat, ghost cmd: Command) returns (r: Option<string>)
      requires guest.Valid() && guest.alive && Quiet(lines)
      requires cmd == Parse(text) && Asked(cmd) && prefix == PrefixOf(cmd)
      modifies this, guest
      ensures guest.Valid() && Obeyed(cmd, old(guest.State()), guest.State(), guest.limit) && Quiet(lines)
      ensures r == if guest.alive then Some(Answer(cmd, |guest.fleet|, kib)) else None
      ensures guest.alive <==> !old(Fatal(cmd, guest.State(), guest.limit))
    {
      hide Parse;
      hide Unrelated;
      ObeyedAlive(cmd, guest.State(), guest.limit);
      hide Obeyed;
      SendGuest(text, kib, cmd);
      ghost var was := lines;
      if guest.alive {
        ghost var before, after :|
          Quiet(before) && Quiet(after) && lines == before + [Reply(cmd, |guest.fleet|, kib)] + after;
        ReplyShape(cmd, |guest.fleet|, kib);
        OwnReply(before, Reply(cmd, |guest.fleet|, kib), after, PrefixOf(cmd));
        r := Wait(prefix);
        assert was[|before|] == Reply(cmd, |guest.fleet|, kib) && was[|before| + 1..] == after;
      } else {
        NoMatch(lines, prefix);
        r := Wait(prefix);
      }
    }

    // `guest mem`: the number heard is the number the guest read.
    method GuestMemAvailable(kib: nat) returns (r: Option<nat>)
      requires guest.Valid() && guest.alive && Quiet(lines) && kib < TWO64
      modifies this, guest
      ensures guest.Valid() && guest.State() == old(guest.State()) && Quiet(lines)
      ensures r == Some(kib)
    {
      hide Unrelated;
      ParseStops();
      hide Parse;
      ParseDecimal(kib);
      var text := Ask("mem", MEMORY, kib, Mem);
      r := ParseUsize(text.value);
    }

    method Balloon(mib: nat) returns (r: Option<string>)
      requires Quiet(lines) && mib < TWO64
      modifies this`lines
      ensures r == Some(Decimal(mib)) && Quiet(lines)
    {
      var before := Chatter();
      var after := Chatter();
      var reply := BalloonReply(Decimal(mib));
      ParseDecimal(mib);
      PrefixAndRest(BALLOON, " " + Decimal(mib));
      OwnReply(lines + before, reply, after, BALLOON);
      TrimSpaceDigits(Decimal(mib));
      lines := (lines + before) + [reply] + after;
      ghost var n := FirstMatch(lines, BALLOON);
      assert lines[n] == reply && lines[n + 1..] == after;
      r := Wait(BALLOON);
    }
  }

  lemma OneMore(mib: nat, s: GuestState, t: GuestState, limit: nat)
    requires s.alive && Obeyed(FleetStart(1, mib), s, t, limit)
    ensures t.alive && |t.fleet| == |s.fleet| + 1 && t.reaped == s.reaped && t.sets == s.sets + Copies(1, mib)
    ensures forall forked0 :: s.forked == forked0 + s.fleet ==> t.forked == forked0 + t.fleet
  {
    forall forked0 | s.forked == forked0 + s.fleet ensures t.forked == forked0 + t.fleet {
      assert t.fleet == t.fleet[..|s.fleet|] + t.fleet[|s.fleet|..];
    }
  }

  lemma NextCopy(sets0: seq<nat>, i: nat, mib: nat)
    ensures (sets0 + Copies(i, mib)) + Copies(1, mib) == sets0 + Copies(i + 1, mib) && sets0 + Copies(0, mib) == sets0
  {
  }

  lemma TouchedAndFreed(gib: nat, s: GuestState, t: GuestState, u: GuestState, limit: nat)
    requires s.alive && s.held == [] && Obeyed(TouchGib(gib), s, t, limit)
    ensures t.alive <==> !(TouchBytes(gib) == 0 || TouchBytes(gib) > limit)
    ensures t.alive && Obeyed(Free, t, u, limit) ==>
              u == s.(mapped := s.mapped + [TouchBytes(gib)], unmapped := s.unmapped + [TouchBytes(gib)])
  {
    hide TouchBytes;
    assert [] + [TouchBytes(gib)] == [TouchBytes(gib)];
  }

  // Services come up: the i-th start is answered with i.
  method StartFleet(vm: Harness, services: nat, serviceMib: nat) returns (ok: bool, ghost heard: seq<string>)
    requires vm.guest.Valid() && vm.guest.alive && vm.guest.fleet == [] && Quiet(vm.lines) && serviceMib < TWO64
    modifies vm, vm.guest
    ensures ok && vm.guest.Valid() && vm.guest.alive && Quiet(vm.lines) && |vm.guest.fleet| == services
    ensures vm.guest.reaped == old(vm.guest.reaped) && vm.guest.forked == old(vm.guest.forked) + vm.guest.fleet
    ensures vm.guest.sets == old(vm.guest.sets) + Copies(services, serviceMib)
    ensures |heard| == services && forall i :: 0 <= i < services ==> heard[i] == Decimal(i + 1)
  {
    hide Unrelated;
    hide Decimal;
    hide Obeyed;
    hide Copies;
    ok, heard := true, [];
    ParseStart(1, serviceMib);
    hide Parse;
    NextCopy(vm.guest.sets, 0, serviceMib);
    var text := StartText(1, serviceMib);
    for i := 0 to services
      invariant ok && vm.guest.Valid() && vm.guest.alive && Quiet(vm.lines) && |vm.guest.fleet| == i
      invariant vm.guest.reaped == old(vm.guest.reaped) && vm.guest.forked == old(vm.guest.forked) + vm.guest.fleet
      invariant vm.guest.sets == old(vm.guest.sets) + Copies(i, serviceMib)
      invariant |heard| == i && forall k :: 0 <= k < i ==> heard[k] == Decimal(k + 1)
    {
      ghost var s := vm.guest.State();
      var r := vm.Ask(text, STARTED, 0, FleetStart(1, serviceMib));
      OneMore(serviceMib, s, vm.guest.State(), vm.guest.limit);
      NextCopy(old(vm.guest.sets), i, serviceMib);
      ok, heard := r.Some?, heard + [r.value];
    }
  }

  // ... and go down: the j-th stop is answered with the number that is left.
  method StopFleet(vm: Harness, services: nat) returns (ok: bool, ghost heard: seq<string>)
    requires vm.guest.Valid() && vm.guest.alive && |vm.guest.fleet| == services && Quiet(vm.lines)
    modifies vm, vm.guest
    ensures ok && vm.guest.Valid() && vm.guest.alive && Quiet(vm.lines) && vm.guest.fleet == []
    ensures vm.guest.forked == old(vm.guest.forked) && vm.guest.sets == old(vm.guest.sets)
    ensures |heard| == services && forall j :: 0 <= j < services ==> heard[j] == Decimal(services - 1 - j)
  {
    hide Unrelated;
    hide Decimal;
    ok, heard := true, [];
    ParseStops();
    hide Parse;
    var text := "fleet stop-one";
    for j := 0 to services
      invariant ok && vm.guest.Valid() && vm.guest.alive && Quiet(vm.lines) && |vm.guest.fleet| == services - j
      invariant vm.guest.forked == old(vm.guest.forked) && vm.guest.sets == old(vm.guest.sets)
      invariant |heard| == j && forall k :: 0 <= k < j ==> heard[k] == Decimal(services - 1 - k)
    {
      var r := vm.Ask(text, STOPPED, 0, StopOne);
      ok, heard := r.Some?, heard + [r.value];
    }
  }

  // The whole fleet run, in lock step. No wait comes up empty or hears another command's
  // reply, and the server survives; every child was forked with the working set asked for, and
  // at the end every one has been killed and reaped, once.
  method FleetRun(vm: Harness, services: nat, serviceMib: nat, guestGb: nat)
    returns (ok: bool, ghost started: seq<string>, ghost stopped: seq<string>, ghost balloon: string)
    requires vm.guest.Valid() && vm.guest.alive && vm.guest.fleet == [] && Quiet(vm.lines)
    requires serviceMib < TWO64 && guestGb * 1024 < TWO64
    requires services * serviceMib < guestGb * 1024
    modifies vm, vm.guest
    ensures ok && vm.guest.Valid() && vm.guest.alive && vm.guest.fleet == [] && Quiet(vm.lines)
    ensures |started| == services && forall i :: 0 <= i < services ==> started[i] == Decimal(i + 1)
    ensures |stopped| == services && forall j :: 0 <= j < services ==> stopped[j] == Decimal(services - 1 - j)
    ensures balloon == Decimal(guestGb * 1024 - services * serviceMib)
    ensures |vm.guest.forked| == |old(vm.guest.forked)| + services
    ensures vm.guest.sets == old(vm.guest.sets) + Copies(services, serviceMib)
    ensures vm.guest.reaped == vm.guest.killed == vm.guest.forked
  {
    hide Decimal;
    hide Unrelated;
    ok, started := StartFleet(vm, services, serviceMib);
    stopped, balloon := [], "";
    if ok {
      ok, stopped := StopFleet(vm, services);
    }
    if ok {
      var r := vm.Balloon(guestGb * 1024 - services * serviceMib);
      ok, balloon := r.Some?, r.value;
    }
    assert vm.guest.forked == vm.guest.reaped + [];
  }

  // Ask the guest for its free memory until that has fallen below half of what it was, or time
  // is up: `readings` is what the guest finds each time.
  method WatchBalloon(vm: Harness, before: nat, readings: seq<nat>) returns (after: nat, ghost n: nat)
    requires vm.guest.Valid() && vm.guest.alive && Quiet(vm.lines)
    requires forall i :: 0 <= i < |readings| ==> readings[i] < TWO64
    modifies vm, vm.guest
    ensures vm.guest.Valid() && vm.guest.State() == old(vm.guest.State()) && Quiet(vm.lines)
    ensures n <= |readings| && after == if n == 0 then before else readings[n - 1]
    ensures forall i :: 0 <= i < n - 1 ==> readings[i] >= before / 2
    ensures n == |readings| || (n > 0 && readings[n - 1] < before / 2)
  {
    hide Unrelated;
    after, n := before, 0;
    var i := 0;
    while i < |readings|
      invariant 0 <= i <= |readings| && n == i
      invariant vm.guest.Valid() && vm.guest.State() == old(vm.guest.State()) && Quiet(vm.lines)
      invariant after == if i == 0 then before else readings[i - 1]
      invariant forall j :: 0 <= j < i ==> readings[j] >= before / 2
    {
      var r := vm.GuestMemAvailable(readings[i]);
      after, i := r.value, i + 1;
      n := i;
      if after < before / 2 {
        return;
      }
    }
  }

  // Touch and free. False when the guest dies of the touch; otherwise what the touch mapped has
  // been unmapped again, once, and nothing else has changed.
  method TouchThenFree(vm: Harness, touchGb: nat) returns (ok: bool)
    requires vm.guest.Valid() && vm.guest.alive && vm.guest.held == [] && Quiet(vm.lines) && touchGb < TWO64
    modifies vm, vm.guest
    ensures vm.guest.Valid() && (vm.guest.alive <==> ok) && Quiet(vm.lines)
    ensures ok <==> 0 < TouchBytes(touchGb) <= vm.guest.limit
    ensures ok ==> vm.guest.State() == old(vm.guest.State()).(
                                         mapped := old(vm.guest.mapped) + [TouchBytes(touchGb)],
                                         unmapped := old(vm.guest.unmapped) + [TouchBytes(touchGb)])
  {
    hide Unrelated;
    hide Decimal;
    ParseTouch(touchGb);
    ParseStops();
    hide Parse;
    hide Obeyed;
    hide Fatal;
    hide TouchBytes;
    ghost var s := vm.guest.State();
    var touched := vm.Ask("touch " + Decimal(touchGb), TOUCHED, 0, TouchGib(touchGb));
    ghost var t := vm.guest.State();
    TouchedAndFreed(touchGb, s, t, t, vm.guest.limit);
    ok := touched.Some?;
    if ok {
      var freed := vm.Ask("free", FREED, 0, Free);
      TouchedAndFreed(touchGb, s, t, vm.guest.State(), vm.guest.limit);
      FreeIsHarmless(t, vm.guest.limit);
    }
  }

  lemma FreeIsHarmless(s: GuestState, limit: nat)
    ensures !Fatal(Free, s, limit)
  {
  }

  // The plain run of the driver: touch, free, balloon. None when the guest dies of the touch;
  // otherwise the two readings of free memory are the guest's own.
  method RatchetRun(vm: Harness, guestGb: nat, touchGb: nat, kib: nat, readings: seq<nat>)
    returns (r: Option<(nat, nat)>, ghost balloon: string, ghost n: nat)
    requires vm.guest.Valid() && vm.guest.alive && vm.guest.held == [] && Quiet(vm.lines)
    requires touchGb < guestGb && guestGb * 1024 < TWO64 && kib < TWO64
    requires forall i :: 0 <= i < |readings| ==> readings[i] < TWO64
    modifies vm, vm.guest
    ensures vm.guest.Valid() && (vm.guest.alive <==> r.Some?)
    ensures r.Some? <==> 0 < TouchBytes(touchGb) <= vm.guest.limit
    ensures r.Some? ==>
              && vm.guest.State() == old(vm.guest.State()).(
                                       mapped := old(vm.guest.mapped) + [TouchBytes(touchGb)],
                                       unmapped := old(vm.guest.unmapped) + [TouchBytes(touchGb)])
              && balloon == Decimal(1024 * guestGb - 1024 * touchGb)
              && n <= |readings| && r.value == (kib, if n == 0 then kib else readings[n - 1])
              && (forall i :: 0 <= i < n - 1 ==> readings[i] >= kib / 2)
              && (n == |readings| || (n > 0 && readings[n - 1] < kib / 2))
  {
    hide Unrelated;
    hide Decimal;
    hide TouchBytes;
    balloon, n, r := "", 0, None;
    var ok := TouchThenFree(vm, touchGb);
    if ok {
      var before := vm.GuestMemAvailable(kib);
      var target := vm.Balloon((guestGb - touchGb) * 1024);
      balloon := target.value;
      var after;
      after, n := WatchBalloon(vm, kib, readings);
      r := Some((before.value, after));
    }
  }
}
