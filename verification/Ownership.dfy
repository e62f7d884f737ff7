// Which mapping is guest RAM, over the cycles of the timing mode and of the plain repeat loop,
// and over the whole program.

module Ownership {
  import opened Words
  import opened Arm64
  import opened GuestCode
  import opened Passes
  import opened Reclaim

  // Guest RAM is [ram, ram + size) and nothing else: beside it the process and stage 2 hold
  // what they hold in `rest`.
  ghost predicate Holding(t: HostState, ram: int, size: int, rest: HostState) {
    && Aligned(ram)
    && (forall a :: a in t.pages <==> a in rest.pages || Within(ram, size, a))
    && (forall a :: a in rest.pages ==> !Within(ram, size, a) && t.pages[a] == rest.pages[a])
    && (forall a :: a in t.stage2 <==> a in rest.stage2 || Within(RAM_GPA, size, a))
    && (forall a :: a in rest.stage2 ==> !Within(RAM_GPA, size, a) && t.stage2[a] == rest.stage2[a])
    && (forall a :: Within(RAM_GPA, size, a) ==> t.stage2[a] == ram + (a - RAM_GPA))
    && (forall a :: a in rest.stage2 ==> rest.stage2[a] in rest.pages)
  }

  lemma HeldIsBacked(t: HostState, ram: int, size: int, rest: HostState)
    requires Holding(t, ram, size, rest)
    ensures Backed(t, ram, RAM_GPA, size)
  {
  }

  lemma HeldAfterReclaim(s: HostState, t: HostState, mode: Mode, ram: int, size: int, extent: int, rest: HostState)
    requires extent > 0 && Holding(s, ram, size, rest) && Reclaimed(s, t, mode, ram, size, extent)
    ensures Holding(t, ram, size, rest)
  {
    assert forall a :: a in t.pages <==> a in s.pages;
  }

  lemma SamePlace(p: Pass, ram: int, size: int, a: int)
    requires Aligned(ram) && RAM_GPA <= p.lo && EndOf(p) <= RAM_GPA + size
    requires OnGrid(p.lo, EndOf(p), RAM_GPA + (a - ram))
    ensures Within(ram, size, a)
  {
  }

  lemma HeldAfterTouch(s: HostState, ram: int, size: int, rest: HostState, p: Pass)
    requires Holding(s, ram, size, rest) && RAM_GPA <= p.lo && EndOf(p) <= RAM_GPA + size
    ensures Holding(Dirtied(s, ram, p), ram, size, rest)
  {
    var t := Dirtied(s, ram, p);
    forall a | a in rest.pages ensures t.pages[a] == rest.pages[a] {
      if OnGrid(p.lo, EndOf(p), RAM_GPA + (a - ram)) {
        SamePlace(p, ram, size, a);
      }
    }
  }

  // Every page of guest RAM is in this state.
  ghost predicate AllAre(t: HostState, ram: int, size: int, state: PageState) {
    forall a :: Within(ram, size, a) ==> a in t.pages && t.pages[a].state == state
  }

  // A touch pass over all of guest RAM dirties all of it.
  lemma WholeTouch(s: HostState, ram: int, size: int, rest: HostState)
    requires Holding(s, ram, size, rest) && size > 0 && Aligned(size) && RAM_GPA + size < TWO64
    ensures EndOf(TouchPass(0, size)) == RAM_GPA + size
    ensures AllAre(Dirtied(s, ram, TouchPass(0, size)), ram, size, GuestDirty)
    ensures Holding(Dirtied(s, ram, TouchPass(0, size)), ram, size, rest)
  {
    var p := TouchPass(0, size);
    WholeTouchEnd(size);
    HeldAfterTouch(s, ram, size, rest, p);
    forall a | Within(ram, size, a) ensures OnGrid(p.lo, EndOf(p), RAM_GPA + (a - ram)) {
      WholePlace(ram, size, a);
    }
  }

  lemma WholeTouchEnd(size: int)
    requires size > 0 && Aligned(size) && RAM_GPA + size < TWO64
    ensures EndOf(TouchPass(0, size)) == RAM_GPA + size
  {
  }

  lemma WholePlace(ram: int, size: int, a: int)
    requires Aligned(ram) && Within(ram, size, a)
    ensures OnGrid(RAM_GPA, RAM_GPA + size, RAM_GPA + (a - ram))
  {
  }

  // unmap from the guest, munmap, mmap, map.
  function Replaced(s: HostState, ram: int, ram2: int, size: int): HostState {
    MapGuest(MapHost(UnmapHost(UnmapGuest(s, RAM_GPA, size), ram, size), ram2, size), ram2, RAM_GPA, size)
  }

  lemma HeldAfterReset(s: HostState, ram: int, ram2: int, size: int, rest: HostState)
    requires Holding(s, ram, size, rest) && Aligned(ram2)
    requires forall a :: Within(ram2, size, a) ==> a !in rest.pages
    ensures Holding(Replaced(s, ram, ram2, size), ram2, size, rest)
    ensures AllAre(Replaced(s, ram, ram2, size), ram2, size, ZeroFill)
    ensures Replaced(s, ram, ram2, size).objects == s.objects + 1
  {
  }

  // Regions opened less regions closed: the same before and after, but for the one that is
  // guest RAM now.
  ghost predicate Balanced(mapped0: multiset<(int, int)>, unmapped0: multiset<(int, int)>, ram0: int,
                           mapped: multiset<(int, int)>, unmapped: multiset<(int, int)>, ram: int, size: int) {
    mapped + unmapped0 + multiset{(ram0, size)} == unmapped + mapped0 + multiset{(ram, size)}
  }

  lemma StillBalanced(m0: multiset<(int, int)>, u0: multiset<(int, int)>, ram0: int,
                      m: multiset<(int, int)>, u: multiset<(int, int)>, ram: int, ram2: int, size: int)
    requires Balanced(m0, u0, ram0, m, u, ram, size)
    ensures Balanced(m0, u0, ram0, m + multiset{(ram2, size)}, u + multiset{(ram, size)}, ram2, size)
  {
    var was, now := multiset{(ram, size)}, multiset{(ram2, size)};
    assert m + now + u0 + multiset{(ram0, size)} == (m + u0 + multiset{(ram0, size)}) + now;
    assert u + was + m0 + now == (u + m0 + was) + now;
  }

  // The cycle reset of both loops.
  method ResetCycle(h: Host, ram: int, size: int, ghost rest: HostState) returns (ram2: int)
    requires size > 0 && Aligned(size) && Holding(h.State(), ram, size, rest)
    modifies h
    ensures h.State() == Replaced(old(h.State()), ram, ram2, size)
    ensures Holding(h.State(), ram2, size, rest) && AllAre(h.State(), ram2, size, ZeroFill)
    ensures h.objects == old(h.objects) + 1
    ensures h.mapped == old(h.mapped) + multiset{(ram2, size)} && h.unmapped == old(h.unmapped) + multiset{(ram, size)}
  {
    ghost var s := h.State();
    h.HvVmUnmap(RAM_GPA, size);
    h.MunmapRegion(ram, size);
    ram2 := h.MmapAnon(size);
    h.HvVmMap(ram2, RAM_GPA, size);
    assert h.State() == Replaced(s, ram, ram2, size);
    HeldAfterReset(s, ram, ram2, size, rest);
  }

  // A touch pass over all of guest RAM.
  method TouchAll(h: Host, ghost ram: int, size: int, ghost rest: HostState)
    requires size > 0 && Aligned(size) && RAM_GPA + size < TWO64 && Holding(h.State(), ram, size, rest)
    modifies h`pages
    ensures h.State() == Dirtied(old(h.State()), ram, TouchPass(0, size))
    ensures Holding(h.State(), ram, size, rest) && AllAre(h.State(), ram, size, GuestDirty)
  {
    HeldIsBacked(h.State(), ram, size, rest);
    WholeTouch(h.State(), ram, size, rest);
    h.GuestTouch(ram, size, 0, size);
  }

  // One reclaim, extent at a time, of all of guest RAM.
  method ReclaimAll(h: Host, ram: int, size: int, extent: int, mode: Mode, ghost n: nat, ghost rest: HostState)
    requires extent > 0 && Aligned(extent) && size == PieceStart(0, extent, n)
    requires Holding(h.State(), ram, size, rest)
    modifies h`stage2, h`pages, h`objects, h`released
    ensures Reclaimed(old(h.State()), h.State(), mode, ram, size, extent)
    ensures Holding(h.State(), ram, size, rest)
    ensures h.objects == old(h.objects) + if mode == Munmap then n else 0
  {
    ghost var s := h.State();
    HeldIsBacked(s, ram, size, rest);
    ghost var seen := h.ReclaimExtents(ram, size, extent, mode, n);
    HeldAfterReclaim(s, h.State(), mode, ram, size, extent, rest);
    PieceStartIs(0, extent, n);
    PieceIs(0, extent, size, n);
  }

  // Who touches guest RAM in the plain mode.
  datatype Toucher = HostWrites | GuestReads | GuestWrites

  function MarkOf(who: Toucher): PageState {
    match who
    case HostWrites => HostDirty
    case GuestReads => GuestRead
    case GuestWrites => GuestDirty
  }

  // Every page touched by the host, or loaded by the guest. A guest store is not forgotten.
  function Marked(s: HostState, ram: int, size: int, mark: PageState): HostState {
    s.(pages := map a | a in s.pages ::
         if Within(ram, size, a) && s.pages[a].state != GuestDirty then s.pages[a].(state := mark) else s.pages[a])
  }

  // What a page is left as by a cycle of touch and reclaim.
  function CycleLeaves(naive: bool, who: Toucher, readsPin: bool): PageState {
    if naive && GuestMark(MarkOf(who), readsPin) then MarkOf(who) else Advised
  }

  // Who falls into the trap: under --naive, a guest that stores, and one that loads if loads
  // pin a page. What the host dirtied is taken back either way.
  lemma Trapped(naive: bool, who: Toucher, readsPin: bool)
    ensures CycleLeaves(naive, who, readsPin) == Advised <==>
            !naive || who == HostWrites || (who == GuestReads && !readsPin)
    ensures naive && who == GuestWrites ==> CycleLeaves(naive, who, readsPin) == GuestDirty
  {
  }

  // ---- The record of a run's cycles ----

  // A size of guest RAM whose end is a guest address.
  type RamSize = n: nat | RAM_GPA + n < TWO64

  // What the two loops do between a fresh start and the next.
  datatype Style = Timed(mode: Mode, extent: int, steady: bool) | Untimed(naive: bool, who: Toucher)

  // A cycle: where guest RAM was, and the host just before and just after the reclaim.
  datatype Cycle = Cycle(ram: int, before: HostState, after: HostState)

  function Mark(st: Style): PageState {
    if st.Timed? then GuestDirty else MarkOf(st.who)
  }

  function Touched(st: Style, s: HostState, ram: int, size: RamSize): HostState {
    if Mark(st) == GuestDirty then Dirtied(s, ram, TouchPass(0, size)) else Marked(s, ram, size, Mark(st))
  }

  ghost predicate TakenBack(st: Style, s: HostState, t: HostState, ram: int, size: RamSize) {
    match st
    case Timed(mode, extent, _) => extent > 0 && Reclaimed(s, t, mode, ram, size, extent)
    case Untimed(naive, _) => if naive then InPlace(s, t, ram, size) else OnePiece(s, t, Reusable, ram, size)
  }

  // The timing mode faults everything back in.
  function Left(st: Style, c: Cycle, size: RamSize): HostState {
    if st.Timed? then Dirtied(c.after, c.ram, TouchPass(0, size)) else c.after
  }

  function StateAfter(st: Style, log: seq<Cycle>, s: HostState, size: RamSize): HostState {
    if log == [] then s else Left(st, log[|log| - 1], size)
  }

  function RamAfter(log: seq<Cycle>, ram: int): int {
    if log == [] then ram else log[|log| - 1].ram
  }

  // RAM is kept from the cycle before, or there is none before.
  predicate Keeps(st: Style, first: bool) {
    first || (st.Timed? && st.steady)
  }

  // Cycle c, from a host in state s: all of RAM touched, and then taken back.
  ghost predicate CycleFrom(st: Style, s: HostState, ram: int, size: RamSize, first: bool, c: Cycle) {
    && (Keeps(st, first) ==> c.ram == ram)
    && c.before == Touched(st, if Keeps(st, first) then s else Replaced(s, ram, c.ram, size), c.ram, size)
    && AllAre(c.before, c.ram, size, Mark(st))
    && TakenBack(st, c.before, c.after, c.ram, size)
  }

  // The cycles in the log followed one another, from a host in state s with RAM at ram.
  ghost predicate Chronicle(st: Style, log: seq<Cycle>, s: HostState, ram: int, size: RamSize) {
    if log == [] then true
    else
      var init := log[..|log| - 1];
      && Chronicle(st, init, s, ram, size)
      && CycleFrom(st, StateAfter(st, init, s, size), RamAfter(init, ram), size, init == [], log[|log| - 1])
  }

  lemma ChronicleSnoc(st: Style, log: seq<Cycle>, s: HostState, ram: int, size: RamSize, c: Cycle)
    requires Chronicle(st, log, s, ram, size)
    requires CycleFrom(st, StateAfter(st, log, s, size), RamAfter(log, ram), size, log == [], c)
    ensures Chronicle(st, log + [c], s, ram, size)
    ensures StateAfter(st, log + [c], s, size) == Left(st, c, size) && RamAfter(log + [c], ram) == c.ram
  {
    hide CycleFrom;
    hide Left;
    assert (log + [c])[..|log|] == log;
  }

  lemma NoCycles(st: Style, s: HostState, ram: int, size: RamSize)
    ensures Chronicle(st, [], s, ram, size) && StateAfter(st, [], s, size) == s && RamAfter([], ram) == ram
  {
  }

  // What mmap has given and munmap has taken, with multiplicity.
  datatype Regions = Regions(mapped: multiset<(int, int)>, unmapped: multiset<(int, int)>)

  function Swapped(r: Regions, ram: int, ram2: int, size: int): Regions {
    Regions(r.mapped + multiset{(ram2, size)}, r.unmapped + multiset{(ram, size)})
  }

  function RegionsAfter(st: Style, log: seq<Cycle>, r: Regions, ram: int, size: int): Regions {
    if log == [] then r
    else
      var n := |log| - 1;
      var was := RegionsAfter(st, log[..n], r, ram, size);
      if Keeps(st, n == 0) then was else Swapped(was, log[n - 1].ram, log[n].ram, size)
  }

  lemma RegionsNext(st: Style, log: seq<Cycle>, r: Regions, ram: int, size: int, c: Cycle)
    ensures RegionsAfter(st, [], r, ram, size) == r
    ensures var was := RegionsAfter(st, log, r, ram, size);
      RegionsAfter(st, log + [c], r, ram, size) ==
        if Keeps(st, log == []) then was else Swapped(was, RamAfter(log, ram), c.ram, size)
  {
    assert (log + [c])[..|log|] == log;
  }

  // One region more, and one closed, for every cycle on new RAM.
  lemma {:induction false} RegionsBalance(st: Style, log: seq<Cycle>, s: HostState, r: Regions, ram: int, size: RamSize)
    requires Chronicle(st, log, s, ram, size)
    ensures var now := RegionsAfter(st, log, r, ram, size);
      && Balanced(r.mapped, r.unmapped, ram, now.mapped, now.unmapped, RamAfter(log, ram), size)
      && |now.mapped| == |r.mapped| + if log == [] || (st.Timed? && st.steady) then 0 else |log| - 1
    decreases |log|
  {
    hide Replaced;
    hide Touched;
    hide TakenBack;
    hide AllAre;
    if log != [] {
      var init := log[..|log| - 1];
      RegionsBalance(st, init, s, r, ram, size);
      if !Keeps(st, init == []) {
        var was := RegionsAfter(st, init, r, ram, size);
        StillBalanced(r.mapped, r.unmapped, ram, was.mapped, was.unmapped, RamAfter(init, ram), log[|log| - 1].ram,
                      size);
      }
    }
  }

  // Does a cycle give the page to the kernel?
  predicate Gives(st: Style, readsPin: bool) {
    st.Timed? || CycleLeaves(st.naive, st.who, readsPin) == Advised
  }

  // How often the page at a went to the kernel: once in each cycle in which it was guest RAM,
  // and once with the mapping that was closed before the next.
  function Given(st: Style, log: seq<Cycle>, size: RamSize, readsPin: bool, a: int): nat {
    if log == [] then 0
    else
      var n := |log| - 1;
      Given(st, log[..n], size, readsPin, a)
      + (if Within(log[n].ram, size, a) && Gives(st, readsPin) then 1 else 0)
      + (if !Keeps(st, n == 0) && Within(log[n - 1].ram, size, a) then 1 else 0)
  }

  lemma TouchReleasesNothing(st: Style, s: HostState, ram: int, size: RamSize, a: int)
    ensures Releases(Touched(st, s, ram, size), a) == Releases(s, a)
    ensures Touched(st, s, ram, size).readsPin == s.readsPin
  {
  }

  lemma ReplacingReleases(s: HostState, ram: int, ram2: int, size: RamSize, a: int)
    ensures Releases(Replaced(s, ram, ram2, size), a) == Releases(s, a) + if Within(ram, size, a) then 1 else 0
    ensures Replaced(s, ram, ram2, size).readsPin == s.readsPin
  {
  }

  lemma CycleGives(st: Style, c: Cycle, size: RamSize, a: int)
    requires AllAre(c.before, c.ram, size, Mark(st)) && TakenBack(st, c.before, c.after, c.ram, size)
    ensures Releases(Left(st, c, size), a) ==
            Releases(c.before, a) + if Within(c.ram, size, a) && Gives(st, c.before.readsPin) then 1 else 0
    ensures Left(st, c, size).readsPin == c.before.readsPin
  {
  }

  // Conservation over the cycles of a run.
  lemma {:induction false} GivenInAll(st: Style, log: seq<Cycle>, s: HostState, ram: int, size: RamSize, a: int)
    requires Chronicle(st, log, s, ram, size)
    ensures var t := StateAfter(st, log, s, size);
      t.readsPin == s.readsPin && Releases(t, a) == Releases(s, a) + Given(st, log, size, s.readsPin, a)
    decreases |log|
  {
    hide Replaced;
    hide Touched;
    hide TakenBack;
    hide Left;
    hide AllAre;
    hide Releases;
    hide Within;
    hide Gives;
    if log != [] {
      var n := |log| - 1;
      GivenInAll(st, log[..n], s, ram, size, a);
      var was, c := StateAfter(st, log[..n], s, size), log[n];
      var entered := if Keeps(st, n == 0) then was else Replaced(was, RamAfter(log[..n], ram), c.ram, size);
      ReplacingReleases(was, RamAfter(log[..n], ram), c.ram, size, a);
      TouchReleasesNothing(st, entered, c.ram, size, a);
      CycleGives(st, c, size, a);
    }
  }

  // A steady run gives every page of RAM to the kernel once a cycle.
  lemma {:induction false} SteadyGives(st: Style, log: seq<Cycle>, s: HostState, ram: int, size: RamSize, a: int)
    requires Chronicle(st, log, s, ram, size) && st.Timed? && st.steady
    ensures RamAfter(log, ram) == ram
    ensures Given(st, log, size, s.readsPin, a) == if Within(ram, size, a) then |log| else 0
    decreases |log|
  {
    hide Replaced;
    hide Touched;
    hide TakenBack;
    hide AllAre;
    if log != [] {
      SteadyGives(st, log[..|log| - 1], s, ram, size, a);
    }
  }

  // Every cycle of the plain mode leaves every page as this says.
  lemma CycleLeft(st: Style, c: Cycle, size: RamSize)
    requires st.Untimed? && AllAre(c.before, c.ram, size, Mark(st)) && TakenBack(st, c.before, c.after, c.ram, size)
    ensures AllAre(c.after, c.ram, size, CycleLeaves(st.naive, st.who, c.before.readsPin))
  {
    forall a | Within(c.ram, size, a) ensures c.before.pages[a].state == Mark(st) {}
  }

  // Objects created by `cycles` cycles of `n` extents each.
  function Churn(mode: Mode, steady: bool, cycles: nat, n: nat): nat {
    if cycles == 0 then 0
    else
      Churn(mode, steady, cycles - 1, n) +
      (if cycles > 1 && !steady then 1 else 0) + (if mode == Munmap then n else 0)
  }

  lemma ChurnNext(mode: Mode, steady: bool, cycle: nat, n: nat)
    requires cycle >= 1
    ensures Churn(mode, steady, 0, n) == 0
    ensures Churn(mode, steady, cycle, n) == Churn(mode, steady, cycle - 1, n)
              + (if cycle == 1 || steady then 0 else 1) + (if mode == Munmap then n else 0)
  {
  }

  lemma {:induction false} ChurnIs(mode: Mode, steady: bool, cycles: nat, n: nat)
    requires cycles >= 1
    ensures Churn(mode, steady, cycles, n) ==
              (if steady then 0 else cycles - 1) + (if mode == Munmap then cycles * n else 0)
    decreases cycles
  {
    if cycles > 1 {
      ChurnIs(mode, steady, cycles - 1, n);
      assert cycles * n == (cycles - 1) * n + n;
    } else {
      assert Churn(mode, steady, 0, n) == 0;
    }
  }

  function ExtentOf(size: int, extentKb: nat): int {
    if extentKb == 0 then size else extentKb * 1024
  }

  // The extents in KiB that the timing mode accepts: none, which is all of RAM, or whole pages
  // that divide RAM.
  predicate Divides(extentKb: nat, size: int) {
    extentKb == 0 || (extentKb % 16 == 0 && size % (1024 * extentKb) == 0)
  }

  lemma ExtentAccepted(size: int, extentKb: nat)
    requires size > 0 && Aligned(size)
    ensures var extent := ExtentOf(size, extentKb);
      && extent == (if extentKb == 0 then size else 1024 * extentKb)
      && (extent % PAGE == 0 && size % extent == 0 <==> Divides(extentKb, size))
  {
    assert 1024 * extentKb == 16384 * (extentKb / 16) + 1024 * (extentKb % 16);
    PagesAndKib(extentKb / 16, extentKb % 16);
  }

  lemma PagesAndKib(q: nat, r: nat)
    requires r < 16
    ensures (16384 * q + 1024 * r) % PAGE == 1024 * r
  {
  }

  // One page at a time is always accepted.
  lemma PageAccepted(size: int)
    requires size > 0 && Aligned(size)
    ensures Divides(16, size)
  {
  }

  // One cycle of --time-reclaim: touch, reclaim, fault back.
  method TimingCycle(h: Host, ram: int, size: int, extent: int, mode: Mode, ghost steady: bool, ghost n: nat,
                     ghost rest: HostState)
    returns (ghost c: Cycle)
    requires size > 0 && Aligned(size) && RAM_GPA + size < TWO64
    requires extent > 0 && Aligned(extent) && size == PieceStart(0, extent, n)
    requires Holding(h.State(), ram, size, rest)
    modifies h`stage2, h`pages, h`objects, h`released
    ensures Holding(h.State(), ram, size, rest) && AllAre(h.State(), ram, size, GuestDirty)
    ensures h.objects == old(h.objects) + if mode == Munmap then n else 0
    ensures var st := Timed(mode, extent, steady);
      CycleFrom(st, old(h.State()), ram, size, true, c) && h.State() == Left(st, c, size)
  {
    TouchAll(h, ram, size, rest);
    ghost var before := h.State();
    ReclaimAll(h, ram, size, extent, mode, n, rest);
    c := Cycle(ram, before, h.State());
    TouchAll(h, ram, size, rest);
  }

  // A cycle on the RAM that was kept, or on the RAM that replaced it.
  lemma Entering(st: Style, s: HostState, ram: int, t: HostState, ram2: int, size: RamSize, first: bool, c: Cycle)
    requires CycleFrom(st, t, ram2, size, true, c)
    requires if Keeps(st, first) then t == s && ram2 == ram else t == Replaced(s, ram, ram2, size)
    ensures CycleFrom(st, s, ram, size, first, c) && c.ram == ram2
  {
    hide Replaced;
    hide Touched;
    hide TakenBack;
    hide AllAre;
  }

  // The next cycle of the timing mode, on the same RAM or on its replacement.
  method NextTimed(h: Host, ram: int, size: int, extent: int, mode: Mode, steady: bool, first: bool, ghost n: nat,
                   ghost rest: HostState)
    returns (ram2: int, ghost c: Cycle)
    requires size > 0 && Aligned(size) && RAM_GPA + size < TWO64
    requires extent > 0 && Aligned(extent) && size == PieceStart(0, extent, n)
    requires Holding(h.State(), ram, size, rest)
    modifies h
    ensures Holding(h.State(), ram2, size, rest) && AllAre(h.State(), ram2, size, GuestDirty)
    ensures h.objects == old(h.objects) + (if first || steady then 0 else 1) + (if mode == Munmap then n else 0)
    ensures var st := Timed(mode, extent, steady);
      CycleFrom(st, old(h.State()), ram, size, first, c) && h.State() == Left(st, c, size) && c.ram == ram2
    ensures var r := old(Regions(h.mapped, h.unmapped));
      Regions(h.mapped, h.unmapped) == if first || steady then r else Swapped(r, ram, ram2, size)
  {
    hide CycleFrom;
    hide Holding;
    hide AllAre;
    hide Replaced;
    hide Left;
    ghost var s := h.State();
    ram2 := ram;
    if !first && !steady {
      ram2 := ResetCycle(h, ram, size, rest);
    }
    ghost var entered := h.State();
    c := TimingCycle(h, ram2, size, extent, mode, steady, n, rest);
    Entering(Timed(mode, extent, steady), s, ram, entered, ram2, size, first, c);
  }

  // The cycles of --time-reclaim over n extents each.
  method TimingCycles(h: Host, ram0: int, size: int, extent: int, mode: Mode, steady: bool, repeats: nat,
                      ghost n: nat, ghost rest: HostState)
    returns (ram: int, ghost log: seq<Cycle>)
    requires size > 0 && Aligned(size) && RAM_GPA + size < TWO64 && repeats >= 1
    requires extent > 0 && Aligned(extent) && size == PieceStart(0, extent, n)
    requires Holding(h.State(), ram0, size, rest)
    modifies h
    ensures Holding(h.State(), ram, size, rest) && AllAre(h.State(), ram, size, GuestDirty)
    ensures Regions(h.mapped, h.unmapped) ==
            RegionsAfter(Timed(mode, extent, steady), log, old(Regions(h.mapped, h.unmapped)), ram0, size)
    ensures h.objects == old(h.objects) + Churn(mode, steady, repeats, n)
    ensures |log| == repeats && Chronicle(Timed(mode, extent, steady), log, old(h.State()), ram0, size)
    ensures h.State() == StateAfter(Timed(mode, extent, steady), log, old(h.State()), size)
    ensures ram == RamAfter(log, ram0)
  {
    hide CycleFrom;
    hide Holding;
    hide AllAre;
    hide Replaced;
    hide Left;
    hide Swapped;
    hide RegionsAfter;
    NoCycles(Timed(mode, extent, steady), h.State(), ram0, size);
    hide Chronicle;
    hide StateAfter;
    hide RamAfter;
    hide Dirtied;
    hide Within;
    hide Aligned;
    hide PieceStart;
    hide Churn;
    ram, log := ram0, [];
    ghost var st := Timed(mode, extent, steady);
    ghost var r := Regions(h.mapped, h.unmapped);
    RegionsNext(st, [], r, ram0, size, Cycle(ram, h.State(), h.State()));
    ChurnNext(mode, steady, 1, n);
    var cycle := 1;
    while cycle <= repeats
      invariant 1 <= cycle <= repeats + 1
      invariant Holding(h.State(), ram, size, rest)
      invariant cycle > 1 ==> AllAre(h.State(), ram, size, GuestDirty)
      invariant Regions(h.mapped, h.unmapped) == RegionsAfter(st, log, r, ram0, size)
      invariant h.objects == old(h.objects) + Churn(mode, steady, cycle - 1, n)
      invariant |log| == cycle - 1 && Chronicle(st, log, old(h.State()), ram0, size)
      invariant h.State() == StateAfter(st, log, old(h.State()), size) && ram == RamAfter(log, ram0)
    {
      ghost var c;
      ram, c := NextTimed(h, ram, size, extent, mode, steady, cycle == 1, n, rest);
      RegionsNext(st, log, r, ram0, size, c);
      ChurnNext(mode, steady, cycle, n);
      ChronicleSnoc(st, log, old(h.State()), ram0, size, c);
      log := log + [c];
      cycle := cycle + 1;
    }
  }

  lemma SteadyReleases(st: Style, log: seq<Cycle>, s: HostState, ram: int, size: RamSize)
    requires Chronicle(st, log, s, ram, size)
    ensures st.Timed? && st.steady ==>
              && RamAfter(log, ram) == ram
              && forall a :: Releases(StateAfter(st, log, s, size), a) ==
                             Releases(s, a) + if Within(ram, size, a) then |log| else 0
  {
    if st.Timed? && st.steady {
      SteadyGives(st, log, s, ram, size, ram);
      forall a ensures Releases(StateAfter(st, log, s, size), a) ==
                       Releases(s, a) + if Within(ram, size, a) then |log| else 0
      {
        GivenInAll(st, log, s, ram, size, a);
        SteadyGives(st, log, s, ram, size, a);
      }
    }
  }

  // --time-reclaim. Nothing when the extent is refused; otherwise the RAM mapping of the last
  // cycle, which the caller has to unmap.
  method TimingRun(h: Host, ram0: int, size: int, extentKb: nat, mode: Mode, steady: bool, repeats: nat,
                   ghost rest: HostState)
    returns (r: Option<int>, ghost log: seq<Cycle>)
    requires size > 0 && Aligned(size) && RAM_GPA + size < TWO64 && repeats >= 1
    requires Holding(h.State(), ram0, size, rest)
    modifies h
    ensures r.Some? <==> Divides(extentKb, size)
    ensures r.None? ==> h.State() == old(h.State()) && h.mapped == old(h.mapped) && h.unmapped == old(h.unmapped)
    ensures r.Some? ==> Holding(h.State(), r.value, size, rest) && AllAre(h.State(), r.value, size, GuestDirty)
    ensures r.Some? ==> Balanced(old(h.mapped), old(h.unmapped), ram0, h.mapped, h.unmapped, r.value, size)
    ensures r.Some? ==> |h.mapped| == |old(h.mapped)| + (if steady then 0 else repeats - 1)
    ensures r.Some? ==>
              h.objects == old(h.objects) + (if steady then 0 else repeats - 1) +
                           (if mode == Munmap then repeats * (size / if extentKb == 0 then size else 1024 * extentKb)
                            else 0)
    ensures r.Some? ==>
              var st := Timed(mode, if extentKb == 0 then size else 1024 * extentKb, steady);
              && |log| == repeats && Chronicle(st, log, old(h.State()), ram0, size)
              && h.State() == StateAfter(st, log, old(h.State()), size) && r.value == RamAfter(log, ram0)
    ensures r.Some? && steady ==>
              && r.value == ram0
              && forall a :: Releases(h.State(), a) ==
                             Releases(old(h.State()), a) + if Within(ram0, size, a) then repeats else 0
  {
    log := [];
    var extent := ExtentOf(size, extentKb);
    ExtentAccepted(size, extentKb);
    if !(extent % PAGE == 0 && size % extent == 0) {
      return None, [];
    }
    PieceCount(size, extent);
    var ram;
    ram, log := TimingCycles(h, ram0, size, extent, mode, steady, repeats, size / extent, rest);
    ghost var s, st := old(h.State()), Timed(mode, extent, steady);
    SteadyReleases(st, log, s, ram0, size);
    RegionsBalance(st, log, s, old(Regions(h.mapped, h.unmapped)), ram0, size);
    ChurnIs(mode, steady, repeats, size / extent);
    r := Some(ram);
  }

  lemma HeldAfterMark(s: HostState, ram: int, size: int, rest: HostState, mark: PageState)
    requires Holding(s, ram, size, rest)
    ensures Holding(Marked(s, ram, size, mark), ram, size, rest)
  {
  }

  // Fresh RAM, touched once.
  method TouchRam(h: Host, ram: int, size: int, who: Toucher, ghost rest: HostState)
    requires size > 0 && Aligned(size) && RAM_GPA + size < TWO64 && Holding(h.State(), ram, size, rest)
    requires AllAre(h.State(), ram, size, ZeroFill)
    modifies h`pages
    ensures h.State() == Touched(Untimed(false, who), old(h.State()), ram, size)
    ensures Holding(h.State(), ram, size, rest) && AllAre(h.State(), ram, size, MarkOf(who))
  {
    if who == GuestWrites {
      TouchAll(h, ram, size, rest);
    } else {
      var mark := MarkOf(who);
      HeldAfterMark(h.State(), ram, size, rest, mark);
      h.pages := map a | a in h.pages ::
        if Within(ram, size, a) && h.pages[a].state != GuestDirty then h.pages[a].(state := mark) else h.pages[a];
    }
  }

  lemma HeldAfterAdvice(s: HostState, t: HostState, ram: int, size: int, rest: HostState)
    requires Holding(s, ram, size, rest) && InPlace(s, t, ram, size)
    ensures Holding(t, ram, size, rest)
  {
    assert forall a :: a in t.pages <==> a in s.pages;
  }

  // The answer to a doorbell in the plain mode: the triple, or the trap.
  method ReclaimPlain(h: Host, ram: int, size: int, naive: bool, ghost rest: HostState)
    requires size > 0 && Aligned(size) && Holding(h.State(), ram, size, rest)
    modifies h`stage2, h`pages, h`objects, h`released
    ensures if naive then InPlace(old(h.State()), h.State(), ram, size)
            else OnePiece(old(h.State()), h.State(), Reusable, ram, size)
    ensures Holding(h.State(), ram, size, rest)
  {
    ghost var s := h.State();
    HeldIsBacked(s, ram, size, rest);
    if naive {
      AdviseIsInPlace(s, ram, RAM_GPA, size);
      h.Madvise(ram, size);
      HeldAfterAdvice(s, h.State(), ram, size, rest);
    } else {
      ghost var during := h.ReclaimRange(ram, RAM_GPA, size, Reusable);
      WholeIsReclaimed(s, h.State(), Reusable, ram, size);
      HeldAfterReclaim(s, h.State(), Reusable, ram, size, size, rest);
    }
  }

  // One cycle on fresh RAM.
  method PlainCycle(h: Host, ram: int, size: int, naive: bool, who: Toucher, ghost rest: HostState)
    returns (ghost c: Cycle)
    requires size > 0 && Aligned(size) && RAM_GPA + size < TWO64
    requires Holding(h.State(), ram, size, rest) && AllAre(h.State(), ram, size, ZeroFill)
    modifies h`stage2, h`pages, h`objects, h`released
    ensures Holding(h.State(), ram, size, rest)
    ensures AllAre(h.State(), ram, size, CycleLeaves(naive, who, h.readsPin))
    ensures CycleFrom(Untimed(naive, who), old(h.State()), ram, size, true, c) && c.after == h.State()
  {
    TouchRam(h, ram, size, who, rest);
    ghost var before := h.State();
    ReclaimPlain(h, ram, size, naive, rest);
    c := Cycle(ram, before, h.State());
    CycleLeft(Untimed(naive, who), c, size);
  }

  // The next cycle of the plain mode.
  method NextPlain(h: Host, ram: int, size: int, naive: bool, who: Toucher, first: bool, ghost rest: HostState)
    returns (ram2: int, ghost c: Cycle)
    requires size > 0 && Aligned(size) && RAM_GPA + size < TWO64
    requires Holding(h.State(), ram, size, rest) && (first ==> AllAre(h.State(), ram, size, ZeroFill))
    modifies h
    ensures Holding(h.State(), ram2, size, rest)
    ensures AllAre(h.State(), ram2, size, CycleLeaves(naive, who, h.readsPin))
    ensures var st := Untimed(naive, who);
      CycleFrom(st, old(h.State()), ram, size, first, c) && h.State() == Left(st, c, size) && c.ram == ram2
    ensures var r := old(Regions(h.mapped, h.unmapped));
      Regions(h.mapped, h.unmapped) == if first then r else Swapped(r, ram, ram2, size)
  {
    hide CycleFrom;
    hide Holding;
    hide AllAre;
    hide Replaced;
    ghost var s := h.State();
    ram2 := ram;
    if !first {
      ram2 := ResetCycle(h, ram, size, rest);
    }
    ghost var entered := h.State();
    c := PlainCycle(h, ram2, size, naive, who, rest);
    Entering(Untimed(naive, who), s, ram, entered, ram2, size, first, c);
  }

  // Touch and reclaim, over and over, each cycle on a fresh mapping.
  method PlainCycles(h: Host, ram0: int, size: int, repeats: nat, naive: bool, who: Toucher, ghost rest: HostState)
    returns (ram: int, ghost log: seq<Cycle>)
    requires size > 0 && Aligned(size) && RAM_GPA + size < TWO64 && repeats >= 1
    requires Holding(h.State(), ram0, size, rest) && AllAre(h.State(), ram0, size, ZeroFill)
    modifies h
    ensures Holding(h.State(), ram, size, rest)
    ensures AllAre(h.State(), ram, size, CycleLeaves(naive, who, h.readsPin))
    ensures Regions(h.mapped, h.unmapped) ==
            RegionsAfter(Untimed(naive, who), log, old(Regions(h.mapped, h.unmapped)), ram0, size)
    ensures |log| == repeats && Chronicle(Untimed(naive, who), log, old(h.State()), ram0, size)
    ensures forall i :: 0 <= i < repeats ==> AllAre(log[i].after, log[i].ram, size, CycleLeaves(naive, who, h.readsPin))
    ensures h.State() == StateAfter(Untimed(naive, who), log, old(h.State()), size) && ram == RamAfter(log, ram0)
  {
    hide CycleFrom;
    hide Holding;
    hide AllAre;
    hide Replaced;
    hide Dirtied;
    hide Swapped;
    hide RegionsAfter;
    NoCycles(Untimed(naive, who), h.State(), ram0, size);
    hide Chronicle;
    hide StateAfter;
    hide RamAfter;
    hide Within;
    hide Aligned;
    ram, log := ram0, [];
    ghost var s, st := h.State(), Untimed(naive, who);
    ghost var r := Regions(h.mapped, h.unmapped);
    RegionsNext(st, [], r, ram0, size, Cycle(ram, s, s));
    var cycle := 1;
    while cycle <= repeats
      invariant 1 <= cycle <= repeats + 1
      invariant Holding(h.State(), ram, size, rest)
      invariant AllAre(h.State(), ram, size, if cycle == 1 then ZeroFill else CycleLeaves(naive, who, h.readsPin))
      invariant Regions(h.mapped, h.unmapped) == RegionsAfter(st, log, r, ram0, size)
      invariant |log| == cycle - 1 && Chronicle(st, log, s, ram0, size)
      invariant forall i :: 0 <= i < |log| ==>
                  AllAre(log[i].after, log[i].ram, size, CycleLeaves(naive, who, h.readsPin))
      invariant h.State() == StateAfter(st, log, s, size) && ram == RamAfter(log, ram0)
    {
      ghost var c;
      ram, c := NextPlain(h, ram, size, naive, who, cycle == 1, rest);
      RegionsNext(st, log, r, ram0, size, c);
      ChronicleSnoc(st, log, s, ram0, size, c);
      log := log + [c];
      cycle := cycle + 1;
    }
  }

  // Touch and reclaim, over and over, each cycle on a fresh mapping; a single guest-driven
  // cycle is followed by one more touch pass. The log says what each cycle found and left.
  method PlainRun(h: Host, ram0: int, size: int, repeats: nat, naive: bool, who: Toucher, ghost rest: HostState)
    returns (ram: int, ghost log: seq<Cycle>)
    requires size > 0 && Aligned(size) && RAM_GPA + size < TWO64 && repeats >= 1
    requires Holding(h.State(), ram0, size, rest) && AllAre(h.State(), ram0, size, ZeroFill)
    modifies h
    ensures Holding(h.State(), ram, size, rest)
    ensures Balanced(old(h.mapped), old(h.unmapped), ram0, h.mapped, h.unmapped, ram, size)
    ensures |h.mapped| == |old(h.mapped)| + repeats - 1
    ensures |log| == repeats && Chronicle(Untimed(naive, who), log, old(h.State()), ram0, size)
    ensures forall i :: 0 <= i < repeats ==> AllAre(log[i].after, log[i].ram, size, CycleLeaves(naive, who, h.readsPin))
    ensures ram == RamAfter(log, ram0)
    ensures var t := StateAfter(Untimed(naive, who), log, old(h.State()), size);
      h.State() == if who != HostWrites && repeats == 1 then Dirtied(t, ram, TouchPass(0, size)) else t
    ensures AllAre(h.State(), ram, size,
                   if who != HostWrites && repeats == 1 then GuestDirty else CycleLeaves(naive, who, h.readsPin))
    ensures forall a :: Releases(h.State(), a) ==
              Releases(old(h.State()), a) + Given(Untimed(naive, who), log, size, h.readsPin, a)
    ensures repeats == 1 ==>
              forall a :: Releases(h.State(), a) ==
                          Releases(old(h.State()), a) +
                            if Within(ram0, size, a) && CycleLeaves(naive, who, h.readsPin) == Advised then 1 else 0
  {
    hide CycleFrom;
    hide Holding;
    hide AllAre;
    hide Dirtied;
    hide Chronicle;
    ghost var s, st := h.State(), Untimed(naive, who);
    ram, log := PlainCycles(h, ram0, size, repeats, naive, who, rest);
    RegionsBalance(st, log, s, old(Regions(h.mapped, h.unmapped)), ram0, size);
    forall a ensures Releases(h.State(), a) == Releases(s, a) + Given(st, log, size, h.readsPin, a) {
      GivenInAll(st, log, s, ram0, size, a);
    }
    if repeats == 1 {
      forall a ensures Given(st, log, size, h.readsPin, a) ==
                       if Within(ram0, size, a) && CycleLeaves(naive, who, h.readsPin) == Advised then 1 else 0
      {
        OneCycleGives(st, log, s, ram0, size, h.readsPin, a);
      }
    }
    if who != HostWrites && repeats == 1 {
      DirtiedKeeps(h.State(), ram, TouchPass(0, size));
      TouchAll(h, ram, size, rest);
    }
  }

  lemma OneCycleGives(st: Style, log: seq<Cycle>, s: HostState, ram: int, size: RamSize, readsPin: bool, a: int)
    requires Chronicle(st, log, s, ram, size) && |log| == 1
    ensures Given(st, log, size, readsPin, a) == if Within(ram, size, a) && Gives(st, readsPin) then 1 else 0
  {
    assert log[..0] == [];
    assert Given(st, log[..0], size, readsPin, a) == 0;
  }

  lemma DirtiedKeeps(s: HostState, ram: int, p: Pass)
    ensures forall a :: Releases(Dirtied(s, ram, p), a) == Releases(s, a)
  {
  }
}
