// One whole run of hv-reclaim on a single vCPU: what it maps it unmaps, once.

module Session {
  import opened Words
  import opened Arm64
  import opened GuestCode
  import opened Passes
  import opened Reclaim
  import opened Ownership
  import FleetSim

  datatype Mission =
    | TimeReclaim(extentKb: nat, mode: Mode, steady: bool)
    | Fleet(serviceMib: nat, services: nat)
    | Plain(naive: bool, who: Toucher)

  // The assertions a run has to get past, as conditions on the command line.
  predicate Accepted(size: int, m: Mission)
    requires size > 0
  {
    match m
    case TimeReclaim(extentKb, _, _) => Divides(extentKb, size)
    case Fleet(serviceMib, services) => serviceMib * 0x10_0000 * services <= size
    case Plain(_, _) => true
  }

  lemma GibAligned(gib: nat)
    ensures Aligned(gib * 0x4000_0000)
  {
    assert gib * 0x4000_0000 == 16384 * (gib * 0x1_0000);
    TimesPage(gib * 0x1_0000);
  }

  lemma MibAligned(mib: nat)
    ensures Aligned(mib * 0x10_0000)
  {
    assert mib * 0x10_0000 == 16384 * (mib * 64);
    TimesPage(mib * 64);
  }

  lemma TimesPage(x: int)
    ensures Aligned(16384 * x)
  {
  }

  // Process and VM without guest RAM: what there was, and the code page.
  function Rest(s: HostState, code: int): HostState {
    s.(pages := s.pages[code := HostPage(s.objects + 1, ZeroFill)], stage2 := map[CODE_GPA := code])
  }

  function Booted(s: HostState, ram: int, code: int, size: int): HostState {
    MapGuest(MapGuest(MapHost(MapHost(s, ram, size), code, PAGE), code, CODE_GPA, PAGE), ram, RAM_GPA, size)
  }

  lemma OnlyPage(a: int, b: int)
    requires Aligned(a)
    ensures Within(a, PAGE, b) <==> b == a
  {
  }

  lemma BootHolds(s: HostState, ram: int, code: int, size: int)
    requires s.stage2 == map[] && Aligned(ram) && Aligned(code) && size > 0
    requires forall a :: Within(ram, size, a) ==> a !in s.pages
    requires code !in s.pages && !Within(ram, size, code)
    ensures Holding(Booted(s, ram, code, size), ram, size, Rest(s, code))
    ensures FleetSim.Fleet(Booted(s, ram, code, size), ram, size, 0, 0)
  {
    forall a ensures (Within(code, PAGE, a) <==> a == code) && (Within(CODE_GPA, PAGE, a) <==> a == CODE_GPA) {
      OnlyPage(code, a);
      OnlyPage(CODE_GPA, a);
    }
  }

  function Closed(t: HostState, ram: int, code: int, size: int): HostState {
    UnmapHost(UnmapHost(t.(stage2 := map[]), ram, size), code, PAGE)
  }

  lemma ClosedIsClean(s: HostState, t: HostState, ram: int, code: int, size: int)
    requires Holding(t, ram, size, Rest(s, code)) && Aligned(code) && code !in s.pages
    ensures Closed(t, ram, code, size).pages == s.pages
  {
    var left := Closed(t, ram, code, size).pages;
    forall a ensures a in left <==> a in s.pages {
      OnlyPage(code, a);
    }
    forall a | a in s.pages ensures left[a] == s.pages[a] {
      OnlyPage(code, a);
    }
    assert left.Keys == s.pages.Keys;
  }

  // The record of a run: the cycles of the timing and plain modes, the rise and fall of
  // the fleet.
  datatype Record = Record(log: seq<Cycle>, up: seq<HostState>, down: seq<HostState>)

  // What the mission is: that many cycles of the timing or of the plain mode, or the rise and
  // fall of the fleet, from a host in state s with RAM at ram to one in state t.
  ghost predicate Accomplished(m: Mission, repeats: nat, s: HostState, ram: int, size: RamSize, t: HostState, x: Record)
    requires size > 0
  {
    match m
    case TimeReclaim(extentKb, mode, steady) =>
      var st := Timed(mode, if extentKb == 0 then size else 1024 * extentKb, steady);
      |x.log| == repeats && Chronicle(st, x.log, s, ram, size) && t == StateAfter(st, x.log, s, size)
    case Fleet(serviceMib, services) =>
      var region := serviceMib * 0x10_0000;
      && |x.up| == services + 1 && FleetSim.Rise(x.up, s, ram, size, region)
      && |x.down| == services + 1 && x.down[services] == t
      && FleetSim.Fall(x.down, x.up[services], ram, size, region, region * services)
    case Plain(naive, who) =>
      var st := Untimed(naive, who);
      && |x.log| == repeats && Chronicle(st, x.log, s, ram, size)
      && var u := StateAfter(st, x.log, s, size);
         t == if who != HostWrites && repeats == 1 then Dirtied(u, RamAfter(x.log, ram), TouchPass(0, size)) else u
  }

  // The run proper, between setting the VM up and taking it down.
  method Drive(h: Host, ram0: int, size: int, m: Mission, repeats: nat, ghost rest: HostState)
    returns (r: Option<int>, ghost x: Record)
    requires size > 0 && Aligned(size) && RAM_GPA + size < TWO64 && repeats >= 1
    requires m.Fleet? ==> m.serviceMib >= 1
    requires Holding(h.State(), ram0, size, rest) && FleetSim.Fleet(h.State(), ram0, size, 0, 0)
    modifies h
    ensures r.Some? <==> Accepted(size, m)
    ensures r.Some? ==> Accomplished(m, repeats, old(h.State()), ram0, size, h.State(), x)
    ensures r.Some? ==>
              && Holding(h.State(), r.value, size, rest)
              && Balanced(old(h.mapped), old(h.unmapped), ram0, h.mapped, h.unmapped, r.value, size)
  {
    x := Record([], [], []);
    match m {
      case TimeReclaim(extentKb, mode, steady) =>
        ghost var log;
        r, log := TimingRun(h, ram0, size, extentKb, mode, steady, repeats, rest);
        x := Record(log, [], []);
      case Fleet(serviceMib, services) =>
        MibAligned(serviceMib);
        var ok;
        ghost var up, down;
        ok, up, down := FleetSim.Run(h, ram0, size, serviceMib * 0x10_0000, services, rest);
        x := Record([], up, down);
        r := if ok then Some(ram0) else None;
      case Plain(naive, who) =>
        var ram;
        ghost var log;
        ram, log := PlainRun(h, ram0, size, repeats, naive, who, rest);
        r := Some(ram);
        x := Record(log, [], []);
    }
  }

  // Multisets of regions: everything this run has opened it has closed.
  ghost predicate Even(mapped0: multiset<(int, int)>, unmapped0: multiset<(int, int)>,
                       mapped: multiset<(int, int)>, unmapped: multiset<(int, int)>) {
    mapped + unmapped0 == unmapped + mapped0
  }

  lemma Cancel(a: multiset<(int, int)>, b: multiset<(int, int)>, c: multiset<(int, int)>)
    requires a + c == b + c
    ensures a == b
  {
    forall x: (int, int) ensures a[x] == b[x] {
      assert (a + c)[x] == a[x] + c[x] && (b + c)[x] == b[x] + c[x];
    }
  }

  lemma EvenInTheEnd(m0: multiset<(int, int)>, u0: multiset<(int, int)>, first: (int, int), code: (int, int),
                     m: multiset<(int, int)>, u: multiset<(int, int)>, last: (int, int))
    requires m + u0 + multiset{first} == u + (m0 + multiset{first} + multiset{code}) + multiset{last}
    ensures Even(m0, u0, m, u + multiset{last} + multiset{code})
  {
    assert u + (m0 + multiset{first} + multiset{code}) + multiset{last} ==
           (u + multiset{last} + multiset{code} + m0) + multiset{first};
    Cancel(m + u0, u + multiset{last} + multiset{code} + m0, multiset{first});
  }

  // The two mappings exist, and their guest addresses are free.
  lemma BootMaps(s: HostState, ram: int, code: int, size: int)
    requires s.stage2 == map[] && Aligned(code)
    requires forall a :: Within(code, PAGE, a) ==> a !in MapHost(s, ram, size).pages
    ensures code !in s.pages && !Within(ram, size, code)
    ensures var t := MapHost(MapHost(s, ram, size), code, PAGE); var u := MapGuest(t, code, CODE_GPA, PAGE);
      && (forall a :: Within(CODE_GPA, PAGE, a) ==> a !in t.stage2)
      && (forall a :: Within(code, PAGE, a) ==> a in t.pages)
      && (forall a :: Within(RAM_GPA, size, a) ==> a !in u.stage2)
      && (forall a :: Within(ram, size, a) ==> a in u.pages)
  {
    assert Within(code, PAGE, code);
  }

  // RAM and code page, mapped into the host and into a new VM.
  method SetUp(h: Host, size: int) returns (ram: int, code: int)
    requires size > 0 && Aligned(size) && h.stage2 == map[]
    modifies h
    ensures Aligned(code) && code !in old(h.pages)
    ensures Holding(h.State(), ram, size, Rest(old(h.State()), code)) && FleetSim.Fleet(h.State(), ram, size, 0, 0)
    ensures h.mapped == old(h.mapped) + multiset{(ram, size)} + multiset{(code, PAGE)} && h.unmapped == old(h.unmapped)
  {
    hide Rest;
    hide Holding;
    hide FleetSim.Fleet;
    hide MapHost;
    hide MapGuest;
    hide Within;
    ghost var s := h.State();
    ram := h.MmapAnon(size);
    code := h.MmapAnon(PAGE);
    BootMaps(s, ram, code, size);
    h.HvVmMap(code, CODE_GPA, PAGE);
    h.HvVmMap(ram, RAM_GPA, size);
    assert h.State() == Booted(s, ram, code, size);
    BootHolds(s, ram, code, size);
  }

  method TakeDown(h: Host, ram: int, code: int, size: int, ghost s: HostState)
    requires size > 0 && Aligned(size) && Aligned(code) && code !in s.pages
    requires Holding(h.State(), ram, size, Rest(s, code))
    modifies h
    ensures h.stage2 == map[] && h.pages == s.pages
    ensures h.mapped == old(h.mapped) && h.unmapped == old(h.unmapped) + multiset{(ram, size)} + multiset{(code, PAGE)}
  {
    ghost var t := h.State();
    OnlyPage(code, code);
    forall a | Within(code, PAGE, a) ensures a == code {
      OnlyPage(code, a);
    }
    h.HvVmDestroy();
    h.MunmapRegion(ram, size);
    h.MunmapRegion(code, PAGE);
    assert h.State() == Closed(t, ram, code, size);
    ClosedIsClean(s, t, ram, code, size);
  }

  // From mmap to munmap. A run that is accepted leaves the process's address space as it found
  // it, no stage-2 mapping behind, and every region it got from mmap given back exactly once.
  // In between it has carried out its mission.
  method HvReclaim(h: Host, sizeGb: nat, m: Mission, repeats: nat)
    returns (ok: bool, ghost booted: HostState, ghost done: HostState, ghost ram: int, ghost code: int, ghost x: Record)
    requires sizeGb >= 1 && RAM_GPA + sizeGb * 0x4000_0000 < TWO64 && repeats >= 1
    requires m.Fleet? ==> m.serviceMib >= 1
    requires h.stage2 == map[]
    modifies h
    ensures ok <==> Accepted(sizeGb * 0x4000_0000, m)
    ensures ok ==> h.stage2 == map[] && h.pages == old(h.pages)
    ensures ok ==> Even(old(h.mapped), old(h.unmapped), h.mapped, h.unmapped)
    ensures Holding(booted, ram, sizeGb * 0x4000_0000, Rest(old(h.State()), code))
    ensures ok ==> Accomplished(m, repeats, booted, ram, sizeGb * 0x4000_0000, done, x)
  {
    hide Accomplished;
    var size := sizeGb * 0x4000_0000;
    GibAligned(sizeGb);
    ghost var s := h.State();
    var base, page := SetUp(h, size);
    ram, code, booted := base, page, h.State();
    var r;
    r, x := Drive(h, base, size, m, repeats, Rest(s, page));
    done := h.State();
    ok := r.Some?;
    if ok {
      ghost var mapped, unmapped := h.mapped, h.unmapped;
      TakeDown(h, r.value, page, size, s);
      EvenInTheEnd(old(h.mapped), old(h.unmapped), (ram, size), (code, PAGE), mapped, unmapped, (r.value, size));
    }
  }
}
