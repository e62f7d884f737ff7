// The simulated service fleet on the reclaiming backend, and what a real fleet child does to
// its working set.

module FleetSim {
  import opened Words
  import opened Arm64
  import opened GuestCode
  import opened Passes
  import opened Reclaim
  import opened Ownership

  // The pages of guest RAM by offset: given back below lo, dirty from lo to hi, never
  // touched from hi on.
  ghost predicate Fleet(t: HostState, ram: int, size: int, lo: int, hi: int) {
    forall a :: Within(ram, size, a) ==>
      && a in t.pages
      && t.pages[a].state == if a < ram + lo then Advised else if a < ram + hi then GuestDirty else ZeroFill
  }

  function DirtyPages(t: HostState, ram: int, size: int): set<int> {
    set a | a in t.pages && Within(ram, size, a) && t.pages[a].state == GuestDirty :: a
  }

  lemma OnePageLess(len: int)
    requires Aligned(len) && len > 0
    ensures len >= PAGE && Aligned(len - PAGE) && PageOf(len) == PageOf(len - PAGE) + 1
  {
  }

  lemma {:induction false} GridSize(lo: int, len: nat)
    requires Aligned(lo) && Aligned(len)
    ensures |Grid(lo, len)| == PageOf(len)
    decreases len
  {
    if len == 0 {
      assert Grid(lo, len) == {};
    } else {
      OnePageLess(len);
      GridSize(lo, len - PAGE);
      GridGrows(lo, len);
    }
  }

  lemma GridGrows(lo: int, len: int)
    requires Aligned(lo) && Aligned(len) && len >= PAGE
    ensures Grid(lo, len) == Grid(lo, len - PAGE) + {lo + len - PAGE} && lo + len - PAGE !in Grid(lo, len - PAGE)
  {
    forall a ensures a in Grid(lo, len) <==> a in Grid(lo, len - PAGE) || a == lo + len - PAGE {
      LastOfGrid(lo, len, a);
    }
  }

  lemma LastOfGrid(lo: int, len: int, a: int)
    requires Aligned(lo) && Aligned(len) && len >= PAGE
    ensures Within(lo, len, a) <==> Within(lo, len - PAGE, a) || a == lo + len - PAGE
  {
  }

  // The footprint of a fleet is the part between what has been given back and what was
  // started, page for page.
  lemma FleetFootprint(t: HostState, ram: int, size: int, lo: nat, hi: nat)
    requires Fleet(t, ram, size, lo, hi) && lo <= hi <= size && Aligned(ram) && Aligned(lo) && Aligned(hi)
    ensures |DirtyPages(t, ram, size)| == PageOf(hi - lo)
  {
    AlignedSum(ram, lo);
    assert Aligned(hi - lo);
    GridSize(ram + lo, hi - lo);
    forall a ensures a in DirtyPages(t, ram, size) <==> a in Grid(ram + lo, hi - lo) {
      assert Within(ram + lo, hi - lo, a) ==> Within(ram, size, a);
    }
    assert DirtyPages(t, ram, size) == Grid(ram + lo, hi - lo);
  }

  lemma TouchEnd(lo: nat, hi: nat)
    requires lo < hi && Aligned(hi) && RAM_GPA + hi < TWO64
    ensures EndOf(TouchPass(lo, hi)) == RAM_GPA + hi
  {
  }

  lemma TouchedPlace(ram: int, lo: nat, hi: nat, a: int)
    requires Aligned(ram) && Aligned(a)
    ensures OnGrid(RAM_GPA + lo, RAM_GPA + hi, RAM_GPA + (a - ram)) <==> ram + lo <= a < ram + hi
  {
  }

  lemma ServiceStarted(s: HostState, ram: int, size: int, rest: HostState, lo: nat, hi: nat)
    requires Holding(s, ram, size, rest) && Fleet(s, ram, size, 0, lo)
    requires lo < hi <= size && Aligned(hi) && RAM_GPA + hi < TWO64
    ensures EndOf(TouchPass(lo, hi)) == RAM_GPA + hi
    ensures Fleet(Dirtied(s, ram, TouchPass(lo, hi)), ram, size, 0, hi)
    ensures Holding(Dirtied(s, ram, TouchPass(lo, hi)), ram, size, rest)
  {
    TouchEnd(lo, hi);
    HeldAfterTouch(s, ram, size, rest, TouchPass(lo, hi));
    FleetGrows(s, Dirtied(s, ram, TouchPass(lo, hi)), ram, size, lo, hi);
  }

  lemma FleetGrows(s: HostState, t: HostState, ram: int, size: int, lo: nat, hi: nat)
    requires Aligned(ram) && Fleet(s, ram, size, 0, lo) && lo < hi && t.pages.Keys == s.pages.Keys
    requires forall a :: a in s.pages ==>
               (t.pages[a] ==
                if OnGrid(RAM_GPA + lo, RAM_GPA + hi, RAM_GPA + (a - ram)) then s.pages[a].(state := GuestDirty)
                else s.pages[a])
    ensures Fleet(t, ram, size, 0, hi)
  {
    forall a | Within(ram, size, a)
      ensures a in t.pages
      ensures t.pages[a].state == if a < ram then Advised else if a < ram + hi then GuestDirty else ZeroFill
    {
      TouchedPlace(ram, lo, hi, a);
    }
  }

  lemma ServiceStopped(s: HostState, t: HostState, ram: int, size: int, rest: HostState, off: nat, region: int, hi: int)
    requires Holding(s, ram, size, rest) && Fleet(s, ram, size, off, hi)
    requires OnePiece(s, t, Reusable, ram + off, region) && off + region <= hi <= size && region > 0
    ensures Fleet(t, ram, size, off + region, hi) && Holding(t, ram, size, rest)
  {
    forall a ensures a in t.pages <==> a in s.pages {}
    forall a | Within(ram + off, region, a) ensures Within(ram, size, a) {}
  }

  // From s to t the guest has dirtied the pages at offsets lo to hi, and nothing else.
  ghost predicate Started(s: HostState, t: HostState, ram: int, lo: int, hi: int) {
    t == s.(pages := map a | a in s.pages ::
              if Within(ram + lo, hi - lo, a) then s.pages[a].(state := GuestDirty) else s.pages[a])
  }

  lemma StartedPlace(ram: int, lo: nat, hi: nat, a: int)
    requires Aligned(ram)
    ensures OnGrid(RAM_GPA + lo, RAM_GPA + hi, RAM_GPA + (a - ram)) <==> Within(ram + lo, hi - lo, a)
  {
  }

  lemma DirtiedIsStarted(s: HostState, ram: int, lo: nat, hi: nat)
    requires Aligned(ram) && RAM_GPA + lo < TWO64 && RAM_GPA + hi < TWO64
    requires EndOf(TouchPass(lo, hi)) == RAM_GPA + hi
    ensures Started(s, Dirtied(s, ram, TouchPass(lo, hi)), ram, lo, hi)
  {
    forall a | a in s.pages
      ensures OnGrid(RAM_GPA + lo, RAM_GPA + hi, RAM_GPA + (a - ram)) <==> Within(ram + lo, hi - lo, a)
    {
      StartedPlace(ram, lo, hi, a);
    }
  }

  // up[i] is the host once i services have started, one region after the other.
  ghost predicate Rise(up: seq<HostState>, s: HostState, ram: int, size: int, region: int) {
    if |up| == 0 then false
    else if |up| == 1 then up[0] == s
    else
      var i := |up| - 1;
      && Rise(up[..i], s, ram, size, region)
      && Started(up[i - 1], up[i], ram, PieceStart(0, region, i - 1), PieceStart(0, region, i))
      && Fleet(up[i], ram, size, 0, PieceStart(0, region, i))
  }

  // down[j] is the host once j of them have stopped, in the same order: each stop gives one
  // region to the kernel and leaves everything else as it was.
  ghost predicate Fall(down: seq<HostState>, s: HostState, ram: int, size: int, region: int, hi: int) {
    if |down| == 0 then false
    else if |down| == 1 then down[0] == s
    else
      var j := |down| - 1;
      && Fall(down[..j], s, ram, size, region, hi)
      && OnePiece(down[j - 1], down[j], Reusable, ram + PieceStart(0, region, j - 1), region)
      && Fleet(down[j], ram, size, PieceStart(0, region, j), hi)
  }

  lemma RiseNext(up: seq<HostState>, s: HostState, t: HostState, ram: int, size: int, region: int)
    requires Rise(up, s, ram, size, region)
    requires var i := |up|;
      && Started(up[i - 1], t, ram, PieceStart(0, region, i - 1), PieceStart(0, region, i))
      && Fleet(t, ram, size, 0, PieceStart(0, region, i))
    ensures Rise(up + [t], s, ram, size, region)
  {
    hide Started;
    hide Fleet;
    assert (up + [t])[..|up|] == up;
  }

  lemma FallNext(down: seq<HostState>, s: HostState, t: HostState, ram: int, size: int, region: int, hi: int)
    requires Fall(down, s, ram, size, region, hi)
    requires var j := |down|;
      && OnePiece(down[j - 1], t, Reusable, ram + PieceStart(0, region, j - 1), region)
      && Fleet(t, ram, size, PieceStart(0, region, j), hi)
    ensures Fall(down + [t], s, ram, size, region, hi)
  {
    hide OnePiece;
    hide Fleet;
    assert (down + [t])[..|down|] == down;
  }

  // Conservation: by then every page of the services stopped has gone to the kernel once, and
  // no other page.
  lemma {:induction false} FallReleases(down: seq<HostState>, s: HostState, ram: int, size: int, region: int, hi: int,
                                        a: int)
    requires region > 0 && Fall(down, s, ram, size, region, hi)
    ensures PieceStart(0, region, |down| - 1) >= 0
    ensures Releases(down[|down| - 1], a) ==
            Releases(s, a) + if Within(ram, PieceStart(0, region, |down| - 1), a) then 1 else 0
    decreases |down|
  {
    hide Fleet;
    if |down| > 1 {
      var j := |down| - 1;
      FallReleases(down[..j], s, ram, size, region, hi, a);
      WithinNext(ram, PieceStart(0, region, j - 1), region, a);
    }
  }

  // One service starts: the guest dirties its region.
  method StartService(h: Host, ghost ram: int, ghost size: int, i: nat, region: nat, lo: nat, ghost rest: HostState)
    requires region > 0 && Aligned(region) && lo == PieceStart(0, region, i) && Aligned(lo)
    requires lo + region <= size && RAM_GPA + size < TWO64
    requires Holding(h.State(), ram, size, rest) && Fleet(h.State(), ram, size, 0, lo)
    modifies h`pages
    ensures Holding(h.State(), ram, size, rest) && Fleet(h.State(), ram, size, 0, lo + region)
    ensures Started(old(h.State()), h.State(), ram, lo, lo + region)
  {
    hide Started;
    AlignedSum(lo, region);
    HeldIsBacked(h.State(), ram, size, rest);
    ServiceStarted(h.State(), ram, size, rest, lo, lo + region);
    DirtiedIsStarted(h.State(), ram, lo, lo + region);
    h.GuestTouch(ram, size, lo, lo + region);
  }

  // One service stops: the host takes its region back.
  method StopService(h: Host, ram: int, ghost size: int, off: nat, region: nat, ghost hi: int, ghost rest: HostState)
    requires region > 0 && Aligned(region) && Aligned(off) && off + region <= hi <= size
    requires Holding(h.State(), ram, size, rest) && Fleet(h.State(), ram, size, off, hi)
    modifies h`stage2, h`pages, h`objects, h`released
    ensures Holding(h.State(), ram, size, rest) && Fleet(h.State(), ram, size, off + region, hi)
    ensures OnePiece(old(h.State()), h.State(), Reusable, ram + off, region)
  {
    ghost var s := h.State();
    AlignedSum(ram, off);
    AlignedSum(RAM_GPA, off);
    HeldIsBacked(s, ram, size, rest);
    PartBacked(s, ram, RAM_GPA, size, off, region);
    ghost var during := h.ReclaimRange(ram + off, RAM_GPA + off, region, Reusable);
    ServiceStopped(s, h.State(), ram, size, rest, off, region, hi);
  }

  // Services come up one after the other.
  method StartAll(h: Host, ghost ram: int, ghost size: int, region: nat, services: nat, ghost rest: HostState)
    returns (ghost up: seq<HostState>)
    requires region > 0 && Aligned(region) && PieceStart(0, region, services) <= size && RAM_GPA + size < TWO64
    requires Holding(h.State(), ram, size, rest) && Fleet(h.State(), ram, size, 0, 0)
    modifies h`pages
    ensures Holding(h.State(), ram, size, rest)
    ensures Fleet(h.State(), ram, size, 0, PieceStart(0, region, services))
    ensures |up| == services + 1 && up[services] == h.State() && Rise(up, old(h.State()), ram, size, region)
  {
    hide Started;
    hide Fleet;
    hide Holding;
    var i, off := 0, 0;
    up := [h.State()];
    while i < services
      invariant 0 <= i <= services && off == PieceStart(0, region, i) && Aligned(off) && 0 <= off
      invariant Holding(h.State(), ram, size, rest) && Fleet(h.State(), ram, size, 0, off)
      invariant |up| == i + 1 && up[i] == h.State() && Rise(up, old(h.State()), ram, size, region)
    {
      PieceStarts(0, region, i, services);
      StartService(h, ram, size, i, region, off, rest);
      AlignedSum(off, region);
      i, off := i + 1, off + region;
      RiseNext(up, old(h.State()), h.State(), ram, size, region);
      up := up + [h.State()];
    }
  }

  // ... and are taken down in the same order.
  method StopAll(h: Host, ram: int, ghost size: int, region: nat, services: nat, ghost hi: int, ghost rest: HostState)
    returns (ghost down: seq<HostState>)
    requires region > 0 && Aligned(region) && hi == PieceStart(0, region, services) && hi <= size
    requires Holding(h.State(), ram, size, rest) && Fleet(h.State(), ram, size, 0, hi)
    modifies h`stage2, h`pages, h`objects, h`released
    ensures Holding(h.State(), ram, size, rest) && Fleet(h.State(), ram, size, hi, hi)
    ensures |down| == services + 1 && down[services] == h.State() && Fall(down, old(h.State()), ram, size, region, hi)
  {
    hide OnePiece;
    hide Fleet;
    hide Holding;
    var i, off := 0, 0;
    down := [h.State()];
    while i < services
      invariant 0 <= i <= services && off == PieceStart(0, region, i) && Aligned(off) && 0 <= off
      invariant Holding(h.State(), ram, size, rest) && Fleet(h.State(), ram, size, off, hi)
      invariant |down| == i + 1 && down[i] == h.State() && Fall(down, old(h.State()), ram, size, region, hi)
    {
      PieceStarts(0, region, i, services);
      StopService(h, ram, size, off, region, hi, rest);
      AlignedSum(off, region);
      i, off := i + 1, off + region;
      FallNext(down, old(h.State()), h.State(), ram, size, region, hi);
      down := down + [h.State()];
    }
  }

  // --fleet-sim on fresh guest RAM. False when the fleet does not fit, and then nothing has
  // happened. With m services stopped, what has been touched and not given back is exactly
  // the regions of the services still running; at the end every page of the fleet has gone to
  // the kernel once.
  method Run(h: Host, ram: int, size: int, region: nat, services: nat, ghost rest: HostState)
    returns (ok: bool, ghost up: seq<HostState>, ghost down: seq<HostState>)
    requires RAM_GPA + size < TWO64 && region > 0 && Aligned(region)
    requires Holding(h.State(), ram, size, rest) && Fleet(h.State(), ram, size, 0, 0)
    modifies h`stage2, h`pages, h`objects, h`released
    ensures ok <==> region * services <= size
    ensures !ok ==> h.State() == old(h.State())
    ensures ok ==> |up| == services + 1 && Rise(up, old(h.State()), ram, size, region)
    ensures ok ==> |down| == services + 1 && down[services] == h.State()
    ensures ok ==> Fall(down, up[services], ram, size, region, region * services)
    ensures ok ==> Holding(h.State(), ram, size, rest)
    ensures ok ==>
              forall a :: Releases(h.State(), a) ==
                          Releases(old(h.State()), a) + if Within(ram, region * services, a) then 1 else 0
  {
    hide Fleet;
    hide Holding;
    PieceStartIs(0, region, services);
    ok, up, down := region * services <= size, [], [];
    if ok {
      ghost var s := h.State();
      up := StartAll(h, ram, size, region, services, rest);
      ghost var t := h.State();
      down := StopAll(h, ram, size, region, services, region * services, rest);
      forall a ensures Releases(h.State(), a) == Releases(s, a) + if Within(ram, region * services, a) then 1 else 0 {
        FallReleases(down, t, ram, size, region, region * services, a);
      }
    }
  }

  // ---- A fleet child ----

  const STRIDE: nat := 4096

  predicate InEighth(slice: nat, k: nat, off: nat) {
    k * slice <= off < k * slice + slice
  }

  // The 4 KiB steps that round r rewrites, r counted from 0: an eighth of the set.
  predicate Rewrites(slice: nat, r: nat, off: nat) {
    off % 4096 == 0 && InEighth(slice, r % 8, off)
  }

  // In how many of the rounds r .. r + n is the step rewritten?
  function Times(slice: nat, r: nat, n: nat, off: nat): nat {
    if n == 0 then 0 else Times(slice, r, n - 1, off) + if Rewrites(slice, r + n - 1, off) then 1 else 0
  }

  lemma EighthOf(slice: nat, off: nat) returns (e: nat)
    requires off < 8 * slice
    ensures e < 8 && forall k: nat :: k < 8 ==> (InEighth(slice, k, off) <==> k == e)
  {
    e := 0;
    while off >= e * slice + slice
      invariant e < 8 && e * slice <= off
      invariant forall k: nat :: k < e ==> !InEighth(slice, k, off)
      decreases 8 - e
    {
      assert (e + 1) * slice == e * slice + slice;
      if e == 7 {
        assert false;
      }
      e := e + 1;
    }
    forall k: nat | e < k < 8 ensures !InEighth(slice, k, off) {
      Multiples(e, k, slice);
    }
  }

  lemma TurnOf(r: nat, i: nat, e: nat)
    requires i < 8 && e < 8
    ensures (r + i) % 8 == e <==> i == (e + 8 - r % 8) % 8
  {
  }

  lemma {:induction false} TimesWithin(slice: nat, r: nat, n: nat, off: nat, e: nat)
    requires n <= 8 && e < 8 && off % 4096 == 0
    requires forall k: nat :: k < 8 ==> (InEighth(slice, k, off) <==> k == e)
    ensures Times(slice, r, n, off) == if n > (e + 8 - r % 8) % 8 then 1 else 0
    decreases n
  {
    if n > 0 {
      TimesWithin(slice, r, n - 1, off, e);
      TurnOf(r, n - 1, e);
    }
  }

  lemma {:induction false} TimesOutside(slice: nat, r: nat, n: nat, off: nat)
    requires off % 4096 != 0 || off >= 8 * slice
    ensures Times(slice, r, n, off) == 0
    decreases n
  {
    if n > 0 {
      TimesOutside(slice, r, n - 1, off);
      if slice > 0 {
        Multiples((r + n - 1) % 8, 8, slice);
      }
    }
  }

  // Any eight consecutive rounds rewrite every step of the set exactly once, and never
  // anything outside it.
  lemma EveryEightRounds(slice: nat, r: nat, off: nat)
    ensures Times(slice, r, 8, off) == if off % 4096 == 0 && off < 8 * slice then 1 else 0
  {
    if off % 4096 == 0 && off < 8 * slice {
      var e := EighthOf(slice, off);
      TimesWithin(slice, r, 8, off, e);
    } else {
      TimesOutside(slice, r, 8, off);
    }
  }

  // A byte of a child's working set after that many rounds.
  function ChildByte(slice: nat, rounds: nat, off: nat): int {
    if off % 4096 != 0 then 0 else if Times(slice, 0, rounds, off) > 0 then 0x5A else 0xA5
  }

  // From eight rounds on every step has been rewritten.
  lemma {:induction false} WarmAfterEight(slice: nat, rounds: nat, off: nat)
    requires rounds >= 8 && off < 8 * slice && off % 4096 == 0
    ensures ChildByte(slice, rounds, off) == 0x5A
    decreases rounds
  {
    if rounds == 8 {
      EveryEightRounds(slice, 0, off);
    } else {
      WarmAfterEight(slice, rounds - 1, off);
    }
  }

  // The same in one formula.
  function Warmed(slice: nat, rounds: nat, off: nat): int {
    if off % 4096 != 0 then 0 else if slice > 0 && off / slice < rounds then 0x5A else 0xA5
  }

  lemma NotYetWarmed(slice: nat, off: nat)
    ensures Warmed(slice, 0, off) == if off % 4096 != 0 then 0 else 0xA5
  {
  }

  // Before that, a step has been rewritten if and only if the rotation has passed its eighth.
  lemma ChildByteIs(slice: nat, rounds: nat, off: nat)
    requires off < 8 * slice
    ensures ChildByte(slice, rounds, off) == Warmed(slice, rounds, off)
  {
    if off % 4096 == 0 {
      var e := EighthOf(slice, off);
      assert InEighth(slice, e, off);
      PieceIs(0, slice, off, e);
      if rounds >= 8 {
        WarmAfterEight(slice, rounds, off);
      } else {
        TimesWithin(slice, 0, rounds, off, e);
      }
    }
  }

  // Write v to every step of [start, start + len).
  method WriteSteps(base: array<int>, start: nat, len: nat, v: int)
    requires start % 4096 == 0 && len % 4096 == 0 && start + len <= base.Length
    modifies base
    ensures forall o :: 0 <= o < base.Length ==>
              base[o] == if o % 4096 == 0 && start <= o < start + len then v else old(base[o])
  {
    var off := start;
    while off < start + len
      invariant start <= off <= start + len && off % 4096 == 0
      invariant forall o :: 0 <= o < base.Length ==>
                  base[o] == if o % 4096 == 0 && start <= o < off then v else old(base[o])
    {
      base[off] := v;
      off := NextStep(off, start + len);
    }
  }

  function NextStep(off: nat, end: nat): (r: nat)
    requires off < end && off % 4096 == 0 && end % 4096 == 0
    ensures r <= end && r % 4096 == 0 && r > off
    ensures forall o: nat :: o % 4096 == 0 ==> (o < r <==> o <= off)
  {
    off + STRIDE
  }

  lemma StepsOf(x: nat)
    ensures 4096 * x % 4096 == 0
  {
  }

  lemma SliceOf(mib: nat)
    ensures var size := mib * 0x10_0000; size == size / 8 * 8 && size / 8 % 4096 == 0 && size % 4096 == 0
  {
    var slice := 4096 * (32 * mib);
    assert mib * 0x10_0000 == 8 * slice;
    assert 8 * slice / 8 == slice;
    StepsOf(32 * mib);
    StepsOf(256 * mib);
  }

  lemma {:induction false} StepMultiple(k: nat, slice: nat)
    requires slice % 4096 == 0
    ensures k * slice % 4096 == 0
    decreases k
  {
    if k > 0 {
      StepMultiple(k - 1, slice);
      assert k * slice == (k - 1) * slice + slice;
    }
  }

  // Keep a rotating eighth of the set warm.
  method KeepWarm(base: array<int>, slice: nat, rounds: nat)
    requires base.Length == slice * 8 && slice % 4096 == 0
    requires forall off :: 0 <= off < base.Length ==> base[off] == ChildByte(slice, 0, off)
    modifies base
    ensures forall off :: 0 <= off < base.Length ==> base[off] == ChildByte(slice, rounds, off)
  {
    hide ChildByte;
    var r, slot := 0, 0;
    while r < rounds
      invariant 0 <= r <= rounds && slot == r % 8
      invariant forall off :: 0 <= off < base.Length ==> base[off] == ChildByte(slice, r, off)
    {
      Round(base, slice, slot, r);
      slot := (slot + 1) % 8;
      r := r + 1;
    }
  }

  // A service: dirty the working set, then keep a rotating eighth of it warm, for as many
  // rounds as it lives. Every write stays inside the mapping.
  method FleetChild(mib: nat, rounds: nat) returns (base: array<int>)
    ensures fresh(base) && base.Length == mib * 0x10_0000
    ensures forall off :: 0 <= off < base.Length ==> base[off] == Warmed(mib * 0x2_0000, rounds, off)
  {
    hide ChildByte;
    hide Warmed;
    var size := mib * 0x10_0000;
    SliceOf(mib);
    base := new int[size](_ => 0);
    WriteSteps(base, 0, size, 0xA5);
    var slice := size / 8;
    assert slice == mib * 0x2_0000;
    forall off | 0 <= off < size ensures base[off] == ChildByte(slice, 0, off) {
      ChildByteIs(slice, 0, off);
      NotYetWarmed(slice, off);
    }
    KeepWarm(base, slice, rounds);
    forall off | 0 <= off < size ensures base[off] == Warmed(slice, rounds, off) {
      ChildByteIs(slice, rounds, off);
    }
  }

  method Round(base: array<int>, slice: nat, slot: nat, ghost r: nat)
    requires base.Length == slice * 8 && slice % 4096 == 0 && slot == r % 8
    requires forall off :: 0 <= off < base.Length ==> base[off] == ChildByte(slice, r, off)
    modifies base
    ensures forall off :: 0 <= off < base.Length ==> base[off] == ChildByte(slice, r + 1, off)
  {
    StepMultiple(slot, slice);
    assert slot * slice + slice <= 8 * slice by {
      assert slot * slice + slice == (slot + 1) * slice;
      if slice > 0 {
        Multiples(slot, 8, slice);
      }
    }
    ghost var was := base[..];
    WriteSteps(base, slot * slice, slice, 0x5A);
    forall off | 0 <= off < base.Length ensures base[off] == ChildByte(slice, r + 1, off) {
      assert was[off] == ChildByte(slice, r, off);
      assert Rewrites(slice, r, off) <==> off % 4096 == 0 && slot * slice <= off < slot * slice + slice;
    }
  }
}
