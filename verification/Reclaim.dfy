// The host's side of giving guest RAM back: the unmap, release, remap triple over a whole
// range and extent by extent, and who owns which mapping across cycles.

module Reclaim {
  import opened Words
  import opened Arm64
  import opened GuestCode
  import opened Passes

  datatype Mode = Reusable | Munmap

  // How a page of the process was last touched, or that the kernel has been told it may have it.
  datatype PageState = ZeroFill | HostDirty | GuestDirty | GuestRead | Advised

  // A page of the process's address space: the memory object behind it, and its state.
  datatype HostPage = HostPage(backing: nat, state: PageState)

  // Page base addresses throughout. `stage2` takes guest pages to host pages; `objects` is
  // the next fresh object; `released` counts how often each page was given to the kernel.
  // Whether a guest load pins a page the way a guest store does is the question --guest-read
  // is there to ask; `readsPin` is the answer, whichever it is.
  datatype HostState = HostState(stage2: map<int, int>, pages: map<int, HostPage>, objects: nat,
                                 released: map<int, nat>, readsPin: bool)

  // The page at a lies in the `len` bytes from lo on.
  predicate Within(lo: int, len: int, a: int) {
    lo <= a < lo + len && Aligned(a)
  }

  function Grid(lo: int, len: int): set<int> {
    set a | lo <= a < lo + len && Within(lo, len, a)
  }

  function Releases(s: HostState, a: int): nat {
    if a in s.released then s.released[a] else 0
  }

  // ---- The system calls ----

  function UnmapGuest(s: HostState, gpa: int, len: int): HostState {
    s.(stage2 := map a | a in s.stage2 && !Within(gpa, len, a) :: s.stage2[a])
  }

  function MapGuest(s: HostState, host: int, gpa: int, len: int): HostState {
    s.(stage2 := map a | a in s.stage2.Keys + Grid(gpa, len) ::
         if Within(gpa, len, a) then host + (a - gpa) else s.stage2[a])
  }

  // The guest has left its mark on a page in this state.
  predicate GuestMark(state: PageState, readsPin: bool) {
    state == GuestDirty || (state == GuestRead && readsPin)
  }

  // Some stage-2 entry still leads to the page.
  predicate Reachable(stage2: map<int, int>, a: int) {
    exists g :: g in stage2 && stage2[g] == a
  }

  // Advice passes over such a page without a word, until its stage-2 mapping is gone.
  predicate Pinned(s: HostState, a: int) {
    a in s.pages && GuestMark(s.pages[a].state, s.readsPin) && Reachable(s.stage2, a)
  }

  function CountRelease(s: HostState, taken: set<int>): HostState {
    s.(released := map a | a in s.released.Keys + taken :: Releases(s, a) + if a in taken then 1 else 0)
  }

  // madvise over a range: every page of it that is not pinned is the kernel's to take.
  function Unpinned(s: HostState, host: int, len: int): set<int> {
    set a | a in Grid(host, len) && !Pinned(s, a)
  }

  function Advise(s: HostState, host: int, len: int): HostState {
    CountRelease(s, Unpinned(s, host, len)).(pages := map a | a in s.pages ::
         if Within(host, len, a) && !Pinned(s, a) then s.pages[a].(state := Advised) else s.pages[a])
  }

  function UnmapHost(s: HostState, host: int, len: int): HostState {
    CountRelease(s, Grid(host, len)).(pages := map a | a in s.pages && !Within(host, len, a) :: s.pages[a])
  }

  function MapHost(s: HostState, host: int, len: int): HostState {
    s.(objects := s.objects + 1,
       pages := map a | a in s.pages.Keys + Grid(host, len) ::
         if Within(host, len, a) then HostPage(s.objects, ZeroFill) else s.pages[a])
  }

  // A touch pass leaves the host pages behind the guest range it covers dirty.
  function Dirtied(s: HostState, host: int, p: Pass): HostState {
    s.(pages := map a | a in s.pages ::
         if OnGrid(p.lo, EndOf(p), RAM_GPA + (a - host)) then s.pages[a].(state := GuestDirty) else s.pages[a])
  }

  function TouchPass(lo: nat, hi: nat): Pass
    requires RAM_GPA + lo < TWO64 && RAM_GPA + hi < TWO64
  {
    Pass(Touch, RAM_GPA + lo, RAM_GPA + hi, 0)
  }

  // ---- What a reclaim of [host, host + len) in pieces of `extent` amounts to ----

  // The piece that address a falls into.
  function Piece(host: int, extent: int, a: int): (k: int)
    requires extent > 0
    ensures host <= a ==> 0 <= k
  {
    (a - host) / extent
  }

  // The pages up to `done` bytes in have been given back; stage 2 is as it was.
  ghost predicate Reclaimed(s: HostState, t: HostState, mode: Mode, host: int, done: int, extent: int)
    requires extent > 0
  {
    && t.stage2 == s.stage2
    && t.pages.Keys == s.pages.Keys && t.readsPin == s.readsPin
    && t.objects == s.objects + (if mode == Munmap then Piece(0, extent, done) else 0)
    && (forall a :: a in s.pages ==>
          t.pages[a] ==
          if !Within(host, done, a) then s.pages[a]
          else if mode == Munmap then HostPage(s.objects + Piece(host, extent, a), ZeroFill)
          else s.pages[a].(state := Advised))
    && (forall a :: Releases(t, a) == Releases(s, a) + if Within(host, done, a) then 1 else 0)
  }

  // Guest RAM [gpa, gpa + len) is backed by [host, host + len) one to one, page by page, and
  // nothing else is.
  ghost predicate Backed(s: HostState, host: int, gpa: int, len: int) {
    && (forall a :: Within(gpa, len, a) ==> a in s.stage2 && s.stage2[a] == host + (a - gpa))
    && (forall a :: Within(host, len, a) ==> a in s.pages)
    && (forall a :: a in s.stage2 && Within(host, len, s.stage2[a]) ==> Within(gpa, len, a))
  }

  // The triple that takes one piece back, as three calls.
  function Triple(s: HostState, mode: Mode, host: int, gpa: int, len: int): HostState {
    var apart := UnmapGuest(s, gpa, len);
    var released := if mode == Reusable then Advise(apart, host, len)
                    else MapHost(UnmapHost(apart, host, len), host, len);
    MapGuest(released, host, gpa, len)
  }

  lemma Quotient(x: int, e: int)
    requires e > 0
    ensures x == (x / e) * e + x % e && 0 <= x % e < e
  {
  }

  lemma {:induction false} Multiples(i: int, j: int, e: int)
    requires i < j && e > 0
    ensures i * e + e <= j * e
    decreases j - i
  {
    if j == i + 1 {
      assert (i + 1) * e == i * e + e;
    } else {
      Multiples(i, j - 1, e);
      assert (j - 1) * e + e == j * e;
    }
  }

  lemma PieceIs(host: int, extent: int, a: int, k: int)
    requires extent > 0 && k * extent <= a - host < k * extent + extent
    ensures Piece(host, extent, a) == k
  {
    var q := Piece(host, extent, a);
    Quotient(a - host, extent);
    if q < k {
      Multiples(q, k, extent);
    } else if k < q {
      Multiples(k, q, extent);
    }
  }

  // Nothing is given back yet.
  lemma NothingReclaimed(s: HostState, mode: Mode, host: int, extent: int)
    requires extent > 0
    ensures Reclaimed(s, s, mode, host, 0, extent)
  {
    PieceIs(0, extent, 0, 0);
  }

  // One piece [host, host + len) taken back.
  ghost predicate OnePiece(s: HostState, t: HostState, mode: Mode, host: int, len: int) {
    && t.stage2 == s.stage2 && t.pages.Keys == s.pages.Keys && t.readsPin == s.readsPin
    && t.objects == s.objects + (if mode == Munmap then 1 else 0)
    && (forall a :: a in s.pages ==>
          t.pages[a] ==
          if !Within(host, len, a) then s.pages[a]
          else if mode == Munmap then HostPage(s.objects, ZeroFill)
          else s.pages[a].(state := Advised))
    && (forall a :: Releases(t, a) == Releases(s, a) + if Within(host, len, a) then 1 else 0)
  }

  // With the range torn out of stage 2 nothing in it is pinned.
  lemma TornOut(s: HostState, host: int, gpa: int, len: int, a: int)
    requires Backed(s, host, gpa, len) && Within(host, len, a)
    ensures !Pinned(UnmapGuest(s, gpa, len), a)
  {
  }

  lemma TripleIsOnePiece(s: HostState, mode: Mode, host: int, gpa: int, len: int)
    requires Backed(s, host, gpa, len)
    ensures OnePiece(s, Triple(s, mode, host, gpa, len), mode, host, len)
  {
    hide Aligned;
    forall a | Within(host, len, a) ensures !Pinned(UnmapGuest(s, gpa, len), a) {
      TornOut(s, host, gpa, len, a);
    }
  }

  // The same range advised in place, with its stage-2 mapping left standing.
  ghost predicate InPlace(s: HostState, t: HostState, host: int, len: int) {
    && t.stage2 == s.stage2 && t.pages.Keys == s.pages.Keys && t.objects == s.objects && t.readsPin == s.readsPin
    && (forall a :: a in s.pages ==>
          t.pages[a] ==
          if !Within(host, len, a) || GuestMark(s.pages[a].state, s.readsPin) then s.pages[a]
          else s.pages[a].(state := Advised))
    && (forall a :: Releases(t, a) == Releases(s, a) +
          if Within(host, len, a) && a in s.pages && !GuestMark(s.pages[a].state, s.readsPin) then 1 else 0)
  }

  lemma AllReachable(s: HostState, host: int, gpa: int, len: int, a: int)
    requires Backed(s, host, gpa, len) && Within(host, len, a) && Aligned(host) && Aligned(gpa)
    ensures Pinned(s, a) <==> GuestMark(s.pages[a].state, s.readsPin)
  {
    var g := gpa + (a - host);
    MovedAligned(host, gpa, a);
    assert Within(gpa, len, g) && s.stage2[g] == a;
  }

  lemma MovedAligned(host: int, gpa: int, a: int)
    requires Aligned(host) && Aligned(gpa) && Aligned(a)
    ensures Aligned(gpa + (a - host))
  {
  }

  lemma AdviseIsInPlace(s: HostState, host: int, gpa: int, len: int)
    requires Backed(s, host, gpa, len) && Aligned(host) && Aligned(gpa)
    ensures InPlace(s, Advise(s, host, len), host, len)
  {
    forall a | Within(host, len, a) ensures Pinned(s, a) <==> GuestMark(s.pages[a].state, s.readsPin) {
      AllReachable(s, host, gpa, len, a);
    }
  }

  // The trap. After the triple every page of the range is with the kernel; after advice in
  // place a page is if and only if the guest has not marked it. So the two agree exactly on
  // ranges without a guest mark, and a range the guest has stored all over is not given back
  // at all.
  lemma InPlaceFallsShort(s: HostState, t: HostState, u: HostState, host: int, gpa: int, len: int)
    requires Backed(s, host, gpa, len) && OnePiece(s, t, Reusable, host, len) && InPlace(s, u, host, len)
    ensures forall a :: Within(host, len, a) ==>
              && t.pages[a].state == Advised
              && (u.pages[a].state == Advised <==> !GuestMark(s.pages[a].state, s.readsPin))
    ensures t.pages == u.pages <==> forall a :: Within(host, len, a) ==> !GuestMark(s.pages[a].state, s.readsPin)
    ensures (forall a :: Within(host, len, a) ==> s.pages[a].state == GuestDirty) ==>
              u.pages == s.pages && forall a :: Releases(u, a) == Releases(s, a)
  {
    if forall a :: Within(host, len, a) ==> !GuestMark(s.pages[a].state, s.readsPin) {
      forall a | a in t.pages ensures t.pages[a] == u.pages[a] {}
    } else {
      var a :| Within(host, len, a) && GuestMark(s.pages[a].state, s.readsPin);
      assert t.pages[a].state != u.pages[a].state;
    }
    if forall a :: Within(host, len, a) ==> s.pages[a].state == GuestDirty {
      forall a | a in s.pages ensures u.pages[a] == s.pages[a] {}
    }
  }

  lemma WithinNext(lo: int, off: int, len: int, a: int)
    requires len >= 0 && off >= 0
    ensures Within(lo, off + len, a) <==> Within(lo, off, a) || Within(lo + off, len, a)
    ensures !(Within(lo, off, a) && Within(lo + off, len, a))
  {
  }

  lemma PieceNext(host: int, extent: int, k: nat)
    requires extent > 0
    ensures Piece(0, extent, k * extent) == k && Piece(0, extent, k * extent + extent) == k + 1
    ensures forall a :: Within(host + k * extent, extent, a) ==> Piece(host, extent, a) == k
  {
    PieceIs(0, extent, k * extent, k);
    assert (k + 1) * extent == k * extent + extent;
    PieceIs(0, extent, k * extent + extent, k + 1);
    forall a | Within(host + k * extent, extent, a) ensures Piece(host, extent, a) == k {
      PieceIs(host, extent, a, k);
    }
  }

  // One more piece.
  lemma PieceExtends(s: HostState, t: HostState, u: HostState, mode: Mode, host: int, k: nat, extent: int, off: int)
    requires extent > 0 && off >= 0 && off == PieceStart(0, extent, k)
    requires Reclaimed(s, t, mode, host, off, extent)
    requires OnePiece(t, u, mode, host + off, extent)
    ensures Reclaimed(s, u, mode, host, off + extent, extent)
  {
    PieceStartIs(0, extent, k);
    PieceNext(host, extent, k);
    forall a ensures Within(host, off + extent, a) <==> Within(host, off, a) || Within(host + off, extent, a) {
      WithinNext(host, off, extent, a);
    }
    PagesExtend(s, t, u, mode, host, off, k, extent);
  }

  lemma PagesExtend(s: HostState, t: HostState, u: HostState, mode: Mode, host: int, off: int, k: nat, extent: int)
    requires extent > 0 && off >= 0
    requires Reclaimed(s, t, mode, host, off, extent) && OnePiece(t, u, mode, host + off, extent)
    requires Piece(0, extent, off) == k && Piece(0, extent, off + extent) == k + 1
    requires forall a :: Within(host + off, extent, a) ==> Piece(host, extent, a) == k
    requires forall a :: Within(host, off + extent, a) <==> Within(host, off, a) || Within(host + off, extent, a)
    ensures Reclaimed(s, u, mode, host, off + extent, extent)
  {
    forall a | Within(host + off, extent, a) ensures !Within(host, off, a) {}
  }

  // Extent at a time or all at once: the stage-2 map, the pages released, how often, and the
  // state each is left in are the same. Only munmap tells them apart, by the number of fresh
  // objects: one for each extent, shared by exactly the pages of that extent.
  lemma ExtentsRefineWhole(s: HostState, t: HostState, u: HostState, mode: Mode, host: int, len: nat, extent: int)
    requires extent > 0 && Reclaimed(s, t, mode, host, len, extent) && OnePiece(s, u, mode, host, len)
    ensures t.stage2 == u.stage2 && t.pages.Keys == u.pages.Keys
    ensures forall a :: a in t.pages ==> t.pages[a].state == u.pages[a].state
    ensures forall a :: Releases(t, a) == Releases(u, a)
    ensures mode == Reusable ==> t.pages == u.pages && t.objects == u.objects
    ensures forall a, b ::
              a in s.pages && b in s.pages && Within(host, len, a) && Within(host, len, b) && mode == Munmap ==>
              (t.pages[a].backing == t.pages[b].backing <==> Piece(host, extent, a) == Piece(host, extent, b))
  {
    if mode == Reusable {
      forall a | a in t.pages ensures t.pages[a] == u.pages[a] {}
    }
  }

  lemma WholeIsReclaimed(s: HostState, t: HostState, mode: Mode, host: int, len: int)
    requires len > 0 && OnePiece(s, t, mode, host, len)
    ensures Reclaimed(s, t, mode, host, len, len)
  {
    NothingReclaimed(s, mode, host, len);
    PieceExtends(s, s, t, mode, host, 0, len, 0);
  }

  lemma PartBacked(s: HostState, host: int, gpa: int, len: int, off: int, part: int)
    requires Backed(s, host, gpa, len) && 0 <= off && off + part <= len
    ensures Backed(s, host + off, gpa + off, part)
  {
    forall a
      ensures Within(gpa + off, part, a) ==> Within(gpa, len, a)
      ensures Within(host + off, part, a) ==> Within(host, len, a)
    {
    }
    forall a | a in s.stage2 && Within(host + off, part, s.stage2[a]) ensures Within(gpa + off, part, a) {
      assert Within(host, len, s.stage2[a]);
    }
  }

  lemma StillBacked(s: HostState, t: HostState, host: int, gpa: int, len: int)
    requires Backed(s, host, gpa, len) && t.stage2 == s.stage2 && t.pages.Keys == s.pages.Keys
    ensures Backed(t, host, gpa, len)
  {
  }

  // The stage-2 map with one range missing.
  function Without(m: map<int, int>, gpa: int, len: int): map<int, int> {
    map a | a in m && !Within(gpa, len, a) :: m[a]
  }

  // Stage 2 after each of the three calls on a range: without it, without it, and whole.
  function OnlyMissing(m: map<int, int>, gpa: int, len: int): seq<map<int, int>> {
    [Without(m, gpa, len), Without(m, gpa, len), m]
  }

  function PieceStart(base: int, extent: int, k: nat): int {
    if k == 0 then base else PieceStart(base, extent, k - 1) + extent
  }

  // Stage 2 after each call of a reclaim extent by extent.
  function StageTwoTrace(m: map<int, int>, extent: int, n: nat): seq<map<int, int>> {
    if n == 0 then []
    else StageTwoTrace(m, extent, n - 1) + OnlyMissing(m, PieceStart(RAM_GPA, extent, n - 1), extent)
  }

  // At every moment at most one extent is missing from stage 2, and nothing is moved.
  lemma {:induction false} OneExtentAtATime(m: map<int, int>, extent: int, n: nat)
    ensures |StageTwoTrace(m, extent, n)| == 3 * n
    ensures forall i :: 0 <= i < 3 * n ==>
              (StageTwoTrace(m, extent, n)[i] ==
               if i % 3 == 2 then m else Without(m, PieceStart(RAM_GPA, extent, i / 3), extent))
    decreases n
  {
    if n > 0 {
      OneExtentAtATime(m, extent, n - 1);
    }
  }

  lemma {:induction false} PieceStartIs(base: int, extent: int, k: nat)
    ensures PieceStart(base, extent, k) == base + k * extent
    decreases k
  {
    if k > 0 {
      PieceStartIs(base, extent, k - 1);
      assert k * extent == (k - 1) * extent + extent;
    }
  }

  lemma {:induction false} PieceStarts(base: int, extent: int, k: nat, n: nat)
    requires extent > 0 && k < n
    ensures PieceStart(base, extent, k + 1) <= PieceStart(base, extent, n)
    decreases n
  {
    if k + 1 < n {
      PieceStarts(base, extent, k, n - 1);
    }
  }

  lemma {:induction false} PieceStartFrom(base: int, extent: int, k: nat)
    ensures PieceStart(base, extent, k) == base + PieceStart(0, extent, k)
    decreases k
  {
    if k > 0 {
      PieceStartFrom(base, extent, k - 1);
    }
  }

  lemma NextPiece(extent: int, k: nat, n: nat, off: int)
    requires extent > 0 && Aligned(extent) && Aligned(off) && k <= n
    requires off == PieceStart(0, extent, k) && off < PieceStart(0, extent, n)
    ensures k < n && off + extent == PieceStart(0, extent, k + 1) <= PieceStart(0, extent, n)
    ensures Aligned(off + extent) && PieceStart(RAM_GPA, extent, k) == RAM_GPA + off
  {
    PieceStarts(0, extent, k, n);
    PieceStartFrom(RAM_GPA, extent, k);
    AlignedSum(off, extent);
  }

  lemma AllPieces(extent: int, k: nat, n: nat, off: int)
    requires extent > 0 && k <= n && off == PieceStart(0, extent, k) && off >= PieceStart(0, extent, n)
    ensures k == n
  {
    if k < n {
      PieceStarts(0, extent, k, n);
    }
  }

  lemma PieceCount(len: int, extent: int)
    requires extent > 0 && len >= 0 && len % extent == 0
    ensures 0 <= len / extent && PieceStart(0, extent, len / extent) == len
  {
    Quotient(len, extent);
    PieceStartIs(0, extent, len / extent);
  }

  lemma {:induction false} Bounded(s: set<int>) returns (b: int)
    ensures forall a :: a in s ==> a < b
    decreases |s|
  {
    if x :| x in s {
      var c := Bounded(s - {x});
      b := if x < c then c else x + 1;
      forall a | a in s ensures a < b {
        assert a == x || a in s - {x};
      }
    } else {
      b := 0;
    }
  }

  // The address space is never full.
  lemma RoomSomewhere(s: set<int>, size: int)
    ensures exists p :: Aligned(p) && forall a :: Within(p, size, a) ==> a !in s
  {
    var b := Bounded(s);
    var p := (if b < 0 then 0 else b) * PAGE;
    assert Aligned(p) && b <= p;
  }

  class Host {
    var stage2: map<int, int>
    var pages: map<int, HostPage>
    var objects: nat
    const readsPin: bool
    ghost var released: map<int, nat>
    // Regions obtained from mmap, and regions given to munmap for good.
    ghost var mapped: multiset<(int, int)>
    ghost var unmapped: multiset<(int, int)>

    ghost function State(): HostState
      reads this`stage2, this`pages, this`objects, this`released
    {
      HostState(stage2, pages, objects, released, readsPin)
    }

    // hv_vm_unmap. The range is mapped, or the hypervisor would refuse and `check` panic.
    method HvVmUnmap(gpa: int, len: int)
      requires Aligned(gpa) && Aligned(len) && len > 0
      requires forall a :: Within(gpa, len, a) ==> a in stage2
      modifies this`stage2
      ensures State() == UnmapGuest(old(State()), gpa, len)
    {
      stage2 := map a | a in stage2 && !Within(gpa, len, a) :: stage2[a];
    }

    // hv_vm_map, over pages that are free in stage 2 and live in the host.
    method HvVmMap(host: int, gpa: int, len: int)
      requires Aligned(host) && Aligned(gpa) && Aligned(len) && len > 0
      requires forall a :: Within(gpa, len, a) ==> a !in stage2
      requires forall a :: Within(host, len, a) ==> a in pages
      modifies this`stage2
      ensures State() == MapGuest(old(State()), host, gpa, len)
    {
      stage2 := map a | a in stage2.Keys + Grid(gpa, len) ::
        if Within(gpa, len, a) then host + (a - gpa) else stage2[a];
    }

    method HvVmDestroy()
      modifies this`stage2
      ensures State() == old(State()).(stage2 := map[])
    {
      stage2 := map[];
    }

    method Madvise(host: int, len: int)
      requires Aligned(host) && Aligned(len) && len > 0
      requires forall a :: Within(host, len, a) ==> a in pages
      modifies this`pages, this`released
      ensures State() == Advise(old(State()), host, len)
    {
      ghost var s := State();
      released := CountRelease(s, Unpinned(s, host, len)).released;
      pages := map a | a in pages ::
        if Within(host, len, a) && !(GuestMark(pages[a].state, readsPin) && Reachable(stage2, a))
        then pages[a].(state := Advised) else pages[a];
      assert State().pages == Advise(s, host, len).pages;
    }

    method MunmapPages(host: int, len: int)
      requires Aligned(host) && Aligned(len) && len > 0
      requires forall a :: Within(host, len, a) ==> a in pages
      modifies this`pages, this`released
      ensures State() == UnmapHost(old(State()), host, len)
    {
      released := CountRelease(State(), Grid(host, len)).released;
      pages := map a | a in pages && !Within(host, len, a) :: pages[a];
    }

    // mmap(MAP_FIXED) over a hole: fresh zero-fill pages of one new object.
    method MmapFixed(host: int, len: int)
      requires Aligned(host) && Aligned(len) && len > 0
      requires forall a :: Within(host, len, a) ==> a !in pages
      modifies this`pages, this`objects
      ensures State() == MapHost(old(State()), host, len)
    {
      pages := map a | a in pages.Keys + Grid(host, len) ::
        if Within(host, len, a) then HostPage(objects, ZeroFill) else pages[a];
      objects := objects + 1;
    }

    // unmap, release, remap over one range.
    method ReclaimRange(host: int, gpa: int, len: int, mode: Mode) returns (ghost during: seq<map<int, int>>)
      requires Aligned(host) && Aligned(gpa) && Aligned(len) && len > 0 && Backed(State(), host, gpa, len)
      modifies this`stage2, this`pages, this`objects, this`released
      ensures OnePiece(old(State()), State(), mode, host, len)
      ensures during == OnlyMissing(old(stage2), gpa, len)
    {
      ghost var s := State();
      TripleIsOnePiece(s, mode, host, gpa, len);
      HvVmUnmap(gpa, len);
      ghost var first := stage2;
      match mode {
        case Reusable =>
          Madvise(host, len);
        case Munmap =>
          MunmapPages(host, len);
          MmapFixed(host, len);
      }
      ghost var second := stage2;
      HvVmMap(host, gpa, len);
      assert State() == Triple(s, mode, host, gpa, len);
      during := [first, second, stage2];
    }

    // The k-th piece, when those before it have been taken back.
    method ReclaimNext(ghost s: HostState, ram: int, ghost ramSize: int, off: int, extent: int, mode: Mode,
                       ghost k: nat)
      returns (ghost during: seq<map<int, int>>)
      requires Aligned(ram) && Aligned(off) && Aligned(extent) && extent > 0
      requires off == PieceStart(0, extent, k) && 0 <= off && off + extent <= ramSize
      requires Backed(s, ram, RAM_GPA, ramSize) && Reclaimed(s, State(), mode, ram, off, extent)
      modifies this`stage2, this`pages, this`objects, this`released
      ensures Reclaimed(s, State(), mode, ram, off + extent, extent)
      ensures during == OnlyMissing(s.stage2, RAM_GPA + off, extent)
    {
      ghost var t := State();
      AlignedSum(ram, off);
      AlignedSum(RAM_GPA, off);
      StillBacked(s, t, ram, RAM_GPA, ramSize);
      PartBacked(t, ram, RAM_GPA, ramSize, off, extent);
      during := ReclaimRange(ram + off, RAM_GPA + off, extent, mode);
      PieceExtends(s, t, State(), mode, ram, k, extent, off);
    }

    // The same, extent at a time, n extents in all. `seen` is the stage-2 map after each call.
    method ReclaimExtents(ram: int, ramSize: int, extent: int, mode: Mode, ghost n: nat)
      returns (ghost seen: seq<map<int, int>>)
      requires Aligned(ram) && extent > 0 && Aligned(extent) && ramSize == PieceStart(0, extent, n)
      requires Backed(State(), ram, RAM_GPA, ramSize)
      modifies this`stage2, this`pages, this`objects, this`released
      ensures Reclaimed(old(State()), State(), mode, ram, ramSize, extent)
      ensures seen == StageTwoTrace(old(stage2), extent, n)
    {
      ghost var s := State();
      NothingReclaimed(s, mode, ram, extent);
      if n > 0 {
        PieceStarts(0, extent, 0, n);
      }
      seen := [];
      var off := 0;
      ghost var k := 0;
      while off < ramSize
        invariant off == PieceStart(0, extent, k) && 0 <= off <= ramSize && k <= n && Aligned(off)
        invariant Reclaimed(s, State(), mode, ram, off, extent)
        invariant seen == StageTwoTrace(s.stage2, extent, k)
      {
        NextPiece(extent, k, n, off);
        ghost var during;
        during := ReclaimNext(s, ram, ramSize, off, extent, mode, k);
        seen, k := seen + during, k + 1;
        off := off + extent;
      }
      AllPieces(extent, k, n, off);
    }

    // mmap of a fresh anonymous region, wherever the kernel finds room.
    method MmapAnon(size: int) returns (p: int)
      requires Aligned(size) && size > 0
      modifies this`pages, this`objects, this`mapped
      ensures Aligned(p) && forall a :: Within(p, size, a) ==> a !in old(pages)
      ensures State() == MapHost(old(State()), p, size)
      ensures mapped == old(mapped) + multiset{(p, size)}
    {
      RoomSomewhere(pages.Keys, size);
      p :| Aligned(p) && forall a :: Within(p, size, a) ==> a !in pages;
      MmapFixed(p, size);
      mapped := mapped + multiset{(p, size)};
    }

    // munmap of a whole region.
    method MunmapRegion(p: int, size: int)
      requires Aligned(p) && Aligned(size) && size > 0
      requires forall a :: Within(p, size, a) ==> a in pages
      modifies this`pages, this`released, this`unmapped
      ensures State() == UnmapHost(old(State()), p, size)
      ensures unmapped == old(unmapped) + multiset{(p, size)}
    {
      MunmapPages(p, size);
      unmapped := unmapped + multiset{(p, size)};
    }

    // What a touch pass over offsets [lo, hi) does to the host pages behind guest RAM.
    method GuestTouch(ghost ram: int, ghost ramSize: int, lo: nat, hi: nat)
      requires RAM_GPA + lo < TWO64 && RAM_GPA + hi < TWO64
      requires Backed(State(), ram, RAM_GPA, ramSize) && EndOf(TouchPass(lo, hi)) <= RAM_GPA + ramSize
      modifies this`pages
      ensures State() == Dirtied(old(State()), ram, TouchPass(lo, hi))
    {
      var e := EndOf(TouchPass(lo, hi));
      var hit := set g | g in stage2 && OnGrid(RAM_GPA + lo, e, g) :: stage2[g];
      forall a ensures a in hit <==> OnGrid(RAM_GPA + lo, e, RAM_GPA + (a - ram)) {
        var g := RAM_GPA + (a - ram);
        if OnGrid(RAM_GPA + lo, e, g) {
          assert Within(RAM_GPA, ramSize, g);
        }
        forall b | b in stage2 && OnGrid(RAM_GPA + lo, e, b) && stage2[b] == a ensures b == g {
          assert Within(RAM_GPA, ramSize, b);
        }
      }
      pages := map a | a in pages :: if a in hit then pages[a].(state := GuestDirty) else pages[a];
    }
  }
}
