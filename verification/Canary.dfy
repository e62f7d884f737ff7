// The positive control for pressure experiments: a buffer whose lost pages can be counted.

module Canary {
  import opened Words

  const PATTERN: Word := 0xC0DE_D00D_FEED_FACE

  // The marker of a page, PATTERN ^ offset. It is never zero, because the pattern is not the
  // offset of any page, so a discarded page always shows.
  function Marker(page: nat): (m: Word)
    requires 16384 * page < TWO64
    ensures m != 0
  {
    XorZeroIffEqual(PATTERN, 16384 * page);
    XorWord(PATTERN, 16384 * page)
  }

  // The page can be read off its marker, so no two pages have the same.
  lemma MarkerIsPattern(page: nat)
    requires 16384 * page < TWO64
    ensures XorWord(Marker(page), 16384 * page) == PATTERN
  {
    XorTwice(PATTERN, 16384 * page);
  }

  lemma MarkersDiffer(p: nat, q: nat)
    requires 16384 * p < TWO64 && 16384 * q < TWO64 && p != q
    ensures Marker(p) != Marker(q)
  {
    XorTwice(16384 * p, PATTERN);
    XorTwice(16384 * q, PATTERN);
    XorComm(PATTERN, 16384 * p);
    XorComm(PATTERN, 16384 * q);
  }

  datatype Verdict = Verdict(discarded: nat, total: nat) {
    predicate Conclusive() {
      discarded * 2 >= total
    }
  }

  class Buffer {
    const pages: nat
    const words: array<Word>
    // Pages the kernel has taken so far.
    ghost var lost: set<int>

    ghost predicate Valid()
      reads this, words
    {
      && words.Length == 2048 * pages && 16384 * pages < TWO64
      && (forall page :: page in lost ==> 0 <= page < pages)
      && (forall page :: 0 <= page < pages ==> words[2048 * page] == if page in lost then 0 else Marker(page))
    }

    // Dirty the first doubleword of every page.
    constructor (gib: nat)
      requires gib * 0x4000_0000 < TWO64
      ensures Valid() && fresh(words) && lost == {} && pages == gib * 0x1_0000
    {
      pages := gib * 0x1_0000;
      words := new Word[2048 * (gib * 0x1_0000)](_ => 0);
      lost := {};
      new;
      var page := 0;
      while page < pages
        invariant 0 <= page <= pages && lost == {} && fresh(words)
        invariant forall q :: 0 <= q < page ==> words[2048 * q] == Marker(q)
      {
        words[2048 * page] := Marker(page);
        page := page + 1;
      }
    }

    // The kernel takes a page: all of it reads as zero from then on.
    method LosePage(page: nat)
      requires Valid() && page < pages
      modifies this, words
      ensures Valid() && lost == old(lost) + {page}
    {
      forall i | 2048 * page <= i < 2048 * page + 2048 {
        words[i] := 0;
      }
      lost := lost + {page};
    }

    // Count the pages whose marker no longer reads back.
    method Survey() returns (v: Verdict)
      requires Valid()
      ensures v == Verdict(|lost|, pages)
      ensures v.Conclusive() <==> 2 * |lost| >= pages
    {
      var discarded, page := 0, 0;
      ghost var found: set<int> := {};
      while page < pages
        invariant 0 <= page <= pages && discarded == |found|
        invariant found == set q | q in lost && q < page
      {
        if words[2048 * page] != Marker(page) {
          found := found + {page};
          discarded := discarded + 1;
        }
        page := page + 1;
      }
      assert found == lost;
      v := Verdict(discarded, pages);
    }
  }
}
