/**
  kernel/kalloc.c as an object: `kmemlist`, one free list per CPU, each
  kept as the sequence of page addresses met walking from its `freelist`
  pointer.  Pushing a page is a prepend, the steal is a split of the
  victim's sequence.  Every method is proved to leave exactly the state the
  matching function of KallocSpec describes.
*/
module Kalloc {
  import opened Common
  import opened KallocSpec

  /** The slow/fast walk of kalloc's steal path over a victim list of at
      least two pages: `left` starts on the first page and `right` on the
      second; while `right` and its successor exist, `left` advances by one
      and `right` by two.  `left` ends on the last page the victim keeps,
      the ceil(n/2)-th. */
  method SplitPoint(list: seq<nat>) returns (left: nat)
    requires |list| >= 2
    ensures left + 1 == (|list| + 1) / 2
    ensures left + 1 < |list|
  {
    var n := |list|;
    left := 0;
    var right := 1;
    while right < n && right + 1 < n
      invariant right == 2 * left + 1 && right <= n
      decreases n - right
    {
      left := left + 1;
      right := right + 2;
    }
  }

  class Kmem {
    /** The linker symbol `end`: the first address after the kernel. */
    const kernelEnd: nat
    /** kmemlist[c].freelist, as the pages on it, for each CPU c */
    const freelists: array<seq<nat>>

    ghost predicate Valid()
      reads freelists
    {
      freelists.Length == NCPU && KallocSpec.Valid(freelists[..], kernelEnd)
    }

    /** kinit, run on CPU `cpu`: empty lists, then freerange(end, PHYSTOP). */
    constructor (kernelEnd: nat, cpu: nat)
      requires 0 < kernelEnd && cpu < NCPU
      ensures Valid() && this.kernelEnd == kernelEnd
      ensures freelists[..] == KInit(kernelEnd, cpu)
      ensures fresh(freelists)
    {
      this.kernelEnd := kernelEnd;
      freelists := new seq<nat>[NCPU](_ => []);
      new;
      assert freelists[..] == NoLists();
      EmptyListsHaveNoPages(freelists[..]);
      var _ := FreeRange(cpu, kernelEnd, PHYSTOP);
    }

    /** kfree on CPU `cpu`. */
    method KFree(cpu: nat, pa: nat) returns (r: Outcome<()>)
      requires Valid() && cpu < NCPU
      modifies freelists
      ensures Valid()
      ensures match KallocSpec.KFree(old(freelists[..]), cpu, pa, kernelEnd)
              case Ok(l) => r == Ok(()) && freelists[..] == l
              case Panic(m) => r == Panic(m) && freelists[..] == old(freelists[..])
    {
      KFreeConserves(freelists[..], cpu, pa, kernelEnd);
      if pa % PGSIZE != 0 || pa < kernelEnd || pa >= PHYSTOP {
        return Panic("kfree");
      }
      freelists[cpu] := [pa] + freelists[cpu];
      return Ok(());
    }

    /** freerange on CPU `cpu`: kfree each whole page from PGROUNDUP(lo)
        below hi; `panicked` reports a kfree that panicked. */
    method FreeRange(cpu: nat, lo: nat, hi: nat) returns (panicked: bool)
      requires Valid() && cpu < NCPU
      modifies freelists
      ensures Valid()
      ensures (freelists[..], panicked) == KallocSpec.FreeRange(old(freelists[..]), cpu, lo, hi, kernelEnd)
    {
      var p := PgRoundUp(lo);
      while p + PGSIZE <= hi
        invariant Valid()
        invariant KallocSpec.FreeRange(old(freelists[..]), cpu, lo, hi, kernelEnd)
                  == FreeAll(freelists[..], cpu, Pages(p, hi), kernelEnd)
        decreases hi - p
      {
        assert Pages(p, hi) == [p] + Pages(p + PGSIZE, hi);
        var r := KFree(cpu, p);
        if r.Panic? {
          return true;
        }
        p := p + PGSIZE;
      }
      return false;
    }

    /** kalloc on CPU `cpu`: 0 when no page can be had. */
    method Kalloc(cpu: nat) returns (r: nat)
      requires Valid() && cpu < NCPU
      modifies freelists
      ensures Valid()
      ensures (freelists[..], r) == KallocSpec.Kalloc(old(freelists[..]), cpu)
    {
      KallocConserves(freelists[..], cpu, kernelEnd);
      ghost var before := freelists[..];
      if freelists[cpu] == [] {
        var i := 0;
        while i < NCPU
          invariant 0 <= i <= NCPU
          invariant freelists[..] == before
          invariant Victim(before, cpu, 0) == Victim(before, cpu, i)
        {
          if i != cpu && |freelists[i]| >= 2 {
            var victim := freelists[i];
            var left := SplitPoint(victim);
            freelists[cpu] := victim[left + 1..];
            freelists[i] := victim[..left + 1];
            assert freelists[..] == Split(before, cpu, i);
            break;
          }
          i := i + 1;
        }
      }
      assert freelists[..] == Refill(before, cpu);
      var list := freelists[cpu];
      if list != [] {
        r := list[0];
        freelists[cpu] := list[1..];
      } else {
        r := 0;
      }
    }
  }
}
