/**
  kernel/bio.c as an object: the slot array `bcache.buf` and the heads of
  the thirteen bucket lists.  Each bucket list is kept as the sequence of
  slot indices met when walking from `head.next`; a splice at the head is a
  prepend and an unlink is `Unlink`.  Every method is proved to leave
  exactly the state the matching function of BioSpec describes.
*/
module Bio {
  import opened Common
  import opened BioSpec

  class BCache {
    /** bcache.buf */
    const bufs: array<Buf>
    /** bufbuckets[h].head, as the slots on its list */
    const buckets: array<seq<nat>>
    /** What the disk behind virtio_disk_rw holds. */
    var disk: Disk

    function Abs(): Cache
      reads bufs, buckets
    {
      Cache(bufs[..], buckets[..])
    }

    ghost predicate Valid()
      reads bufs, buckets
    {
      BioSpec.Valid(Abs())
    }

    /** binit: every bucket list empty, every slot unreferenced. */
    constructor (disk: Disk)
      ensures Valid() && Abs() == Init() && this.disk == disk
      ensures fresh(bufs) && fresh(buckets)
    {
      bufs := new Buf[NBUF](_ => EmptyBuf());
      buckets := new seq<nat>[NBUCKET](_ => []);
      this.disk := disk;
      new;
      assert bufs[..] == Init().bufs;
      assert buckets[..] == Init().buckets;
      InitValid();
    }

    /** The scan of bucket h's list for block (dev, blockno). */
    method LookUp(h: nat, dev: nat, blockno: nat) returns (r: Option<nat>)
      requires Valid() && h < NBUCKET
      ensures r == FindIn(bufs[..], buckets[h], BlockId(dev, blockno))
    {
      var list := buckets[h];
      assert forall j :: 0 <= j < |list| ==> list[j] in list;
      var k := 0;
      while k < |list|
        invariant 0 <= k <= |list|
        invariant forall j :: 0 <= j < |list| ==> list[j] < NBUF
        invariant FindIn(bufs[..], list, BlockId(dev, blockno)) == FindIn(bufs[..], list[k..], BlockId(dev, blockno))
      {
        assert list[k..][0] == list[k] && list[k..][1..] == list[k + 1..];
        assert forall x :: x in list[k..] ==> x in list;
        var b := bufs[list[k]];
        if b.dev == dev && b.blockno == blockno {
          return Some(list[k]);
        }
        k := k + 1;
      }
      return None;
    }

    /** The scan of the whole pool for the first slot with refcnt == 0. */
    method FirstFreeSlot() returns (r: Option<nat>)
      requires Valid()
      ensures r == FirstFree(bufs[..], 0)
    {
      var i := 0;
      while i < bufs.Length
        invariant 0 <= i <= bufs.Length
        invariant FirstFree(bufs[..], 0) == FirstFree(bufs[..], i)
      {
        if bufs[i].refcnt == 0 {
          return Some(i);
        }
        i := i + 1;
      }
      return None;
    }

    /** bget */
    method BGet(dev: nat, blockno: nat) returns (r: Outcome<nat>)
      requires Valid() && NotHeld(Abs(), BlockId(dev, blockno))
      modifies bufs, buckets
      ensures Valid()
      ensures match BioSpec.BGet(old(Abs()), dev, blockno)
              case Ok(g) => r == Ok(g.slot) && Abs() == g.cache
              case Panic(m) => r == Panic(m) && Abs() == old(Abs())
    {
      BGetValid(Abs(), dev, blockno);
      var h := blockno % NBUCKET;
      var hit := LookUp(h, dev, blockno);
      if hit.Some? {
        var i := hit.value;
        FindInSpec(bufs[..], buckets[h], BlockId(dev, blockno));
        bufs[i] := bufs[i].(refcnt := bufs[i].refcnt + 1, locked := true);
        return Ok(i);
      }
      var free := FirstFreeSlot();
      if free.None? {
        return Panic("bget: no buffers");
      }
      var i := free.value;
      FirstFreeSpec(bufs[..], 0);
      bufs[i] := bufs[i].(dev := dev, blockno := blockno, valid := false, refcnt := 1, locked := true);
      buckets[h] := [i] + buckets[h];
      return Ok(i);
    }

    /** bread */
    method BRead(dev: nat, blockno: nat) returns (r: Outcome<nat>)
      requires Valid() && NotHeld(Abs(), BlockId(dev, blockno))
      modifies bufs, buckets
      ensures Valid()
      ensures match BioSpec.BRead(old(Abs()), disk, dev, blockno)
              case Ok(g) => r == Ok(g.slot) && Abs() == g.cache
              case Panic(m) => r == Panic(m) && Abs() == old(Abs())
    {
      BReadValid(Abs(), disk, dev, blockno);
      r := BGet(dev, blockno);
      if r.Ok? && !bufs[r.value].valid {
        var i := r.value;
        bufs[i] := bufs[i].(data := DiskRead(disk, bufs[i].Id()), valid := true);
      }
    }

    /** bwrite */
    method BWrite(i: nat) returns (r: Outcome<()>)
      requires Valid() && i < NBUF
      modifies this
      ensures match BioSpec.BWrite(Abs(), old(disk), i)
              case Ok(d) => r == Ok(()) && disk == d
              case Panic(m) => r == Panic(m) && disk == old(disk)
    {
      if !bufs[i].locked {
        return Panic("bwrite");
      }
      disk := disk[bufs[i].Id() := bufs[i].data];
      return Ok(());
    }

    /** brelse */
    method BRelse(i: nat, ticks: nat) returns (r: Outcome<()>)
      requires Valid() && i < NBUF
      modifies bufs, buckets
      ensures Valid()
      ensures match BioSpec.BRelse(old(Abs()), i, ticks)
              case Ok(c) => r == Ok(()) && Abs() == c
              case Panic(m) => r == Panic(m) && Abs() == old(Abs())
    {
      BRelseSpec(Abs(), i, ticks);
      ghost var want := BioSpec.BRelse(Abs(), i, ticks);
      if !bufs[i].locked {
        return Panic("brelse");
      }
      bufs[i] := bufs[i].(locked := false, refcnt := bufs[i].refcnt - 1);
      if bufs[i].refcnt == 0 {
        var h := bufs[i].blockno % NBUCKET;
        buckets[h] := Unlink(buckets[h], i);
        bufs[i] := bufs[i].(lastUsed := ticks);
      }
      assert bufs[..] == want.value.bufs && buckets[..] == want.value.buckets;
      return Ok(());
    }

    /** bpin */
    method BPin(i: nat)
      requires Valid() && i < NBUF && bufs[i].refcnt >= 1
      modifies bufs
      ensures Valid() && Abs() == BioSpec.BPin(old(Abs()), i)
    {
      PinValid(Abs(), i);
      ghost var want := BioSpec.BPin(Abs(), i);
      bufs[i] := bufs[i].(refcnt := bufs[i].refcnt + 1);
      assert bufs[..] == want.bufs;
    }

    /** bunpin */
    method BUnpin(i: nat)
      requires Valid() && i < NBUF && bufs[i].refcnt >= 2
      modifies bufs
      ensures Valid() && Abs() == BioSpec.BUnpin(old(Abs()), i)
    {
      UnpinValid(Abs(), i);
      ghost var want := BioSpec.BUnpin(Abs(), i);
      bufs[i] := bufs[i].(refcnt := bufs[i].refcnt - 1);
      assert bufs[..] == want.bufs;
    }
  }
}
