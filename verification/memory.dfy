// The DMA allocator of src/memory.rs: blocks cut from huge pages, and the tag
// that lets their physical addresses be read off the virtual ones.
module Memory {
  import opened Bits
  import opened Rings
  import opened Packets

  // ---- Alignment ----

  // `lib::align`.
  function Align(value: nat, size: nat): nat
    requires size > 0
  {
    if value % size == 0 then value else value + size - value % size
  }

  // The least multiple of `size` that is not below `value`.
  lemma AlignLeast(value: nat, size: nat, m: nat)
    requires size > 0
    ensures value <= Align(value, size) < value + size && Align(value, size) % size == 0
    ensures m >= value && m % size == 0 ==> m >= Align(value, size)
  {
    var q, r := value / size, value % size;
    assert value == size * q + r;
    if r > 0 {
      assert Align(value, size) == size * (q + 1) + 0;
      DivModUnique(Align(value, size), size, q + 1, 0);
      if m >= value && m % size == 0 && m < Align(value, size) {
        assert m == size * q + (m - size * q);
        DivModUnique(m, size, q, m - size * q);
        assert false;
      }
    }
  }

  lemma AlignZero(size: nat)
    requires size > 0
    ensures Align(0, size) == 0 && 0 % size == 0
  {
  }

  // An aligned offset keeps the remainder of the base it is added to.
  lemma OffsetKeeps(base: nat, offset: nat, align: nat)
    requires align > 0 && offset % align == 0
    ensures (base + offset) % align == base % align
  {
    var q, k := base / align, offset / align;
    assert base == align * q + base % align && offset == align * k;
    assert base + offset == align * (q + k) + base % align;
    DivModUnique(base + offset, align, q + k, base % align);
  }

  // ---- The allocator ----

  datatype Chunk = Chunk(pointer: nat, size: nat, used: nat)

  // A block handed out: `bytes` bytes from `offset` of a chunk, for a request
  // with this alignment.
  datatype Block = Block(chunk: nat, offset: nat, bytes: nat, align: nat)

  // The fill mark of the chunk that serves requests, and moving it.
  function Mark(chunks: seq<Chunk>): nat
    requires chunks != []
  {
    chunks[|chunks| - 1].used
  }

  function Marked(chunks: seq<Chunk>, mark: nat): (r: seq<Chunk>)
    requires chunks != []
    ensures |r| == |chunks| && Mark(r) == mark
    ensures forall c :: 0 <= c < |r| ==> r[c].pointer == chunks[c].pointer && r[c].size == chunks[c].size
    ensures forall c :: 0 <= c < |r| - 1 ==> r[c].used == chunks[c].used
  {
    chunks[|chunks| - 1 := chunks[|chunks| - 1].(used := mark)]
  }

  ghost predicate NoOverlap(a: nat, m: nat, b: nat, n: nat) {
    a + m <= b || b + n <= a
  }

  class Allocator {
    const hugePageSize: nat
    var chunks: seq<Chunk>
    ghost var blocks: seq<Block>

    ghost predicate Valid()
      reads this
      ensures Valid() ==> forall c :: 0 <= c < |chunks| ==> chunks[c].size == hugePageSize
    {
      && (forall c :: 0 <= c < |chunks| ==> chunks[c].size == hugePageSize)
      && (forall c, d :: 0 <= c < d < |chunks| ==>
            NoOverlap(chunks[c].pointer, hugePageSize, chunks[d].pointer, hugePageSize))
      && (forall i :: 0 <= i < |blocks| ==> Placed(blocks[i]))
      && (forall i, j :: 0 <= i < j < |blocks| ==>
            blocks[i].chunk != blocks[j].chunk
            || NoOverlap(blocks[i].offset, blocks[i].bytes, blocks[j].offset, blocks[j].bytes))
    }

    // Inside its chunk, in the part already used, and aligned in it.
    ghost predicate Placed(b: Block)
      reads this
    {
      && b.chunk < |chunks|
      && b.offset + b.bytes <= hugePageSize && b.offset + b.bytes <= chunks[b.chunk].used
      && b.align > 0 && b.offset % b.align == 0
    }

    ghost function Start(b: Block): nat
      requires b.chunk < |chunks|
      reads this
    {
      chunks[b.chunk].pointer + b.offset
    }

    constructor (hugePageSize: nat)
      ensures Valid() && this.hugePageSize == hugePageSize && chunks == [] && blocks == []
    {
      this.hugePageSize := hugePageSize;
      chunks := [];
      blocks := [];
    }

    // The page at `page` comes from the kernel; it overlaps no page in use.
    method AllocateNextChunk(page: nat)
      requires Valid()
      requires forall c :: 0 <= c < |chunks| ==> NoOverlap(chunks[c].pointer, hugePageSize, page, hugePageSize)
      modifies this`chunks
      ensures Valid() && chunks == old(chunks) + [Chunk(page, hugePageSize, 0)]
    {
      chunks := chunks + [Chunk(page, hugePageSize, 0)];
      assert forall b: Block :: old(Placed(b)) ==> Placed(b);
    }

    // None is a panic: the request exceeds a huge page, or asks for alignment 0.
    // `page` is what the kernel maps if a new page is needed; one always will do.
    method DmaAlloc(bytes: nat, align: nat, page: nat) returns (r: Option<nat>)
      requires Valid()
      requires forall c :: 0 <= c < |chunks| ==> NoOverlap(chunks[c].pointer, hugePageSize, page, hugePageSize)
      modifies this
      ensures Valid()
      ensures r.None? <==> bytes > hugePageSize || align == 0
      ensures r.None? ==> blocks == old(blocks)
      ensures r.None? ==> chunks == if bytes > hugePageSize || old(chunks) != [] then old(chunks)
                                    else [Chunk(page, hugePageSize, 0)]
      // The last page serves the request from its next aligned offset if that leaves
      // room for it.
      ensures r.Some? && old(chunks) != [] && Align(old(chunks[|chunks| - 1].used), align) + bytes <= hugePageSize ==>
                && |chunks| == |old(chunks)|
                && chunks[|chunks| - 1].used == Align(old(chunks[|chunks| - 1].used), align) + bytes
                && r.value == chunks[|chunks| - 1].pointer + Align(old(chunks[|chunks| - 1].used), align)
      // Otherwise one page more is mapped, and serves it from its start.
      ensures r.Some? && (old(chunks) == []
                          || Align(old(chunks[|chunks| - 1].used), align) + bytes > hugePageSize) ==>
                && |chunks| == |old(chunks)| + 1
                && chunks[|chunks| - 1] == Chunk(page, hugePageSize, bytes)
                && r.value == page
      // Nothing else happens but that the block joins the others.
      ensures r.Some? ==> chunks != [] && r.value >= chunks[|chunks| - 1].pointer
      ensures r.Some? ==>
                blocks == old(blocks)
                          + [Block(|chunks| - 1, r.value - chunks[|chunks| - 1].pointer, bytes, align)]
      ensures |old(chunks)| <= |chunks|
      ensures forall c :: 0 <= c < |old(chunks)| ==> chunks[c].pointer == old(chunks)[c].pointer
      ensures forall c :: 0 <= c < |old(chunks)| - 1 ==> chunks[c].used == old(chunks)[c].used
    {
      hide Valid, Align, Marked;
      if bytes > hugePageSize {
        return None;
      }
      if |chunks| == 0 {
        AllocateNextChunk(page);
      }
      if align == 0 {
        return None;
      }
      AlignZero(align);
      var start := FromLast(bytes, align, page);
      r := Some(start);
    }

    // The rest of the allocation, once there is a chunk.
    method FromLast(bytes: nat, align: nat, page: nat) returns (r: nat)
      requires Valid() && chunks != [] && align > 0 && bytes <= hugePageSize
      requires Align(chunks[|chunks| - 1].used, align) + bytes > hugePageSize ==>
                 forall c :: 0 <= c < |chunks| ==> NoOverlap(chunks[c].pointer, hugePageSize, page, hugePageSize)
      modifies this
      ensures Valid() && |old(chunks)| <= |chunks|
      ensures Align(old(chunks[|chunks| - 1].used), align) + bytes <= hugePageSize ==>
                && |chunks| == |old(chunks)|
                && chunks[|chunks| - 1].used == Align(old(chunks[|chunks| - 1].used), align) + bytes
                && r == chunks[|chunks| - 1].pointer + Align(old(chunks[|chunks| - 1].used), align)
      ensures Align(old(chunks[|chunks| - 1].used), align) + bytes > hugePageSize ==>
                && |chunks| == |old(chunks)| + 1
                && chunks[|chunks| - 1] == Chunk(page, hugePageSize, bytes)
                && chunks[|chunks| - 2].used == Align(old(chunks[|chunks| - 1].used), align)
                && r == page
      ensures r >= chunks[|chunks| - 1].pointer
      ensures blocks == old(blocks) + [Block(|chunks| - 1, r - chunks[|chunks| - 1].pointer, bytes, align)]
      ensures forall c :: 0 <= c < |old(chunks)| ==> chunks[c].pointer == old(chunks)[c].pointer
      ensures forall c :: 0 <= c < |old(chunks)| - 1 ==> chunks[c].used == old(chunks)[c].used
    {
      hide Valid, Align, Marked;
      Skip(align);
      AlignZero(align);
      if Mark(chunks) + bytes > chunks[|chunks| - 1].size {
        AllocateNextChunk(page);
      }
      r := chunks[|chunks| - 1].pointer + Mark(chunks);
      Slice(bytes, align);
    }

    // Moves the fill mark of the last chunk to the next aligned offset.
    method Skip(align: nat)
      requires Valid() && chunks != [] && align > 0
      modifies this`chunks
      ensures Valid()
      ensures chunks == Marked(old(chunks), Align(old(Mark(chunks)), align)) && Mark(chunks) % align == 0
    {
      AlignLeast(Mark(chunks), align, 0);
      chunks := Marked(chunks, Align(Mark(chunks), align));
    }

    // Takes the block at the fill mark of the last chunk.
    method Slice(bytes: nat, align: nat)
      requires Valid() && chunks != [] && align > 0
      requires Mark(chunks) % align == 0 && Mark(chunks) + bytes <= hugePageSize
      modifies this
      ensures Valid() && chunks == Marked(old(chunks), old(Mark(chunks)) + bytes)
      ensures blocks == old(blocks) + [Block(|chunks| - 1, old(Mark(chunks)), bytes, align)]
    {
      blocks := blocks + [Block(|chunks| - 1, Mark(chunks), bytes, align)];
      chunks := Marked(chunks, Mark(chunks) + bytes);
    }

    // No two blocks ever handed out share a byte.
    lemma BlocksApart(i: nat, j: nat)
      requires Valid() && i < j < |blocks|
      ensures NoOverlap(Start(blocks[i]), blocks[i].bytes, Start(blocks[j]), blocks[j].bytes)
    {
      var a, b := blocks[i], blocks[j];
      assert Placed(a) && Placed(b);
      if a.chunk < b.chunk {
        assert NoOverlap(chunks[a.chunk].pointer, hugePageSize, chunks[b.chunk].pointer, hugePageSize);
      } else if b.chunk < a.chunk {
        assert NoOverlap(chunks[b.chunk].pointer, hugePageSize, chunks[a.chunk].pointer, hugePageSize);
      }
    }

    // The k-th packet made has its memory in the block that was the answer to
    // its own request.
    ghost predicate Backs(heap: nat -> nat, asked: seq<nat>)
      reads this
    {
      && (forall i, j :: 0 <= i < j < |asked| ==> asked[i] < asked[j])
      && (forall k :: 0 <= k < |asked| ==>
            && asked[k] < |blocks| && blocks[asked[k]].bytes > 0
            && blocks[asked[k]].chunk < |chunks| && heap(k) == Start(blocks[asked[k]]))
    }

    // So no two packets have one address, which is what the freelist relies on.
    lemma PacketsApart(heap: nat -> nat, asked: seq<nat>)
      requires Valid() && Backs(heap, asked)
      ensures forall i: nat, j: nat :: i < j < |asked| ==> heap(i) != heap(j)
    {
      hide Valid, Start;
      forall i: nat, j: nat | i < j < |asked|
        ensures heap(i) != heap(j)
      {
        BlocksApart(asked[i], asked[j]);
      }
    }

    // A block lies inside its page, and has the alignment asked for exactly when
    // the page has it.
    lemma BlockInside(i: nat)
      requires Valid() && i < |blocks|
      ensures var b := blocks[i];
              && b.chunk < |chunks| && b.align > 0
              && chunks[b.chunk].pointer <= Start(b)
              && Start(b) + b.bytes <= chunks[b.chunk].pointer + chunks[b.chunk].size
              && (Start(b) % b.align == 0 <==> chunks[b.chunk].pointer % b.align == 0)
    {
      var b := blocks[i];
      assert Placed(b);
      OffsetKeeps(chunks[b.chunk].pointer, b.offset, b.align);
    }

    // With pages mapped at their tagged physical address, the device address of
    // any byte of a block is the byte's physical address, exactly when no
    // physical address of the page has a tag bit.
    lemma BlockResolves(i: nat, addr: nat, phys: nat, k: nat)
      requires Valid() && i < |blocks| && hugePageSize == Pow2(k) && k <= 44
      requires blocks[i].chunk < |chunks| && chunks[blocks[i].chunk].pointer == Tagged(phys)
      requires phys % Pow2(k) == 0
      requires Start(blocks[i]) <= addr < Start(blocks[i]) + blocks[i].bytes
      ensures VirtualToPhysical(addr) == Some(phys + (addr - chunks[blocks[i].chunk].pointer))
         <==> BitAnd(phys, TAG) == 0
    {
      assert Placed(blocks[i]);
      TagResolves(phys, addr - Tagged(phys), k);
    }
  }

  // ---- Tagged addresses ----

  // Where a page with this physical address is mapped.
  function Tagged(phys: nat): nat {
    BitOr(phys, 0x5000_0000_0000)
  }

  // None is the panic on an address without the tag.
  function VirtualToPhysical(virt: nat): Option<nat> {
    if BitAnd(virt, 0x5000_0000_0000) == 0x5000_0000_0000 then Some(Untagged(virt)) else None
  }

  // The tag is bits 44 and 46: without both an address is refused, and with
  // them they are taken off.
  lemma TagTested(virt: nat)
    ensures VirtualToPhysical(virt).Some?
       <==> (virt / 0x1000_0000_0000) % 2 == 1 && (virt / 0x4000_0000_0000) % 2 == 1
    ensures VirtualToPhysical(virt).Some? ==> VirtualToPhysical(virt).value + 0x5000_0000_0000 == virt
  {
    hide Shl, BitAnd, BitOr, BitXor, Pow2;
    var q, r := virt / 0x1000_0000_0000, virt % 0x1000_0000_0000;
    TagBits();
    ShlIsTimes(5, 44);
    ShlIsTimes(q, 44);
    SplitAt(q, r, 5, 44);
    ShlInjective(BitAnd(q, 5), 5, 44);
    ShlIsTimes(BitXor(q, 5), 44);
    FiveBits(q);
  }

  lemma FiveBits(q: nat)
    ensures BitAnd(q, 5) == 5 <==> q % 2 == 1 && (q / 4) % 2 == 1
    ensures BitAnd(q, 5) == 5 ==> BitXor(q, 5) + 5 == q
  {
    assert BitAnd(q / 4, 1) == (q / 4) % 2;
    assert BitAnd(q / 2, 2) == 2 * BitAnd(q / 4, 1);
    assert BitXor(q / 2, 2) == 2 * BitXor(q / 4, 1) + (q / 2) % 2;
  }

  // Setting bits, then reading and toggling them.
  lemma {:induction false} SetBits(q: nat, t: nat)
    ensures BitAnd(BitOr(q, t), t) == t
    ensures BitXor(BitOr(q, t), t) == q <==> BitAnd(q, t) == 0
  {
    if q == 0 {
      BitAndSelf(t);
      XorSelf(t);
    } else if t != 0 {
      SetBits(q / 2, t / 2);
      SetBitsStep(q, t);
    }
  }

  lemma SetBitsStep(q: nat, t: nat)
    requires q > 0 && t > 0
    ensures var x := BitOr(q, t);
            x / 2 == BitOr(q / 2, t / 2) && x % 2 == (if q % 2 == 1 || t % 2 == 1 then 1 else 0)
  {
  }

  lemma {:induction false} ShlIsTimes(q: nat, k: nat)
    ensures Shl(q, k) == q * Pow2(k)
  {
    if k > 0 {
      ShlIsTimes(q, k - 1);
      TwiceTimes(q, Pow2(k - 1));
    }
  }

  lemma TwiceTimes(q: nat, p: nat)
    ensures q * (2 * p) == 2 * (q * p)
  {
  }

  lemma {:induction false} ShlAdd(q: nat, j: nat, k: nat)
    ensures Shl(Shl(q, j), k) == Shl(q, j + k)
  {
    if k > 0 {
      ShlAdd(q, j, k - 1);
    }
  }

  lemma {:induction false} ShlInjective(a: nat, b: nat, k: nat)
    ensures Shl(a, k) == Shl(b, k) <==> a == b
    ensures Shl(0, k) == 0
  {
    if k > 0 {
      ShlInjective(a, b, k - 1);
    }
  }

  lemma TagIsShifted(k: nat)
    requires k <= 44
    ensures 0x5000_0000_0000 == Shl(Shl(5, 44 - k), k)
  {
    hide Shl;
    ShlAdd(5, 44 - k, k);
    TagBits();
  }

  lemma TagBits()
    ensures Shl(5, 44) == 0x5000_0000_0000
  {
    hide Shl;
    ShlNone(5);
    ShlFour(5, 0);
    ShlFour(5, 4);
    ShlFour(5, 8);
    ShlFour(5, 12);
    ShlFour(5, 16);
    ShlFour(5, 20);
    ShlFour(5, 24);
    ShlFour(5, 28);
    ShlFour(5, 32);
    ShlFour(5, 36);
    ShlFour(5, 40);
  }

  lemma ShlNone(q: nat)
    ensures Shl(q, 0) == q
  {
  }

  lemma PageShift(phys: nat, k: nat)
    requires phys % Pow2(k) == 0
    ensures phys == Shl(phys / Pow2(k), k)
  {
    hide Shl, Pow2;
    ShlIsTimes(phys / Pow2(k), k);
  }

  // Tagging a page and taking an offset in it, then going back. The result is
  // the physical address exactly when the page's own address has no tag bit.
  lemma TagResolves(phys: nat, offset: nat, k: nat)
    requires k <= 44 && phys % Pow2(k) == 0 && offset < Pow2(k)
    ensures VirtualToPhysical(Tagged(phys) + offset).Some?
    ensures VirtualToPhysical(Tagged(phys) + offset) == Some(phys + offset) <==> BitAnd(phys, TAG) == 0
    ensures BitAnd(phys, TAG) == 0 ==> Untagged(Tagged(phys)) == phys
  {
    hide Shl, BitAnd, BitOr, BitXor, Pow2;
    var m, t := phys / Pow2(k), Shl(5, 44 - k);
    PageShift(phys, k);
    TagIsShifted(k);
    Resolved(m, t, offset, k);
    Resolved(m, t, 0, k);
  }

  lemma Resolved(m: nat, t: nat, offset: nat, k: nat)
    requires offset < Pow2(k)
    ensures var virt := BitOr(Shl(m, k), Shl(t, k)) + offset;
            && BitAnd(virt, Shl(t, k)) == Shl(t, k)
            && (BitXor(virt, Shl(t, k)) == Shl(m, k) + offset <==> BitAnd(Shl(m, k), Shl(t, k)) == 0)
  {
    hide Shl, BitAnd, BitOr, BitXor;
    SplitAt(m, 0, t, k);
    SplitAt(BitOr(m, t), offset, t, k);
    SetBits(m, t);
    ShlInjective(BitXor(BitOr(m, t), t), m, k);
    ShlInjective(BitAnd(m, t), 0, k);
  }
}
