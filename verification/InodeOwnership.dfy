/**
 Exact block ownership in the inode manager: the used data blocks are those of the
 live inodes, each in one place.
 */
module InodeOwnership {
  import opened Options
  import opened Bytes
  import opened InodeLayout
  import opened InodeSpec

  predicate Live(fs: Fs, i: nat)
    requires Shape(fs)
  {
    ValidInum(i) && fs.inodes[i].kind != 0
  }

  function Count(fs: Fs, i: nat): nat
    requires Shape(fs) && ValidInum(i)
  {
    BlockCount(fs.inodes[i].size)
  }

  /** Block `k` of inode `i`. */
  function BlockOf(fs: Fs, i: nat, k: nat): nat
    requires Shape(fs) && ValidInum(i) && k < MAXFILE
  {
    BlockAt(fs, fs.inodes[i], k)
  }

  predicate Large(fs: Fs, i: nat)
    requires Shape(fs) && ValidInum(i)
  {
    Count(fs, i) > NDIRECT
  }

  /** Sizes are in range, only one live file uses the table in block 0, the root
      does not, and no inode but the root points elsewhere for its table. */
  ghost predicate Domain(fs: Fs)
    requires Shape(fs)
  {
    && (forall i: nat :: Live(fs, i) ==> fs.inodes[i].size <= MAXFILE * BLOCK_SIZE)
    && (forall i: nat :: ValidInum(i) && i != 1 ==> fs.inodes[i].blocks[NDIRECT] == 0)
    && (forall i: nat, j: nat :: Live(fs, i) && Live(fs, j) && Large(fs, i) && Large(fs, j) ==> i == j)
    && (Live(fs, 1) ==> !Large(fs, 1))
  }

  /** Inode `i` is live and has a block `k`. */
  predicate Holds(fs: Fs, i: nat, k: nat)
    requires Shape(fs)
  {
    Live(fs, i) && k < Count(fs, i) && k < MAXFILE
  }

  /** Which block of which inode a used block is. */
  type Owners = map<nat, (nat, nat)>

  /** The used blocks are precisely the blocks of the live inodes, each of one place only. */
  ghost predicate Owned(fs: Fs, owner: Owners)
    requires Shape(fs)
  {
    && fs.used == owner.Keys
    && (forall b :: b in owner ==>
          DataId(b) && Holds(fs, owner[b].0, owner[b].1) && BlockOf(fs, owner[b].0, owner[b].1) == b)
    && (forall i: nat, k: nat :: Holds(fs, i, k) ==>
          BlockOf(fs, i, k) in owner && owner[BlockOf(fs, i, k)] == (i, k))
  }

  ghost predicate Inv(fs: Fs, owner: Owners) {
    Shape(fs) && Domain(fs) && Owned(fs, owner)
  }

  /** One more block, taken from the free ones. */
  lemma OwnedMore(was: Fs, owner: Owners, fs: Fs, i: nat, k: nat, b: nat)
    requires Shape(was) && Shape(fs) && Owned(was, owner)
    requires fs.used == was.used + {b} && b !in was.used && DataId(b)
    requires forall j: nat, m: nat :: Holds(fs, j, m) <==> Holds(was, j, m) || (j == i && m == k)
    requires forall j: nat, m: nat :: Holds(was, j, m) ==> BlockOf(fs, j, m) == BlockOf(was, j, m)
    requires Holds(fs, i, k) && BlockOf(fs, i, k) == b
    ensures Owned(fs, owner[b := (i, k)])
  {
  }

  /** The owners without the blocks of inode `i` from `n` on. */
  function Without(owner: Owners, i: nat, n: nat): Owners {
    map b | b in owner && !(owner[b].0 == i && owner[b].1 >= n) :: owner[b]
  }

  lemma OwnedLess(was: Fs, owner: Owners, fs: Fs, i: nat, n: nat)
    requires Shape(was) && Shape(fs) && Owned(was, owner)
    requires fs.used == Without(owner, i, n).Keys
    requires forall j: nat, m: nat :: Holds(fs, j, m) <==> Holds(was, j, m) && !(j == i && m >= n)
    requires forall j: nat, m: nat :: Holds(fs, j, m) ==> BlockOf(fs, j, m) == BlockOf(was, j, m)
    ensures Owned(fs, Without(owner, i, n))
  {
  }

  lemma OwnedSame(was: Fs, owner: Owners, fs: Fs)
    requires Shape(was) && Shape(fs) && Owned(was, owner)
    requires fs.used == was.used
    requires forall j: nat, m: nat :: Holds(fs, j, m) <==> Holds(was, j, m)
    requires forall j: nat, m: nat :: Holds(fs, j, m) ==> BlockOf(fs, j, m) == BlockOf(was, j, m)
    ensures Owned(fs, owner)
  {
  }

  /** Files that get smaller or vanish keep the domain. */
  lemma DomainLess(was: Fs, fs: Fs)
    requires Shape(was) && Shape(fs) && Domain(was)
    requires forall j: nat :: ValidInum(j) ==> fs.inodes[j].blocks == was.inodes[j].blocks
    requires forall j: nat :: Live(fs, j) ==> Live(was, j) && Count(fs, j) <= Count(was, j)
    ensures Domain(fs)
  {
    forall j: nat | Live(fs, j)
      ensures fs.inodes[j].size <= MAXFILE * BLOCK_SIZE && (Large(fs, j) ==> Large(was, j))
    {
      CountFits(fs.inodes[j].size);
      CountFits(was.inodes[j].size);
    }
  }

  lemma CountFits(size: nat)
    ensures size <= MAXFILE * BLOCK_SIZE <==> Fits(BlockCount(size))
    ensures BlockCount(size) * BLOCK_SIZE >= size
    ensures size > 0 ==> (BlockCount(size) - 1) * BLOCK_SIZE < size
    ensures forall p :: 0 <= p < size ==> p / BLOCK_SIZE < BlockCount(size)
  {
  }

  lemma FormatOwned(root: WholeInode, now: U32)
    ensures Inv(Format(root, now), map[])
  {
  }

  /** An inode record changed in size and times only so that its block count stays as it is. */
  lemma SameBlocks(fs: Fs, owner: Owners, i: nat, ino: WholeInode)
    requires Inv(fs, owner) && ValidInum(i)
    requires ino.blocks == fs.inodes[i].blocks && BlockCount(ino.size) == Count(fs, i)
    requires (ino.kind != 0) == Live(fs, i)
    ensures Inv(PutInode(fs, i, ino), owner)
  {
    var fs' := PutInode(fs, i, ino);
    forall j: nat | ValidInum(j)
      ensures Count(fs', j) == Count(fs, j) && Live(fs', j) == Live(fs, j)
      ensures fs'.inodes[j].blocks == fs.inodes[j].blocks
    {
    }
    DomainLess(fs, fs');
    OwnedSame(fs, owner, fs');
  }

  // Growth, block by block.

  /** Inode `i` as if it had `k` full blocks. */
  function Sized(fs: Fs, i: nat, ino: WholeInode, k: nat): Fs
    requires Shape(fs) && ValidInum(i) && k <= MAXFILE
  {
    PutInode(fs, i, ino.(size := k * BLOCK_SIZE))
  }

  /** No live inode but `i` uses the table. */
  ghost predicate TableFree(fs: Fs, i: nat)
    requires Shape(fs)
  {
    forall j: nat :: Live(fs, j) && j != i ==> !Large(fs, j)
  }

  predicate CanAttach(fs: Fs, i: nat, ino: WholeInode, k: nat, b: nat) {
    Shape(fs) && ValidInum(i) && k < MAXFILE && ino.kind != 0 && DataId(b) && b !in fs.used
  }

  lemma AttachDomain(fs: Fs, i: nat, ino: WholeInode, k: nat, b: nat)
    requires CanAttach(fs, i, ino, k, b) && Domain(Sized(fs, i, ino, k))
    requires k >= NDIRECT ==> i != 1 && TableFree(fs, i)
    ensures var g := Attach(fs, ino, k, b); Shape(g.fs) && Domain(Sized(g.fs, i, g.ino, k + 1))
  {
    var g := Attach(fs, ino, k, b);
    var was, now' := Sized(fs, i, ino, k), Sized(g.fs, i, g.ino, k + 1);
    forall j: nat | ValidInum(j) && j != i
      ensures now'.inodes[j] == was.inodes[j] == fs.inodes[j]
      ensures Live(now', j) == Live(was, j) == Live(fs, j) && Large(now', j) == Large(was, j) == Large(fs, j)
    {
    }
    assert Count(now', i) == k + 1;
  }

  lemma AttachKeepsBlocks(fs: Fs, i: nat, ino: WholeInode, k: nat, b: nat, j: nat, m: nat)
    requires CanAttach(fs, i, ino, k, b)
    requires k >= NDIRECT ==> TableFree(fs, i)
    ensures var was, g := Sized(fs, i, ino, k), Attach(fs, ino, k, b);
            var now' := Sized(g.fs, i, g.ino, k + 1);
            && (Holds(now', j, m) <==> Holds(was, j, m) || (j == i && m == k))
            && (Holds(was, j, m) ==> BlockOf(now', j, m) == BlockOf(was, j, m))
  {
    if Live(fs, j) && j != i && m >= NDIRECT && m < Count(fs, j) {
      assert Large(fs, j);
    }
  }

  lemma AttachOwned(fs: Fs, owner: Owners, i: nat, ino: WholeInode, k: nat, b: nat)
    requires CanAttach(fs, i, ino, k, b) && Inv(Sized(fs, i, ino, k), owner)
    requires k >= NDIRECT ==> i != 1 && TableFree(fs, i)
    ensures var g := Attach(fs, ino, k, b); Shape(g.fs) && Inv(Sized(g.fs, i, g.ino, k + 1), owner[b := (i, k)])
  {
    var g := Attach(fs, ino, k, b);
    var was, now' := Sized(fs, i, ino, k), Sized(g.fs, i, g.ino, k + 1);
    AttachDomain(fs, i, ino, k, b);
    forall j: nat, m: nat
      ensures Holds(now', j, m) <==> Holds(was, j, m) || (j == i && m == k)
      ensures Holds(was, j, m) ==> BlockOf(now', j, m) == BlockOf(was, j, m)
    {
      AttachKeepsBlocks(fs, i, ino, k, b, j, m);
    }
    OwnedMore(was, owner, now', i, k, b);
  }

  lemma {:induction false} GrowFrame(fs: Fs, ino: WholeInode, k: nat, n: nat)
    requires Shape(fs) && Fits(n)
    ensures Grow(fs, ino, k, n).Some? ==>
              var g := Grow(fs, ino, k, n).value;
              && g.fs.inodes == fs.inodes && g.fs.data == fs.data && g.ino == ino.(blocks := g.ino.blocks)
              && (n <= NDIRECT ==> g.fs.table == fs.table)
    decreases n - k
  {
    if k < n && FirstFree(fs.used, DATA_START).Some? {
      var g := Attach(fs, ino, k, FirstFree(fs.used, DATA_START).value);
      GrowFrame(g.fs, g.ino, k + 1, n);
    }
  }

  lemma TableFreeSame(fs: Fs, fs': Fs, i: nat)
    requires Shape(fs) && Shape(fs') && TableFree(fs, i) && fs'.inodes == fs.inodes
    ensures TableFree(fs', i)
  {
    assert forall j: nat :: Live(fs', j) ==> Live(fs, j) && (Large(fs', j) <==> Large(fs, j));
  }

  /** The first block of a growth, after which the rest of it is to be done. */
  lemma GrowFirst(fs: Fs, owner: Owners, i: nat, ino: WholeInode, k: nat, n: nat, b: nat)
    requires CanAttach(fs, i, ino, k, b) && k < n && Inv(Sized(fs, i, ino, k), owner)
    requires n > NDIRECT ==> i != 1 && TableFree(fs, i)
    ensures var g := Attach(fs, ino, k, b);
            && Shape(g.fs) && g.ino.kind != 0 && Inv(Sized(g.fs, i, g.ino, k + 1), owner[b := (i, k)])
            && (n > NDIRECT ==> TableFree(g.fs, i))
  {
    AttachOwned(fs, owner, i, ino, k, b);
    if n > NDIRECT {
      TableFreeSame(fs, Attach(fs, ino, k, b).fs, i);
    }
  }

  lemma GrowIsOver(fs: Fs, ino: WholeInode, n: nat, end: Grown)
    requires Shape(fs) && Fits(n) && Grow(fs, ino, n, n) == Some(end)
    ensures end == Grown(fs, ino)
  {
  }

  lemma GrowGoesOn(fs: Fs, ino: WholeInode, k: nat, n: nat, end: Grown) returns (b: nat)
    requires Shape(fs) && Fits(n) && k < n && Grow(fs, ino, k, n) == Some(end)
    ensures DataId(b) && b !in fs.used
    ensures var g := Attach(fs, ino, k, b); Shape(g.fs) && Grow(g.fs, g.ino, k + 1, n) == Some(end)
  {
    b := FirstFree(fs.used, DATA_START).value;
  }

  /** Growth takes new blocks for inode `i` and leaves everything else as it is. */
  lemma {:induction false} GrowOwned(fs: Fs, owner: Owners, i: nat, ino: WholeInode, k: nat, n: nat, end: Grown)
      returns (owner': Owners)
    requires Shape(fs) && ValidInum(i) && k <= n && Fits(n) && ino.kind != 0
    requires Inv(Sized(fs, i, ino, k), owner)
    requires n > NDIRECT ==> i != 1 && TableFree(fs, i)
    requires Grow(fs, ino, k, n) == Some(end)
    ensures Inv(Sized(end.fs, i, end.ino, n), owner')
    decreases n - k
  {
    if k == n {
      GrowIsOver(fs, ino, n, end);
      owner' := owner;
    } else {
      var b := GrowGoesOn(fs, ino, k, n, end);
      var g := Attach(fs, ino, k, b);
      GrowFirst(fs, owner, i, ino, k, n, b);
      owner' := GrowOwned(g.fs, owner[b := (i, k)], i, g.ino, k + 1, n, end);
    }
  }

  // Shrinking.

  lemma {:induction false} TrimUsed(fs: Fs, ino: WholeInode, k: nat, n: nat, b: nat)
    requires Shape(fs) && Fits(n)
    ensures b in Trim(fs, ino, k, n).used
            <==> b in fs.used && forall m: nat :: k <= m < n ==> BlockAt(fs, ino, m) != b
    decreases n - k
  {
    if k < n {
      var fs' := fs.(used := fs.used - {BlockAt(fs, ino, k)});
      TrimUsed(fs', ino, k + 1, n, b);
      assert forall m: nat :: k <= m < n ==> BlockAt(fs', ino, m) == BlockAt(fs, ino, m);
    }
  }

  /** Shrinking to `n` blocks, or removal, frees exactly the blocks given up. */
  lemma TrimOwned(fs: Fs, owner: Owners, i: nat, n: nat)
    requires Inv(fs, owner) && Live(fs, i) && n <= Count(fs, i)
    ensures var ino := fs.inodes[i];
            && Fits(Count(fs, i)) && Shape(Trim(fs, ino, n, Count(fs, i)))
            && Trim(fs, ino, n, Count(fs, i)).used == Without(owner, i, n).Keys
  {
    var ino, c := fs.inodes[i], Count(fs, i);
    CountFits(ino.size);
    forall b: nat
      ensures b in Trim(fs, ino, n, c).used <==> b in Without(owner, i, n)
    {
      TrimUsed(fs, ino, n, c, b);
      assert forall m: nat :: m < c ==> BlockAt(fs, ino, m) == BlockOf(fs, i, m);
      if b in owner && owner[b].0 == i && owner[b].1 >= n {
        assert BlockOf(fs, i, owner[b].1) == b;
      }
    }
  }

  lemma ShrinkOwned(fs: Fs, owner: Owners, i: nat, n: nat)
    requires Inv(fs, owner) && Live(fs, i) && n <= Count(fs, i) && Fits(Count(fs, i))
    ensures var t := Trim(fs, fs.inodes[i], n, Count(fs, i));
            Inv(Sized(t, i, fs.inodes[i], n), Without(owner, i, n))
  {
    TrimOwned(fs, owner, i, n);
    var fs' := Sized(Trim(fs, fs.inodes[i], n, Count(fs, i)), i, fs.inodes[i], n);
    assert Count(fs', i) == n;
    forall j: nat | ValidInum(j)
      ensures Live(fs', j) == Live(fs, j) && Count(fs', j) == (if j == i then n else Count(fs, j))
      ensures fs'.inodes[j].blocks == fs.inodes[j].blocks
    {
    }
    DomainLess(fs, fs');
    OwnedLess(fs, owner, fs', i, n);
  }

  lemma RemoveOwned(fs: Fs, owner: Owners, i: nat)
    requires Inv(fs, owner) && Live(fs, i) && Fits(Count(fs, i))
    ensures Inv(RemoveFile(fs, i), Without(owner, i, 0))
  {
    TrimOwned(fs, owner, i, 0);
    var fs' := RemoveFile(fs, i);
    forall j: nat | ValidInum(j)
      ensures (Live(fs', j) <==> Live(fs, j) && j != i) && Count(fs', j) == Count(fs, j)
      ensures fs'.inodes[j].blocks == fs.inodes[j].blocks
    {
    }
    DomainLess(fs, fs');
    OwnedLess(fs, owner, fs', i, 0);
  }
}
