/** The transaction tree of a Dogecoin block, in which the last node of an odd level is its own
    sibling: the root, the inclusion paths, and the scan that hands them out with the deposits. */
module TransactionTree {
  import opened Wrappers
  import opened MachineInts
  import opened MerklePaths

  // ---------- specification ----------

  /** Number of nodes on level `k` over `n` leaves. */
  function Width(n: nat, k: nat): (w: nat)
    ensures n > 0 ==> w > 0
    ensures w <= n
  {
    if k == 0 then n else (Width(n, k - 1) + 1) / 2
  }

  /** Number of levels above the leaves. */
  function Depth(n: nat): nat
    requires n > 0
    decreases n
  {
    if n == 1 then 0 else 1 + Depth((n + 1) / 2)
  }

  /** Node `i` of level `k`, by recursion from the node down to its leaves. */
  function TxNode(h: Combiner, txids: seq<Digest>, k: nat, i: nat): Digest
    requires i < Width(|txids|, k)
    decreases k
  {
    if k == 0 then txids[i]
    else h(TxNode(h, txids, k - 1, 2 * i), TxNode(h, txids, k - 1, Min(2 * i + 1, Width(|txids|, k - 1) - 1)))
  }

  function TxRoot(h: Combiner, txids: seq<Digest>): Digest
    requires |txids| > 0
  {
    WidthAtDepth(|txids|);
    TxNode(h, txids, Depth(|txids|), 0)
  }

  /** The sibling position on a level of the given width. */
  function PairedWith(i: nat, width: nat): nat
    requires i < width
  {
    if i % 2 == 1 then i - 1 else if i + 1 < width then i + 1 else i
  }

  /** On level `k`, the node paired with a transaction's ancestor. */
  function TxSibling(h: Combiner, txids: seq<Digest>, index: nat, k: nat): Digest
    requires index < |txids|
  {
    AncestorInWidth(|txids|, index, k);
    TxNode(h, txids, k, PairedWith(ShiftRight(index, k), Width(|txids|, k)))
  }

  /** The inclusion path of a transaction, up to level `n`. */
  function TxPath(h: Combiner, txids: seq<Digest>, index: nat, n: nat): (path: seq<Digest>)
    requires index < |txids|
    ensures |path| == n
    ensures forall k {:trigger path[k]} :: 0 <= k < n ==> path[k] == TxSibling(h, txids, index, k)
  {
    if n == 0 then [] else TxPath(h, txids, index, n - 1) + [TxSibling(h, txids, index, n - 1)]
  }

  // ---------- properties ----------

  lemma {:induction false} AncestorInWidth(n: nat, index: nat, k: nat)
    requires index < n
    ensures ShiftRight(index, k) < Width(n, k)
  {
    if k > 0 {
      AncestorInWidth(n, index, k - 1);
    }
  }

  lemma {:induction false} WidthFromBelow(n: nat, k: nat)
    requires k > 0
    ensures Width(n, k) == Width((n + 1) / 2, k - 1)
    decreases k
  {
    if k > 1 {
      WidthFromBelow(n, k - 1);
    }
  }

  /** The root level is the first one that is a single node wide. */
  lemma {:induction false} WidthAtDepth(n: nat)
    requires n > 0
    ensures Width(n, Depth(n)) == 1
    ensures forall k {:trigger Width(n, k)} :: 0 <= k < Depth(n) ==> Width(n, k) > 1
    decreases n
  {
    if n > 1 {
      WidthAtDepth((n + 1) / 2);
      WidthFromBelow(n, Depth(n));
      forall k {:trigger Width(n, k)} | 0 <= k < Depth(n)
        ensures Width(n, k) > 1
      {
        if k > 0 {
          WidthFromBelow(n, k);
        }
      }
    }
  }

  /** A parent is the hash of a node and the one it is paired with, on the side the index says. */
  lemma {:induction false} ParentOfPair(h: Combiner, txids: seq<Digest>, k: nat, i: nat)
    requires i < Width(|txids|, k)
    ensures i / 2 < Width(|txids|, k + 1)
    ensures TxNode(h, txids, k + 1, i / 2)
            == HashWith(h, TxNode(h, txids, k, i), TxNode(h, txids, k, PairedWith(i, Width(|txids|, k))), i)
  {
    if i % 2 == 0 {
      assert 2 * (i / 2) == i;
      assert Min(i + 1, Width(|txids|, k) - 1) == PairedWith(i, Width(|txids|, k));
    } else {
      assert 2 * (i / 2) == i - 1;
      assert Min(i, Width(|txids|, k) - 1) == i;
    }
  }

  lemma {:induction false} ClimbVisitsTxNodes(h: Combiner, txids: seq<Digest>, index: nat, path: seq<Digest>, k: nat)
    requires index < |txids| && k <= |path|
    requires forall j {:trigger path[j]} :: 0 <= j < k ==> path[j] == TxSibling(h, txids, index, j)
    ensures ShiftRight(index, k) < Width(|txids|, k)
    ensures Climb(h, txids[index], path, index, k) == TxNode(h, txids, k, ShiftRight(index, k))
    decreases k
  {
    AncestorInWidth(|txids|, index, k);
    if k > 0 {
      ClimbVisitsTxNodes(h, txids, index, path, k - 1);
      var below := ShiftRight(index, k - 1);
      ParentOfPair(h, txids, k - 1, below);
      assert path[k - 1] == TxNode(h, txids, k - 1, PairedWith(below, Width(|txids|, k - 1)));
    }
  }

  /** Every transaction's path folds, by the bits of its index, to the one root of the block;
      the index has no bit left over. */
  lemma {:induction false} TxPathReachesRoot(h: Combiner, txids: seq<Digest>, index: nat)
    requires index < |txids|
    ensures FoldPath(h, txids[index], TxPath(h, txids, index, Depth(|txids|)), index) == TxRoot(h, txids)
    ensures index < Pow2(Depth(|txids|))
  {
    var depth := Depth(|txids|);
    ClimbVisitsTxNodes(h, txids, index, TxPath(h, txids, index, depth), depth);
    WidthAtDepth(|txids|);
    ShiftRightIsZero(index, depth);
  }

  lemma {:induction false} ParentIs(h: Combiner, txids: seq<Digest>, k: nat, i: nat, left: nat, right: nat)
    requires i < Width(|txids|, k + 1) && left == 2 * i && right == Min(2 * i + 1, Width(|txids|, k) - 1)
    ensures left < Width(|txids|, k) && right < Width(|txids|, k)
    ensures TxNode(h, txids, k + 1, i) == h(TxNode(h, txids, k, left), TxNode(h, txids, k, right))
  {
  }

  lemma {:induction false} PairWidth(n: nat, k: nat)
    ensures Width(n, k + 1) == Width((n + 1) / 2, k)
  {
    WidthFromBelow(n, k + 1);
  }

  lemma {:induction false} FirstRound(h: Combiner, txids: seq<Digest>, pairs: seq<Digest>, i: nat)
    requires PairedUp(h, txids, pairs) && i < |pairs| && i < Width(|txids|, 1)
    ensures TxNode(h, txids, 1, i) == pairs[i]
  {
    ParentIs(h, txids, 0, i, 2 * i, Min(2 * i + 1, |txids| - 1));
  }

  lemma {:induction false} ParentsAgree(
    h: Combiner, txids: seq<Digest>, pairs: seq<Digest>, k: nat, i: nat, left: nat, right: nat)
    requires i < Width(|txids|, k + 2) == Width(|pairs|, k + 1) && Width(|txids|, k + 1) == Width(|pairs|, k)
    requires left == 2 * i && right == Min(2 * i + 1, Width(|pairs|, k) - 1)
    requires left < Width(|pairs|, k) && TxNode(h, pairs, k, left) == TxNode(h, txids, k + 1, left)
    requires TxNode(h, pairs, k, right) == TxNode(h, txids, k + 1, right)
    ensures TxNode(h, pairs, k + 1, i) == TxNode(h, txids, k + 2, i)
  {
    ParentIs(h, txids, k + 1, i, left, right);
    ParentIs(h, pairs, k, i, left, right);
  }

  ghost predicate LevelsAgree(h: Combiner, txids: seq<Digest>, pairs: seq<Digest>, k: nat) {
    && Width(|pairs|, k) == Width(|txids|, k + 1)
    && forall i: nat {:trigger TxNode(h, pairs, k, i)} :: i < Width(|pairs|, k) ==>
         TxNode(h, pairs, k, i) == TxNode(h, txids, k + 1, i)
  }

  lemma {:induction false} NextLevelAgrees(h: Combiner, txids: seq<Digest>, pairs: seq<Digest>, k: nat)
    requires LevelsAgree(h, txids, pairs, k) && Width(|pairs|, k + 1) == Width(|txids|, k + 2)
    ensures LevelsAgree(h, txids, pairs, k + 1)
  {
    forall i: nat {:trigger TxNode(h, pairs, k + 1, i)} | i < Width(|pairs|, k + 1)
      ensures TxNode(h, pairs, k + 1, i) == TxNode(h, txids, k + 2, i)
    {
      ParentsAgree(h, txids, pairs, k, i, 2 * i, Min(2 * i + 1, Width(|pairs|, k) - 1));
    }
  }

  lemma {:induction false} AllLevelsAgree(h: Combiner, txids: seq<Digest>, pairs: seq<Digest>, k: nat)
    requires PairedUp(h, txids, pairs)
    ensures LevelsAgree(h, txids, pairs, k)
  {
    PairWidth(|txids|, 0);
    forall i: nat {:trigger TxNode(h, pairs, 0, i)} | i < |pairs|
      ensures TxNode(h, pairs, 0, i) == TxNode(h, txids, 1, i)
    {
      FirstRound(h, txids, pairs, i);
    }
    for l := 0 to k
      invariant LevelsAgree(h, txids, pairs, l)
    {
      PairWidth(|txids|, l + 1);
      NextLevelAgrees(h, txids, pairs, l);
    }
  }

  /** One round: every two neighbours hashed, left before right; an odd last one with itself. */
  ghost predicate PairedUp(h: Combiner, txids: seq<Digest>, pairs: seq<Digest>) {
    && |pairs| == (|txids| + 1) / 2
    && forall i {:trigger pairs[i]} :: 0 <= i < |pairs| ==>
         pairs[i] == if 2 * i + 1 < |txids| then h(txids[2 * i], txids[2 * i + 1]) else h(txids[2 * i], txids[2 * i])
  }

  /** The block root, round by round: one id is its own root, more have that of their pairs. */
  lemma {:induction false} RootOfPairs(h: Combiner, txids: seq<Digest>, pairs: seq<Digest>)
    requires |txids| > 0
    ensures |txids| == 1 ==> TxRoot(h, txids) == txids[0]
    ensures |txids| > 1 && PairedUp(h, txids, pairs) ==> TxRoot(h, txids) == TxRoot(h, pairs)
  {
    if |txids| > 1 && PairedUp(h, txids, pairs) {
      WidthAtDepth(|txids|);
      WidthAtDepth(|pairs|);
      AllLevelsAgree(h, txids, pairs, Depth(|pairs|));
    }
  }

  // ---------- the loops of the source ----------

  ghost predicate IsTxLevel(h: Combiner, txids: seq<Digest>, k: nat, level: seq<Digest>) {
    && |level| == Width(|txids|, k)
    && (forall i {:trigger level[i]} :: 0 <= i < |level| ==> level[i] == TxNode(h, txids, k, i))
  }

  /** One round of the loops: complete an odd level with its last node, then pair. */
  method PairTxLevel(h: Combiner, ghost txids: seq<Digest>, ghost k: nat, level: seq<Digest>)
      returns (even: seq<Digest>, next: seq<Digest>)
    requires IsTxLevel(h, txids, k, level) && |level| > 1
    ensures IsTxLevel(h, txids, k + 1, next)
    ensures |even| == |level| + |level| % 2 && even[..|level|] == level
    ensures even[|even| - 1] == level[|level| - 1]
  {
    even := level;
    if |even| % 2 == 1 {
      even := even + [even[|even| - 1]];
    }
    next := PairNodes(h, even);
  }

  lemma {:induction false} PairedNode(level: seq<Digest>, even: seq<Digest>, index: nat)
    requires index < |level| && |even| == |level| + |level| % 2
    requires even[..|level|] == level && even[|even| - 1] == level[|level| - 1]
    ensures Sibling(index) < |even| && even[Sibling(index)] == level[PairedWith(index, |level|)]
  {
    if Sibling(index) < |level| {
      assert even[Sibling(index)] == even[..|level|][Sibling(index)];
    }
  }

  /** A level never settles at one node before the root level. */
  lemma {:induction false} RootLevelIsDepth(n: nat, k: nat)
    requires n > 0 && Width(n, k) == 1 && (forall j {:trigger Width(n, j)} :: 0 <= j < k ==> Width(n, j) > 1)
    ensures k == Depth(n)
  {
    WidthAtDepth(n);
    assert Width(n, Depth(n)) == 1;
  }

  method BitcoinMerkleRoot(h: Combiner, txids: seq<Digest>) returns (r: Option<Digest>)
    ensures txids == [] ==> r == None
    ensures txids != [] ==> r == Some(TxRoot(h, txids))
  {
    if txids == [] {
      return None;
    }
    var level := txids;
    ghost var k := 0;
    while |level| > 1
      invariant IsTxLevel(h, txids, k, level)
      invariant forall j {:trigger Width(|txids|, j)} :: 0 <= j < k ==> Width(|txids|, j) > 1
      decreases |level|
    {
      var _, next := PairTxLevel(h, txids, k, level);
      level := next;
      k := k + 1;
    }
    RootLevelIsDepth(|txids|, k);
    return Some(level[0]);
  }

  datatype ScanError = EmptyBlock | RootMismatch | PathIndexOutOfBounds | OutputIndexOverflow
    | KeyIndexOverflow | CountOverflow | TransactionIndexOverflow

  method BitcoinMerkleSiblings(h: Combiner, txids: seq<Digest>, transactionIndex: nat)
      returns (r: Result<seq<Digest>, ScanError>)
    ensures transactionIndex >= |txids| ==> r == Err(PathIndexOutOfBounds)
    ensures transactionIndex < |txids| ==> r == Ok(TxPath(h, txids, transactionIndex, Depth(|txids|)))
  {
    if txids == [] || transactionIndex >= |txids| {
      return Err(PathIndexOutOfBounds);
    }
    var level, index: nat, siblings := txids, transactionIndex, [];
    ghost var k := 0;
    while |level| > 1
      invariant IsTxLevel(h, txids, k, level)
      invariant index == ShiftRight(transactionIndex, k)
      invariant siblings == TxPath(h, txids, transactionIndex, k)
      invariant forall j {:trigger Width(|txids|, j)} :: 0 <= j < k ==> Width(|txids|, j) > 1
      decreases |level|
    {
      AncestorInWidth(|txids|, transactionIndex, k);
      var even, next := PairTxLevel(h, txids, k, level);
      PairedNode(level, even, index);
      siblings := siblings + [even[Sibling(index)]];
      level := next;
      index := index / 2;
      k := k + 1;
    }
    RootLevelIsDepth(|txids|, k);
    return Ok(siblings);
  }
}
