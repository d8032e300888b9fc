/** The authentication paths of the append-only SHA-256 trees: the builder that rehashes the
    whole leaf history, the step that only needs the previous leaf's path, and the fold that
    turns a path back into a root. The two-to-one hash is an arbitrary function throughout. */
module MerklePaths {
  import opened Wrappers
  import opened MachineInts

  datatype Digest = Digest(bytes: Bytes)

  type Combiner = (Digest, Digest) -> Digest

  /** A hash together with the value of a never-written leaf. */
  datatype Sha256 = Sha256(combine: Combiner, zeroLeaf: Digest) {
    /** Root of an empty subtree of the given height: the source's table of zero hashes. */
    function Zero(level: nat): Digest {
      if level == 0 then zeroLeaf else combine(Zero(level - 1), Zero(level - 1))
    }
  }

  datatype PathError = TargetOutsideLeaves | IndexOverflow | UnexpectedIndex | WrongSiblingCount | IndexExceedsTree

  /** The last leaf of a tree with its path (the source stores the digests as hex text). */
  datatype Frontier = Frontier(index: u32, value: Digest, siblings: seq<Digest>)

  // ---------- the tree that the paths are about ----------

  /** Node `i` of level `k` in the infinite tree over `leaves`, empty subtrees to their right.
      `leafHeight` is the height at which the leaves themselves sit. */
  function Node(sha: Sha256, leaves: seq<Digest>, leafHeight: nat, k: nat, i: nat): Digest
    decreases k
  {
    if k == 0 then
      if i < |leaves| then leaves[i] else sha.Zero(leafHeight)
    else
      sha.combine(Node(sha, leaves, leafHeight, k - 1, 2 * i), Node(sha, leaves, leafHeight, k - 1, 2 * i + 1))
  }

  function TreeRoot(sha: Sha256, leaves: seq<Digest>, height: nat, leafHeight: nat): Digest {
    Node(sha, leaves, leafHeight, height, 0)
  }

  lemma {:induction false} LeftHalf(sha: Sha256, leaves: seq<Digest>, leafHeight: nat, height: nat, k: nat, i: nat)
    requires k <= height && i < Pow2(height - k)
    ensures Node(sha, leaves[..Min(Pow2(height), |leaves|)], leafHeight, k, i) == Node(sha, leaves, leafHeight, k, i)
    decreases k
  {
    if k > 0 {
      LeftHalf(sha, leaves, leafHeight, height, k - 1, 2 * i);
      LeftHalf(sha, leaves, leafHeight, height, k - 1, 2 * i + 1);
    }
  }

  lemma {:induction false} RightHalf(sha: Sha256, leaves: seq<Digest>, leafHeight: nat, height: nat, k: nat, i: nat)
    requires k <= height
    ensures Node(sha, leaves[Min(Pow2(height), |leaves|)..], leafHeight, k, i)
            == Node(sha, leaves, leafHeight, k, Pow2(height - k) + i)
    decreases k
  {
    if k > 0 {
      RightHalf(sha, leaves, leafHeight, height, k - 1, 2 * i);
      RightHalf(sha, leaves, leafHeight, height, k - 1, 2 * i + 1);
    }
  }

  /** The zero-padded tree, half by half: a tree of height 0 is its leaf, or the zero hash; above, the
      first `2^height` leaves are its left half and the others its right half. */
  lemma {:induction false} TreeOfHalves(sha: Sha256, leaves: seq<Digest>, height: nat, leafHeight: nat)
    ensures TreeRoot(sha, leaves, 0, leafHeight) == if leaves == [] then sha.Zero(leafHeight) else leaves[0]
    ensures var n := Min(Pow2(height), |leaves|);
            TreeRoot(sha, leaves, height + 1, leafHeight)
            == sha.combine(TreeRoot(sha, leaves[..n], height, leafHeight),
                TreeRoot(sha, leaves[n..], height, leafHeight))
    ensures sha.Zero(0) == sha.zeroLeaf && sha.Zero(height + 1) == sha.combine(sha.Zero(height), sha.Zero(height))
  {
    LeftHalf(sha, leaves, leafHeight, height, height, 0);
    RightHalf(sha, leaves, leafHeight, height, height, 0);
  }

  /** The index of the other child of the same parent, `index ^ 1`. */
  function Sibling(index: nat): nat {
    if index % 2 == 0 then index + 1 else index - 1
  }

  /** The path of a leaf: on every level, the sibling of the leaf's ancestor. */
  function SparsePath(sha: Sha256, leaves: seq<Digest>, index: nat, height: nat, leafHeight: nat): (path: seq<Digest>)
    ensures |path| == height
    ensures forall k {:trigger path[k]} :: 0 <= k < height ==>
            path[k] == Node(sha, leaves, leafHeight, k, Sibling(ShiftRight(index, k)))
  {
    if height == 0 then []
    else SparsePath(sha, leaves, index, height - 1, leafHeight)
         + [Node(sha, leaves, leafHeight, height - 1, Sibling(ShiftRight(index, height - 1)))]
  }

  function ZeroPath(sha: Sha256, height: nat, leafHeight: nat): (path: seq<Digest>)
    ensures |path| == height
    ensures forall k {:trigger path[k]} :: 0 <= k < height ==> path[k] == sha.Zero(leafHeight + k)
  {
    if height == 0 then [] else ZeroPath(sha, height - 1, leafHeight) + [sha.Zero(leafHeight + height - 1)]
  }

  /** `n` copies of a leaf. */
  function Repeat(leaf: Digest, n: nat): (leaves: seq<Digest>)
    ensures |leaves| == n
    ensures forall i {:trigger leaves[i]} :: 0 <= i < n ==> leaves[i] == leaf
  {
    if n == 0 then [] else Repeat(leaf, n - 1) + [leaf]
  }

  /** Hash a node with its sibling, on the side the index says. */
  function HashWith(h: Combiner, current: Digest, sibling: Digest, index: nat): Digest {
    if index % 2 == 0 then h(current, sibling) else h(sibling, current)
  }

  /** Folding the first `k` siblings into a leaf. */
  function Climb(h: Combiner, leaf: Digest, siblings: seq<Digest>, index: nat, k: nat): Digest
    requires k <= |siblings|
    decreases k
  {
    if k == 0 then leaf
    else HashWith(h, Climb(h, leaf, siblings, index, k - 1), siblings[k - 1], ShiftRight(index, k - 1))
  }

  function FoldPath(h: Combiner, leaf: Digest, siblings: seq<Digest>, index: nat): Digest {
    Climb(h, leaf, siblings, index, |siblings|)
  }

  /** The left child of the leaf's ancestor at level `k + 1`. */
  function CarriedNode(h: Combiner, leaf: Digest, siblings: seq<Digest>, index: nat, k: nat): Digest
    requires k < |siblings|
  {
    if ShiftRight(index, k) % 2 == 0 then Climb(h, leaf, siblings, index, k) else siblings[k]
  }

  /** The path of leaf `index + 1` out of leaf `index` and its path alone. */
  function NextLeafPath(sha: Sha256, leaf: Digest, siblings: seq<Digest>, index: nat, leafHeight: nat):
      (path: seq<Digest>)
    ensures |path| == |siblings|
  {
    NextLeafPrefix(sha, leaf, siblings, index, leafHeight, |siblings|)
  }

  function NextLeafPrefix(sha: Sha256, leaf: Digest, siblings: seq<Digest>, index: nat, leafHeight: nat, n: nat):
      (path: seq<Digest>)
    requires n <= |siblings|
    ensures |path| == n
    ensures forall k {:trigger path[k]} :: 0 <= k < n ==>
              path[k] == if ShiftRight(index + 1, k) % 2 == 0 then sha.Zero(leafHeight + k)
                         else CarriedNode(sha.combine, leaf, siblings, index, k)
    decreases n
  {
    if n == 0 then []
    else NextLeafPrefix(sha, leaf, siblings, index, leafHeight, n - 1)
         + [if ShiftRight(index + 1, n - 1) % 2 == 0 then sha.Zero(leafHeight + n - 1)
            else CarriedNode(sha.combine, leaf, siblings, index, n - 1)]
  }

  /** The frontier that a non-empty history determines. */
  function FrontierOf(sha: Sha256, history: seq<Digest>, height: nat, leafHeight: nat): (f: Frontier)
    requires 0 < |history| <= U32_MAX + 1
  {
    Frontier(|history| - 1, history[|history| - 1], SparsePath(sha, history, |history| - 1, height, leafHeight))
  }

  // ---------- properties ----------

  /** Everything to the right of the last leaf's ancestor is an empty subtree. */
  lemma {:induction false} RightOfLastIsZero(sha: Sha256, leaves: seq<Digest>, leafHeight: nat, k: nat, i: nat)
    requires |leaves| == 0 || i > ShiftRight(|leaves| - 1, k)
    ensures Node(sha, leaves, leafHeight, k, i) == sha.Zero(leafHeight + k)
    decreases k
  {
    if k > 0 {
      RightOfLastIsZero(sha, leaves, leafHeight, k - 1, 2 * i);
      RightOfLastIsZero(sha, leaves, leafHeight, k - 1, 2 * i + 1);
    }
  }

  /** Everything to the left of a leaf's ancestor ignores that leaf and the ones after it. */
  lemma {:induction false} LeftOfTargetIsUnchanged(sha: Sha256, a: seq<Digest>, b: seq<Digest>, n: nat,
      leafHeight: nat, k: nat, i: nat)
    requires n <= |a| && n <= |b| && a[..n] == b[..n]
    requires i < ShiftRight(n, k)
    ensures Node(sha, a, leafHeight, k, i) == Node(sha, b, leafHeight, k, i)
    decreases k
  {
    if k > 0 {
      LeftOfTargetIsUnchanged(sha, a, b, n, leafHeight, k - 1, 2 * i);
      LeftOfTargetIsUnchanged(sha, a, b, n, leafHeight, k - 1, 2 * i + 1);
    } else {
      assert a[i] == a[..n][i] == b[..n][i] == b[i];
    }
  }

  /** Climbing a leaf's own path visits its ancestors. */
  lemma {:induction false} ClimbVisitsAncestors(sha: Sha256, leaves: seq<Digest>, target: nat, height: nat,
      leafHeight: nat, k: nat)
    requires target < |leaves| && k <= height
    ensures Climb(sha.combine, leaves[target], SparsePath(sha, leaves, target, height, leafHeight), target, k)
            == Node(sha, leaves, leafHeight, k, ShiftRight(target, k))
    decreases k
  {
    if k > 0 {
      ClimbVisitsAncestors(sha, leaves, target, height, leafHeight, k - 1);
    }
  }

  /** Folding any known leaf along its path gives the root of the full zero-padded tree. */
  lemma {:induction false} PathReachesRoot(sha: Sha256, leaves: seq<Digest>, target: nat, height: nat, leafHeight: nat)
    requires target < |leaves| <= Pow2(height)
    ensures FoldPath(sha.combine, leaves[target], SparsePath(sha, leaves, target, height, leafHeight), target)
            == TreeRoot(sha, leaves, height, leafHeight)
  {
    ClimbVisitsAncestors(sha, leaves, target, height, leafHeight, height);
    ShiftRightIsZero(target, height);
  }

  /** A last leaf's path says nothing of the leaf itself. */
  lemma {:induction false} PathIndependentOfLeaf(sha: Sha256, history: seq<Digest>, x: Digest, y: Digest, height: nat,
      leafHeight: nat)
    ensures SparsePath(sha, history + [x], |history|, height, leafHeight)
            == SparsePath(sha, history + [y], |history|, height, leafHeight)
  {
    var n := |history|;
    forall k | 0 <= k < height
      ensures SparsePath(sha, history + [x], n, height, leafHeight)[k]
           == SparsePath(sha, history + [y], n, height, leafHeight)[k]
    {
      if ShiftRight(n, k) % 2 == 0 {
        RightOfLastIsZero(sha, history + [x], leafHeight, k, ShiftRight(n, k) + 1);
        RightOfLastIsZero(sha, history + [y], leafHeight, k, ShiftRight(n, k) + 1);
      } else {
        assert (history + [x])[..n] == history == (history + [y])[..n];
        LeftOfTargetIsUnchanged(sha, history + [x], history + [y], n, leafHeight, k, ShiftRight(n, k) - 1);
      }
    }
  }

  /** Level `k` of the incremental step: the carried node is the new leaf's left-hand sibling. */
  lemma {:induction false} CarriedIsLeftSibling(sha: Sha256, history: seq<Digest>, x: Digest, height: nat,
      leafHeight: nat, k: nat)
    requires |history| > 0 && k < height
    requires ShiftRight(|history|, k) % 2 == 1
    ensures var last := |history| - 1;
            CarriedNode(sha.combine, history[last], SparsePath(sha, history, last, height, leafHeight), last, k)
            == Node(sha, history + [x], leafHeight, k, ShiftRight(|history|, k) - 1)
  {
    var n, last := |history|, |history| - 1;
    ShiftRightSuccessor(last, k);
    ClimbVisitsAncestors(sha, history, last, height, leafHeight, k);
    assert (history + [x])[..n] == history == history[..n];
    LeftOfTargetIsUnchanged(sha, history + [x], history, n, leafHeight, k, ShiftRight(n, k) - 1);
  }

  /** The path built from the last leaf's path alone is the path built from the whole history,
      whatever leaf is appended and however high the tree. */
  lemma {:induction false} IncrementalRefinesFull(sha: Sha256, history: seq<Digest>, x: Digest, height: nat,
      leafHeight: nat)
    requires |history| > 0
    ensures var last := |history| - 1;
            NextLeafPath(sha, history[last], SparsePath(sha, history, last, height, leafHeight), last, leafHeight)
            == SparsePath(sha, history + [x], |history|, height, leafHeight)
  {
    var n, last := |history|, |history| - 1;
    var full := SparsePath(sha, history + [x], n, height, leafHeight);
    var next := NextLeafPath(sha, history[last], SparsePath(sha, history, last, height, leafHeight), last, leafHeight);
    forall k | 0 <= k < height
      ensures next[k] == full[k]
    {
      if ShiftRight(n, k) % 2 == 0 {
        RightOfLastIsZero(sha, history + [x], leafHeight, k, ShiftRight(n, k) + 1);
      } else {
        CarriedIsLeftSibling(sha, history, x, height, leafHeight, k);
      }
    }
  }

  /** The path of any leaf of an untouched tree is the table of zero hashes. */
  lemma {:induction false} UntouchedTreePath(sha: Sha256, n: nat, index: nat, height: nat, leafHeight: nat)
    ensures SparsePath(sha, Repeat(sha.Zero(leafHeight), n), index, height, leafHeight)
            == ZeroPath(sha, height, leafHeight)
  {
    forall k | 0 <= k < height
      ensures Node(sha, Repeat(sha.Zero(leafHeight), n), leafHeight, k, Sibling(ShiftRight(index, k)))
              == sha.Zero(leafHeight + k)
    {
      UntouchedNode(sha, n, leafHeight, k, Sibling(ShiftRight(index, k)));
    }
  }

  lemma {:induction false} UntouchedNode(sha: Sha256, n: nat, leafHeight: nat, k: nat, i: nat)
    ensures Node(sha, Repeat(sha.Zero(leafHeight), n), leafHeight, k, i) == sha.Zero(leafHeight + k)
    decreases k
  {
    if k > 0 {
      UntouchedNode(sha, n, leafHeight, k - 1, 2 * i);
      UntouchedNode(sha, n, leafHeight, k - 1, 2 * i + 1);
    }
  }

  /** For any history that leaves room in the tree, the root read off its frontier is the root
      of the full zero-padded tree, and so is the root after one more incremental append. */
  lemma {:induction false} FrontierRootIsTreeRoot(sha: Sha256, history: seq<Digest>, x: Digest, height: nat,
      leafHeight: nat)
    requires 0 < |history| < Pow2(height) && |history| <= U32_MAX
    ensures var f := FrontierOf(sha, history, height, leafHeight);
            && FoldPath(sha.combine, f.value, f.siblings, f.index) == TreeRoot(sha, history, height, leafHeight)
            && FoldPath(sha.combine, x, NextLeafPath(sha, f.value, f.siblings, f.index, leafHeight), |history|)
               == TreeRoot(sha, history + [x], height, leafHeight)
  {
    PathReachesRoot(sha, history, |history| - 1, height, leafHeight);
    IncrementalRefinesFull(sha, history, x, height, leafHeight);
    PathReachesRoot(sha, history + [x], |history|, height, leafHeight);
  }

  // ---------- the loops of the source ----------

  /** Hash the nodes of a level two by two; an odd last node is dropped. */
  method PairNodes(h: Combiner, level: seq<Digest>) returns (next: seq<Digest>)
    ensures |next| == |level| / 2
    ensures forall i :: 0 <= i < |next| ==> next[i] == h(level[2 * i], level[2 * i + 1])
  {
    next := [];
    for i := 0 to |level| / 2
      invariant |next| == i
      invariant forall j :: 0 <= j < i ==> next[j] == h(level[2 * j], level[2 * j + 1])
    {
      next := next + [h(level[2 * i], level[2 * i + 1])];
    }
  }

  /** The known part of a level: everything else on it is an empty subtree. */
  ghost predicate IsLevel(sha: Sha256, leaves: seq<Digest>, leafHeight: nat, k: nat, level: seq<Digest>) {
    && (forall i {:trigger level[i]} :: 0 <= i < |level| ==> level[i] == Node(sha, leaves, leafHeight, k, i))
    && (forall i: nat {:trigger Node(sha, leaves, leafHeight, k, i)} :: i >= |level| ==>
        Node(sha, leaves, leafHeight, k, i) == sha.Zero(leafHeight + k))
  }

  lemma {:induction false} PairedLevel(sha: Sha256, leaves: seq<Digest>, leafHeight: nat, k: nat, level: seq<Digest>,
      next: seq<Digest>)
    requires IsLevel(sha, leaves, leafHeight, k, level) && |level| % 2 == 0
    requires |next| == |level| / 2
    requires forall i :: 0 <= i < |next| ==> next[i] == sha.combine(level[2 * i], level[2 * i + 1])
    ensures IsLevel(sha, leaves, leafHeight, k + 1, next)
  {
    forall i: nat {:trigger Node(sha, leaves, leafHeight, k + 1, i)} | i >= |next|
      ensures Node(sha, leaves, leafHeight, k + 1, i) == sha.Zero(leafHeight + k + 1)
    {
      assert Node(sha, leaves, leafHeight, k, 2 * i) == sha.Zero(leafHeight + k)
          == Node(sha, leaves, leafHeight, k, 2 * i + 1);
    }
  }

  method SparseSha256MerkleSiblings(sha: Sha256, leaves: seq<Digest>, targetIndex: nat, height: nat, leafHeight: nat)
    returns (r: Result<seq<Digest>, PathError>)
    ensures targetIndex >= |leaves| ==> r == Err(TargetOutsideLeaves)
    ensures targetIndex < |leaves| ==> r == Ok(SparsePath(sha, leaves, targetIndex, height, leafHeight))
  {
    if targetIndex >= |leaves| {
      return Err(TargetOutsideLeaves);
    }
    var level, index, siblings := leaves, targetIndex, [];
    for depth := 0 to height
      invariant index == ShiftRight(targetIndex, depth)
      invariant IsLevel(sha, leaves, leafHeight, depth, level)
      invariant siblings == SparsePath(sha, leaves, targetIndex, depth, leafHeight)
    {
      var sibling := Sibling(index);
      siblings := siblings + [if sibling < |level| then level[sibling] else sha.Zero(leafHeight + depth)];
      if |level| % 2 == 1 {
        level := level + [sha.Zero(leafHeight + depth)];
      }
      var next := PairNodes(sha.combine, level);
      PairedLevel(sha, leaves, leafHeight, depth, level, next);
      level := next;
      index := index / 2;
    }
    return Ok(siblings);
  }

  /** A 32-bit index can only be shifted by fewer than 32 bits, hence the bound on the height. */
  method SequentialNextLeafSiblings(sha: Sha256, frontier: Frontier, newIndex: u32, height: nat, leafHeight: nat)
    returns (r: Result<seq<Digest>, PathError>)
    requires height <= 32
    ensures frontier.index == U32_MAX ==> r == Err(IndexOverflow)
    ensures frontier.index < U32_MAX && newIndex != frontier.index + 1 ==> r == Err(UnexpectedIndex)
    ensures frontier.index < U32_MAX && newIndex == frontier.index + 1 && |frontier.siblings| != height ==>
              r == Err(WrongSiblingCount)
    ensures frontier.index < U32_MAX && newIndex == frontier.index + 1 && |frontier.siblings| == height ==>
              r == Ok(NextLeafPath(sha, frontier.value, frontier.siblings, frontier.index, leafHeight))
  {
    if frontier.index == U32_MAX {
      return Err(IndexOverflow);
    }
    if newIndex != frontier.index + 1 {
      return Err(UnexpectedIndex);
    }
    if |frontier.siblings| != height {
      return Err(WrongSiblingCount);
    }
    var nextFrontier := CarriedNodes(sha, frontier);
    var path := [];
    for level := 0 to height
      invariant path == NextLeafPrefix(sha, frontier.value, frontier.siblings, frontier.index, leafHeight, level)
    {
      path := path + [if ShiftRight(newIndex, level) % 2 == 0 then sha.Zero(leafHeight + level)
          else nextFrontier[level]];
    }
    return Ok(path);
  }

  /** What the previous leaf's path leaves, level by level, to the next leaf. */
  method CarriedNodes(sha: Sha256, frontier: Frontier) returns (nextFrontier: seq<Digest>)
    ensures |nextFrontier| == |frontier.siblings|
    ensures forall k {:trigger nextFrontier[k]} :: 0 <= k < |frontier.siblings| ==>
              nextFrontier[k] == CarriedNode(sha.combine, frontier.value, frontier.siblings, frontier.index, k)
  {
    var height := |frontier.siblings|;
    var current: Digest, previousIndex: nat := frontier.value, frontier.index;
    nextFrontier := [];
    for level := 0 to height
      invariant previousIndex == ShiftRight(frontier.index, level)
      invariant current == Climb(sha.combine, frontier.value, frontier.siblings, frontier.index, level)
      invariant |nextFrontier| == level
      invariant forall k {:trigger nextFrontier[k]} :: 0 <= k < level ==>
                  nextFrontier[k] == CarriedNode(sha.combine, frontier.value, frontier.siblings, frontier.index, k)
    {
      var sibling := frontier.siblings[level];
      if previousIndex % 2 == 0 {
        nextFrontier := nextFrontier + [current];
        current := sha.combine(current, sibling);
      } else {
        nextFrontier := nextFrontier + [sibling];
        current := sha.combine(sibling, current);
      }
      previousIndex := previousIndex / 2;
    }
  }

  method FrontierRoot(sha: Sha256, frontier: Frontier, height: nat) returns (r: Result<Digest, PathError>)
    ensures |frontier.siblings| != height ==> r == Err(WrongSiblingCount)
    ensures |frontier.siblings| == height && frontier.index >= Pow2(height) ==> r == Err(IndexExceedsTree)
    ensures |frontier.siblings| == height && frontier.index < Pow2(height) ==>
              r == Ok(FoldPath(sha.combine, frontier.value, frontier.siblings, frontier.index))
  {
    if |frontier.siblings| != height {
      return Err(WrongSiblingCount);
    }
    var current: Digest, index: nat := frontier.value, frontier.index;
    for level := 0 to height
      invariant index == ShiftRight(frontier.index, level)
      invariant current == Climb(sha.combine, frontier.value, frontier.siblings, frontier.index, level)
    {
      var sibling := frontier.siblings[level];
      current := if index % 2 == 0 then sha.combine(current, sibling) else sha.combine(sibling, current);
      index := index / 2;
    }
    ShiftRightIsZero(frontier.index, height);
    if index != 0 {
      return Err(IndexExceedsTree);
    }
    return Ok(current);
  }
}
