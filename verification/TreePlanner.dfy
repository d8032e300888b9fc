/** The binary aggregation planner: pair the nodes of a level two by two, carry an odd last node
    up unchanged, until one node is left. */
module TreePlanner {
  import opened MachineInts

  const NULL_LEVEL: nat := 0xffff

  datatype TreePosition = TreePosition(level: nat, index: nat) {
    function LeftChild(): TreePosition
      requires level > 0
    {
      TreePosition(level - 1, index * 2)
    }

    function RightChild(): TreePosition
      requires level > 0
    {
      TreePosition(level - 1, index * 2 + 1)
    }

    function Parent(): TreePosition {
      TreePosition(level + 1, index / 2)
    }
  }

  const NULL_POSITION: TreePosition := TreePosition(NULL_LEVEL, 0)

  datatype Job = Job(position: TreePosition, left: TreePosition, right: TreePosition)

  datatype BinaryTreePlanner = BinaryTreePlanner(levels: seq<seq<Job>>, numLeaves: nat)

  // ---------- specification ----------

  function Leaves(n: nat): (jobs: seq<Job>)
    ensures |jobs| == n
    ensures forall i {:trigger jobs[i]} :: 0 <= i < n ==>
            jobs[i] == Job(TreePosition(0, i), NULL_POSITION, NULL_POSITION)
  {
    if n == 0 then [] else Leaves(n - 1) + [Job(TreePosition(0, n - 1), NULL_POSITION, NULL_POSITION)]
  }

  /** The job that pairs nodes `2 * i` and `2 * i + 1` of a level. */
  function PairAt(current: seq<Job>, level: nat, i: nat): Job
    requires 2 * i + 1 < |current|
  {
    Job(TreePosition(level, i), current[2 * i].position, current[2 * i + 1].position)
  }

  /** The first `n` jobs that pair up the nodes of a level. */
  function Pairs(current: seq<Job>, level: nat, n: nat): (jobs: seq<Job>)
    requires 2 * n <= |current|
    ensures |jobs| == n
    ensures forall i {:trigger jobs[i]} :: 0 <= i < n ==>
              jobs[i] == Job(TreePosition(level, i), current[2 * i].position, current[2 * i + 1].position)
  {
    if n == 0 then [] else Pairs(current, level, n - 1) + [PairAt(current, level, n - 1)]
  }

  function Carried(current: seq<Job>): seq<Job> {
    if |current| % 2 == 1 then [current[|current| - 1]] else []
  }

  function Above(current: seq<Job>, level: nat): (next: seq<Job>)
    ensures |next| == (|current| + 1) / 2
  {
    Pairs(current, level, |current| / 2) + Carried(current)
  }

  function Plan(current: seq<Job>, level: nat): seq<seq<Job>>
    decreases |current|
  {
    if |current| <= 1 then [] else [Pairs(current, level, |current| / 2)] + Plan(Above(current, level), level + 1)
  }

  /** The last node standing. */
  function Root(current: seq<Job>, level: nat): TreePosition
    requires |current| > 0
    decreases |current|
  {
    if |current| == 1 then current[0].position else Root(Above(current, level), level + 1)
  }

  // ---------- size ----------

  function TotalJobs(plan: seq<seq<Job>>): nat {
    if plan == [] then 0 else |plan[0]| + TotalJobs(plan[1..])
  }

  /** A plan for `n` leaves has `n - 1` jobs on as many levels as `n` has halvings. */
  lemma {:induction false} PlanSize(current: seq<Job>, level: nat)
    requires |current| > 0
    ensures var plan := Plan(current, level);
            && TotalJobs(plan) == |current| - 1
            && |current| <= Pow2(|plan|)
            && (|plan| > 0 ==> Pow2(|plan| - 1) < |current|)
    decreases |current|
  {
    if |current| > 1 {
      var above := Above(current, level);
      PlanSize(above, level + 1);
      assert Plan(current, level)[1..] == Plan(above, level + 1);
    }
  }

  // ---------- geometry ----------

  /** After `level` rounds, node `i` covers the leaves under position `(level, i)`: it sits there,
      or, if it is the last and was carried, below it along left children. */
  ghost predicate Placed(current: seq<Job>, level: nat) {
    forall i {:trigger current[i]} :: 0 <= i < |current| ==>
      && current[i].position.level <= level
      && current[i].position == LeftDescendant(TreePosition(level, i), level - current[i].position.level)
      && (i < |current| - 1 ==> current[i].position.level == level)
  }

  function LeftDescendant(p: TreePosition, k: nat): (q: TreePosition)
    requires k <= p.level
    ensures q.level == p.level - k
    decreases k
  {
    if k == 0 then p else LeftDescendant(p.LeftChild(), k - 1)
  }

  function Ancestor(p: TreePosition, k: nat): TreePosition
    decreases k
  {
    if k == 0 then p else Ancestor(p.Parent(), k - 1)
  }

  lemma {:induction false} ParentOfAncestor(p: TreePosition, k: nat)
    ensures Ancestor(p, k + 1) == Ancestor(p, k).Parent()
    decreases k
  {
    if k > 0 {
      ParentOfAncestor(p.Parent(), k - 1);
    }
  }

  /** Going up undoes going down to the left. */
  lemma {:induction false} AncestorOfLeftDescendant(p: TreePosition, k: nat)
    requires k <= p.level
    ensures Ancestor(LeftDescendant(p, k), k) == p
    decreases k
  {
    if k > 0 {
      AncestorOfLeftDescendant(p.LeftChild(), k - 1);
      ParentOfAncestor(LeftDescendant(p, k), k - 1);
    }
  }

  lemma {:induction false} AboveIsPlaced(current: seq<Job>, level: nat)
    requires Placed(current, level)
    ensures Placed(Above(current, level + 1), level + 1)
  {
    var above, n := Above(current, level + 1), |current| / 2;
    if |current| % 2 == 1 {
      var last := current[|current| - 1];
      assert above[n] == last && 2 * n == |current| - 1;
      assert TreePosition(level + 1, n).LeftChild() == TreePosition(level, 2 * n);
      assert LeftDescendant(TreePosition(level + 1, n), level + 1 - last.position.level) == last.position;
    }
  }

  ghost predicate WellAimed(job: Job) {
    && job.position.level > 0
    && job.left == job.position.LeftChild()
    && job.right.level < job.position.level
    && job.right == LeftDescendant(job.position.RightChild(), job.position.level - 1 - job.right.level)
    && Ancestor(job.left, 1) == job.position
    && Ancestor(job.right, job.position.level - job.right.level) == job.position
  }

  lemma {:induction false} PairIsWellAimed(current: seq<Job>, level: nat, i: nat)
    requires Placed(current, level) && 2 * i + 1 < |current|
    ensures WellAimed(Pairs(current, level + 1, |current| / 2)[i])
  {
    var job := Pairs(current, level + 1, |current| / 2)[i];
    assert current[2 * i].position == TreePosition(level, 2 * i) == job.position.LeftChild();
    assert job.position.RightChild() == TreePosition(level, 2 * i + 1);
    var k := level - job.right.level;
    assert job.right == current[2 * i + 1].position == LeftDescendant(job.position.RightChild(), k);
    AncestorOfLeftDescendant(job.position.RightChild(), k);
    ParentOfAncestor(job.right, k);
    assert Ancestor(job.left, 1) == Ancestor(job.left.Parent(), 0) == job.position;
  }

  lemma {:induction false} PlanLevels(current: seq<Job>, level: nat, l: nat)
    requires l < |Plan(current, level)|
    ensures l == 0 ==> Plan(current, level)[l] == Pairs(current, level, |current| / 2)
    ensures l > 0 ==>
              && l - 1 < |Plan(Above(current, level), level + 1)|
              && Plan(current, level)[l] == Plan(Above(current, level), level + 1)[l - 1]
  {
    var rest := Plan(Above(current, level), level + 1);
    assert Plan(current, level) == [Pairs(current, level, |current| / 2)] + rest;
  }

  ghost predicate AimedAt(job: Job, at: TreePosition) {
    WellAimed(job) && job.position == at
  }

  lemma {:induction false} FirstLevelIsWellAimed(current: seq<Job>, level: nat, i: nat, at: TreePosition)
    requires 2 * i + 1 < |current| && at == TreePosition(level + 1, i)
    ensures Placed(current, level) ==> AimedAt(Pairs(current, level + 1, |current| / 2)[i], at)
  {
    if Placed(current, level) {
      PairIsWellAimed(current, level, i);
    }
  }

  lemma {:induction false} AboveStaysPlaced(current: seq<Job>, level: nat)
    ensures Placed(current, level) ==> Placed(Above(current, level + 1), level + 1)
  {
    if Placed(current, level) {
      AboveIsPlaced(current, level);
    }
  }

  lemma {:induction false} LevelIsWellAimed(current: seq<Job>, level: nat, l: nat, i: nat, at: TreePosition)
    requires l < |Plan(current, level + 1)| && i < |Plan(current, level + 1)[l]|
    requires at == TreePosition(level + 1 + l, i)
    ensures Placed(current, level) ==> AimedAt(Plan(current, level + 1)[l][i], at)
    decreases l
  {
    PlanLevels(current, level + 1, l);
    if l == 0 {
      FirstLevelIsWellAimed(current, level, i, at);
    } else {
      AboveStaysPlaced(current, level);
      LevelIsWellAimed(Above(current, level + 1), level + 1, l - 1, i, at);
    }
  }

  /** Every job's left child is the left child of its position; its right child is the right
      child, or lies below it along left children; parents lead back from either. */
  lemma {:induction false} PlanIsWellAimed(current: seq<Job>, level: nat, l: nat, i: nat)
    requires Placed(current, level)
    requires l < |Plan(current, level + 1)| && i < |Plan(current, level + 1)[l]|
    ensures WellAimed(Plan(current, level + 1)[l][i])
    ensures Plan(current, level + 1)[l][i].position == TreePosition(level + 1 + l, i)
  {
    LevelIsWellAimed(current, level, l, i, TreePosition(level + 1 + l, i));
  }

  lemma {:induction false} LeavesArePlaced(n: nat)
    ensures Placed(Leaves(n), 0)
  {
  }

  /** The geometry of a plan for `n` leaves. */
  lemma {:induction false} JobsAreWellAimed(n: nat, l: nat, i: nat)
    requires l < |Plan(Leaves(n), 1)| && i < |Plan(Leaves(n), 1)[l]|
    ensures WellAimed(Plan(Leaves(n), 1)[l][i])
    ensures Plan(Leaves(n), 1)[l][i].position == TreePosition(l + 1, i)
  {
    LeavesArePlaced(n);
    PlanIsWellAimed(Leaves(n), 0, l, i);
  }

  // ---------- every node is consumed once ----------

  function Positions(jobs: seq<Job>): (ps: seq<TreePosition>)
    ensures |ps| == |jobs|
    ensures forall i {:trigger ps[i]} :: 0 <= i < |jobs| ==> ps[i] == jobs[i].position
  {
    if jobs == [] then [] else Positions(jobs[..|jobs| - 1]) + [jobs[|jobs| - 1].position]
  }

  function Children(jobs: seq<Job>): seq<TreePosition> {
    if jobs == [] then [] else Children(jobs[..|jobs| - 1]) + [jobs[|jobs| - 1].left, jobs[|jobs| - 1].right]
  }

  function AllPositions(plan: seq<seq<Job>>): seq<TreePosition> {
    if plan == [] then [] else Positions(plan[0]) + AllPositions(plan[1..])
  }

  function AllChildren(plan: seq<seq<Job>>): seq<TreePosition> {
    if plan == [] then [] else Children(plan[0]) + AllChildren(plan[1..])
  }

  lemma {:induction false} ChildrenSnoc(jobs: seq<Job>, job: Job)
    ensures Children(jobs + [job]) == Children(jobs) + [job.left, job.right]
  {
    assert (jobs + [job])[..|jobs|] == jobs;
  }

  lemma {:induction false} PairChildren(current: seq<Job>, level: nat, i: nat, m: nat)
    requires m == 2 * i && m + 1 < |current|
    ensures var job, ps := PairAt(current, level, i), Positions(current);
            ps[..m + 2] == ps[..m] + [job.left, job.right]
  {
  }

  /** The children of a level's jobs are the nodes below, in order. */
  lemma {:induction false} PairsConsumeInOrder(current: seq<Job>, level: nat, n: nat)
    requires 2 * n <= |current|
    ensures Children(Pairs(current, level, n)) == Positions(current)[..2 * n]
  {
    if n > 0 {
      PairsConsumeInOrder(current, level, n - 1);
      ChildrenSnoc(Pairs(current, level, n - 1), PairAt(current, level, n - 1));
      PairChildren(current, level, n - 1, 2 * (n - 1));
    }
  }

  lemma {:induction false} PositionsConcat(a: seq<Job>, b: seq<Job>)
    ensures Positions(a + b) == Positions(a) + Positions(b)
  {
  }

  /** One level's bookkeeping: its children and the carried node are the level below; the level
      above is its jobs and the carried node. */
  lemma {:induction false} LevelCount(current: seq<Job>, level: nat)
    ensures var pairs := Pairs(current, level, |current| / 2);
            multiset(Children(pairs)) + multiset(Positions(Above(current, level)))
            == multiset(Positions(current)) + multiset(Positions(pairs))
  {
    var n := |current| / 2;
    var pairs, carried, all := Pairs(current, level, n), Carried(current), Positions(current);
    PairsConsumeInOrder(current, level, n);
    PositionsConcat(pairs, carried);
    assert all == all[..2 * n] + Positions(carried);
  }

  type Bag = multiset<TreePosition>

  lemma {:induction false} Exchange(children: Bag, above: Bag, current: Bag, jobs: Bag, laterChildren: Bag, root: Bag,
      laterJobs: Bag)
    requires children + above == current + jobs && laterChildren + root == above + laterJobs
    ensures children + laterChildren + root == current + (jobs + laterJobs)
  {
    assert children + laterChildren + root == children + (laterChildren + root);
    assert current + (jobs + laterJobs) == (current + jobs) + laterJobs;
    assert children + (above + laterJobs) == (children + above) + laterJobs;
  }

  /** What the jobs consume, with the root, is what there is: the nodes and the jobs. */
  lemma {:induction false} ConsumedAreProduced(current: seq<Job>, level: nat)
    requires |current| > 0
    ensures var plan := Plan(current, level);
            multiset(AllChildren(plan)) + multiset{Root(current, level)}
            == multiset(Positions(current)) + multiset(AllPositions(plan))
    decreases |current|
  {
    if |current| == 1 {
      assert Positions(current) == [] + [current[0].position];
    } else {
      var above, pairs := Above(current, level), Pairs(current, level, |current| / 2);
      ConsumedAreProduced(above, level + 1);
      LevelCount(current, level);
      PlanUnfolds(current, level);
      var rest := Plan(above, level + 1);
      Exchange(
        multiset(Children(pairs)), multiset(Positions(above)), multiset(Positions(current)), multiset(Positions(pairs)),
        multiset(AllChildren(rest)), multiset{Root(current, level)}, multiset(AllPositions(rest)));
    }
  }

  lemma {:induction false} PlanUnfolds(current: seq<Job>, level: nat)
    requires |current| > 1
    ensures var pairs, rest := Pairs(current, level, |current| / 2), Plan(Above(current, level), level + 1);
            && multiset(AllChildren(Plan(current, level))) == multiset(Children(pairs)) + multiset(AllChildren(rest))
            && multiset(AllPositions(Plan(current, level))) == multiset(Positions(pairs)) + multiset(AllPositions(rest))
  {
    var plan, rest := Plan(current, level), Plan(Above(current, level), level + 1);
    assert plan[1..] == rest;
    assert AllChildren(plan) == Children(plan[0]) + AllChildren(rest);
    assert AllPositions(plan) == Positions(plan[0]) + AllPositions(rest);
  }

  lemma {:induction false} PositionSnoc(jobs: seq<Job>, job: Job)
    ensures Positions(jobs + [job]) == Positions(jobs) + [job.position]
  {
    assert (jobs + [job])[..|jobs|] == jobs;
  }

  lemma {:induction false} PairPositionCount(current: seq<Job>, level: nat, n: nat, p: TreePosition)
    requires 2 * n <= |current|
    ensures multiset(Positions(Pairs(current, level, n)))[p] == if p.level == level && p.index < n then 1 else 0
  {
    var jobs: seq<Job>, ps: seq<TreePosition> := [], [];
    for i := 0 to n
      invariant jobs == Pairs(current, level, i) && ps == Positions(jobs)
      invariant multiset(ps)[p] == if p.level == level && p.index < i then 1 else 0
    {
      var job := PairAt(current, level, i);
      PositionSnoc(jobs, job);
      jobs, ps := jobs + [job], ps + [job.position];
    }
  }

  ghost predicate FromLevel(ps: seq<TreePosition>, level: nat) {
    forall p <- ps :: p.level >= level
  }

  lemma {:induction false} FromLevelConcat(here: seq<TreePosition>, later: seq<TreePosition>, level: nat)
    requires FromLevel(here, level) && FromLevel(later, level + 1)
    ensures FromLevel(here + later, level)
  {
  }

  lemma {:induction false} JobIsOnLevel(current: seq<Job>, level: nat, l: nat, i: nat, at: nat)
    requires l < |Plan(current, level)| && i < |Plan(current, level)[l]| && at == level + l
    ensures Plan(current, level)[l][i].position.level == at
    decreases l
  {
    PlanLevels(current, level, l);
    if l > 0 {
      JobIsOnLevel(Above(current, level), level + 1, l - 1, i, at);
    }
  }

  lemma {:induction false} LevelIsOnLevel(current: seq<Job>, level: nat, l: nat, at: nat)
    requires l < |Plan(current, level)| && at == level + l
    ensures FromLevel(Positions(Plan(current, level)[l]), at)
  {
    var jobs := Plan(current, level)[l];
    forall p | p in Positions(jobs)
      ensures p.level >= at
    {
      var i :| 0 <= i < |jobs| && Positions(jobs)[i] == p;
      JobIsOnLevel(current, level, l, i, at);
    }
  }

  lemma {:induction false} LevelsConcat(plan: seq<seq<Job>>, level: nat)
    requires forall l {:trigger plan[l]} :: 0 <= l < |plan| ==> FromLevel(Positions(plan[l]), level + l)
    ensures FromLevel(AllPositions(plan), level)
    decreases |plan|
  {
    if plan != [] {
      var rest := plan[1..];
      forall l {:trigger rest[l]} | 0 <= l < |rest|
        ensures FromLevel(Positions(rest[l]), level + 1 + l)
      {
        assert rest[l] == plan[l + 1];
      }
      LevelsConcat(rest, level + 1);
      assert FromLevel(Positions(plan[0]), level + 0);
      FromLevelConcat(Positions(plan[0]), AllPositions(rest), level);
    }
  }

  /** The jobs of a plan are on its levels. */
  lemma {:induction false} JobLevels(current: seq<Job>, level: nat)
    ensures FromLevel(AllPositions(Plan(current, level)), level)
  {
    var plan := Plan(current, level);
    forall l {:trigger plan[l]} | 0 <= l < |plan|
      ensures FromLevel(Positions(plan[l]), level + l)
    {
      LevelIsOnLevel(current, level, l, level + l);
    }
    LevelsConcat(plan, level);
  }

  lemma {:induction false} NoJobBelow(current: seq<Job>, level: nat, p: TreePosition)
    requires p.level < level
    ensures multiset(AllPositions(Plan(current, level)))[p] == 0
  {
    JobLevels(current, level);
  }

  /** No two jobs have the same position. */
  lemma {:induction false} JobPositionsUnique(current: seq<Job>, level: nat, p: TreePosition)
    ensures multiset(AllPositions(Plan(current, level)))[p] <= 1
    decreases |current|
  {
    if |current| > 1 {
      PlanUnfolds(current, level);
      PairPositionCount(current, level, |current| / 2, p);
      if p.level == level {
        NoJobBelow(Above(current, level), level + 1, p);
      } else {
        JobPositionsUnique(Above(current, level), level + 1, p);
      }
    } else {
      assert AllPositions(Plan(current, level)) == [];
    }
  }

  lemma {:induction false} LeafPositionCount(n: nat, p: TreePosition)
    ensures multiset(Positions(Leaves(n)))[p] == if p.level == 0 && p.index < n then 1 else 0
  {
    var jobs: seq<Job>, ps: seq<TreePosition> := [], [];
    for i := 0 to n
      invariant jobs == Leaves(i) && ps == Positions(jobs)
      invariant multiset(ps)[p] == if p.level == 0 && p.index < i then 1 else 0
    {
      var job := Job(TreePosition(0, i), NULL_POSITION, NULL_POSITION);
      PositionSnoc(jobs, job);
      jobs, ps := jobs + [job], ps + [job.position];
    }
  }

  /** Every leaf and every job but the root is the child of exactly one job, once; nothing else is
      anyone's child. (That the parent is on a later level is part of its being well aimed.) */
  lemma {:induction false} EachConsumedOnce(n: nat, p: TreePosition)
    requires n > 0
    ensures var plan := Plan(Leaves(n), 1);
            var isNode := (p.level == 0 && p.index < n) || p in AllPositions(plan);
            multiset(AllChildren(plan))[p] == if isNode && p != Root(Leaves(n), 1) then 1 else 0
  {
    var plan := Plan(Leaves(n), 1);
    ConsumedAreProduced(Leaves(n), 1);
    JobPositionsUnique(Leaves(n), 1, p);
    if p.level == 0 {
      NoJobBelow(Leaves(n), 1, p);
    }
    LeafPositionCount(n, p);
    ConsumedAt(multiset(AllChildren(plan)), Root(Leaves(n), 1), multiset(Positions(Leaves(n))), AllPositions(plan), p);
  }

  lemma {:induction false} ConsumedAt(children: Bag, root: TreePosition, leaves: Bag, jobs: seq<TreePosition>,
      p: TreePosition)
    requires children + multiset{root} == leaves + multiset(jobs)
    ensures children[p] + (if p == root then 1 else 0) == leaves[p] + multiset(jobs)[p]
    ensures p in jobs <==> multiset(jobs)[p] > 0
  {
    assert (children + multiset{root})[p] == (leaves + multiset(jobs))[p];
  }

  // ---------- meaning ----------

  ghost predicate Associative<T(!new)>(op: (T, T) -> T) {
    forall a, b, c {:trigger op(op(a, b), c)} {:trigger op(a, op(b, c))} :: op(op(a, b), c) == op(a, op(b, c))
  }

  function Fold<T>(op: (T, T) -> T, values: seq<T>): T
    requires |values| > 0
  {
    if |values| == 1 then values[0] else op(Fold(op, values[..|values| - 1]), values[|values| - 1])
  }

  /** Running the jobs of a level in order, each on the values of its children. */
  ghost function RunLevel<T>(op: (T, T) -> T, jobs: seq<Job>, store: map<TreePosition, T>): map<TreePosition, T>
    decreases |jobs|
  {
    if jobs == [] then store
    else
      var job := jobs[|jobs| - 1];
      var before := RunLevel(op, jobs[..|jobs| - 1], store);
      if job.left in before && job.right in before
          then before[job.position := op(before[job.left], before[job.right])] else before
  }

  ghost function RunPlan<T>(op: (T, T) -> T, plan: seq<seq<Job>>, store: map<TreePosition, T>): map<TreePosition, T> {
    if plan == [] then store else RunPlan(op, plan[1..], RunLevel(op, plan[0], store))
  }

  /** The store holds the value of every node of a level, and nothing yet of the level above. */
  ghost predicate Holds<T>(store: map<TreePosition, T>, current: seq<Job>, level: nat, values: seq<T>) {
    && |values| == |current|
    && (forall i {:trigger current[i]} {:trigger values[i]} :: 0 <= i < |current| ==>
          && current[i].position.level < level
          && current[i].position in store && store[current[i].position] == values[i])
  }

  function PairValues<T>(op: (T, T) -> T, values: seq<T>, n: nat): (r: seq<T>)
    requires 2 * n <= |values|
    ensures |r| == n
    ensures forall i {:trigger r[i]} :: 0 <= i < n ==> r[i] == op(values[2 * i], values[2 * i + 1])
  {
    if n == 0 then [] else PairValues(op, values, n - 1) + [op(values[2 * (n - 1)], values[2 * (n - 1) + 1])]
  }

  function ValuesAbove<T>(op: (T, T) -> T, values: seq<T>): seq<T> {
    PairValues(op, values, |values| / 2) + if |values| % 2 == 1 then [values[|values| - 1]] else []
  }

  lemma {:induction false} RunPairs<T>(op: (T, T) -> T, current: seq<Job>, level: nat, store: map<TreePosition, T>,
      values: seq<T>, n: nat)
    requires Holds(store, current, level, values) && 2 * n <= |current|
    ensures var after := RunLevel(op, Pairs(current, level, n), store);
            && Holds(after, current, level, values)
            && (forall i {:trigger TreePosition(level, i)} :: 0 <= i < n ==>
                  TreePosition(level, i) in after
                      && after[TreePosition(level, i)] == op(values[2 * i], values[2 * i + 1]))
  {
    if n > 0 {
      RunPairs(op, current, level, store, values, n - 1);
      assert Pairs(current, level, n)[..n - 1] == Pairs(current, level, n - 1);
      var before := RunLevel(op, Pairs(current, level, n - 1), store);
      assert before[current[2 * (n - 1)].position] == values[2 * (n - 1)];
      assert before[current[2 * (n - 1) + 1].position] == values[2 * (n - 1) + 1];
    }
  }

  lemma {:induction false} RunOneLevel<T>(op: (T, T) -> T, current: seq<Job>, level: nat, store: map<TreePosition, T>,
      values: seq<T>)
    requires Holds(store, current, level, values)
    ensures Holds(RunLevel(op, Pairs(current, level, |current| / 2), store), Above(current, level), level + 1,
            ValuesAbove(op, values))
  {
    var n := |current| / 2;
    RunPairs(op, current, level, store, values, n);
    var after, above, vs := RunLevel(op, Pairs(current, level, n), store), Above(current, level),
        ValuesAbove(op, values);
    forall i | 0 <= i < |above|
      ensures above[i].position.level < level + 1 && above[i].position in after && after[above[i].position] == vs[i]
    {
      if i < n {
        assert above[i].position == TreePosition(level, i);
      } else {
        assert above[i] == current[|current| - 1];
      }
    }
  }

  lemma {:induction false} FoldSnoc<T>(op: (T, T) -> T, values: seq<T>, last: T)
    requires |values| > 0
    ensures Fold(op, values + [last]) == op(Fold(op, values), last)
  {
    assert (values + [last])[..|values|] == values;
  }

  /** Pairing neighbours does not change the fold of an associative operator. */
  lemma {:induction false} PairingKeepsFold<T(!new)>(op: (T, T) -> T, values: seq<T>, n: nat)
    requires Associative(op) && 0 < n && 2 * n <= |values|
    ensures Fold(op, PairValues(op, values, n)) == Fold(op, values[..2 * n])
  {
    var x, y, before := values[2 * n - 2], values[2 * n - 1], values[..2 * n - 2];
    assert values[..2 * n] == before + [x] + [y];
    if n == 1 {
      assert before + [x] == [x];
      FoldSnoc(op, [x], y);
    } else {
      PairingKeepsFold(op, values, n - 1);
      FoldSnoc(op, PairValues(op, values, n - 1), op(x, y));
      FoldSnoc(op, before, x);
      FoldSnoc(op, before + [x], y);
    }
  }

  lemma {:induction false} LevelKeepsFold<T(!new)>(op: (T, T) -> T, values: seq<T>)
    requires Associative(op) && |values| > 1
    ensures Fold(op, ValuesAbove(op, values)) == Fold(op, values)
  {
    var n := |values| / 2;
    PairingKeepsFold(op, values, n);
    var vs := ValuesAbove(op, values);
    if |values| % 2 == 1 {
      assert vs[..|vs| - 1] == PairValues(op, values, n);
      assert values[..|values| - 1] == values[..2 * n];
    } else {
      assert vs == PairValues(op, values, n);
      assert values == values[..2 * n];
    }
  }

  /** Running the plan leaves the fold of the leaves, in order, at the root. */
  lemma {:induction false} PlanComputesFold<T(!new)>(op: (T, T) -> T, current: seq<Job>, level: nat,
      store: map<TreePosition, T>, values: seq<T>)
    requires Associative(op) && |current| > 0 && Holds(store, current, level, values)
    ensures var after := RunPlan(op, Plan(current, level), store);
            Root(current, level) in after && after[Root(current, level)] == Fold(op, values)
    decreases |current|
  {
    if |current| > 1 {
      var plan := Plan(current, level);
      assert plan[1..] == Plan(Above(current, level), level + 1);
      RunOneLevel(op, current, level, store, values);
      LevelKeepsFold(op, values);
      PlanComputesFold(op, Above(current, level), level + 1, RunLevel(op, plan[0], store), ValuesAbove(op, values));
    } else {
      assert values == [values[0]];
    }
  }

  function Singletons(n: nat): (s: seq<seq<nat>>)
    ensures |s| == n
    ensures forall i {:trigger s[i]} :: 0 <= i < n ==> s[i] == [i]
  {
    if n == 0 then [] else Singletons(n - 1) + [[n - 1]]
  }

  function Iota(n: nat): seq<nat> {
    if n == 0 then [] else Iota(n - 1) + [n - 1]
  }

  lemma {:induction false} FoldOfSingletons(op: (seq<nat>, seq<nat>) -> seq<nat>, n: nat)
    requires n > 0 && forall a, b :: op(a, b) == a + b
    ensures Fold(op, Singletons(n)) == Iota(n)
  {
    if n > 1 {
      FoldOfSingletons(op, n - 1);
      assert Singletons(n)[..n - 1] == Singletons(n - 1);
    } else {
      assert Iota(1) == [] + [0] == [0];
    }
  }

  /** In particular the leaves under the root, read in order, are `0, 1, ..., n - 1`. */
  lemma {:induction false} LeavesInOrder(n: nat, op: (seq<nat>, seq<nat>) -> seq<nat>,
      store: map<TreePosition, seq<nat>>)
    requires n > 0 && forall a, b :: op(a, b) == a + b
    requires forall i {:trigger TreePosition(0, i)} :: 0 <= i < n ==>
            TreePosition(0, i) in store && store[TreePosition(0, i)] == [i]
    ensures var after := RunPlan(op, Plan(Leaves(n), 1), store);
            Root(Leaves(n), 1) in after && after[Root(Leaves(n), 1)] == Iota(n)
  {
    forall a, b, c
      ensures op(op(a, b), c) == op(a, op(b, c))
    {
      assert (a + b) + c == a + (b + c);
    }
    forall i | 0 <= i < n
      ensures Leaves(n)[i].position in store && store[Leaves(n)[i].position] == Singletons(n)[i]
    {
      assert Leaves(n)[i].position == TreePosition(0, i);
    }
    PlanComputesFold(op, Leaves(n), 1, store, Singletons(n));
    FoldOfSingletons(op, n);
  }

  // ---------- the loops of the source ----------

  method GenLeavesBinaryTreePlanner(n: nat) returns (output: seq<Job>)
    ensures output == Leaves(n)
    ensures |output| == n
    ensures forall i {:trigger output[i]} :: 0 <= i < n ==>
              output[i] == Job(TreePosition(0, i), TreePosition(0xffff, 0), TreePosition(0xffff, 0))
  {
    output := [];
    for i := 0 to n
      invariant output == Leaves(i)
    {
      output := output + [Job(TreePosition(0, i), NULL_POSITION, NULL_POSITION)];
    }
  }

  method PairLevel(current: seq<Job>, levelIndex: nat) returns (nextLevel: seq<Job>)
    ensures nextLevel == Pairs(current, levelIndex, |current| / 2)
  {
    nextLevel := [];
    for i := 0 to |current| / 2
      invariant nextLevel == Pairs(current, levelIndex, i)
    {
      nextLevel := nextLevel + [Job(TreePosition(levelIndex, i), current[i * 2].position, current[i * 2 + 1].position)];
    }
  }

  method NewBinaryTreePlanner(numLeaves: nat) returns (planner: BinaryTreePlanner)
    ensures planner == BinaryTreePlanner(Plan(Leaves(numLeaves), 1), numLeaves)
  {
    var current := GenLeavesBinaryTreePlanner(numLeaves);
    var levelIndex, levels := 1, [];
    while |current| > 1
      invariant levels + Plan(current, levelIndex) == Plan(Leaves(numLeaves), 1)
      decreases |current|
    {
      var nextLevel := PairLevel(current, levelIndex);
      ghost var rest := Plan(Above(current, levelIndex), levelIndex + 1);
      assert Plan(current, levelIndex) == [nextLevel] + rest;
      assert levels + ([nextLevel] + rest) == levels + [nextLevel] + rest;
      levels := levels + [nextLevel];
      var nCurrent := nextLevel;
      if |current| % 2 == 1 {
        nCurrent := nCurrent + [current[|current| - 1]];
      }
      assert nCurrent == Above(current, levelIndex);
      current := nCurrent;
      levelIndex := levelIndex + 1;
    }
    return BinaryTreePlanner(levels, numLeaves);
  }
}
