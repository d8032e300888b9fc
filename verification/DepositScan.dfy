/** The scan of a block for outputs that pay one of the bridge's custody scripts. */
module DepositScan {
  import opened Wrappers
  import opened MachineInts
  import opened MerklePaths
  import opened TransactionTree

  datatype TxOutput = TxOutput(value: u64, script: Bytes)
  datatype Transaction = Transaction(outputs: seq<TxOutput>, rest: Bytes)
  datatype Block = Block(merkleRoot: Digest, transactions: seq<Transaction>)

  /** An output that pays `scripts[keyIndex]`. */
  datatype Deposit = Deposit(outputIndex: nat, keyIndex: nat)
  datatype TxWitness = TxWitness(index: nat, siblings: seq<Digest>, deposits: seq<Deposit>, transaction: Transaction)

  // ---------- specification ----------

  /** The first of the expected scripts that equals `script`, looking from position `from`. */
  function KeyOf(scripts: seq<Bytes>, script: Bytes, from: nat := 0): (key: Option<nat>)
    requires from <= |scripts|
    ensures key == None <==> script !in scripts[from..]
    ensures key.Some? ==>
              && from <= key.value < |scripts| && scripts[key.value] == script
              && forall j :: from <= j < key.value ==> scripts[j] != script
    decreases |scripts| - from
  {
    if from == |scripts| then None
    else if scripts[from] == script then Some(from)
    else
      assert scripts[from..] == [scripts[from]] + scripts[from + 1..];
      KeyOf(scripts, script, from + 1)
  }

  /** The deposits among the first `n` outputs of a transaction. */
  function DepositsIn(outputs: seq<TxOutput>, scripts: seq<Bytes>, n: nat): seq<Deposit>
    requires n <= |outputs|
  {
    if n == 0 then []
    else
      var key := KeyOf(scripts, outputs[n - 1].script);
      DepositsIn(outputs, scripts, n - 1) + if key.Some? then [Deposit(n - 1, key.value)] else []
  }

  function DepositsOf(tx: Transaction, scripts: seq<Bytes>): seq<Deposit> {
    DepositsIn(tx.outputs, scripts, |tx.outputs|)
  }

  function Count(txs: seq<Transaction>, scripts: seq<Bytes>, n: nat): nat
    requires n <= |txs|
  {
    if n == 0 then 0 else Count(txs, scripts, n - 1) + |DepositsOf(txs[n - 1], scripts)|
  }

  function TxIds(txid: Transaction -> Digest, txs: seq<Transaction>): (ids: seq<Digest>)
    ensures |ids| == |txs|
    ensures forall i {:trigger ids[i]} :: 0 <= i < |txs| ==> ids[i] == txid(txs[i])
  {
    if txs == [] then [] else TxIds(txid, txs[..|txs| - 1]) + [txid(txs[|txs| - 1])]
  }

  /** The witness of transaction `t`, if it holds a deposit. */
  function WitnessAt(h: Combiner, ids: seq<Digest>, txs: seq<Transaction>, scripts: seq<Bytes>, t: nat): seq<TxWitness>
    requires t < |txs| == |ids|
  {
    var deposits := DepositsOf(txs[t], scripts);
    if deposits == [] then [] else [TxWitness(t, TxPath(h, ids, t, Depth(|ids|)), deposits, txs[t])]
  }

  function Witnesses(h: Combiner, ids: seq<Digest>, txs: seq<Transaction>, scripts: seq<Bytes>, n: nat): seq<TxWitness>
    requires n <= |txs| == |ids|
  {
    if n == 0 then [] else Witnesses(h, ids, txs, scripts, n - 1) + WitnessAt(h, ids, txs, scripts, n - 1)
  }

  ghost predicate DepositFits(d: Deposit) {
    d.outputIndex <= U32_MAX && d.keyIndex <= U32_MAX
  }

  ghost predicate DepositsFit(deposits: seq<Deposit>) {
    forall d <- deposits :: DepositFits(d)
  }

  ghost predicate TxFits(txs: seq<Transaction>, scripts: seq<Bytes>, t: nat)
    requires t < |txs|
  {
    DepositsOf(txs[t], scripts) != [] ==> t <= U32_MAX && DepositsFit(DepositsOf(txs[t], scripts))
  }

  /** All the numbers the witness stores are 32-bit. */
  ghost predicate FitsU32(txs: seq<Transaction>, scripts: seq<Bytes>) {
    && Count(txs, scripts, |txs|) <= U32_MAX
    && forall t :: 0 <= t < |txs| ==> TxFits(txs, scripts, t)
  }

  // ---------- properties ----------

  /** The deposits of a transaction are its matching outputs: each once, in order, with the
      first key that matches. */
  lemma {:induction false} DepositsAreMatchingOutputs(outputs: seq<TxOutput>, scripts: seq<Bytes>, n: nat)
    requires n <= |outputs|
    ensures var ds := DepositsIn(outputs, scripts, n);
            && (forall i, j {:trigger ds[i], ds[j]} :: 0 <= i < j < |ds| ==> ds[i].outputIndex < ds[j].outputIndex)
            && (forall d :: d in ds <==>
                  && d.outputIndex < n && d.keyIndex < |scripts|
                  && scripts[d.keyIndex] == outputs[d.outputIndex].script
                  && outputs[d.outputIndex].script !in scripts[..d.keyIndex])
  {
    if n > 0 {
      DepositsAreMatchingOutputs(outputs, scripts, n - 1);
      var before, ds := DepositsIn(outputs, scripts, n - 1), DepositsIn(outputs, scripts, n);
      var script := outputs[n - 1].script;
      var key := KeyOf(scripts, script);
      assert scripts[0..] == scripts;
      assert forall d :: d in ds <==> d in before || (key.Some? && d == Deposit(n - 1, key.value));
      forall d: Deposit | d.outputIndex == n - 1 && d.keyIndex < |scripts|
        ensures (scripts[d.keyIndex] == script && script !in scripts[..d.keyIndex]) <==> key == Some(d.keyIndex)
      {
        FirstKey(scripts, script, d.keyIndex);
      }
    }
  }

  lemma {:induction false} FirstKey(scripts: seq<Bytes>, script: Bytes, k: nat)
    requires k < |scripts|
    ensures (scripts[k] == script && script !in scripts[..k]) <==> KeyOf(scripts, script) == Some(k)
  {
    var key := KeyOf(scripts, script);
    assert scripts[0..] == scripts;
    if key.Some? && k > key.value {
      assert scripts[..k][key.value] == script;
    }
  }

  ghost predicate VerifiedWitness(h: Combiner, txid: Transaction -> Digest, txs: seq<Transaction>,
      scripts: seq<Bytes>, root: Digest, w: TxWitness)
  {
    && w.index < |txs| && w.transaction == txs[w.index]
    && w.deposits == DepositsOf(w.transaction, scripts) != []
    && w.index < Pow2(|w.siblings|)
    && FoldPath(h, txid(w.transaction), w.siblings, w.index) == root
  }

  /** Each witness stands for a transaction with deposits and verifies against the root of the
      block. */
  lemma {:induction false} WitnessesVerify(h: Combiner, txid: Transaction -> Digest, txs: seq<Transaction>,
      scripts: seq<Bytes>, n: nat, i: nat)
    requires n <= |txs| && txs != []
    requires i < |Witnesses(h, TxIds(txid, txs), txs, scripts, n)|
    ensures var ids := TxIds(txid, txs);
            var w := Witnesses(h, ids, txs, scripts, n)[i];
            w.index < n && VerifiedWitness(h, txid, txs, scripts, TxRoot(h, ids), w)
  {
    var ids := TxIds(txid, txs);
    var before := Witnesses(h, ids, txs, scripts, n - 1);
    if i < |before| {
      WitnessesVerify(h, txid, txs, scripts, n - 1, i);
    } else {
      TxPathReachesRoot(h, ids, n - 1);
    }
  }

  /** The witnesses come in block order, so no transaction has two. */
  lemma {:induction false} WitnessesInOrder(h: Combiner, txid: Transaction -> Digest, txs: seq<Transaction>,
      scripts: seq<Bytes>, n: nat, i: nat, j: nat)
    requires n <= |txs| && txs != []
    requires i < j < |Witnesses(h, TxIds(txid, txs), txs, scripts, n)|
    ensures var ws := Witnesses(h, TxIds(txid, txs), txs, scripts, n);
            ws[i].index < ws[j].index
  {
    var before := Witnesses(h, TxIds(txid, txs), txs, scripts, n - 1);
    if j < |before| {
      WitnessesInOrder(h, txid, txs, scripts, n - 1, i, j);
    } else {
      WitnessesVerify(h, txid, txs, scripts, n - 1, i);
    }
  }

  /** No transaction with deposits is missed. */
  lemma {:induction false} WitnessesComplete(h: Combiner, ids: seq<Digest>, txs: seq<Transaction>,
      scripts: seq<Bytes>, n: nat, t: nat)
    returns (i: nat)
    requires t < n <= |txs| == |ids| && DepositsOf(txs[t], scripts) != []
    ensures var ws := Witnesses(h, ids, txs, scripts, n);
            i < |ws| && ws[i].index == t
  {
    var before := Witnesses(h, ids, txs, scripts, n - 1);
    if t == n - 1 {
      i := |before|;
    } else {
      i := WitnessesComplete(h, ids, txs, scripts, n - 1, t);
      assert Witnesses(h, ids, txs, scripts, n)[i] == before[i];
    }
  }

  function TotalDeposits(ws: seq<TxWitness>, n: nat): nat
    requires n <= |ws|
  {
    if n == 0 then 0 else TotalDeposits(ws, n - 1) + |ws[n - 1].deposits|
  }

  lemma {:induction false} TotalOfPrefix(ws: seq<TxWitness>, rest: seq<TxWitness>, n: nat)
    requires n <= |ws|
    ensures TotalDeposits(ws + rest, n) == TotalDeposits(ws, n)
  {
    if n > 0 {
      TotalOfPrefix(ws, rest, n - 1);
    }
  }

  lemma {:induction false} TotalOfBoth(before: seq<TxWitness>, last: seq<TxWitness>)
    requires |last| <= 1
    ensures TotalDeposits(before + last, |before + last|)
            == TotalDeposits(before, |before|) + if last == [] then 0 else |last[0].deposits|
  {
    TotalOfPrefix(before, last, |before|);
  }

  lemma {:induction false} WitnessDeposits(h: Combiner, ids: seq<Digest>, txs: seq<Transaction>, scripts: seq<Bytes>,
      t: nat)
    requires t < |txs| == |ids|
    ensures var last := WitnessAt(h, ids, txs, scripts, t);
            |last| <= 1 && |DepositsOf(txs[t], scripts)| == if last == [] then 0 else |last[0].deposits|
  {
  }

  /** The deposits of the witnesses add up to the count returned beside them. */
  lemma {:induction false} CountIsTotal(h: Combiner, ids: seq<Digest>, txs: seq<Transaction>, scripts: seq<Bytes>,
      n: nat)
    requires n <= |txs| == |ids|
    ensures var ws := Witnesses(h, ids, txs, scripts, n);
            TotalDeposits(ws, |ws|) == Count(txs, scripts, n)
  {
    var ws: seq<TxWitness> := [];
    for t := 0 to n
      invariant ws == Witnesses(h, ids, txs, scripts, t) && TotalDeposits(ws, |ws|) == Count(txs, scripts, t)
    {
      var last := WitnessAt(h, ids, txs, scripts, t);
      WitnessDeposits(h, ids, txs, scripts, t);
      TotalOfBoth(ws, last);
      ws := ws + last;
    }
  }

  lemma {:induction false} CountMonotone(txs: seq<Transaction>, scripts: seq<Bytes>, a: nat, b: nat)
    requires a <= b <= |txs|
    ensures Count(txs, scripts, a) <= Count(txs, scripts, b)
    decreases b
  {
    if a < b {
      CountMonotone(txs, scripts, a, b - 1);
    }
  }

  lemma {:induction false} DepositsGrow(outputs: seq<TxOutput>, scripts: seq<Bytes>, a: nat, b: nat)
    requires a <= b <= |outputs|
    ensures DepositsIn(outputs, scripts, a) <= DepositsIn(outputs, scripts, b)
    decreases b
  {
    if a < b {
      DepositsGrow(outputs, scripts, a, b - 1);
    }
  }

  // ---------- the loops of the source ----------

  /** What each overflow says of the block. */
  ghost predicate Overflows(txs: seq<Transaction>, scripts: seq<Bytes>, error: ScanError) {
    match error
    case OutputIndexOverflow => exists tx <- txs :: |tx.outputs| > U32_MAX + 1
    case KeyIndexOverflow => |scripts| > U32_MAX + 1
    case CountOverflow => Count(txs, scripts, |txs|) > U32_MAX
    case TransactionIndexOverflow => |txs| > U32_MAX + 1
    case _ => false
  }

  /** The inner loop: the deposits of one transaction, with the running count. */
  method ScanOutputs(outputs: seq<TxOutput>, scripts: seq<Bytes>, before: u32)
    returns (r: Result<(seq<Deposit>, u32), ScanError>)
    ensures r.Ok? <==> before + |DepositsIn(outputs, scripts, |outputs|)| <= U32_MAX
                       && DepositsFit(DepositsIn(outputs, scripts, |outputs|))
    ensures r.Ok? ==> r.value.0 == DepositsIn(outputs, scripts, |outputs|) && r.value.1 == before + |r.value.0|
    ensures r.Err? ==>
              match r.error
              case OutputIndexOverflow => |outputs| > U32_MAX + 1
              case KeyIndexOverflow => |scripts| > U32_MAX + 1
              case CountOverflow => before + |DepositsIn(outputs, scripts, |outputs|)| > U32_MAX
              case _ => false
  {
    var deposits, total: u32 := [], before;
    for o := 0 to |outputs|
      invariant deposits == DepositsIn(outputs, scripts, o)
      invariant DepositsFit(deposits)
      invariant total == before + |deposits|
    {
      var key := KeyOf(scripts, outputs[o].script);
      if key.Some? {
        var deposit := Deposit(o, key.value);
        DepositsGrow(outputs, scripts, o + 1, |outputs|);
        assert DepositsIn(outputs, scripts, o + 1) == deposits + [deposit];
        assert deposit == DepositsIn(outputs, scripts, o + 1)[|deposits|]
            == DepositsIn(outputs, scripts, |outputs|)[|deposits|];
        if o > U32_MAX {
          assert !DepositFits(deposit);
          return Err(OutputIndexOverflow);
        }
        if key.value > U32_MAX {
          assert !DepositFits(deposit);
          return Err(KeyIndexOverflow);
        }
        deposits := deposits + [deposit];
        if total == U32_MAX {
          return Err(CountOverflow);
        }
        total := total + 1;
      }
    }
    return Ok((deposits, total));
  }

  /** One round of the outer loop. The transaction index is in range, so its path exists. */
  method ScanTransaction(h: Combiner, ids: seq<Digest>, txs: seq<Transaction>, scripts: seq<Bytes>, t: nat, before: u32)
    returns (r: Result<(seq<TxWitness>, u32), ScanError>)
    requires t < |txs| == |ids|
    ensures r.Ok? <==> before + |DepositsOf(txs[t], scripts)| <= U32_MAX && TxFits(txs, scripts, t)
    ensures r.Ok? ==> r.value == (WitnessAt(h, ids, txs, scripts, t), before + |DepositsOf(txs[t], scripts)|)
    ensures r.Err? && before == Count(txs, scripts, t) ==> Overflows(txs, scripts, r.error)
  {
    var scanned := ScanOutputs(txs[t].outputs, scripts, before);
    CountMonotone(txs, scripts, t + 1, |txs|);
    if scanned.Err? {
      assert txs[t] in txs;
      return Err(scanned.error);
    }
    var (deposits, total) := scanned.value;
    if deposits == [] {
      return Ok(([], total));
    }
    if t > U32_MAX {
      return Err(TransactionIndexOverflow);
    }
    var path := BitcoinMerkleSiblings(h, ids, t);
    return Ok(([TxWitness(t, path.value, deposits, txs[t])], total));
  }

  lemma OverflowIsFinal(txs: seq<Transaction>, scripts: seq<Bytes>, t: nat)
    requires t < |txs|
    requires !TxFits(txs, scripts, t) || Count(txs, scripts, t + 1) > U32_MAX
    ensures !FitsU32(txs, scripts)
  {
    CountMonotone(txs, scripts, t + 1, |txs|);
  }

  /** The outer loop, once the ids are known to be those of the block. */
  method ScanTransactions(h: Combiner, ids: seq<Digest>, txs: seq<Transaction>, scripts: seq<Bytes>)
    returns (r: Result<(u32, seq<TxWitness>), ScanError>)
    requires |txs| == |ids|
    ensures r.Ok? <==> FitsU32(txs, scripts)
    ensures r.Ok? ==> r.value == (Count(txs, scripts, |txs|), Witnesses(h, ids, txs, scripts, |txs|))
    ensures r.Err? ==> Overflows(txs, scripts, r.error)
  {
    var total: u32, witnesses := 0, [];
    for t := 0 to |txs|
      invariant total == Count(txs, scripts, t)
      invariant witnesses == Witnesses(h, ids, txs, scripts, t)
      invariant forall u :: 0 <= u < t ==> TxFits(txs, scripts, u)
    {
      var scanned := ScanTransaction(h, ids, txs, scripts, t, total);
      if scanned.Err? {
        OverflowIsFinal(txs, scripts, t);
        return Err(scanned.error);
      }
      witnesses, total := witnesses + scanned.value.0, scanned.value.1;
    }
    return Ok((total, witnesses));
  }

  method ScanManagerCustodyDeposits(h: Combiner, txid: Transaction -> Digest, block: Block, scripts: seq<Bytes>)
    returns (r: Result<(u32, seq<TxWitness>), ScanError>)
    ensures block.transactions == [] ==> r == Err(EmptyBlock)
    ensures block.transactions != [] ==>
              var ids := TxIds(txid, block.transactions);
              if TxRoot(h, ids) != block.merkleRoot then r == Err(RootMismatch)
              else
                && (r.Ok? <==> FitsU32(block.transactions, scripts))
                && (r.Ok? ==> r.value == (Count(block.transactions, scripts, |block.transactions|),
                                          Witnesses(h, ids, block.transactions, scripts, |block.transactions|)))
                && (r.Err? ==> Overflows(block.transactions, scripts, r.error))
  {
    var txs := block.transactions;
    if txs == [] {
      return Err(EmptyBlock);
    }
    var ids := TxIds(txid, txs);
    var root := BitcoinMerkleRoot(h, ids);
    if root.value != block.merkleRoot {
      return Err(RootMismatch);
    }
    r := ScanTransactions(h, ids, txs, scripts);
  }
}
