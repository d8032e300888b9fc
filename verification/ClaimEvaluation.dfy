/** The evaluation of a block's claim witness: one mint, one TXO index and one leaf for each deposit
    that the scan has found. Fees, TXO indices and leaf hashes are arbitrary functions. */
module ClaimEvaluation {
  import opened Wrappers
  import opened MachineInts
  import opened MerklePaths
  import opened TransactionTree
  import opened DepositScan
  import opened Checkpoints

  datatype EvaluationError =
    | TransactionRejected | KeyOutOfBounds | OutputOutOfBounds | FeeUndefined | TxoIndexUndefined | CountMismatch

  /** `recipients[k]` is who the outputs that pay script `k` are for; `net` is what is left of a
      deposit after the fee. */
  datatype Evaluator = Evaluator(
    recipients: seq<Bytes>,
    txid: Transaction -> Digest, combine: Combiner,
    net: u64 -> Option<nat>, txoIndex: (nat, nat) -> Option<nat>, leaf: (Digest, nat, Bytes, nat) -> Digest)

  datatype Claim = Claim(mint: Mint, txoIndex: nat, leaf: Digest)

  /** The three lists that the evaluation builds side by side. */
  datatype ClaimLists = ClaimLists(mints: seq<Mint>, txoIndices: seq<nat>, leaves: seq<Digest>)

  function ListsOf(claims: seq<Claim>): (lists: ClaimLists)
    ensures |lists.mints| == |lists.txoIndices| == |lists.leaves| == |claims|
    ensures forall i {:trigger claims[i]} :: 0 <= i < |claims| ==>
              Claim(lists.mints[i], lists.txoIndices[i], lists.leaves[i]) == claims[i]
  {
    if claims == [] then ClaimLists([], [], [])
    else
      var lists, last := ListsOf(claims[..|claims| - 1]), claims[|claims| - 1];
      ClaimLists(lists.mints + [last.mint], lists.txoIndices + [last.txoIndex], lists.leaves + [last.leaf])
  }

  // ---------- specification of the loops ----------

  /** The claim of one output that pays a script. */
  function ClaimAt(ev: Evaluator, tx: Transaction, index: nat, output: nat, key: nat): Result<Claim, EvaluationError> {
    if key >= |ev.recipients| then Err(KeyOutOfBounds)
    else if output >= |tx.outputs| then Err(OutputOutOfBounds)
    else
      var net := ev.net(tx.outputs[output].value);
      if net == None then Err(FeeUndefined)
      else
        var txo := ev.txoIndex(index, output);
        if txo == None then Err(TxoIndexUndefined)
        else
          var recipient := ev.recipients[key];
          Ok(Claim(Mint(recipient, net.value), txo.value, ev.leaf(ev.txid(tx), output, recipient, net.value)))
  }

  function ClaimOf(ev: Evaluator, w: TxWitness, d: Deposit): Result<Claim, EvaluationError> {
    ClaimAt(ev, w.transaction, w.index, d.outputIndex, d.keyIndex)
  }

  /** The claims of the first `n` deposits of a transaction. */
  function ClaimsOf(ev: Evaluator, w: TxWitness, n: nat): Result<seq<Claim>, EvaluationError>
    requires n <= |w.deposits|
  {
    if n == 0 then Ok([])
    else
      var before := ClaimsOf(ev, w, n - 1);
      if before.Err? then before
      else
        var claim := ClaimOf(ev, w, w.deposits[n - 1]);
        if claim.Err? then Err(claim.error) else Ok(before.value + [claim.value])
  }

  predicate Verifies(ev: Evaluator, root: Digest, w: TxWitness) {
    FoldPath(ev.combine, ev.txid(w.transaction), w.siblings, w.index) == root
  }

  /** The claims of the first `n` transactions of a witness. */
  function ClaimsIn(ev: Evaluator, root: Digest, ws: seq<TxWitness>, n: nat): Result<seq<Claim>, EvaluationError>
    requires n <= |ws|
  {
    if n == 0 then Ok([])
    else
      var before := ClaimsIn(ev, root, ws, n - 1);
      if before.Err? then before
      else if !Verifies(ev, root, ws[n - 1]) then Err(TransactionRejected)
      else
        var claims := ClaimsOf(ev, ws[n - 1], |ws[n - 1].deposits|);
        if claims.Err? then claims else Ok(before.value + claims.value)
  }

  function AllClaims(ev: Evaluator, root: Digest, ws: seq<TxWitness>): Result<seq<Claim>, EvaluationError> {
    ClaimsIn(ev, root, ws, |ws|)
  }

  function Evaluate(ev: Evaluator, root: Digest, ws: seq<TxWitness>, total: nat): Result<seq<Claim>, EvaluationError> {
    var claims := AllClaims(ev, root, ws);
    if claims.Err? then claims else if |claims.value| != total then Err(CountMismatch) else claims
  }

  // ---------- what it claims ----------

  /** The witness names a recipient and an output for the deposit, whose fee and index are defined. */
  ghost predicate DepositDefined(ev: Evaluator, w: TxWitness, d: Deposit) {
    && d.keyIndex < |ev.recipients| && d.outputIndex < |w.transaction.outputs|
    && ev.net(w.transaction.outputs[d.outputIndex].value).Some? && ev.txoIndex(w.index, d.outputIndex).Some?
  }

  /** The claim of a deposit: what is left of the output after the fee, minted for the recipient that
      the deposit names; the index of the output; and the leaf that binds these to the transaction. */
  ghost predicate ClaimsDeposit(ev: Evaluator, w: TxWitness, d: Deposit, claim: Claim)
    requires DepositDefined(ev, w, d)
  {
    var recipient, net := ev.recipients[d.keyIndex], ev.net(w.transaction.outputs[d.outputIndex].value).value;
    && claim.mint.recipient == recipient && claim.mint.amount == net
    && claim.txoIndex == ev.txoIndex(w.index, d.outputIndex).value
    && claim.leaf == ev.leaf(ev.txid(w.transaction), d.outputIndex, recipient, net)
  }

  /** What keeps a deposit from being defined. */
  ghost predicate DepositLacks(ev: Evaluator, w: TxWitness, d: Deposit, error: EvaluationError) {
    && !DepositDefined(ev, w, d)
    && error == if d.keyIndex >= |ev.recipients| then KeyOutOfBounds
                else if d.outputIndex >= |w.transaction.outputs| then OutputOutOfBounds
                else if ev.net(w.transaction.outputs[d.outputIndex].value) == None then FeeUndefined
                else TxoIndexUndefined
  }

  /** What keeps a transaction from being claimed: its path, or its first deposit that lacks
      something. */
  ghost predicate WitnessLacks(ev: Evaluator, root: Digest, w: TxWitness, error: EvaluationError) {
    if FoldPath(ev.combine, ev.txid(w.transaction), w.siblings, w.index) != root then error == TransactionRejected
    else exists j :: 0 <= j < |w.deposits| && DepositLacks(ev, w, w.deposits[j], error)
                     && forall d <- w.deposits[..j] :: DepositDefined(ev, w, d)
  }

  lemma {:induction false} FirstDepositLacks(ev: Evaluator, w: TxWitness, n: nat) returns (j: nat)
    requires n <= |w.deposits| && ClaimsOf(ev, w, n).Err?
    ensures j < n && DepositLacks(ev, w, w.deposits[j], ClaimsOf(ev, w, n).error)
    ensures forall d <- w.deposits[..j] :: DepositDefined(ev, w, d)
  {
    if ClaimsOf(ev, w, n - 1).Err? {
      j := FirstDepositLacks(ev, w, n - 1);
    } else {
      j := n - 1;
      ClaimsOfMeaning(ev, w, j);
    }
  }

  lemma {:induction false} FirstWitnessLacks(ev: Evaluator, root: Digest, ws: seq<TxWitness>, n: nat) returns (i: nat)
    requires n <= |ws| && ClaimsIn(ev, root, ws, n).Err?
    ensures i < n && WitnessLacks(ev, root, ws[i], ClaimsIn(ev, root, ws, n).error)
    ensures forall w <- ws[..i] :: WitnessDefined(ev, root, w)
  {
    if ClaimsIn(ev, root, ws, n - 1).Err? {
      i := FirstWitnessLacks(ev, root, ws, n - 1);
    } else {
      i := n - 1;
      ClaimsInCondition(ev, root, ws, i);
      if Verifies(ev, root, ws[i]) {
        var j := FirstDepositLacks(ev, ws[i], |ws[i].deposits|);
      }
    }
  }

  lemma {:induction false} ClaimsOfMeaning(ev: Evaluator, w: TxWitness, n: nat)
    requires n <= |w.deposits|
    ensures ClaimsOf(ev, w, n).Ok? <==> forall d <- w.deposits[..n] :: DepositDefined(ev, w, d)
    ensures ClaimsOf(ev, w, n).Ok? ==>
              && |ClaimsOf(ev, w, n).value| == n
              && forall j {:trigger w.deposits[j]} :: 0 <= j < n ==>
                   && DepositDefined(ev, w, w.deposits[j])
                   && ClaimsDeposit(ev, w, w.deposits[j], ClaimsOf(ev, w, n).value[j])
  {
    if n > 0 {
      ClaimsOfMeaning(ev, w, n - 1);
      assert w.deposits[..n] == w.deposits[..n - 1] + [w.deposits[n - 1]];
      assert w.deposits[n - 1] in w.deposits[..n];
    }
  }

  /** The transaction is in the block, and all its deposits are defined. */
  ghost predicate WitnessDefined(ev: Evaluator, root: Digest, w: TxWitness) {
    && FoldPath(ev.combine, ev.txid(w.transaction), w.siblings, w.index) == root
    && forall d <- w.deposits :: DepositDefined(ev, w, d)
  }

  /** The claims of the first `n` transactions, one for each deposit, in order. */
  ghost predicate ClaimsWitnesses(ev: Evaluator, ws: seq<TxWitness>, n: nat, claims: seq<Claim>)
    requires n <= |ws|
  {
    && |claims| == TotalDeposits(ws, n)
    && forall i {:trigger ClaimsWitness(ev, ws, i, claims)} :: 0 <= i < n ==> ClaimsWitness(ev, ws, i, claims)
  }

  /** Transaction `i` has its claims right after those of the earlier ones. */
  ghost predicate ClaimsWitness(ev: Evaluator, ws: seq<TxWitness>, i: nat, claims: seq<Claim>)
    requires i < |ws|
  {
    ClaimsFrom(ev, ws[i], claims, TotalDeposits(ws, i))
  }

  ghost predicate ClaimsFrom(ev: Evaluator, w: TxWitness, claims: seq<Claim>, at: nat) {
    at + |w.deposits| <= |claims| && ClaimsTransaction(ev, w, claims, at)
  }

  /** The claims from `at` on are those of the deposits of a transaction. */
  ghost predicate ClaimsTransaction(ev: Evaluator, w: TxWitness, claims: seq<Claim>, at: nat)
    requires at + |w.deposits| <= |claims|
  {
    forall j {:trigger w.deposits[j]} :: 0 <= j < |w.deposits| ==>
      DepositDefined(ev, w, w.deposits[j]) && ClaimsDeposit(ev, w, w.deposits[j], claims[at + j])
  }

  lemma {:induction false} TransactionMeaning(ev: Evaluator, w: TxWitness)
    ensures var r := ClaimsOf(ev, w, |w.deposits|);
            && (r.Ok? <==> forall d <- w.deposits :: DepositDefined(ev, w, d))
            && (r.Ok? ==> |r.value| == |w.deposits| && ClaimsTransaction(ev, w, r.value, 0))
  {
    ClaimsOfMeaning(ev, w, |w.deposits|);
    assert w.deposits[..|w.deposits|] == w.deposits;
  }

  lemma {:induction false} ClaimsInCondition(ev: Evaluator, root: Digest, ws: seq<TxWitness>, n: nat)
    requires n <= |ws|
    ensures ClaimsIn(ev, root, ws, n).Ok? <==> forall w <- ws[..n] :: WitnessDefined(ev, root, w)
  {
    if n > 0 {
      ClaimsInCondition(ev, root, ws, n - 1);
      TransactionMeaning(ev, ws[n - 1]);
      assert ws[..n] == ws[..n - 1] + [ws[n - 1]];
      assert ws[n - 1] in ws[..n];
    }
  }

  lemma {:induction false} InParts(ev: Evaluator, root: Digest, ws: seq<TxWitness>, i: nat, next: nat)
    requires i == next - 1 && next <= |ws| && ClaimsIn(ev, root, ws, next).Ok?
    ensures var before, more := ClaimsIn(ev, root, ws, i), ClaimsOf(ev, ws[i], |ws[i].deposits|);
            before.Ok? && more.Ok? && ClaimsIn(ev, root, ws, next).value == before.value + more.value
  {
    ClaimsStep(ev, root, ws, i, next);
  }

  lemma {:induction false} ClaimsInMeaning(ev: Evaluator, root: Digest, ws: seq<TxWitness>, n: nat)
    requires n <= |ws| && ClaimsIn(ev, root, ws, n).Ok?
    ensures ClaimsWitnesses(ev, ws, n, ClaimsIn(ev, root, ws, n).value)
  {
    if n > 0 {
      InParts(ev, root, ws, n - 1, n);
      ClaimsInMeaning(ev, root, ws, n - 1);
      TransactionMeaning(ev, ws[n - 1]);
      var before, more := ClaimsIn(ev, root, ws, n - 1), ClaimsOf(ev, ws[n - 1], |ws[n - 1].deposits|);
      OneMoreClaimed(ev, ws, n - 1, before.value, more.value);
    }
  }

  lemma {:induction false} ClaimsStay(ev: Evaluator, w: TxWitness, before: seq<Claim>, claims: seq<Claim>, at: nat)
    requires ClaimsFrom(ev, w, before, at)
    ensures ClaimsFrom(ev, w, before + claims, at)
  {
  }

  lemma {:induction false} ClaimsShift(ev: Evaluator, w: TxWitness, before: seq<Claim>, claims: seq<Claim>)
    requires |claims| == |w.deposits| && ClaimsTransaction(ev, w, claims, 0)
    ensures ClaimsFrom(ev, w, before + claims, |before|)
  {
    forall j {:trigger w.deposits[j]} | 0 <= j < |w.deposits|
      ensures DepositDefined(ev, w, w.deposits[j])
      ensures ClaimsDeposit(ev, w, w.deposits[j], (before + claims)[|before| + j])
    {
      assert (before + claims)[|before| + j] == claims[j];
    }
  }

  lemma {:induction false} OneMoreClaimed(ev: Evaluator, ws: seq<TxWitness>, n: nat, before: seq<Claim>,
      claims: seq<Claim>)
    requires n < |ws| && ClaimsWitnesses(ev, ws, n, before)
    requires |claims| == |ws[n].deposits| && ClaimsTransaction(ev, ws[n], claims, 0)
    ensures ClaimsWitnesses(ev, ws, n + 1, before + claims)
  {
    var all := before + claims;
    forall i {:trigger ClaimsWitness(ev, ws, i, all)} | 0 <= i < n + 1
      ensures ClaimsWitness(ev, ws, i, all)
    {
      if i < n {
        assert ClaimsWitness(ev, ws, i, before);
        ClaimsStay(ev, ws[i], before, claims, TotalDeposits(ws, i));
      } else {
        ClaimsShift(ev, ws[i], before, claims);
      }
    }
  }

  /** What the evaluation answers, for any witness whatever: it succeeds exactly if every transaction
      is in the block, every deposit is defined and their number is the announced one; and then with
      the claims of the deposits, one by one and in order. Otherwise the first transaction that lacks
      something decides, or, last, the number. */
  lemma {:induction false} EvaluationMeaning(ev: Evaluator, root: Digest, ws: seq<TxWitness>, total: nat)
    ensures Evaluate(ev, root, ws, total).Ok? <==>
              (forall w <- ws :: WitnessDefined(ev, root, w)) && TotalDeposits(ws, |ws|) == total
    ensures Evaluate(ev, root, ws, total).Ok? ==> ClaimsWitnesses(ev, ws, |ws|, Evaluate(ev, root, ws, total).value)
    ensures Evaluate(ev, root, ws, total).Err? ==>
              var error := Evaluate(ev, root, ws, total).error;
              if forall w <- ws :: WitnessDefined(ev, root, w) then error == CountMismatch
              else exists i :: 0 <= i < |ws| && WitnessLacks(ev, root, ws[i], error)
                               && forall w <- ws[..i] :: WitnessDefined(ev, root, w)
  {
    ClaimsInCondition(ev, root, ws, |ws|);
    assert ws[..|ws|] == ws;
    if ClaimsIn(ev, root, ws, |ws|).Ok? {
      ClaimsInMeaning(ev, root, ws, |ws|);
    } else {
      var i := FirstWitnessLacks(ev, root, ws, |ws|);
    }
  }

  // ---------- what a block pays ----------

  /** Output `output` of transaction `tx` pays script `key`. */
  datatype Payment = Payment(tx: nat, output: nat, key: nat)

  function TxPayments(t: nat, deposits: seq<Deposit>): (ps: seq<Payment>)
    ensures |ps| == |deposits|
    ensures forall i {:trigger ps[i]} :: 0 <= i < |deposits| ==>
              ps[i] == Payment(t, deposits[i].outputIndex, deposits[i].keyIndex)
  {
    if deposits == [] then []
    else
      var last := deposits[|deposits| - 1];
      TxPayments(t, deposits[..|deposits| - 1]) + [Payment(t, last.outputIndex, last.keyIndex)]
  }

  /** The payments of the first `n` transactions of a block, in block order. */
  function Payments(txs: seq<Transaction>, scripts: seq<Bytes>, n: nat): seq<Payment>
    requires n <= |txs|
  {
    if n == 0 then []
    else Payments(txs, scripts, n - 1) + TxPayments(n - 1, DepositsOf(txs[n - 1], scripts))
  }

  /** The output exists and pays that script, and no earlier one. */
  ghost predicate Pays(txs: seq<Transaction>, scripts: seq<Bytes>, p: Payment) {
    && p.tx < |txs| && p.output < |txs[p.tx].outputs| && p.key < |scripts|
    && scripts[p.key] == txs[p.tx].outputs[p.output].script
    && txs[p.tx].outputs[p.output].script !in scripts[..p.key]
  }

  predicate Before(p: Payment, q: Payment) {
    p.tx < q.tx || (p.tx == q.tx && p.output < q.output)
  }

  ghost predicate InBlockOrder(ps: seq<Payment>) {
    forall i, j {:trigger ps[i], ps[j]} :: 0 <= i < j < |ps| ==> Before(ps[i], ps[j])
  }

  lemma {:induction false} TxPaymentsAre(txs: seq<Transaction>, scripts: seq<Bytes>, t: nat)
    requires t < |txs|
    ensures var ps := TxPayments(t, DepositsOf(txs[t], scripts));
            InBlockOrder(ps) && forall p :: p in ps <==> p.tx == t && Pays(txs, scripts, p)
  {
    var ds := DepositsOf(txs[t], scripts);
    var ps := TxPayments(t, ds);
    DepositsAreMatchingOutputs(txs[t].outputs, scripts, |txs[t].outputs|);
    forall p
      ensures p in ps <==> p.tx == t && Pays(txs, scripts, p)
    {
      var d := Deposit(p.output, p.key);
      assert d in ds <==> Pays(txs, scripts, Payment(t, p.output, p.key));
      if p.tx == t && d in ds {
        var i :| 0 <= i < |ds| && ds[i] == d;
        assert ps[i] == p;
      }
      if p in ps {
        var i :| 0 <= i < |ps| && ps[i] == p;
        assert ds[i] == d;
      }
    }
  }

  lemma {:induction false} LaterTransaction(before: seq<Payment>, last: seq<Payment>, t: nat)
    requires InBlockOrder(before) && InBlockOrder(last)
    requires (forall p <- before :: p.tx < t) && (forall p <- last :: p.tx == t)
    ensures InBlockOrder(before + last)
  {
    var ps := before + last;
    forall i, j {:trigger ps[i], ps[j]} | 0 <= i < j < |ps|
      ensures Before(ps[i], ps[j])
    {
      if i < |before| && |before| <= j {
        assert ps[i] in before && ps[j] in last;
      }
    }
  }

  lemma {:induction false} PaymentsConcat(
    txs: seq<Transaction>, scripts: seq<Bytes>, before: seq<Payment>, last: seq<Payment>, t: nat)
    requires forall p :: p in before <==> p.tx < t && Pays(txs, scripts, p)
    requires forall p :: p in last <==> p.tx == t && Pays(txs, scripts, p)
    ensures forall p :: p in before + last <==> p.tx < t + 1 && Pays(txs, scripts, p)
  {
  }

  /** The payments of a block are exactly its outputs that pay a script, in block order, each once
      and with the first script that matches. */
  lemma {:induction false} PaymentsAreMatchingOutputs(txs: seq<Transaction>, scripts: seq<Bytes>, n: nat)
    requires n <= |txs|
    ensures InBlockOrder(Payments(txs, scripts, n))
    ensures forall p :: p in Payments(txs, scripts, n) <==> p.tx < n && Pays(txs, scripts, p)
  {
    if n > 0 {
      var t := n - 1;
      PaymentsAreMatchingOutputs(txs, scripts, t);
      TxPaymentsAre(txs, scripts, t);
      var before, last := Payments(txs, scripts, t), TxPayments(t, DepositsOf(txs[t], scripts));
      LaterTransaction(before, last, t);
      assert Payments(txs, scripts, n) == before + last;
      PaymentsConcat(txs, scripts, before, last, t);
    }
  }

  function ClaimForPayment(ev: Evaluator, txs: seq<Transaction>, p: Payment): Result<Claim, EvaluationError> {
    if p.tx >= |txs| then Err(TransactionRejected) else ClaimAt(ev, txs[p.tx], p.tx, p.output, p.key)
  }

  /** Fee and TXO index of a payment are defined. */
  ghost predicate PaymentDefined(ev: Evaluator, txs: seq<Transaction>, p: Payment)
    requires p.tx < |txs| && p.output < |txs[p.tx].outputs|
  {
    ev.net(txs[p.tx].outputs[p.output].value).Some? && ev.txoIndex(p.tx, p.output).Some?
  }

  /** The claim of a payment: what is left of the output's value after the fee, for the recipient of
      the script that the output pays. */
  ghost predicate ClaimsPayment(ev: Evaluator, txs: seq<Transaction>, p: Payment, claim: Claim)
    requires p.tx < |txs| && p.output < |txs[p.tx].outputs| && p.key < |ev.recipients|
    requires PaymentDefined(ev, txs, p)
  {
    var recipient, net := ev.recipients[p.key], ev.net(txs[p.tx].outputs[p.output].value).value;
    && claim.mint.recipient == recipient && claim.mint.amount == net
    && claim.txoIndex == ev.txoIndex(p.tx, p.output).value
    && claim.leaf == ev.leaf(ev.txid(txs[p.tx]), p.output, recipient, net)
  }

  lemma {:induction false} PaymentMeaning(ev: Evaluator, txs: seq<Transaction>, p: Payment)
    requires p.tx < |txs| && p.output < |txs[p.tx].outputs| && p.key < |ev.recipients|
    ensures var r := ClaimForPayment(ev, txs, p);
            && (r.Ok? <==> PaymentDefined(ev, txs, p))
            && (r.Ok? ==> ClaimsPayment(ev, txs, p, r.value))
            && (r.Err? ==> r.error == if ev.net(txs[p.tx].outputs[p.output].value) == None then FeeUndefined
                                      else TxoIndexUndefined)
  {
  }

  /** Everything a list of payments claims, or the first failure. */
  function Claimed(ev: Evaluator, txs: seq<Transaction>, ps: seq<Payment>): Result<seq<Claim>, EvaluationError> {
    if ps == [] then Ok([])
    else
      var before := Claimed(ev, txs, ps[..|ps| - 1]);
      if before.Err? then before
      else
        var claim := ClaimForPayment(ev, txs, ps[|ps| - 1]);
        if claim.Err? then Err(claim.error) else Ok(before.value + [claim.value])
  }

  // ---------- the evaluation of a scan ----------

  /** A list of payments is claimed exactly if each of them is, and then one by one. */
  lemma {:induction false} ClaimedOneByOne(ev: Evaluator, txs: seq<Transaction>, ps: seq<Payment>)
    ensures Claimed(ev, txs, ps).Ok? <==>
              forall i {:trigger ps[i]} :: 0 <= i < |ps| ==> ClaimForPayment(ev, txs, ps[i]).Ok?
    ensures Claimed(ev, txs, ps).Ok? ==>
              && |Claimed(ev, txs, ps).value| == |ps|
              && forall i {:trigger ps[i]} :: 0 <= i < |ps| ==>
                   ClaimForPayment(ev, txs, ps[i]) == Ok(Claimed(ev, txs, ps).value[i])
  {
    if ps != [] {
      var earlier := ps[..|ps| - 1];
      ClaimedOneByOne(ev, txs, earlier);
      assert forall i {:trigger ps[i]} :: 0 <= i < |earlier| ==> ps[i] == earlier[i];
    }
  }

  lemma {:induction false} ClaimedConcat(ev: Evaluator, txs: seq<Transaction>, a: seq<Payment>, b: seq<Payment>)
    ensures var x, y := Claimed(ev, txs, a), Claimed(ev, txs, b);
            Claimed(ev, txs, a + b) == if x.Err? then x else if y.Err? then y else Ok(x.value + y.value)
    decreases |b|
  {
    var x, ps := Claimed(ev, txs, a), a + b;
    if b == [] {
      assert ps == a && (x.Ok? ==> x.value + [] == x.value);
    } else {
      var earlier, last := b[..|b| - 1], b[|b| - 1];
      ClaimedConcat(ev, txs, a, earlier);
      assert ps[..|ps| - 1] == a + earlier && ps[|ps| - 1] == last;
      var y, claim := Claimed(ev, txs, earlier), ClaimForPayment(ev, txs, last);
      if x.Ok? && y.Ok? && claim.Ok? {
        assert x.value + y.value + [claim.value] == x.value + (y.value + [claim.value]);
      }
    }
  }

  lemma {:induction false} TxPaymentsSnoc(t: nat, deposits: seq<Deposit>, n: nat)
    requires n < |deposits|
    ensures TxPayments(t, deposits[..n + 1])
            == TxPayments(t, deposits[..n]) + [Payment(t, deposits[n].outputIndex, deposits[n].keyIndex)]
  {
    assert deposits[..n + 1][..n] == deposits[..n];
  }

  lemma {:induction false} ClaimedSnoc(ev: Evaluator, txs: seq<Transaction>, ps: seq<Payment>, p: Payment)
    ensures var before, claim := Claimed(ev, txs, ps), ClaimForPayment(ev, txs, p);
            Claimed(ev, txs, ps + [p])
            == if before.Err? then before else if claim.Err? then Err(claim.error) else Ok(before.value + [claim.value])
  {
    assert (ps + [p])[..|ps|] == ps;
  }

  lemma {:induction false} TxClaims(ev: Evaluator, txs: seq<Transaction>, w: TxWitness, n: nat)
    requires w.index < |txs| && w.transaction == txs[w.index] && n <= |w.deposits|
    ensures ClaimsOf(ev, w, n) == Claimed(ev, txs, TxPayments(w.index, w.deposits[..n]))
  {
    if n > 0 {
      TxClaims(ev, txs, w, n - 1);
      TxPaymentsSnoc(w.index, w.deposits, n - 1);
      var d := w.deposits[n - 1];
      ClaimedSnoc(ev, txs, TxPayments(w.index, w.deposits[..n - 1]), Payment(w.index, d.outputIndex, d.keyIndex));
    }
  }

  lemma {:induction false} ClaimsOfPrefix(ev: Evaluator, root: Digest, ws: seq<TxWitness>, rest: seq<TxWitness>, n: nat)
    requires n <= |ws|
    ensures ClaimsIn(ev, root, ws + rest, n) == ClaimsIn(ev, root, ws, n)
  {
    if n > 0 {
      ClaimsOfPrefix(ev, root, ws, rest, n - 1);
    }
  }

  lemma {:induction false} OneMoreWitness(
    ev: Evaluator, txs: seq<Transaction>, root: Digest, ws: seq<TxWitness>, w: TxWitness)
    requires w.index < |txs| && w.transaction == txs[w.index] && Verifies(ev, root, w)
    ensures var before, claims := AllClaims(ev, root, ws), Claimed(ev, txs, TxPayments(w.index, w.deposits));
            AllClaims(ev, root, ws + [w])
            == if before.Err? then before else if claims.Err? then claims else Ok(before.value + claims.value)
  {
    ClaimsOfPrefix(ev, root, ws, [w], |ws|);
    TxClaims(ev, txs, w, |w.deposits|);
    assert w.deposits[..|w.deposits|] == w.deposits;
  }

  /** The path of transaction `t` verifies. */
  ghost predicate PathVerifies(ev: Evaluator, txs: seq<Transaction>, ids: seq<Digest>, root: Digest, t: nat)
    requires t < |txs| == |ids|
  {
    FoldPath(ev.combine, ev.txid(txs[t]), TxPath(ev.combine, ids, t, Depth(|ids|)), t) == root
  }

  ghost predicate PathsVerify(ev: Evaluator, txs: seq<Transaction>, ids: seq<Digest>, root: Digest) {
    && |txs| == |ids|
    && forall t {:trigger PathVerifies(ev, txs, ids, root, t)} :: 0 <= t < |txs| ==>
         PathVerifies(ev, txs, ids, root, t)
  }

  /** One more transaction: its witness, if any, adds what it pays. */
  lemma {:induction false} OneMoreTransaction(
    ev: Evaluator, txs: seq<Transaction>, scripts: seq<Bytes>, ids: seq<Digest>, root: Digest,
    ws: seq<TxWitness>, ps: seq<Payment>, t: nat)
    requires t < |txs| && PathsVerify(ev, txs, ids, root)
    requires AllClaims(ev, root, ws) == Claimed(ev, txs, ps)
    ensures AllClaims(ev, root, ws + WitnessAt(ev.combine, ids, txs, scripts, t))
            == Claimed(ev, txs, ps + TxPayments(t, DepositsOf(txs[t], scripts)))
  {
    var deposits := DepositsOf(txs[t], scripts);
    var paid := TxPayments(t, deposits);
    if deposits == [] {
      assert ws + [] == ws && ps + paid == ps;
    } else {
      assert PathVerifies(ev, txs, ids, root, t);
      OneMoreWitness(ev, txs, root, ws, TxWitness(t, TxPath(ev.combine, ids, t, Depth(|ids|)), deposits, txs[t]));
      ClaimedConcat(ev, txs, ps, paid);
    }
  }

  /** What the scan emits evaluates to what the block pays. */
  lemma {:induction false} ScanClaims(
    ev: Evaluator, txs: seq<Transaction>, scripts: seq<Bytes>, ids: seq<Digest>, root: Digest)
    requires PathsVerify(ev, txs, ids, root)
    ensures AllClaims(ev, root, Witnesses(ev.combine, ids, txs, scripts, |txs|))
            == Claimed(ev, txs, Payments(txs, scripts, |txs|))
  {
    var ws: seq<TxWitness>, ps: seq<Payment> := [], [];
    for t := 0 to |txs|
      invariant ws == Witnesses(ev.combine, ids, txs, scripts, t) && ps == Payments(txs, scripts, t)
      invariant AllClaims(ev, root, ws) == Claimed(ev, txs, ps)
    {
      OneMoreTransaction(ev, txs, scripts, ids, root, ws, ps, t);
      ws := ws + WitnessAt(ev.combine, ids, txs, scripts, t);
      ps := ps + TxPayments(t, DepositsOf(txs[t], scripts));
    }
  }

  lemma {:induction false} PaymentCount(txs: seq<Transaction>, scripts: seq<Bytes>, n: nat)
    requires n <= |txs|
    ensures |Payments(txs, scripts, n)| == Count(txs, scripts, n)
  {
    if n > 0 {
      PaymentCount(txs, scripts, n - 1);
    }
  }

  /** The evaluation of what the scan of a block emits: its payments, claimed. */
  lemma {:induction false} EvaluationIsClaimed(ev: Evaluator, txs: seq<Transaction>, scripts: seq<Bytes>)
    requires txs != []
    ensures var ids := TxIds(ev.txid, txs);
            Evaluate(ev, TxRoot(ev.combine, ids), Witnesses(ev.combine, ids, txs, scripts, |txs|),
                     Count(txs, scripts, |txs|))
            == Claimed(ev, txs, Payments(txs, scripts, |txs|))
  {
    var ids, ps := TxIds(ev.txid, txs), Payments(txs, scripts, |txs|);
    var root := TxRoot(ev.combine, ids);
    forall t | 0 <= t < |txs|
      ensures PathVerifies(ev, txs, ids, root, t)
    {
      TxPathReachesRoot(ev.combine, ids, t);
    }
    ScanClaims(ev, txs, scripts, ids, root);
    ClaimedOneByOne(ev, txs, ps);
    PaymentCount(txs, scripts, |txs|);
  }

  /** Every payment is one of an output that exists, to a script with a recipient. */
  ghost predicate ArePayments(ev: Evaluator, txs: seq<Transaction>, ps: seq<Payment>) {
    forall i {:trigger ps[i]} :: 0 <= i < |ps| ==>
      ps[i].tx < |txs| && ps[i].output < |txs[ps[i].tx].outputs| && ps[i].key < |ev.recipients|
  }

  /** The first payment that is not defined, and what it lacks. */
  ghost predicate FailsFirst(ev: Evaluator, txs: seq<Transaction>, ps: seq<Payment>, i: nat, error: EvaluationError)
    requires ArePayments(ev, txs, ps)
  {
    && i < |ps| && !PaymentDefined(ev, txs, ps[i])
    && (forall j {:trigger ps[j]} :: 0 <= j < i ==> PaymentDefined(ev, txs, ps[j]))
    && error == if ev.net(txs[ps[i].tx].outputs[ps[i].output].value) == None then FeeUndefined else TxoIndexUndefined
  }

  /** What the scan of a block emits evaluates exactly if the fee and the TXO index of each of its
      payments are defined, and then to their claims, one for each payment in block order; otherwise
      the first payment that lacks one of them decides. Neither the check of a transaction nor the
      final count ever fails. */
  lemma {:induction false} EvaluationOfScan(ev: Evaluator, txs: seq<Transaction>, scripts: seq<Bytes>)
    requires |ev.recipients| == |scripts| && txs != []
    ensures var ids, ps := TxIds(ev.txid, txs), Payments(txs, scripts, |txs|);
            var r := Evaluate(ev, TxRoot(ev.combine, ids), Witnesses(ev.combine, ids, txs, scripts, |txs|),
                              Count(txs, scripts, |txs|));
            && ArePayments(ev, txs, ps)
            && (r.Err? ==> exists i :: FailsFirst(ev, txs, ps, i, r.error))
            && (r.Ok? <==> forall i {:trigger ps[i]} :: 0 <= i < |ps| ==> PaymentDefined(ev, txs, ps[i]))
            && (r.Ok? ==>
                  && |r.value| == |ps|
                  && forall i {:trigger ps[i]} :: 0 <= i < |ps| ==> ClaimsPayment(ev, txs, ps[i], r.value[i]))
  {
    var ps := Payments(txs, scripts, |txs|);
    EvaluationIsClaimed(ev, txs, scripts);
    PaymentsExist(ev, txs, scripts);
    ClaimedMeaning(ev, txs, ps);
  }

  lemma {:induction false} PaymentsExist(ev: Evaluator, txs: seq<Transaction>, scripts: seq<Bytes>)
    requires |ev.recipients| == |scripts|
    ensures ArePayments(ev, txs, Payments(txs, scripts, |txs|))
  {
    var ps := Payments(txs, scripts, |txs|);
    PaymentsAreMatchingOutputs(txs, scripts, |txs|);
    forall i {:trigger ps[i]} | 0 <= i < |ps|
      ensures ps[i].tx < |txs| && ps[i].output < |txs[ps[i].tx].outputs| && ps[i].key < |ev.recipients|
    {
      assert ps[i] in ps;
    }
  }

  lemma {:induction false} ClaimedMeaning(ev: Evaluator, txs: seq<Transaction>, ps: seq<Payment>)
    requires ArePayments(ev, txs, ps)
    ensures var r := Claimed(ev, txs, ps);
            && (r.Err? ==> exists i :: FailsFirst(ev, txs, ps, i, r.error))
            && (r.Ok? <==> forall i {:trigger ps[i]} :: 0 <= i < |ps| ==> PaymentDefined(ev, txs, ps[i]))
            && (r.Ok? ==>
                  && |r.value| == |ps|
                  && forall i {:trigger ps[i]} :: 0 <= i < |ps| ==> ClaimsPayment(ev, txs, ps[i], r.value[i]))
  {
    ClaimedOneByOne(ev, txs, ps);
    forall i {:trigger ps[i]} | 0 <= i < |ps| {
      PaymentMeaning(ev, txs, ps[i]);
    }
    if Claimed(ev, txs, ps).Err? {
      var i := FirstFailure(ev, txs, ps);
      PaymentMeaning(ev, txs, ps[i]);
      assert FailsFirst(ev, txs, ps, i, Claimed(ev, txs, ps).error);
    }
  }

  lemma {:induction false} FirstFailure(ev: Evaluator, txs: seq<Transaction>, ps: seq<Payment>) returns (i: nat)
    requires Claimed(ev, txs, ps).Err?
    ensures i < |ps| && ClaimForPayment(ev, txs, ps[i]) == Err(Claimed(ev, txs, ps).error)
    ensures forall j {:trigger ps[j]} :: 0 <= j < i ==> ClaimForPayment(ev, txs, ps[j]).Ok?
  {
    var earlier := ps[..|ps| - 1];
    if Claimed(ev, txs, earlier).Err? {
      i := FirstFailure(ev, txs, earlier);
      assert forall j {:trigger ps[j]} :: 0 <= j < i ==> ps[j] == earlier[j];
    } else {
      i := |ps| - 1;
      ClaimedOneByOne(ev, txs, earlier);
      assert forall j {:trigger ps[j]} :: 0 <= j < i ==> ps[j] == earlier[j];
    }
  }

  // ---------- the loops of the source ----------

  lemma {:induction false} ListsSnoc(claims: seq<Claim>, claim: Claim)
    ensures ListsOf(claims + [claim])
            == ClaimLists(ListsOf(claims).mints + [claim.mint], ListsOf(claims).txoIndices + [claim.txoIndex],
                          ListsOf(claims).leaves + [claim.leaf])
  {
    assert (claims + [claim])[..|claims|] == claims;
  }

  lemma {:induction false} OneMoreClaim(ev: Evaluator, w: TxWitness, i: nat, next: nat, claims: seq<Claim>)
    requires i == next - 1 && next <= |w.deposits| && ClaimsOf(ev, w, i).Ok?
    ensures var claim := ClaimOf(ev, w, w.deposits[i]);
            if claim.Err? then ClaimsOf(ev, w, next) == Err(claim.error)
            else
              && ClaimsOf(ev, w, next).Ok?
              && claims + ClaimsOf(ev, w, next).value == claims + ClaimsOf(ev, w, i).value + [claim.value]
  {
  }

  /** One deposit: its recipient, its output, the fee, the index and the leaf. */
  method ClaimDeposit(ev: Evaluator, w: TxWitness, d: Deposit) returns (r: Result<Claim, EvaluationError>)
    ensures r == ClaimOf(ev, w, d)
    ensures r.Ok? <==> DepositDefined(ev, w, d)
    ensures r.Ok? ==> ClaimsDeposit(ev, w, d, r.value)
    ensures r.Err? ==> DepositLacks(ev, w, d, r.error)
  {
    if d.keyIndex >= |ev.recipients| {
      return Err(KeyOutOfBounds);
    }
    if d.outputIndex >= |w.transaction.outputs| {
      return Err(OutputOutOfBounds);
    }
    var recipient := ev.recipients[d.keyIndex];
    var net := ev.net(w.transaction.outputs[d.outputIndex].value);
    if net == None {
      return Err(FeeUndefined);
    }
    var txo := ev.txoIndex(w.index, d.outputIndex);
    if txo == None {
      return Err(TxoIndexUndefined);
    }
    var leaf := ev.leaf(ev.txid(w.transaction), d.outputIndex, recipient, net.value);
    return Ok(Claim(Mint(recipient, net.value), txo.value, leaf));
  }

  /** The inner loop: the claims of one transaction go to the three lists. */
  method AddDeposits(ev: Evaluator, w: TxWitness, before: ClaimLists, ghost claims: seq<Claim>)
    returns (r: Result<ClaimLists, EvaluationError>)
    requires before == ListsOf(claims)
    ensures var added := ClaimsOf(ev, w, |w.deposits|);
            r == if added.Err? then Err(added.error) else Ok(ListsOf(claims + added.value))
  {
    var mints, txoIndices, leaves := before.mints, before.txoIndices, before.leaves;
    ghost var all := claims;
    assert claims + [] == claims;
    for i := 0 to |w.deposits|
      invariant ClaimsOf(ev, w, i).Ok? && all == claims + ClaimsOf(ev, w, i).value
      invariant ClaimLists(mints, txoIndices, leaves) == ListsOf(all)
    {
      FailureStays(ev, w, i + 1, |w.deposits|);
      OneMoreClaim(ev, w, i, i + 1, claims);
      var claimed := ClaimDeposit(ev, w, w.deposits[i]);
      if claimed.Err? {
        return Err(claimed.error);
      }
      var claim := claimed.value;
      ListsSnoc(all, claim);
      mints := mints + [claim.mint];
      txoIndices := txoIndices + [claim.txoIndex];
      leaves := leaves + [claim.leaf];
      all := all + [claim];
    }
    return Ok(ClaimLists(mints, txoIndices, leaves));
  }

  lemma {:induction false} FailureStays(ev: Evaluator, w: TxWitness, i: nat, n: nat)
    requires i <= n <= |w.deposits|
    ensures ClaimsOf(ev, w, i).Err? ==> ClaimsOf(ev, w, n) == ClaimsOf(ev, w, i)
    decreases n
  {
    if i < n {
      FailureStays(ev, w, i, n - 1);
    }
  }

  lemma {:induction false} RejectionStays(ev: Evaluator, root: Digest, ws: seq<TxWitness>, i: nat, n: nat)
    requires i <= n <= |ws|
    ensures ClaimsIn(ev, root, ws, i).Err? ==> ClaimsIn(ev, root, ws, n) == ClaimsIn(ev, root, ws, i)
    decreases n
  {
    if i < n {
      RejectionStays(ev, root, ws, i, n - 1);
    }
  }

  lemma {:induction false} ClaimsStep(ev: Evaluator, root: Digest, ws: seq<TxWitness>, i: nat, next: nat)
    requires i == next - 1 && next <= |ws|
    ensures var before := ClaimsIn(ev, root, ws, i);
            ClaimsIn(ev, root, ws, next) == if before.Err? then before else Extended(ev, root, ws[i], before.value)
  {
  }

  /** The claims of one more transaction, checked first. */
  function Extended(ev: Evaluator, root: Digest, w: TxWitness, before: seq<Claim>):
      Result<seq<Claim>, EvaluationError>
  {
    if !Verifies(ev, root, w) then Err(TransactionRejected)
    else
      var claims := ClaimsOf(ev, w, |w.deposits|);
      if claims.Err? then claims else Ok(before + claims.value)
  }

  /** One round of the outer loop. */
  method AddTransaction(ev: Evaluator, root: Digest, w: TxWitness, before: ClaimLists, ghost claims: seq<Claim>)
    returns (r: Result<ClaimLists, EvaluationError>)
    requires before == ListsOf(claims)
    ensures var added := Extended(ev, root, w, claims);
            r == if added.Err? then Err(added.error) else Ok(ListsOf(added.value))
  {
    if !Verifies(ev, root, w) {
      return Err(TransactionRejected);
    }
    r := AddDeposits(ev, w, before, claims);
  }

  /** The first transaction that fails decides. */
  lemma {:induction false} FailsAt(ev: Evaluator, root: Digest, ws: seq<TxWitness>, i: nat, claims: seq<Claim>)
    requires i < |ws| && ClaimsIn(ev, root, ws, i) == Ok(claims) && Extended(ev, root, ws[i], claims).Err?
    ensures AllClaims(ev, root, ws) == Extended(ev, root, ws[i], claims)
  {
    ClaimsStep(ev, root, ws, i, i + 1);
    RejectionStays(ev, root, ws, i + 1, |ws|);
  }

  /** The outer loop: every transaction is checked and its deposits added. */
  method AddTransactions(ev: Evaluator, root: Digest, ws: seq<TxWitness>)
    returns (r: Result<ClaimLists, EvaluationError>)
    ensures var claims := AllClaims(ev, root, ws);
            r == if claims.Err? then Err(claims.error) else Ok(ListsOf(claims.value))
  {
    var lists := ClaimLists([], [], []);
    ghost var claims: seq<Claim> := [];
    for i := 0 to |ws|
      invariant ClaimsIn(ev, root, ws, i) == Ok(claims) && lists == ListsOf(claims)
    {
      var added := AddTransaction(ev, root, ws[i], lists, claims);
      if added.Err? {
        FailsAt(ev, root, ws, i, claims);
        return Err(added.error);
      }
      ClaimsStep(ev, root, ws, i, i + 1);
      lists, claims := added.value, Extended(ev, root, ws[i], claims).value;
    }
    return Ok(lists);
  }

  /** The evaluation: in the end the number of deposits has to be the one the witness announces. */
  method EvaluateClaimWitness(ev: Evaluator, root: Digest, ws: seq<TxWitness>, total: nat)
    returns (r: Result<ClaimLists, EvaluationError>)
    ensures var claims := Evaluate(ev, root, ws, total);
            r == if claims.Err? then Err(claims.error) else Ok(ListsOf(claims.value))
  {
    r := AddTransactions(ev, root, ws);
    if r.Ok? && |r.value.leaves| != total {
      return Err(CountMismatch);
    }
  }
}
