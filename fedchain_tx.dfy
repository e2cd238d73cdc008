/**
 * The issuance accounting of the federated chain's transaction pool: for a
 * batch of transactions, the amount of each asset that the issuing
 * transactions bring into circulation, in wrapping `uint64` arithmetic.
 */
module Fedchain {
  import opened MachineInts
  import opened Bc

  // ---------------------------------------------------------------------
  // What is summed

  /** The outputs of the issuing transactions, in order. */
  function IssuedOutputs(txs: seq<Tx>): seq<TxOutput>
  {
    if txs == [] then []
    else
      var tx := txs[|txs| - 1];
      IssuedOutputs(txs[..|txs| - 1]) + (if tx.hasIssuance then tx.outputs else [])
  }

  /** The earlier outputs that the non-issuance inputs spend, as the view
      resolves them, in order. */
  function Prevouts(view: View, inputs: seq<TxInput>): seq<TxOutput>
  {
    if inputs == [] then []
    else
      var input := inputs[|inputs| - 1];
      Prevouts(view, inputs[..|inputs| - 1]) + (if input.isIssuance then [] else [view(input.previous)])
  }

  /** The earlier outputs spent by the issuing transactions, in order. */
  function SpentPrevouts(view: View, txs: seq<Tx>): seq<TxOutput>
  {
    if txs == [] then []
    else
      var tx := txs[|txs| - 1];
      SpentPrevouts(view, txs[..|txs| - 1]) + (if tx.hasIssuance then Prevouts(view, tx.inputs) else [])
  }

  /** The exact total amount of asset `a` among `outs`. */
  function AmountOf(outs: seq<TxOutput>, a: AssetID): nat
  {
    if outs == [] then 0
    else
      var o := outs[|outs| - 1];
      AmountOf(outs[..|outs| - 1], a) + (if o.assetID == a then o.amount as nat else 0)
  }

  /** The assets that occur among `outs`. */
  function AssetsOf(outs: seq<TxOutput>): set<AssetID>
  {
    if outs == [] then {}
    else AssetsOf(outs[..|outs| - 1]) + {outs[|outs| - 1].assetID}
  }

  /** The exact net issuance of asset `a`: what the issuing transactions
      output minus what their non-issuance inputs spend. */
  function NetIssued(view: View, txs: seq<Tx>, a: AssetID): int
  {
    AmountOf(IssuedOutputs(txs), a) - AmountOf(SpentPrevouts(view, txs), a)
  }

  /** The assets that appear in the result: those of the outputs and of the
      spent outputs of the issuing transactions. */
  function IssuedAssets(view: View, txs: seq<Tx>): set<AssetID>
  {
    AssetsOf(IssuedOutputs(txs)) + AssetsOf(SpentPrevouts(view, txs))
  }

  // ---------------------------------------------------------------------
  // The accumulation

  /** Go's read of a missing map key gives the zero value. */
  function Lookup(m: map<AssetID, uint64>, a: AssetID): uint64
  {
    if a in m then m[a] else 0
  }

  /** `m` holds, for each asset among `outs` and `spent` and for no other,
      the amount in `outs` minus the amount in `spent`, wrapped to
      `uint64`. */
  predicate IsTally(m: map<AssetID, uint64>, outs: seq<TxOutput>, spent: seq<TxOutput>)
  {
    && m.Keys == AssetsOf(outs) + AssetsOf(spent)
    && forall a :: a in m ==> m[a] == ToU64(AmountOf(outs, a) - AmountOf(spent, a))
  }

  /** The entries after the loop over a transaction's outputs: each amount
      added to its asset's entry, a missing entry counting as 0. */
  function Credited(m: map<AssetID, uint64>, outputs: seq<TxOutput>): (r: map<AssetID, uint64>)
    ensures r.Keys == m.Keys + AssetsOf(outputs)
  {
    if outputs == [] then m
    else
      var c := Credited(m, outputs[..|outputs| - 1]);
      var o := outputs[|outputs| - 1];
      c[o.assetID := AddU64(Lookup(c, o.assetID), o.amount)]
  }

  /** The entries after the loop over a transaction's inputs: the amount of
      the output each non-issuance input spends subtracted from its asset's
      entry, a missing entry counting as 0. */
  function Debited(view: View, m: map<AssetID, uint64>, inputs: seq<TxInput>): (r: map<AssetID, uint64>)
    ensures r.Keys == m.Keys + AssetsOf(Prevouts(view, inputs))
  {
    if inputs == [] then m
    else
      var d := Debited(view, m, inputs[..|inputs| - 1]);
      var input := inputs[|inputs| - 1];
      AssetsOfAppend(Prevouts(view, inputs[..|inputs| - 1]), if input.isIssuance then [] else [view(input.previous)]);
      if input.isIssuance then d
      else
        var p := view(input.previous);
        d[p.assetID := SubU64(Lookup(d, p.assetID), p.amount)]
  }

  /** The entries after the loop over the batch: the outputs and then the
      inputs of each issuing transaction summed in, in order. */
  function Summed(view: View, txs: seq<Tx>): map<AssetID, uint64>
  {
    if txs == [] then map[]
    else
      var m := Summed(view, txs[..|txs| - 1]);
      var tx := txs[|txs| - 1];
      if tx.hasIssuance then Debited(view, Credited(m, tx.outputs), tx.inputs) else m
  }

  /**
   * The per-asset amounts issued by the transactions `txs`: for every
   * transaction with an issuance, each output's amount is added to its asset
   * and each non-issuance input's spent amount is subtracted from its asset,
   * all in wrapping `uint64` arithmetic.
   */
  method SumIssued(view: View, txs: seq<Tx>) returns (issued: map<AssetID, uint64>)
    ensures issued.Keys == IssuedAssets(view, txs)
    ensures forall a :: a in issued ==> issued[a] == ToU64(NetIssued(view, txs, a))
    ensures (forall tx :: tx in txs ==> !tx.hasIssuance) ==> issued == map[]
  {
    issued := map[];
    var i := 0;
    while i < |txs|
      invariant 0 <= i <= |txs|
      invariant issued == Summed(view, txs[..i])
    {
      var tx := txs[i];
      SummedStep(view, txs, i);
      if tx.hasIssuance {
        ghost var before := issued;
        var j := 0;
        while j < |tx.outputs|
          invariant 0 <= j <= |tx.outputs|
          invariant issued == Credited(before, tx.outputs[..j])
        {
          var out := tx.outputs[j];
          CreditedStep(before, tx.outputs, j);
          issued := issued[out.assetID := AddU64(Lookup(issued, out.assetID), out.amount)];
          j := j + 1;
        }
        assert tx.outputs[..j] == tx.outputs;
        ghost var credited := issued;
        var k := 0;
        while k < |tx.inputs|
          invariant 0 <= k <= |tx.inputs|
          invariant issued == Debited(view, credited, tx.inputs[..k])
        {
          var input := tx.inputs[k];
          DebitedStep(view, credited, tx.inputs, k);
          if !input.isIssuance {
            var prevout := view(input.previous);
            issued := issued[prevout.assetID := SubU64(Lookup(issued, prevout.assetID), prevout.amount)];
          }
          k := k + 1;
        }
        assert tx.inputs[..k] == tx.inputs;
      }
      i := i + 1;
    }
    assert txs[..i] == txs;
    SummedMeaning(view, txs);
  }

  lemma {:induction false} SummedStep(view: View, txs: seq<Tx>, i: nat)
    requires i < |txs|
    ensures Summed(view, txs[..i + 1])
         == if txs[i].hasIssuance then Debited(view, Credited(Summed(view, txs[..i]), txs[i].outputs), txs[i].inputs)
            else Summed(view, txs[..i])
  {
    assert txs[..i + 1][..i] == txs[..i];
  }

  lemma {:induction false} CreditedStep(m: map<AssetID, uint64>, outputs: seq<TxOutput>, j: nat)
    requires j < |outputs|
    ensures Credited(m, outputs[..j + 1])
         == var c := Credited(m, outputs[..j]);
            c[outputs[j].assetID := AddU64(Lookup(c, outputs[j].assetID), outputs[j].amount)]
  {
    assert outputs[..j + 1][..j] == outputs[..j];
  }

  lemma {:induction false} DebitedStep(view: View, m: map<AssetID, uint64>, inputs: seq<TxInput>, k: nat)
    requires k < |inputs|
    ensures Debited(view, m, inputs[..k + 1])
         == var d := Debited(view, m, inputs[..k]);
            if inputs[k].isIssuance then d
            else
              var p := view(inputs[k].previous);
              d[p.assetID := SubU64(Lookup(d, p.assetID), p.amount)]
  {
    assert inputs[..k + 1][..k] == inputs[..k];
  }

  /** What the loop over the batch computes: each asset that the issuing
      transactions output or spend, mapped to its net issuance modulo 2^64;
      nothing at all when no transaction issues. */
  lemma {:induction false} SummedMeaning(view: View, txs: seq<Tx>)
    ensures Summed(view, txs).Keys == IssuedAssets(view, txs)
    ensures forall a :: a in Summed(view, txs) ==> Summed(view, txs)[a] == ToU64(NetIssued(view, txs, a))
    ensures (forall tx :: tx in txs ==> !tx.hasIssuance) ==> Summed(view, txs) == map[]
  {
    SummedTally(view, txs);
    if forall tx :: tx in txs ==> !tx.hasIssuance {
      NoIssuingTransactions(view, txs);
    }
  }

  /** The loop over the batch keeps the tally of what has been summed. */
  lemma {:induction false} SummedTally(view: View, txs: seq<Tx>)
    ensures IsTally(Summed(view, txs), IssuedOutputs(txs), SpentPrevouts(view, txs))
  {
    if txs == [] {
    } else {
      var init := txs[..|txs| - 1];
      var tx := txs[|txs| - 1];
      SummedTally(view, init);
      assert txs == init + [tx];
      if tx.hasIssuance {
        TransactionTally(view, init, tx, Summed(view, init));
      } else {
        assert IssuedOutputs(txs) == IssuedOutputs(init) + [] == IssuedOutputs(init);
        assert SpentPrevouts(view, txs) == SpentPrevouts(view, init) + [] == SpentPrevouts(view, init);
      }
    }
  }

  /** Summing an issuing transaction's outputs and then its inputs into the
      tally of the transactions before it gives the tally with it included. */
  lemma {:induction false} TransactionTally(view: View, txs: seq<Tx>, tx: Tx, m: map<AssetID, uint64>)
    requires tx.hasIssuance
    requires IsTally(m, IssuedOutputs(txs), SpentPrevouts(view, txs))
    ensures IsTally(Debited(view, Credited(m, tx.outputs), tx.inputs),
                    IssuedOutputs(txs + [tx]), SpentPrevouts(view, txs + [tx]))
  {
    var outs := IssuedOutputs(txs);
    var spent := SpentPrevouts(view, txs);
    CreditedTally(m, outs, spent, tx.outputs);
    DebitedTally(view, Credited(m, tx.outputs), outs + tx.outputs, spent, tx.inputs);
    assert (txs + [tx])[..|txs|] == txs;
  }

  /** Crediting outputs to a tally gives the tally with those outputs
      appended. */
  lemma {:induction false} CreditedTally(m: map<AssetID, uint64>, outs: seq<TxOutput>, spent: seq<TxOutput>, outputs: seq<TxOutput>)
    requires IsTally(m, outs, spent)
    ensures IsTally(Credited(m, outputs), outs + outputs, spent)
  {
    if outputs == [] {
      assert outs + outputs == outs;
    } else {
      var init := outputs[..|outputs| - 1];
      var o := outputs[|outputs| - 1];
      CreditedTally(m, outs, spent, init);
      TallyCredit(Credited(m, init), outs + init, spent, o);
      AppendSplitLast(outs, outputs);
    }
  }

  /** Debiting what inputs spend from a tally gives the tally with those
      spent outputs appended. */
  lemma {:induction false} DebitedTally(view: View, m: map<AssetID, uint64>, outs: seq<TxOutput>, spent: seq<TxOutput>, inputs: seq<TxInput>)
    requires IsTally(m, outs, spent)
    ensures IsTally(Debited(view, m, inputs), outs, spent + Prevouts(view, inputs))
  {
    if inputs == [] {
      assert spent + Prevouts(view, inputs) == spent;
    } else {
      var init := inputs[..|inputs| - 1];
      var input := inputs[|inputs| - 1];
      DebitedTally(view, m, outs, spent, init);
      if input.isIssuance {
        assert spent + Prevouts(view, inputs) == spent + Prevouts(view, init);
      } else {
        var p := view(input.previous);
        TallyDebit(Debited(view, m, init), outs, spent + Prevouts(view, init), p);
        AppendAssoc(spent, Prevouts(view, init), [p]);
      }
    }
  }

  // ---------------------------------------------------------------------
  // Keeping the tally

  /** An asset that does not occur among `outs` has amount 0 there. */
  lemma {:induction false} AmountOfAbsent(outs: seq<TxOutput>, a: AssetID)
    requires a !in AssetsOf(outs)
    ensures AmountOf(outs, a) == 0
  {
    if outs != [] {
      AmountOfAbsent(outs[..|outs| - 1], a);
    }
  }

  /** The assets of a concatenation are those of its parts. */
  lemma {:induction false} AssetsOfAppend(xs: seq<TxOutput>, ys: seq<TxOutput>)
    ensures AssetsOf(xs + ys) == AssetsOf(xs) + AssetsOf(ys)
  {
    if ys != [] {
      var init := ys[..|ys| - 1];
      assert (xs + ys)[..|xs + ys| - 1] == xs + init;
      AssetsOfAppend(xs, init);
    } else {
      assert xs + ys == xs;
    }
  }

  /** An asset occurs among `outs` exactly when one of them is of it. */
  lemma {:induction false} AssetsOfMembers(outs: seq<TxOutput>, a: AssetID)
    ensures a in AssetsOf(outs) <==> exists o :: o in outs && o.assetID == a
  {
    if outs != [] {
      var init := outs[..|outs| - 1];
      var last := outs[|outs| - 1];
      AssetsOfMembers(init, a);
      assert outs == init + [last];
    }
  }

  lemma {:induction false} AppendOne(outs: seq<TxOutput>, o: TxOutput, a: AssetID)
    ensures AssetsOf(outs + [o]) == AssetsOf(outs) + {o.assetID}
    ensures AmountOf(outs + [o], a) == AmountOf(outs, a) + (if o.assetID == a then o.amount as int else 0)
  {
    assert (outs + [o])[..|outs|] == outs;
  }

  /** One wrapping update of an entry moves it by the exact change, modulo
      2^64. */
  lemma {:induction false} EntryStep(net: int, amount: uint64)
    ensures AddU64(ToU64(net), amount) == ToU64(net + amount as int)
    ensures SubU64(ToU64(net), amount) == ToU64(net - amount as int)
  {
    ToU64Absorbs(net, amount as int);
    ToU64Absorbs(net, -(amount as int));
  }

  /** Reading a missing entry gives 0, the wrapped net amount of an asset
      that does not occur. */
  lemma {:induction false} TallyLookup(m: map<AssetID, uint64>, outs: seq<TxOutput>, spent: seq<TxOutput>, a: AssetID)
    requires IsTally(m, outs, spent)
    ensures Lookup(m, a) == ToU64(AmountOf(outs, a) - AmountOf(spent, a))
  {
    if a in m {
      assert Lookup(m, a) == m[a];
    } else {
      assert a !in AssetsOf(outs) && a !in AssetsOf(spent);
      AmountOfAbsent(outs, a);
      AmountOfAbsent(spent, a);
      assert ToU64(0) == 0;
    }
  }

  /** Adding an output's amount to its asset's entry keeps the tally. */
  lemma {:induction false} TallyCredit(m: map<AssetID, uint64>, outs: seq<TxOutput>, spent: seq<TxOutput>, o: TxOutput)
    requires IsTally(m, outs, spent)
    ensures IsTally(m[o.assetID := AddU64(Lookup(m, o.assetID), o.amount)], outs + [o], spent)
  {
    var a := o.assetID;
    var m' := m[a := AddU64(Lookup(m, a), o.amount)];
    AppendOne(outs, o, a);
    TallyLookup(m, outs, spent, a);
    EntryStep(AmountOf(outs, a) - AmountOf(spent, a), o.amount);
    forall b | b in m'
      ensures m'[b] == ToU64(AmountOf(outs + [o], b) - AmountOf(spent, b))
    {
      AppendOne(outs, o, b);
    }
  }

  /** Subtracting a spent output's amount from its asset's entry keeps the
      tally. */
  lemma {:induction false} TallyDebit(m: map<AssetID, uint64>, outs: seq<TxOutput>, spent: seq<TxOutput>, p: TxOutput)
    requires IsTally(m, outs, spent)
    ensures IsTally(m[p.assetID := SubU64(Lookup(m, p.assetID), p.amount)], outs, spent + [p])
  {
    var a := p.assetID;
    var m' := m[a := SubU64(Lookup(m, a), p.amount)];
    AppendOne(spent, p, a);
    TallyLookup(m, outs, spent, a);
    EntryStep(AmountOf(outs, a) - AmountOf(spent, a), p.amount);
    forall b | b in m'
      ensures m'[b] == ToU64(AmountOf(outs, b) - AmountOf(spent + [p], b))
    {
      AppendOne(spent, p, b);
    }
  }

  // ---------------------------------------------------------------------
  // Properties of the issued amounts

  /** With no issuing transaction (in particular with none at all), nothing
      is summed. */
  lemma {:induction false} NoIssuingTransactions(view: View, txs: seq<Tx>)
    requires forall tx :: tx in txs ==> !tx.hasIssuance
    ensures IssuedOutputs(txs) == [] && SpentPrevouts(view, txs) == []
    ensures IssuedAssets(view, txs) == {}
    ensures forall a :: NetIssued(view, txs, a) == 0
  {
    if txs != [] {
      var init := txs[..|txs| - 1];
      assert forall tx :: tx in init ==> tx in txs;
      NoIssuingTransactions(view, init);
    }
  }

  /** The summed lists of a batch are those of its parts, one after the
      other. */
  lemma {:induction false} SummedListsAppend(view: View, xs: seq<Tx>, ys: seq<Tx>)
    ensures IssuedOutputs(xs + ys) == IssuedOutputs(xs) + IssuedOutputs(ys)
    ensures SpentPrevouts(view, xs + ys) == SpentPrevouts(view, xs) + SpentPrevouts(view, ys)
  {
    if ys != [] {
      var init := ys[..|ys| - 1];
      assert (xs + ys)[..|xs + ys| - 1] == xs + init;
      SummedListsAppend(view, xs, init);
    } else {
      assert xs + ys == xs;
    }
  }

  lemma {:induction false} AmountOfAppend(xs: seq<TxOutput>, ys: seq<TxOutput>, a: AssetID)
    ensures AmountOf(xs + ys, a) == AmountOf(xs, a) + AmountOf(ys, a)
  {
    if ys != [] {
      var init := ys[..|ys| - 1];
      assert (xs + ys)[..|xs + ys| - 1] == xs + init;
      AmountOfAppend(xs, init, a);
    } else {
      assert xs + ys == xs;
    }
  }

  /** The net issuance of a batch is the sum of the net issuances of its
      parts, so summing a batch at once or in pieces gives the same entries
      modulo 2^64. */
  lemma {:induction false} NetIssuedAdditive(view: View, xs: seq<Tx>, ys: seq<Tx>, a: AssetID)
    ensures NetIssued(view, xs + ys, a) == NetIssued(view, xs, a) + NetIssued(view, ys, a)
    ensures IssuedAssets(view, xs + ys) == IssuedAssets(view, xs) + IssuedAssets(view, ys)
  {
    SummedListsAppend(view, xs, ys);
    AmountOfAppend(IssuedOutputs(xs), IssuedOutputs(ys), a);
    AmountOfAppend(SpentPrevouts(view, xs), SpentPrevouts(view, ys), a);
    AssetsOfAppend(IssuedOutputs(xs), IssuedOutputs(ys));
    AssetsOfAppend(SpentPrevouts(view, xs), SpentPrevouts(view, ys));
  }

  /** A transaction without an issuance changes nothing, wherever it stands
      in the batch. */
  lemma {:induction false} NonIssuingTransactionIgnored(view: View, xs: seq<Tx>, tx: Tx, ys: seq<Tx>, a: AssetID)
    requires !tx.hasIssuance
    ensures IssuedAssets(view, xs + [tx] + ys) == IssuedAssets(view, xs + ys)
    ensures NetIssued(view, xs + [tx] + ys, a) == NetIssued(view, xs + ys, a)
  {
    NoIssuingTransactions(view, [tx]);
    NetIssuedAdditive(view, xs, [tx], a);
    NetIssuedAdditive(view, xs + [tx], ys, a);
    NetIssuedAdditive(view, xs, ys, a);
  }

  /** Whether transaction `tx` moves asset `a`: one of its outputs, or an
      output one of its non-issuance inputs spends, is of that asset. */
  predicate Touches(view: View, tx: Tx, a: AssetID)
  {
    || (exists o :: o in tx.outputs && o.assetID == a)
    || (exists input :: input in tx.inputs && Spends(view, input, a))
  }

  /** Whether `input` is a non-issuance input spending an output of asset
      `a`. */
  predicate Spends(view: View, input: TxInput, a: AssetID)
  {
    !input.isIssuance && view(input.previous).assetID == a
  }

  lemma {:induction false} AppendSplitLast<T>(xs: seq<T>, ys: seq<T>)
    requires ys != []
    ensures xs + ys == (xs + ys[..|ys| - 1]) + [ys[|ys| - 1]]
  {
    assert ys == ys[..|ys| - 1] + [ys[|ys| - 1]];
  }

  lemma {:induction false} AppendAssoc<T>(xs: seq<T>, ys: seq<T>, zs: seq<T>)
    ensures xs + (ys + zs) == (xs + ys) + zs
  {
  }

  /** The members of a non-empty sequence are those of its prefix and its
      last element. */
  lemma {:induction false} MembersOfLast<T>(s: seq<T>)
    requires s != []
    ensures forall x :: x in s <==> x in s[..|s| - 1] || x == s[|s| - 1]
  {
    assert s == s[..|s| - 1] + [s[|s| - 1]];
  }

  /** The spent outputs of a list of inputs gain the asset of the last input's
      spent output, if it is not an issuance. */
  lemma {:induction false} PrevoutsAssetsStep(view: View, inputs: seq<TxInput>)
    requires inputs != []
    ensures AssetsOf(Prevouts(view, inputs))
         == AssetsOf(Prevouts(view, inputs[..|inputs| - 1]))
            + (if inputs[|inputs| - 1].isIssuance then {} else {view(inputs[|inputs| - 1].previous).assetID})
  {
    var init := inputs[..|inputs| - 1];
    var last := inputs[|inputs| - 1];
    var extra := if last.isIssuance then [] else [view(last.previous)];
    AssetsOfAppend(Prevouts(view, init), extra);
    if !last.isIssuance {
      assert extra[..0] == [];
    }
  }

  lemma {:induction false} PrevoutsMembers(view: View, inputs: seq<TxInput>, a: AssetID)
    ensures a in AssetsOf(Prevouts(view, inputs)) <==> exists input :: input in inputs && Spends(view, input, a)
  {
    if inputs != [] {
      var init := inputs[..|inputs| - 1];
      var last := inputs[|inputs| - 1];
      PrevoutsMembers(view, init, a);
      PrevoutsAssetsStep(view, inputs);
      MembersOfLast(inputs);
      if a in AssetsOf(Prevouts(view, inputs)) {
        if a in AssetsOf(Prevouts(view, init)) {
          var w :| w in init && Spends(view, w, a);
          assert w in inputs;
        } else {
          assert Spends(view, last, a);
        }
      }
    }
  }

  /** The assets a transaction moves are those of its outputs and of the
      outputs its non-issuance inputs spend. */
  lemma {:induction false} TouchedAssets(view: View, tx: Tx, a: AssetID)
    ensures Touches(view, tx, a) <==> a in AssetsOf(tx.outputs) + AssetsOf(Prevouts(view, tx.inputs))
  {
    AssetsOfMembers(tx.outputs, a);
    PrevoutsMembers(view, tx.inputs, a);
  }

  /** Appending a transaction adds the assets it moves if it issues, and
      nothing otherwise. */
  lemma {:induction false} IssuedAssetsStep(view: View, txs: seq<Tx>, tx: Tx)
    ensures IssuedAssets(view, txs + [tx])
         == IssuedAssets(view, txs)
            + (if tx.hasIssuance then AssetsOf(tx.outputs) + AssetsOf(Prevouts(view, tx.inputs)) else {})
  {
    assert (txs + [tx])[..|txs|] == txs;
    var extraOuts := if tx.hasIssuance then tx.outputs else [];
    var extraSpent := if tx.hasIssuance then Prevouts(view, tx.inputs) else [];
    AssetsOfAppend(IssuedOutputs(txs), extraOuts);
    AssetsOfAppend(SpentPrevouts(view, txs), extraSpent);
  }

  /** The result's keys are exactly the assets that some issuing transaction
      of the batch moves. */
  lemma {:induction false} IssuedAssetsExactly(view: View, txs: seq<Tx>, a: AssetID)
    ensures a in IssuedAssets(view, txs) <==> exists tx :: tx in txs && tx.hasIssuance && Touches(view, tx, a)
  {
    if txs != [] {
      var init := txs[..|txs| - 1];
      var last := txs[|txs| - 1];
      IssuedAssetsExactly(view, init, a);
      assert txs == init + [last];
      IssuedAssetsStep(view, init, last);
      TouchedAssets(view, last, a);
      assert forall tx :: tx in txs <==> tx in init || tx == last;
    }
  }
}
