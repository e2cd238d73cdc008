# TxVM stacks and fedchain issuance accounting, in Dafny

This project models two pieces of the Chain protocol code and proves properties
of them.

**The TxVM stack substrate** (`protocol/txvm/stack.go`):
- the eighteen stack codes (`StackData = 0` … `StackVM1TxHeader = 17`);
- the general `stack` of tagged values (`Int64`, `Bytes`, `VMTuple`), with
  `Len`, `Push`, the typed pushes, `Pop`, the typed pops, `Peek`, `Roll` and
  `Bury`;
- the `tupleStack`, which has the same operations over tuples.

Each stack type is a class (`Txvm.Stack`, `Txvm.TupleStack`). Its field `elems`
is the Go slice `a`, bottom first. The methods that change the slice say so
with `modifies this`. Each method's postcondition gives the new contents as a
function of the old ones. The reordering functions `Reorder.Rolled` and
`Reorder.Buried` specify `Roll` and `Bury`, and lemmas about those functions
state what callers can rely on:
- both are permutations;
- `Roll(1)` and `Bury(0)` change nothing;
- `Roll(n)` then `Bury(n - 1)` restores the stack, and so does `Bury(m)` then
  `Roll(m + 1)`.

Every place where the Go code panics (an empty stack, a depth out of range, a
typed pop of the wrong variant) is modelled as a result:
- `Result.Panicked` or `Outcome.Failed`, naming the runtime error;
- the stack is left exactly as Go leaves it at the panic. `Bury` and the typed
  pops remove the top before they can fail.

The code counts `Roll`'s depth from 1 (`i := len(s.a) - int(n)`, so `Roll(1)`
takes the top and `Roll(0)` panics). Some descriptions of TxVM count it from 0,
like `Bury`'s. The model follows the code. With the code's counting,
`Roll(n)` is undone by `Bury(n - 1)` (`Reorder.RollThenBuryRestores`), and
`Reorder.SameArgumentRollThenBuryDoesNotRestore` shows that `Roll(n)` followed
by `Bury(n)` does not restore a stack of distinct elements.

**`sumIssued`** (`fedchain/tx.go:78-96`) computes the per-asset amount that
a batch of transactions issues:
- every output of an issuing transaction is added to its asset;
- the output spent by each of that transaction's non-issuance inputs is
  subtracted from its asset;
- all arithmetic is wrapping `uint64`.

`Fedchain.SumIssued` keeps the nested loops and the in-place map updates. Each
loop is specified by a recursive function of what it has seen so far:
`Summed` for the batch, `Credited` for the outputs, `Debited` for the inputs.
Lemmas connect these functions to the meaning stated in the source's doc
comment: each key is an asset that the issuing transactions output or spend,
and each entry is the exact net issuance of that asset modulo 2^64.

Modules: `MachineInts` (the Go integer types and their wrap-around), `Values`
(the TxVM value type), `Reorder` (the roll and bury orders on sequences),
`Txvm` (stack codes and the two stack classes), `Bc` (the transaction fields
the accounting reads) and `Fedchain` (`sumIssued`).

## Model

| member | source | states |
|---|---|---|
| Txvm.Code | protocol/txvm/stack.go:6-26 | every stack has a code in 0..17, and the code is 10 or more exactly for the VM1 stacks |
| Txvm.StackOfCode | protocol/txvm/stack.go:6-26 | an instruction's code selects a stack exactly when it lies in 0..17 |
| Txvm.CodesIdentifyStacks | protocol/txvm/stack.go:6-26 | codes and stacks correspond one to one, in both directions |
| Txvm.Stack.constructor | protocol/txvm/stack.go:28-30 | a new stack is empty |
| Txvm.Stack.Len | protocol/txvm/stack.go:32-34 | the result is the number of elements |
| Txvm.Stack.Push | protocol/txvm/stack.go:36-38 | `v` is appended as the new top; the length grows by one and the elements below are unchanged |
| Txvm.Stack.PushBytes | protocol/txvm/stack.go:40 | the byte string is pushed as a `Bytes` value |
| Txvm.Stack.PushInt64 | protocol/txvm/stack.go:41 | the integer is pushed as an `Int64` value |
| Txvm.Stack.PushTuple | protocol/txvm/stack.go:42 | the tuple is pushed as a `VMTuple` value |
| Txvm.Stack.Pop | protocol/txvm/stack.go:44-48 | on a non-empty stack: returns the top and leaves the old prefix, so that old = new + [top]; on an empty stack: an index panic, with nothing changed |
| Txvm.Stack.PopBytes | protocol/txvm/stack.go:50 | pops; succeeds exactly when the top was `Bytes`, returning its contents; otherwise an interface-conversion panic with the top already removed |
| Txvm.Stack.PopInt64 | protocol/txvm/stack.go:51 | as `PopBytes`, for `Int64` |
| Txvm.Stack.PopTuple | protocol/txvm/stack.go:52 | as `PopBytes`, for `VMTuple` |
| Txvm.Stack.Peek | protocol/txvm/stack.go:54-56 | succeeds exactly on a non-empty stack, returns the top element, changes nothing |
| Txvm.Stack.Roll | protocol/txvm/stack.go:58-63 | for a depth 1 ≤ n ≤ Len the new contents are `Rolled(old, n)`; otherwise an index panic with nothing changed |
| Txvm.Stack.Bury | protocol/txvm/stack.go:65-69 | on an empty stack: an index panic with nothing changed; for a depth 0 ≤ n ≤ Len − 1 the new contents are `Buried(old, n)`; otherwise a slice-bounds panic, with the top already popped |
| Txvm.TupleStack.constructor | protocol/txvm/stack.go:71-73 | a new tuple stack is empty |
| Txvm.TupleStack.Len | protocol/txvm/stack.go:75-77 | the result is the number of tuples |
| Txvm.TupleStack.Pop | protocol/txvm/stack.go:79-83 | same contract as `Stack.Pop`, over tuples |
| Txvm.TupleStack.Push | protocol/txvm/stack.go:85-87 | same contract as `Stack.Push`, over tuples |
| Txvm.TupleStack.Peek | protocol/txvm/stack.go:89-91 | same contract as `Stack.Peek`, over tuples |
| Txvm.TupleStack.Roll | protocol/txvm/stack.go:93-98 | same contract as `Stack.Roll`; the index arithmetic is the same |
| Txvm.TupleStack.Bury | protocol/txvm/stack.go:100-104 | same contract as `Stack.Bury`; the index arithmetic is the same |
| Txvm.TypedRoundTrips | protocol/txvm/stack.go:40-52 | `PushBytes(b)` then `PopBytes()` gives back `b`, and likewise for `Int64` and tuples; the stack ends as it started |
| Txvm.RollThenBuryRoundTrip | protocol/txvm/stack.go:58-69 | on any stack, `Roll(n)` then `Bury(n − 1)` both succeed and restore the stack |
| Txvm.BuryThenRollRoundTrip | protocol/txvm/stack.go:58-69 | on any stack, `Bury(m)` then `Roll(m + 1)` both succeed and restore the stack |
| Reorder.Rolled | protocol/txvm/stack.go:58-63 | the element at depth n ends on top; the elements below it stay in place; those above it move down one; the length is unchanged |
| Reorder.RollPermutes | protocol/txvm/stack.go:58-63 | Roll neither loses nor duplicates an element: the multiset of elements is unchanged |
| Reorder.Buried | protocol/txvm/stack.go:65-69 | the top ends at depth n of the rest; the elements below it stay in place; those above it move up one; the length is unchanged |
| Reorder.BuryPermutes | protocol/txvm/stack.go:65-69 | Bury neither loses nor duplicates an element: the multiset of elements is unchanged |
| Reorder.RollTopIsIdentity | protocol/txvm/stack.go:58-63 | `Roll(1)` changes nothing |
| Reorder.BuryZeroIsIdentity | protocol/txvm/stack.go:65-69 | `Bury(0)` changes nothing |
| Reorder.RollThenBuryRestores | protocol/txvm/stack.go:58-69 | `Buried(Rolled(s, n), n − 1) == s` for every depth Roll accepts |
| Reorder.BuryThenRollRestores | protocol/txvm/stack.go:58-69 | `Rolled(Buried(s, m), m + 1) == s` for every depth Bury accepts |
| Reorder.SameArgumentRollThenBuryDoesNotRestore | protocol/txvm/stack.go:58-69 | for every depth 1 <= n < len on a stack of distinct elements, `Roll(n)` followed by `Bury(n)` with the same argument does not restore the stack |
| MachineInts.DepthIndexWrapIsHarmless | protocol/txvm/stack.go:58-69 | for every `int64` depth, the wrapping 64-bit `len - int(n)` is in range for Roll's index and for Bury's slice exactly when the exact difference is |
| Fedchain.SumIssued | fedchain/tx.go:78-96 | the keys are exactly the assets of the issuing transactions' outputs and spent outputs; each entry is that asset's output total minus its spent total, modulo 2^64; with no issuing transaction the map is empty |
| Fedchain.Credited | fedchain/tx.go:84-86 | crediting outputs adds exactly their assets to the keys |
| Fedchain.Debited | fedchain/tx.go:87-93 | debiting inputs adds exactly the assets of the outputs their non-issuance inputs spend to the keys |
| Fedchain.SummedMeaning | fedchain/tx.go:76-96 | the loop over the batch yields the net issuance of each issued or spent asset modulo 2^64, keyed by exactly those assets, and the empty map when nothing issues |
| Fedchain.SummedTally | fedchain/tx.go:80-94 | after any prefix of the batch, the loop's map is a tally of the outputs and spent outputs summed so far: their assets exactly as keys, each mapped to its net amount modulo 2^64 |
| Fedchain.TransactionTally | fedchain/tx.go:84-93 | one issuing transaction's two inner loops turn a tally of the earlier transactions into a tally that includes its outputs and spent outputs |
| Fedchain.CreditedTally | fedchain/tx.go:84-86 | the output loop turns a tally into the tally with the outputs appended |
| Fedchain.DebitedTally | fedchain/tx.go:87-93 | the input loop skips issuance inputs and turns a tally into the tally with the outputs the other inputs spend appended |
| Fedchain.TallyCredit | fedchain/tx.go:85 | one wrapping `+=` of an output's amount on its asset's entry (a missing entry read as 0) turns a tally into the tally with that output appended |
| Fedchain.TallyDebit | fedchain/tx.go:92 | one wrapping `-=` of a spent output's amount on its asset's entry turns a tally into the tally with that spent output appended |
| Fedchain.TallyLookup | fedchain/tx.go:85 | reading any asset from a tally, a missing entry giving Go's zero value, yields that asset's net amount modulo 2^64 |
| Fedchain.EntryStep | fedchain/tx.go:84-93 | a wrapping add or subtract on a wrapped entry equals wrapping the exact result |
| Fedchain.NoIssuingTransactions | fedchain/tx.go:80-83 | a batch without issuing transactions, the empty batch included, sums nothing and nets 0 for every asset |
| Fedchain.NonIssuingTransactionIgnored | fedchain/tx.go:81-83 | inserting a transaction without an issuance anywhere in a batch changes neither the keys nor any net amount |
| Fedchain.NetIssuedAdditive | fedchain/tx.go:80-95 | the net issuance and the issued assets of a concatenated batch are the sums and unions of those of its parts |
| Fedchain.PrevoutsMembers | fedchain/tx.go:87-93 | an asset is among the spent outputs exactly when some non-issuance input spends an output of it |
| Fedchain.TouchedAssets | fedchain/tx.go:84-93 | a transaction moves an asset exactly when one of its outputs is of it or one of its non-issuance inputs spends an output of it |
| Fedchain.IssuedAssetsStep | fedchain/tx.go:80-95 | appending a transaction adds the assets it moves when it issues, and no asset otherwise |
| Fedchain.IssuedAssetsExactly | fedchain/tx.go:79-95 | an asset is a key exactly when some issuing transaction has an output of it or a non-issuance input spending an output of it |

## Left out

- `AddTx` and `applyTx` (`fedchain/tx.go:27-74`) are left out. They do store I/O, context handling, timing metrics and callback fan-out.
- Transaction validation, the state readers and the store are left out. `sumIssued` reads the state only through `view.Output`, which is a total function parameter (`Bc.View`).
- Fedchain.SumIssued: does not model `view.Output` returning nil for an unknown outpoint, which would make Go dereference nil and panic. The view always resolves an outpoint.
- Hashes and asset IDs are modelled as the number their 32 bytes spell (`Bc.Hash`). Only their identity matters to the accounting.
- Transactions have only the fields the accounting reads. `HasIssuance()` and `IsIssuance()` are boolean fields, and scripts, reference data and metadata are left out.
- `Value`, `Bytes`, `Int64` and `VMTuple` are not defined in `stack.go`. `Values.Value` is a closed three-variant datatype.
- Txvm.Stack.Len: returns the length as a `nat`. The Go `int64(len(s.a))` conversion cannot overflow, because a Go slice length is below 2^63.
- Txvm.TupleStack.Len: same as `Txvm.Stack.Len`.
- Slice aliasing is not modelled. `Roll` appends in place into the shared backing array, while `Bury` builds a fresh one. Only the resulting contents are modelled.
- The index `len(s.a) - int(n)` is computed exactly. `MachineInts.DepthIndexWrapIsHarmless` proves that, on a 64-bit platform, Go's wrapping computation of it panics for exactly the same depths.
- The 32-bit platform is not modelled: there `int(n)` truncates the `int64` depth, so for example `Roll(1<<32 + 1)` acts as `Roll(1)` instead of panicking.
- Txvm.BuryThenRollRoundTrip: requires `m < 2^63 - 1`, so that the `int64` argument `m + 1` exists. Any depth Bury accepts on a real stack meets this.
- The opcodes, the rules for which stack accepts which values, and the VM's checks are left out. None of them is part of `stack.go`.
- `crypto/ca/value_proof_test.go` is left out. It tests elliptic-curve value proofs, which this model does not cover.
