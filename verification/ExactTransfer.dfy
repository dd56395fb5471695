/**
 * Whether a prepared transaction pays exactly the quote
 * (isExactQuotedPayShTransaction and validFeeSponsoredComputeBudget in
 * agent-orchestrator/src/pay-sh-reconciler.ts), and what executing an accepted
 * instruction list does to token balances. Parsing, signature checks, token
 * account derivation and UTF-8 decoding are parameters.
 */
module ExactTransfer {
  import opened Wrappers
  import opened Sorting
  import opened Sums
  import opened TransactionBytes
  import opened CanonicalJson
  import opened KeyOrder
  import opened Decimal

  type Address = Text

  datatype Program = TokenProgram | MemoProgram | ComputeBudgetProgram | OtherProgram

  datatype Instruction = Instruction(program: Program, accounts: seq<Address>, data: Bytes)

  const MAX_COMPUTE_UNITS: nat := 200_000
  const MAX_MICROLAMPORTS_PER_UNIT: nat := 10_000

  /** `payerSigned` and `signaturesValid` summarise the two signature checks. */
  datatype Prepared = Prepared(payerSigned: bool, signaturesValid: bool, instructions: seq<Instruction>)

  datatype Attempt = Attempt(
    payer: Address, asset: Address, recipient: Address, platform: Option<Address>, externalId: Text,
    amount: nat, ownerAmount: nat, platformAmount: nat)

  /** The derivations a check depends on: the token account of an owner, and UTF-8 decoding. */
  datatype Codec = Codec(tokenAccount: (Address, Address) -> Address, utf8: Bytes -> Text)

  datatype Transfer = Transfer(destination: Address, amount: nat)

  function LittleEndian(data: Bytes): nat {
    if |data| == 0 then 0 else data[0] + 256 * LittleEndian(data[1..])
  }

  predicate ValidComputeBudget(i: Instruction) {
    && |i.accounts| == 0
    && ((|i.data| == 5 && i.data[0] == 2 && LittleEndian(i.data[1..5]) <= MAX_COMPUTE_UNITS)
        || (|i.data| == 9 && i.data[0] == 3 && LittleEndian(i.data[1..9]) <= MAX_MICROLAMPORTS_PER_UNIT))
  }

  /** A token instruction is a checked transfer out of `source`, six decimals, authorised by the payer. */
  predicate CheckedTransfer(i: Instruction, source: Address, asset: Address, payer: Address) {
    && |i.accounts| == 4 && i.accounts[0] == source && i.accounts[1] == asset && i.accounts[3] == payer
    && |i.data| == 10 && i.data[0] == 12 && i.data[9] == 6
  }

  predicate Allowed(i: Instruction, source: Address, asset: Address, payer: Address) {
    match i.program
    case TokenProgram => CheckedTransfer(i, source, asset, payer)
    case MemoProgram => true
    case ComputeBudgetProgram => ValidComputeBudget(i)
    case OtherProgram => false
  }

  function TransferOf(i: Instruction): Transfer
    requires |i.accounts| == 4 && |i.data| == 10
  {
    Transfer(i.accounts[2], LittleEndian(i.data[1..9]))
  }

  /** The transfers of a list of allowed instructions, in their order. */
  function Transfers(instructions: seq<Instruction>): seq<Transfer>
    requires forall i :: i in instructions && i.program.TokenProgram? ==> |i.accounts| == 4 && |i.data| == 10
  {
    if |instructions| == 0 then []
    else
      var earlier, last := Transfers(instructions[..|instructions| - 1]), instructions[|instructions| - 1];
      if last.program.TokenProgram? then earlier + [TransferOf(last)] else earlier
  }

  ghost predicate AllAllowed(instructions: seq<Instruction>, source: Address, asset: Address, payer: Address) {
    forall i :: i in instructions ==> Allowed(i, source, asset, payer)
  }

  /** What the buyer agreed to: the platform and the owner, once each. */
  function Quoted(a: Attempt, codec: Codec): seq<Transfer>
    requires a.platform.Some?
  {
    [Transfer(codec.tokenAccount(a.asset, a.platform.value), a.platformAmount),
     Transfer(codec.tokenAccount(a.asset, a.recipient), a.ownerAmount)]
  }

  /** The answer without loops, strings or sorting. */
  ghost predicate Exact(a: Attempt, prepared: Prepared, codec: Codec) {
    && |a.externalId| > 0 && a.platform.Some? && prepared.payerSigned && prepared.signaturesValid
    && AllAllowed(prepared.instructions, codec.tokenAccount(a.asset, a.payer), a.asset, a.payer)
    && (exists i :: i in prepared.instructions && i.program.MemoProgram? && codec.utf8(i.data) == a.externalId)
    && a.ownerAmount + a.platformAmount == a.amount
    && multiset(Transfers(prepared.instructions)) == multiset(Quoted(a, codec))
  }

  // ---- the sorted strings ----

  function Encoded(t: Transfer): Text {
    t.destination + [0] + Printed(t.amount)
  }

  function EncodedAll(ts: seq<Transfer>): (r: seq<Text>)
    ensures |r| == |ts| && forall i :: 0 <= i < |r| ==> r[i] == Encoded(ts[i])
  {
    seq(|ts|, i requires 0 <= i < |ts| => Encoded(ts[i]))
  }

  function TextOrder(): (Text, Text) -> bool {
    (s: Text, t: Text) => KeyLe(TypeScript, s, t)
  }

  /** The amount is digits, so the last zero unit separates it from the destination. */
  lemma EncodedIsInjective(s: Transfer, t: Transfer)
    requires Encoded(s) == Encoded(t)
    ensures s == t
  {
    var x := Encoded(s);
    ZeroSeparates(s);
    ZeroSeparates(t);
    assert s.destination == x[..|s.destination|] == t.destination;
    assert Printed(s.amount) == x[|s.destination| + 1..] == Printed(t.amount);
    DecimalShape(s.amount);
    DecimalShape(t.amount);
  }

  lemma ZeroSeparates(t: Transfer)
    ensures var x, n := Encoded(t), |t.destination|; n < |x| && x[n] == 0 && forall k :: n < k < |x| ==> x[k] != 0
  {
    var digits := Printed(t.amount);
    assert forall i :: 0 <= i < |digits| ==> IsDigit(digits[i]);
  }

  lemma {:induction false} EncodedCounts(ts: seq<Transfer>, t: Transfer)
    ensures multiset(EncodedAll(ts))[Encoded(t)] == multiset(ts)[t]
  {
    if |ts| > 0 {
      var init, last := ts[..|ts| - 1], ts[|ts| - 1];
      EncodedCounts(init, t);
      assert ts == init + [last] && EncodedAll(ts) == EncodedAll(init) + [Encoded(last)];
      if Encoded(last) == Encoded(t) {
        EncodedIsInjective(last, t);
      }
    }
  }

  /** Encoding keeps and reveals multiplicities. */
  lemma EncodedMultisets(a: seq<Transfer>, b: seq<Transfer>)
    ensures multiset(EncodedAll(a)) == multiset(EncodedAll(b)) <==> multiset(a) == multiset(b)
  {
    hide Encoded;
    forall t: Transfer ensures
      multiset(EncodedAll(a))[Encoded(t)] == multiset(a)[t] && multiset(EncodedAll(b))[Encoded(t)] == multiset(b)[t] {
      EncodedCounts(a, t);
      EncodedCounts(b, t);
    }
    var x, y := multiset(EncodedAll(a)), multiset(EncodedAll(b));
    if multiset(a) == multiset(b) {
      forall s: Text ensures x[s] == y[s] {
        if s in EncodedAll(a) {
          var i :| 0 <= i < |a| && EncodedAll(a)[i] == s;
          assert s == Encoded(a[i]);
        } else if s in EncodedAll(b) {
          var i :| 0 <= i < |b| && EncodedAll(b)[i] == s;
          assert s == Encoded(b[i]);
        }
      }
    } else if x == y {
      assert forall t: Transfer :: multiset(a)[t] == x[Encoded(t)] == y[Encoded(t)] == multiset(b)[t];
    }
  }

  /** Comparing the sorted strings is comparing the transfers as multisets. */
  lemma SortedStringsCompareMultisets(a: seq<Transfer>, b: seq<Transfer>)
    ensures Sorted(EncodedAll(a), TextOrder()) == Sorted(EncodedAll(b), TextOrder()) <==> multiset(a) == multiset(b)
  {
    var le := TextOrder();
    forall s: Text, t: Text ensures le(s, t) || le(t, s) {
      KeyLeIsTotal(TypeScript, s, t);
    }
    forall s: Text, t: Text, u: Text | le(s, t) && le(t, u) ensures le(s, u) {
      KeyLeIsTransitive(TypeScript, s, t, u);
    }
    forall s, t | s in EncodedAll(a) && t in EncodedAll(a) && le(s, t) && le(t, s) ensures s == t {
      KeyLeDecides(TypeScript, s, t);
    }
    SortedAlike(EncodedAll(a), EncodedAll(b), le);
    EncodedMultisets(a, b);
  }

  // ---- the check itself ----

  method IsExactQuotedTransaction(a: Attempt, prepared: Prepared, codec: Codec) returns (exact: bool)
    ensures exact <==> Exact(a, prepared, codec)
  {
    if |a.externalId| == 0 || a.platform.None? || !prepared.payerSigned || !prepared.signaturesValid {
      return false;
    }
    var source := codec.tokenAccount(a.asset, a.payer);
    var allowed, actual, exactResourceMemo := CollectTransfers(a, prepared.instructions, codec, source);
    if !allowed {
      return false;
    }
    var expected := Sorted(EncodedAll(Quoted(a, codec)), TextOrder());
    SortedStringsCompareMultisets(Transfers(prepared.instructions), Quoted(a, codec));
    return exactResourceMemo && a.ownerAmount + a.platformAmount == a.amount
      && |actual| == |expected| && Sorted(actual, TextOrder()) == expected;
  }

  /** The loop over the instructions. */
  method CollectTransfers(a: Attempt, instructions: seq<Instruction>, codec: Codec, source: Address)
    returns (allowed: bool, actual: seq<Text>, memo: bool)
    ensures allowed <==> AllAllowed(instructions, source, a.asset, a.payer)
    ensures allowed ==> actual == EncodedAll(Transfers(instructions))
    ensures allowed ==>
      (memo <==> exists i :: i in instructions && i.program.MemoProgram? && codec.utf8(i.data) == a.externalId)
  {
    hide LittleEndian, ValidComputeBudget, Encoded;
    actual, memo := [], false;
    var k := 0;
    while k < |instructions|
      invariant 0 <= k <= |instructions|
      invariant AllAllowed(instructions[..k], source, a.asset, a.payer)
      invariant actual == EncodedAll(Transfers(instructions[..k]))
      invariant memo <==> exists i ::
        i in instructions[..k] && i.program.MemoProgram? && codec.utf8(i.data) == a.externalId
    {
      var instruction := instructions[k];
      assert instruction in instructions;
      assert instructions[..k + 1] == instructions[..k] + [instruction];
      assert instructions[..k + 1][..k] == instructions[..k];
      match instruction.program {
        case TokenProgram =>
          if !CheckedTransfer(instruction, source, a.asset, a.payer) {
            return false, actual, memo;
          }
          actual := actual + [Encoded(TransferOf(instruction))];
        case MemoProgram =>
          if codec.utf8(instruction.data) == a.externalId {
            memo := true;
          }
        case ComputeBudgetProgram =>
          if !ValidComputeBudget(instruction) {
            return false, actual, memo;
          }
        case OtherProgram =>
          return false, actual, memo;
      }
      k := k + 1;
    }
    assert instructions[..k] == instructions;
    allowed := true;
  }

  // ---- what executing it does ----

  type Balances = map<Address, nat>

  function Balance(b: Balances, account: Address): nat {
    if account in b then b[account] else 0
  }

  function Move(b: Balances, from: Address, to: Address, amount: nat): Option<Balances> {
    if Balance(b, from) < amount then None
    else
      var debited := b[from := Balance(b, from) - amount];
      Some(debited[to := Balance(debited, to) + amount])
  }

  /** The token program on a checked transfer; no other allowed program touches token balances. */
  function Execute(b: Balances, i: Instruction): Option<Balances> {
    if i.program.TokenProgram? then
      if |i.accounts| == 4 && |i.data| == 10 && i.data[0] == 12 then
        Move(b, i.accounts[0], i.accounts[2], LittleEndian(i.data[1..9]))
      else None
    else Some(b)
  }

  function ExecuteAll(b: Balances, instructions: seq<Instruction>): Option<Balances> {
    if |instructions| == 0 then Some(b)
    else
      var before := ExecuteAll(b, instructions[..|instructions| - 1]);
      if before.None? then None else Execute(before.value, instructions[|instructions| - 1])
  }

  function ReceivedBy(account: Address): Transfer -> nat {
    (t: Transfer) => if t.destination == account then t.amount else 0
  }

  function AmountOf(t: Transfer): nat { t.amount }

  /** Net effect on one account of transfers that all leave `source`. */
  function Net(ts: seq<Transfer>, source: Address, account: Address): int {
    SumOf(ts, ReceivedBy(account)) - if account == source then SumOf(ts, AmountOf) else 0
  }

  lemma {:induction false} ExecutionNets(
      b: Balances, instructions: seq<Instruction>, source: Address, asset: Address, payer: Address, account: Address)
    requires AllAllowed(instructions, source, asset, payer) && ExecuteAll(b, instructions).Some?
    ensures Balance(ExecuteAll(b, instructions).value, account)
      == Balance(b, account) + Net(Transfers(instructions), source, account)
  {
    if |instructions| > 0 {
      var init, last := instructions[..|instructions| - 1], instructions[|instructions| - 1];
      assert instructions == init + [last];
      assert forall i :: i in init ==> i in instructions;
      ExecutionNets(b, init, source, asset, payer, account);
      assert Allowed(last, source, asset, payer);
      if last.program.TokenProgram? {
        var earlier, t := Transfers(init), TransferOf(last);
        assert (earlier + [t])[..|earlier|] == earlier;
      }
    }
  }

  /**
   * Executing any accepted instruction list, whatever the order of its
   * transfers, changes every balance exactly as paying the platform and the
   * owner once each: the payer's account gives up the quoted amount.
   */
  lemma ExactPaymentEffect(a: Attempt, prepared: Prepared, codec: Codec, b: Balances, account: Address)
    requires Exact(a, prepared, codec) && ExecuteAll(b, prepared.instructions).Some?
    ensures var source := codec.tokenAccount(a.asset, a.payer);
      Balance(ExecuteAll(b, prepared.instructions).value, account)
        == Balance(b, account)
           + (if account == codec.tokenAccount(a.asset, a.platform.value) then a.platformAmount else 0)
           + (if account == codec.tokenAccount(a.asset, a.recipient) then a.ownerAmount else 0)
           - (if account == source then a.amount else 0)
  {
    var source := codec.tokenAccount(a.asset, a.payer);
    ExecutionNets(b, prepared.instructions, source, a.asset, a.payer, account);
    var ts, quoted := Transfers(prepared.instructions), Quoted(a, codec);
    SumOfPermutation(ts, quoted, ReceivedBy(account));
    SumOfPermutation(ts, quoted, AmountOf);
    TwoTransfers(quoted, ReceivedBy(account));
    TwoTransfers(quoted, AmountOf);
  }

  lemma TwoTransfers(ts: seq<Transfer>, f: Transfer -> nat)
    requires |ts| == 2
    ensures SumOf(ts, f) == f(ts[0]) + f(ts[1])
  {
    assert ts[..1][..0] == [];
    assert SumOf(ts[..1], f) == f(ts[0]);
  }
}
