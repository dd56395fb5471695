/**
 * Which instruction lists pass the quoted-transfer check, told by building them:
 * the two transfer instructions the buyer agreed to, in any order, memos with
 * the right one among them, and nothing else but bounded fee settings.
 */
module ExactInstructions {
  import opened Wrappers
  import opened TransactionBytes
  import opened ExactTransfer

  /** A number as `n` bytes, the lowest first. */
  function LowFirst(value: nat, n: nat): (bytes: Bytes)
    ensures |bytes| == n
  {
    if n == 0 then [] else [value % 256] + LowFirst(value / 256, n - 1)
  }

  function Capacity(n: nat): nat {
    if n == 0 then 1 else 256 * Capacity(n - 1)
  }

  lemma {:induction false} LowFirstReadsBack(value: nat, n: nat)
    requires value < Capacity(n)
    ensures LittleEndian(LowFirst(value, n)) == value
  {
    if n > 0 {
      LowFirstReadsBack(value / 256, n - 1);
      assert LowFirst(value, n)[1..] == LowFirst(value / 256, n - 1);
    }
  }

  lemma {:induction false} BytesAreTheirNumber(data: Bytes)
    ensures LittleEndian(data) < Capacity(|data|) && LowFirst(LittleEndian(data), |data|) == data
  {
    if |data| > 0 {
      BytesAreTheirNumber(data[1..]);
      LowestDigit(data[0], LittleEndian(data[1..]));
      hide LowFirst;
      PutBefore(data, LittleEndian(data));
    }
  }

  lemma LowestDigit(low: nat, rest: nat)
    requires low < 256
    ensures (low + 256 * rest) % 256 == low && (low + 256 * rest) / 256 == rest
  {
  }

  lemma PutBefore(data: Bytes, value: nat)
    requires |data| > 0 && value % 256 == data[0] && LowFirst(value / 256, |data| - 1) == data[1..]
    ensures LowFirst(value, |data|) == data
  {
  }

  lemma Capacities()
    ensures Capacity(4) == 0x1_0000_0000 && Capacity(8) == 0x1_0000_0000_0000_0000
  {
    assert Capacity(1) == 256 && Capacity(2) == 65536 && Capacity(3) == 16777216;
    assert Capacity(5) == 256 * Capacity(4) && Capacity(6) == 256 * Capacity(5) && Capacity(7) == 256 * Capacity(6);
  }

  // ---- the instructions as the token and the fee program define them ----

  /** Checked transfer, instruction 12, of a token with six decimals. */
  function Pay(source: Address, asset: Address, payer: Address, t: Transfer): Instruction {
    Instruction(TokenProgram, [source, asset, t.destination, payer], [12] + LowFirst(t.amount, 8) + [6])
  }

  /** At most 200,000 units at 10,000 millionths of a lamport each: two thousand lamports. */
  ghost predicate SetsFees(i: Instruction) {
    || (exists units: nat :: units <= 200_000 && i == Instruction(ComputeBudgetProgram, [], [2] + LowFirst(units, 4)))
    || (exists price: nat :: price <= 10_000 && i == Instruction(ComputeBudgetProgram, [], [3] + LowFirst(price, 8)))
  }

  function Tokens(instructions: seq<Instruction>): (r: seq<Instruction>)
    ensures forall i :: i in r <==> i in instructions && i.program.TokenProgram?
  {
    if |instructions| == 0 then []
    else
      var earlier, last := Tokens(instructions[..|instructions| - 1]), instructions[|instructions| - 1];
      if last.program.TokenProgram? then earlier + [last] else earlier
  }

  lemma BudgetExactly(i: Instruction)
    requires i.program.ComputeBudgetProgram?
    ensures ValidComputeBudget(i) <==> SetsFees(i)
  {
    Capacities();
    if ValidComputeBudget(i) {
      SettingIsBuilt(i);
    }
    if SetsFees(i) {
      if n: nat :| n <= 200_000 && i == Instruction(ComputeBudgetProgram, [], [2] + LowFirst(n, 4)) {
        BuiltReadsBack(2, n, 4);
      } else {
        var n: nat :| n <= 10_000 && i == Instruction(ComputeBudgetProgram, [], [3] + LowFirst(n, 8));
        BuiltReadsBack(3, n, 8);
      }
    }
  }

  /** Its bytes are its kind and its number. */
  lemma SettingIsBuilt(i: Instruction)
    requires i.program.ComputeBudgetProgram? && i.accounts == [] && |i.data| > 0
    ensures var value := LittleEndian(i.data[1..|i.data|]);
      i == Instruction(ComputeBudgetProgram, [], [i.data[0]] + LowFirst(value, |i.data| - 1))
  {
    var rest := i.data[1..|i.data|];
    BytesAreTheirNumber(rest);
    assert i.data == [i.data[0]] + rest;
    hide LowFirst, LittleEndian;
  }

  lemma BuiltReadsBack(kind: Byte, value: nat, n: nat)
    requires value < Capacity(n)
    ensures var data := [kind] + LowFirst(value, n);
      |data| == n + 1 && LittleEndian(data[1..n + 1]) == value
  {
    LowFirstReadsBack(value, n);
    assert ([kind] + LowFirst(value, n))[1..n + 1] == LowFirst(value, n);
  }

  lemma TransferExactly(i: Instruction, source: Address, asset: Address, payer: Address)
    requires i.program.TokenProgram?
    ensures CheckedTransfer(i, source, asset, payer) ==> i == Pay(source, asset, payer, TransferOf(i))
  {
    if CheckedTransfer(i, source, asset, payer) {
      BytesAreTheirNumber(i.data[1..9]);
      assert i.data == [12] + i.data[1..9] + [6];
      assert i.accounts == [source, asset, i.accounts[2], payer];
    }
  }

  lemma PayIsTransfer(source: Address, asset: Address, payer: Address, t: Transfer)
    requires t.amount < Capacity(8)
    ensures var i := Pay(source, asset, payer, t); CheckedTransfer(i, source, asset, payer) && TransferOf(i) == t
  {
    LowFirstReadsBack(t.amount, 8);
    assert Pay(source, asset, payer, t).data[1..9] == LowFirst(t.amount, 8);
  }

  // ---- counting ----

  function Paid(source: Address, asset: Address, payer: Address, ts: seq<Transfer>): (r: seq<Instruction>)
    ensures |r| == |ts| && forall k :: 0 <= k < |r| ==> r[k] == Pay(source, asset, payer, ts[k])
  {
    seq(|ts|, k requires 0 <= k < |ts| => Pay(source, asset, payer, ts[k]))
  }

  /** What is left of an allowed list without memos and fee settings is its transfers, built again. */
  lemma {:induction false} TokensArePaid(
      instructions: seq<Instruction>, source: Address, asset: Address, payer: Address)
    requires AllAllowed(instructions, source, asset, payer)
    ensures Tokens(instructions) == Paid(source, asset, payer, Transfers(instructions))
    ensures forall t :: t in Transfers(instructions) ==> t.amount < Capacity(8)
  {
    if |instructions| > 0 {
      var init, last := instructions[..|instructions| - 1], instructions[|instructions| - 1];
      assert instructions == init + [last];
      assert forall i :: i in init ==> i in instructions;
      TokensArePaid(init, source, asset, payer);
      assert Allowed(last, source, asset, payer);
      if last.program.TokenProgram? {
        TransferExactly(last, source, asset, payer);
        BytesAreTheirNumber(last.data[1..9]);
      }
    }
  }

  lemma {:induction false} PaidCounts(source: Address, asset: Address, payer: Address, ts: seq<Transfer>, t: Transfer)
    requires t.amount < Capacity(8) && forall x :: x in ts ==> x.amount < Capacity(8)
    ensures multiset(Paid(source, asset, payer, ts))[Pay(source, asset, payer, t)] == multiset(ts)[t]
  {
    if |ts| > 0 {
      var init, last := ts[..|ts| - 1], ts[|ts| - 1];
      assert ts == init + [last];
      PaidCounts(source, asset, payer, init, t);
      assert Paid(source, asset, payer, ts) == Paid(source, asset, payer, init) + [Pay(source, asset, payer, last)];
      PayIsTransfer(source, asset, payer, t);
      PayIsTransfer(source, asset, payer, last);
    }
  }

  lemma PaidMultisets(source: Address, asset: Address, payer: Address, a: seq<Transfer>, b: seq<Transfer>)
    requires forall x :: x in a || x in b ==> x.amount < Capacity(8)
    ensures multiset(Paid(source, asset, payer, a)) == multiset(Paid(source, asset, payer, b))
      <==> multiset(a) == multiset(b)
  {
    hide Pay;
    var x, y := multiset(Paid(source, asset, payer, a)), multiset(Paid(source, asset, payer, b));
    forall t: Transfer | t.amount < Capacity(8)
      ensures multiset(a)[t] == x[Pay(source, asset, payer, t)] && multiset(b)[t] == y[Pay(source, asset, payer, t)]
    {
      PaidCounts(source, asset, payer, a, t);
      PaidCounts(source, asset, payer, b, t);
    }
    if multiset(a) == multiset(b) {
      forall i: Instruction ensures x[i] == y[i] {
        if i in Paid(source, asset, payer, a) {
          var k :| 0 <= k < |a| && Paid(source, asset, payer, a)[k] == i;
          assert a[k] in a;
        } else if i in Paid(source, asset, payer, b) {
          var k :| 0 <= k < |b| && Paid(source, asset, payer, b)[k] == i;
          assert b[k] in b;
        }
      }
    } else if x == y {
      forall t: Transfer ensures multiset(a)[t] == multiset(b)[t] {
        if t !in a && t !in b {
          assert multiset(a)[t] == 0 == multiset(b)[t];
        }
      }
    }
  }

  /**
   * Exactly the lists that pass: signed, with the memo of the resource, the
   * platform's and the owner's transfer once each, and besides them memos and
   * bounded fee settings only.
   */
  lemma PassesExactly(a: Attempt, prepared: Prepared, codec: Codec)
    requires a.platform.Some? && a.ownerAmount < Capacity(8) && a.platformAmount < Capacity(8)
    ensures var source := codec.tokenAccount(a.asset, a.payer);
      var toPlatform := Transfer(codec.tokenAccount(a.asset, a.platform.value), a.platformAmount);
      var toOwner := Transfer(codec.tokenAccount(a.asset, a.recipient), a.ownerAmount);
      Exact(a, prepared, codec) <==>
        && prepared.payerSigned && prepared.signaturesValid
        && a.externalId != [] && a.amount == a.platformAmount + a.ownerAmount
        && multiset(Tokens(prepared.instructions))
          == multiset{Pay(source, a.asset, a.payer, toPlatform), Pay(source, a.asset, a.payer, toOwner)}
        && OnlyThese(prepared.instructions)
        && Noted(prepared.instructions, codec, a.externalId)
  {
    hide *;
    var source := codec.tokenAccount(a.asset, a.payer);
    var quoted, list := Quoted(a, codec), prepared.instructions;
    QuotedArePaid(a, codec);
    ExactByParts(a, prepared, codec);
    AllowedByParts(list, source, a.asset, a.payer, quoted);
    if AllAllowed(list, source, a.asset, a.payer) {
      AllowedArePaid(list, source, a.asset, a.payer, quoted);
    }
  }

  lemma AllowedArePaid(
      instructions: seq<Instruction>, source: Address, asset: Address, payer: Address, ts: seq<Transfer>)
    requires AllAllowed(instructions, source, asset, payer) && forall t :: t in ts ==> t.amount < Capacity(8)
    ensures multiset(Tokens(instructions)) == multiset(Paid(source, asset, payer, ts))
      <==> multiset(Transfers(instructions)) == multiset(ts)
  {
    TokensArePaid(instructions, source, asset, payer);
    PaidMultisets(source, asset, payer, Transfers(instructions), ts);
  }

  lemma QuotedArePaid(a: Attempt, codec: Codec)
    requires a.platform.Some? && a.ownerAmount < Capacity(8) && a.platformAmount < Capacity(8)
    ensures var source := codec.tokenAccount(a.asset, a.payer);
      var toPlatform := Transfer(codec.tokenAccount(a.asset, a.platform.value), a.platformAmount);
      var toOwner := Transfer(codec.tokenAccount(a.asset, a.recipient), a.ownerAmount);
      multiset(Paid(source, a.asset, a.payer, Quoted(a, codec)))
        == multiset{Pay(source, a.asset, a.payer, toPlatform), Pay(source, a.asset, a.payer, toOwner)}
    ensures forall t :: t in Quoted(a, codec) ==> t.amount < Capacity(8)
  {
    hide Pay, Capacity;
    var source, quoted := codec.tokenAccount(a.asset, a.payer), Quoted(a, codec);
    assert Paid(source, a.asset, a.payer, quoted)
      == [Pay(source, a.asset, a.payer, quoted[0]), Pay(source, a.asset, a.payer, quoted[1])];
  }

  lemma ExactByParts(a: Attempt, prepared: Prepared, codec: Codec)
    requires a.platform.Some?
    ensures Exact(a, prepared, codec) <==>
      && prepared.payerSigned && prepared.signaturesValid
      && a.externalId != [] && a.amount == a.platformAmount + a.ownerAmount
      && AllAllowed(prepared.instructions, codec.tokenAccount(a.asset, a.payer), a.asset, a.payer)
      && (AllAllowed(prepared.instructions, codec.tokenAccount(a.asset, a.payer), a.asset, a.payer) ==>
            multiset(Transfers(prepared.instructions)) == multiset(Quoted(a, codec)))
      && Noted(prepared.instructions, codec, a.externalId)
  {
    hide Transfers, Quoted, Allowed;
  }

  /** Some instruction of the list is the memo with this text. */
  ghost predicate Noted(instructions: seq<Instruction>, codec: Codec, text: Address) {
    exists i :: i in instructions && i.program == MemoProgram && codec.utf8(i.data) == text
  }

  /** Token transfers, memos and bounded fee settings. */
  ghost predicate OnlyThese(instructions: seq<Instruction>) {
    forall i :: i in instructions ==> i.program.TokenProgram? || i.program.MemoProgram? || SetsFees(i)
  }

  lemma AllowedByParts(
      instructions: seq<Instruction>, source: Address, asset: Address, payer: Address, ts: seq<Transfer>)
    requires forall t :: t in ts ==> t.amount < Capacity(8)
    ensures AllAllowed(instructions, source, asset, payer) ==> OnlyThese(instructions)
    ensures OnlyThese(instructions) && multiset(Tokens(instructions)) == multiset(Paid(source, asset, payer, ts)) ==>
      AllAllowed(instructions, source, asset, payer)
  {
    forall i | i in instructions && i.program.ComputeBudgetProgram? ensures ValidComputeBudget(i) <==> SetsFees(i) {
      BudgetExactly(i);
    }
    if multiset(Tokens(instructions)) == multiset(Paid(source, asset, payer, ts)) {
      forall i | i in instructions && i.program.TokenProgram? ensures CheckedTransfer(i, source, asset, payer) {
        assert i in Tokens(instructions);
        assert i in multiset(Paid(source, asset, payer, ts));
        var k :| 0 <= k < |ts| && Paid(source, asset, payer, ts)[k] == i;
        PayIsTransfer(source, asset, payer, ts[k]);
      }
    }
    hide SetsFees, ValidComputeBudget, CheckedTransfer;
  }
}
