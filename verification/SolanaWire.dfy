/** The wire format of a legacy Solana message: compact-u16 lengths and a parser written
    from the format's own description, independent of the builder. */
module SolanaWire {
  import opened Bytes

  /** Seven bits a byte, low group first, the top bit set while more follow. */
  function Compact(v: nat): (b: Str)
    ensures |b| > 0
    ensures v < 128 ==> |b| == 1
    ensures 128 <= v < 16384 ==> |b| == 2
  {
    if v < 128 then [v] else [128 + v % 128] + Compact(v / 128)
  }

  method AppendCompactU16(b: Str, v: nat) returns (r: Str)
    ensures r == b + Compact(v)
  {
    r := b;
    var rest := v;
    while rest >= 128
      invariant b + Compact(v) == r + Compact(rest)
      decreases rest
    {
      assert r + Compact(rest) == (r + [128 + rest % 128]) + Compact(rest / 128);
      r := r + [128 + rest % 128];
      rest := rest / 128;
    }
    r := r + [rest];
  }

  /** One length and what follows it. */
  function ParseCompact(b: Str): Option<(nat, Str)> {
    if b == [] then None
    else if b[0] < 128 then Some((b[0], b[1..]))
    else
      var more := ParseCompact(b[1..]);
      if more.None? then None else Some((b[0] - 128 + 128 * more.value.0, more.value.1))
  }

  lemma {:induction false} CompactRoundTrip(v: nat, rest: Str)
    ensures ParseCompact(Compact(v) + rest) == Some((v, rest))
  {
    var b := Compact(v) + rest;
    if v < 128 {
      assert b[1..] == rest;
    } else {
      assert b[1..] == Compact(v / 128) + rest;
      CompactRoundTrip(v / 128, rest);
    }
  }

  function ParseKeys(b: Str, n: nat): Option<(seq<Digest>, Str)> {
    if n == 0 then Some(([], b))
    else if |b| < 32 then None
    else
      var more := ParseKeys(b[32..], n - 1);
      if more.None? then None else Some(([b[..32]] + more.value.0, more.value.1))
  }

  lemma {:induction false} KeysRoundTrip(keys: seq<Digest>, rest: Str)
    ensures ParseKeys(Flat(keys) + rest, |keys|) == Some((keys, rest))
  {
    var b := Flat(keys) + rest;
    if keys == [] {
      assert b == rest;
    } else {
      assert b[..32] == keys[0] && b[32..] == Flat(keys[1..]) + rest;
      KeysRoundTrip(keys[1..], rest);
      assert [keys[0]] + keys[1..] == keys;
    }
  }

  datatype Instruction = Instruction(program: nat, accounts: Str, data: Str)

  datatype Message = Message(signatures: nat, readonlySigned: nat, readonlyUnsigned: nat,
                             keys: seq<Digest>, blockhash: Digest, instructions: seq<Instruction>)

  function InstructionBytes(ix: Instruction): Str
    requires ix.program < 256
  {
    [ix.program] + (Compact(|ix.accounts|) + (ix.accounts + (Compact(|ix.data|) + ix.data)))
  }

  function ParseInstruction(b: Str): Option<(Instruction, Str)> {
    if b == [] then None
    else
      var accounts := ParseCompact(b[1..]);
      if accounts.None? || |accounts.value.1| < accounts.value.0 then None
      else
        var data := ParseCompact(accounts.value.1[accounts.value.0..]);
        if data.None? || |data.value.1| < data.value.0 then None
        else Some((Instruction(b[0], accounts.value.1[..accounts.value.0], data.value.1[..data.value.0]),
                   data.value.1[data.value.0..]))
  }

  lemma InstructionRoundTrip(ix: Instruction, rest: Str)
    requires ix.program < 256
    ensures ParseInstruction(InstructionBytes(ix) + rest) == Some((ix, rest))
  {
    var b := InstructionBytes(ix) + rest;
    var d := Compact(|ix.data|) + (ix.data + rest);
    assert b[1..] == Compact(|ix.accounts|) + (ix.accounts + d);
    CompactRoundTrip(|ix.accounts|, ix.accounts + d);
    var x := ix.accounts + d;
    assert x[..|ix.accounts|] == ix.accounts && x[|ix.accounts|..] == d;
    CompactRoundTrip(|ix.data|, ix.data + rest);
    assert (ix.data + rest)[..|ix.data|] == ix.data && (ix.data + rest)[|ix.data|..] == rest;
  }

  function ParseInstructions(b: Str, n: nat): Option<(seq<Instruction>, Str)>
    decreases n
  {
    if n == 0 then Some(([], b))
    else
      var first := ParseInstruction(b);
      if first.None? then None
      else
        var more := ParseInstructions(first.value.1, n - 1);
        if more.None? then None else Some(([first.value.0] + more.value.0, more.value.1))
  }

  lemma OneInstruction(b: Str, ix: Instruction)
    requires ParseInstruction(b) == Some((ix, []))
    ensures ParseInstructions(b, 1) == Some(([ix], []))
  {
    var none: seq<Instruction> := [];
    assert ParseInstructions([], 0) == Some((none, []));
    assert [ix] + none == [ix];
  }

  /** A whole message, with nothing left over. */
  function ParseMessage(b: Str): Option<Message> {
    if |b| < 3 then None
    else
      var count := ParseCompact(b[3..]);
      if count.None? then None
      else
        var keys := ParseKeys(count.value.1, count.value.0);
        if keys.None? || |keys.value.1| < 32 then None
        else
          var n := ParseCompact(keys.value.1[32..]);
          if n.None? then None
          else
            var ixs := ParseInstructions(n.value.1, n.value.0);
            if ixs.None? || ixs.value.1 != [] then None
            else Some(Message(b[0], b[1], b[2], keys.value.0, keys.value.1[..32], ixs.value.0))
  }

  /** The bytes of a message with one instruction. */
  function MessageBytes(m: Message): Str
    requires m.signatures < 256 && m.readonlySigned < 256 && m.readonlyUnsigned < 256
    requires |m.instructions| == 1 && m.instructions[0].program < 256
  {
    [m.signatures, m.readonlySigned, m.readonlyUnsigned]
    + (Compact(|m.keys|) + (Flat(m.keys) + (m.blockhash + (Compact(1) + InstructionBytes(m.instructions[0])))))
  }

  lemma MessageRoundTrip(m: Message)
    requires m.signatures < 256 && m.readonlySigned < 256 && m.readonlyUnsigned < 256
    requires |m.instructions| == 1 && m.instructions[0].program < 256
    ensures ParseMessage(MessageBytes(m)) == Some(m)
  {
    var ix := InstructionBytes(m.instructions[0]);
    var tail := m.blockhash + (Compact(1) + ix);
    var b := MessageBytes(m);
    assert b[3..] == Compact(|m.keys|) + (Flat(m.keys) + tail);
    CompactRoundTrip(|m.keys|, Flat(m.keys) + tail);
    KeysRoundTrip(m.keys, tail);
    assert tail[..32] == m.blockhash && tail[32..] == Compact(1) + ix;
    CompactRoundTrip(1, ix);
    InstructionRoundTrip(m.instructions[0], []);
    assert ix + [] == ix;
    OneInstruction(ix, m.instructions[0]);
    assert [m.instructions[0]] == m.instructions;
  }

  /** What an instruction's data starts with, by Anchor's convention. */
  function Discriminator(h: Hasher, name: string): (d: Str)
    ensures |d| == 8
  {
    h(Text("global:" + name))[..8]
  }
}
