/**
 * Assembly of a versioned (v0) transaction whose fee payer is the relayer,
 * after resolving the address lookup tables it may use, and the helper that
 * adds a validator-tip transfer to an instruction list.
 *
 * Public keys (K) and lookup-table accounts (T) are opaque. The network is
 * a `Connection` whose answers are a fixed map from key to optional table;
 * decoding an address string into a key is the parameter `decodeKey`.
 */
module TransactionBuilder {
  import opened Wrappers

  /** A transaction instruction; only system transfers are looked into. */
  datatype Instruction<K> =
    | SystemTransfer(fromPubkey: K, toPubkey: K, lamports: nat)
    | Other(programId: K, accounts: seq<K>, data: seq<bv8>)

  /** A compiled v0 message, as a plain record. */
  datatype MessageV0<K, T> = MessageV0(
    payerKey: K,
    recentBlockhash: string,
    instructions: seq<Instruction<K>>,
    lookupTables: seq<T>
  )

  /** An unsigned versioned transaction wrapping its message. */
  datatype VersionedTransaction<K, T> = VersionedTransaction(message: MessageV0<K, T>)

  /** Why the build can stop: an address string is not a public key. */
  datatype BuildError = InvalidPublicKey(address: string)

  /**
   * The RPC connection. `lookupTables` is what the cluster answers for each
   * lookup-table key; `requests` records every lookup sent, in order.
   */
  class Connection<K(==), T> {
    const lookupTables: K -> Option<T>
    var requests: seq<K>

    constructor (lookupTables: K -> Option<T>)
      ensures this.lookupTables == lookupTables && requests == []
    {
      this.lookupTables := lookupTables;
      requests := [];
    }

    /** `getAddressLookupTable`: one request, answered from `lookupTables`. */
    method GetAddressLookupTable(key: K) returns (value: Option<T>)
      modifies this
      ensures requests == old(requests) + [key]
      ensures value == lookupTables(key)
    {
      requests := requests + [key];
      value := lookupTables(key);
    }
  }

  /** Every address decodes to a public key. */
  predicate AllDecode<K>(decodeKey: string -> Option<K>, addresses: seq<string>) {
    forall i :: 0 <= i < |addresses| ==> decodeKey(addresses[i]).Some?
  }

  /**
   * How many addresses the resolution loop gets through: all of them, or
   * up to (not including) the first one that does not decode.
   */
  function Processed<K>(decodeKey: string -> Option<K>, addresses: seq<string>): (n: nat)
    ensures n <= |addresses|
    ensures forall i :: 0 <= i < n ==> decodeKey(addresses[i]).Some?
    ensures n < |addresses| ==> decodeKey(addresses[n]).None?
    ensures n == |addresses| <==> AllDecode(decodeKey, addresses)
    decreases |addresses|
  {
    if addresses == [] || decodeKey(addresses[0]).None? then 0
    else 1 + Processed(decodeKey, addresses[1..])
  }

  /** The keys looked up for `addresses`, one per address, in order. */
  function Lookups<K>(decodeKey: string -> Option<K>, addresses: seq<string>): (keys: seq<K>)
    requires AllDecode(decodeKey, addresses)
  {
    if addresses == [] then []
    else Lookups(decodeKey, addresses[..|addresses| - 1]) + [decodeKey(addresses[|addresses| - 1]).value]
  }

  /** Whether the lookup for address `a` returns a table. */
  predicate Found<K, T>(decodeKey: string -> Option<K>, tables: K -> Option<T>, a: string)
    requires decodeKey(a).Some?
  {
    tables(decodeKey(a).value).Some?
  }

  /** The tables the lookups return, in address order. */
  function Resolved<K, T>(decodeKey: string -> Option<K>, tables: K -> Option<T>, addresses: seq<string>): (found: seq<T>)
    requires AllDecode(decodeKey, addresses)
  {
    if addresses == [] then []
    else
      var a := addresses[|addresses| - 1];
      Resolved(decodeKey, tables, addresses[..|addresses| - 1])
        + (if Found(decodeKey, tables, a) then [tables(decodeKey(a).value).value] else [])
  }

  /** The addresses warned about ("LUT not found or empty"), in address order. */
  function Unresolved<K, T>(decodeKey: string -> Option<K>, tables: K -> Option<T>, addresses: seq<string>): (missing: seq<string>)
    requires AllDecode(decodeKey, addresses)
  {
    if addresses == [] then []
    else
      var a := addresses[|addresses| - 1];
      Unresolved(decodeKey, tables, addresses[..|addresses| - 1]) + (if Found(decodeKey, tables, a) then [] else [a])
  }

  /**
   * The positions of the addresses whose lookup outcome is `found`, in
   * increasing order.
   */
  function Positions<K, T>(decodeKey: string -> Option<K>, tables: K -> Option<T>, addresses: seq<string>, found: bool)
    : (positions: seq<nat>)
    requires AllDecode(decodeKey, addresses)
  {
    if addresses == [] then []
    else
      var last := |addresses| - 1;
      Positions(decodeKey, tables, addresses[..last], found)
        + (if Found(decodeKey, tables, addresses[last]) == found then [last] else [])
  }

  /** No address is skipped: one lookup per address, in address order. */
  lemma {:induction false} LookupsInOrder<K>(decodeKey: string -> Option<K>, addresses: seq<string>)
    requires AllDecode(decodeKey, addresses)
    ensures |Lookups(decodeKey, addresses)| == |addresses|
    ensures forall i :: 0 <= i < |addresses| ==> Lookups(decodeKey, addresses)[i] == decodeKey(addresses[i]).value
  {
    if addresses != [] {
      LookupsInOrder(decodeKey, addresses[..|addresses| - 1]);
    }
  }

  /** Every address yields either a table or a warning, never both. */
  lemma {:induction false} TablesPlusWarnings<K, T>(decodeKey: string -> Option<K>, tables: K -> Option<T>,
                                                   addresses: seq<string>)
    requires AllDecode(decodeKey, addresses)
    ensures |Resolved(decodeKey, tables, addresses)| + |Unresolved(decodeKey, tables, addresses)| == |addresses|
  {
    if addresses != [] {
      TablesPlusWarnings(decodeKey, tables, addresses[..|addresses| - 1]);
    }
  }

  /**
   * `Positions(.., found)` lists, strictly increasing, exactly the positions
   * whose lookup outcome is `found`.
   */
  lemma {:induction false} PositionsExact<K, T>(decodeKey: string -> Option<K>, tables: K -> Option<T>,
                                               addresses: seq<string>, found: bool)
    requires AllDecode(decodeKey, addresses)
    ensures var p := Positions(decodeKey, tables, addresses, found);
      && (forall j :: 0 <= j < |p| ==> p[j] < |addresses|)
      && (forall j, k :: 0 <= j < k < |p| ==> p[j] < p[k])
      && (forall i :: 0 <= i < |addresses| ==> (i in p <==> Found(decodeKey, tables, addresses[i]) == found))
  {
    if addresses != [] {
      var last := |addresses| - 1;
      var prefix := addresses[..last];
      PositionsExact(decodeKey, tables, prefix, found);
      var p := Positions(decodeKey, tables, addresses, found);
      var q := Positions(decodeKey, tables, prefix, found);
      assert p == q + (if Found(decodeKey, tables, addresses[last]) == found then [last] else []);
      forall i | 0 <= i < |addresses|
        ensures i in p <==> Found(decodeKey, tables, addresses[i]) == found
      {
        if i < last {
          assert prefix[i] == addresses[i];
        }
      }
    }
  }

  /**
   * The resolved tables are exactly the answers for the addresses whose
   * lookup found a table, kept in address order.
   */
  lemma {:induction false} ResolvedIsFoundSubsequence<K, T>(decodeKey: string -> Option<K>, tables: K -> Option<T>,
                                                           addresses: seq<string>)
    requires AllDecode(decodeKey, addresses)
    ensures var p := Positions(decodeKey, tables, addresses, true);
            var r := Resolved(decodeKey, tables, addresses);
      && |r| == |p|
      && forall j :: 0 <= j < |p| ==> p[j] < |addresses| && Found(decodeKey, tables, addresses[p[j]])
                                       && r[j] == tables(decodeKey(addresses[p[j]]).value).value
  {
    if addresses != [] {
      var last := |addresses| - 1;
      var prefix := addresses[..last];
      ResolvedIsFoundSubsequence(decodeKey, tables, prefix);
      PositionsExact(decodeKey, tables, prefix, true);
      var q := Positions(decodeKey, tables, prefix, true);
      forall j | 0 <= j < |q| ensures prefix[q[j]] == addresses[q[j]] { }
    }
  }

  /**
   * The warnings name exactly the addresses whose lookup found nothing,
   * kept in address order.
   */
  lemma {:induction false} UnresolvedIsMissingSubsequence<K, T>(decodeKey: string -> Option<K>, tables: K -> Option<T>,
                                                               addresses: seq<string>)
    requires AllDecode(decodeKey, addresses)
    ensures var p := Positions(decodeKey, tables, addresses, false);
            var w := Unresolved(decodeKey, tables, addresses);
      && |w| == |p|
      && forall j :: 0 <= j < |p| ==> p[j] < |addresses| && w[j] == addresses[p[j]]
  {
    if addresses != [] {
      var last := |addresses| - 1;
      var prefix := addresses[..last];
      UnresolvedIsMissingSubsequence(decodeKey, tables, prefix);
      PositionsExact(decodeKey, tables, prefix, false);
      var q := Positions(decodeKey, tables, prefix, false);
      forall j | 0 <= j < |q| ensures prefix[q[j]] == addresses[q[j]] { }
    }
  }

  /**
   * `buildArbitrageVersionedTransaction`: look up each table address in
   * order, keep the tables found and warn about the rest, then compile a
   * message paid for by the relayer that carries the caller's blockhash and
   * instructions unchanged. `userPublicKey` takes no part in the message.
   */
  method BuildArbitrageVersionedTransaction<K(==), T>(
    connection: Connection<K, T>,
    decodeKey: string -> Option<K>,
    userPublicKey: K,
    relayerPublicKey: K,
    instructions: seq<Instruction<K>>,
    lookupTableAddresses: seq<string>,
    recentBlockhash: string)
    returns (r: Result<VersionedTransaction<K, T>, BuildError>, warnings: seq<string>)
    modifies connection
    ensures var n := Processed(decodeKey, lookupTableAddresses);
      && AllDecode(decodeKey, lookupTableAddresses[..n])
      && connection.requests == old(connection.requests) + Lookups(decodeKey, lookupTableAddresses[..n])
      && warnings == Unresolved(decodeKey, connection.lookupTables, lookupTableAddresses[..n])
      && (n < |lookupTableAddresses| ==> r == Err(InvalidPublicKey(lookupTableAddresses[n])))
    ensures r.Ok? <==> AllDecode(decodeKey, lookupTableAddresses)
    ensures r.Ok? ==> r.value.message == MessageV0(relayerPublicKey, recentBlockhash, instructions,
                                                   Resolved(decodeKey, connection.lookupTables, lookupTableAddresses))
    ensures lookupTableAddresses == [] ==>
              connection.requests == old(connection.requests) && warnings == [] && r.Ok? && r.value.message.lookupTables == []
  {
    var lookupTables: seq<T> := [];
    warnings := [];
    var i := 0;
    while i < |lookupTableAddresses|
      invariant 0 <= i <= |lookupTableAddresses|
      invariant AllDecode(decodeKey, lookupTableAddresses[..i])
      invariant connection.requests == old(connection.requests) + Lookups(decodeKey, lookupTableAddresses[..i])
      invariant lookupTables == Resolved(decodeKey, connection.lookupTables, lookupTableAddresses[..i])
      invariant warnings == Unresolved(decodeKey, connection.lookupTables, lookupTableAddresses[..i])
    {
      var address := lookupTableAddresses[i];
      var key := decodeKey(address);
      if key.None? {
        ghost var n := Processed(decodeKey, lookupTableAddresses);
        assert forall j :: 0 <= j < i ==> lookupTableAddresses[..i][j] == lookupTableAddresses[j];
        assert n == i;
        return Err(InvalidPublicKey(address)), warnings;
      }
      var table := connection.GetAddressLookupTable(key.value);
      if table.Some? {
        lookupTables := lookupTables + [table.value];
      } else {
        warnings := warnings + [address];
      }
      assert lookupTableAddresses[..i + 1][..i] == lookupTableAddresses[..i];
      i := i + 1;
    }
    assert lookupTableAddresses[..i] == lookupTableAddresses;
    var message := MessageV0(relayerPublicKey, recentBlockhash, instructions, lookupTables);
    r := Ok(VersionedTransaction(message));
  }

  /** A caller's instruction array, which the tip helper changes in place. */
  class InstructionArray<K> {
    var elems: seq<Instruction<K>>

    constructor (elems: seq<Instruction<K>>)
      ensures this.elems == elems
    {
      this.elems := elems;
    }

    /** `push`: append one instruction at the end. */
    method Push(ix: Instruction<K>)
      modifies this
      ensures elems == old(elems) + [ix]
    {
      elems := elems + [ix];
    }
  }

  /** The continuation `addJitoTipInstruction` schedules: push `tip` onto `target`. */
  datatype PendingTip<K> = PendingTip(target: InstructionArray<K>, tip: Instruction<K>)

  /**
   * `addJitoTipInstruction` as written: it schedules the push of the tip
   * transfer and returns the very array it was given, which at that point is
   * still unchanged.
   */
  method AddJitoTipInstruction<K>(instructions: InstructionArray<K>, userPublicKey: K, tipAmountLamports: nat,
                                  jitoTipAccountPubkey: K)
    returns (r: InstructionArray<K>, pending: PendingTip<K>)
    ensures r == instructions
    ensures pending.target == instructions
    ensures pending.tip == SystemTransfer(userPublicKey, jitoTipAccountPubkey, tipAmountLamports)
  {
    pending := PendingTip(instructions, SystemTransfer(userPublicKey, jitoTipAccountPubkey, tipAmountLamports));
    r := instructions;
  }

  /**
   * The scheduled step, whenever it runs: exactly one instruction is added,
   * at the end; the earlier entries stay as they were, in order.
   */
  method RunPendingTip<K>(pending: PendingTip<K>)
    modifies pending.target
    ensures |pending.target.elems| == |old(pending.target.elems)| + 1
    ensures pending.target.elems[..|old(pending.target.elems)|] == old(pending.target.elems)
    ensures pending.target.elems[|old(pending.target.elems)|] == pending.tip
  {
    pending.target.Push(pending.tip);
  }

  /**
   * A caller that reads the returned array right away, before the scheduled
   * step runs, sees the original single instruction and no tip.
   */
  method TipRaceWitness() returns (observed: seq<Instruction<int>>)
    ensures observed == [Other(7, [], [])]
    ensures SystemTransfer(1, 2, 10000) !in observed
  {
    var swap: Instruction<int> := Other(7, [], []);
    var instructions := new InstructionArray([swap]);
    var r, pending := AddJitoTipInstruction(instructions, 1, 10000, 2);
    observed := r.elems;
  }

  /**
   * The tip helper as its documentation intends it: the transfer is appended
   * before the array is returned.
   */
  method AddJitoTipInstructionSync<K>(instructions: InstructionArray<K>, userPublicKey: K, tipAmountLamports: nat,
                                      jitoTipAccountPubkey: K)
    returns (r: InstructionArray<K>)
    modifies instructions
    ensures r == instructions
    ensures |r.elems| == |old(instructions.elems)| + 1
    ensures r.elems[..|old(instructions.elems)|] == old(instructions.elems)
    ensures r.elems[|old(instructions.elems)|] == SystemTransfer(userPublicKey, jitoTipAccountPubkey, tipAmountLamports)
  {
    instructions.Push(SystemTransfer(userPublicKey, jitoTipAccountPubkey, tipAmountLamports));
    r := instructions;
  }
}
