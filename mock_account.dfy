/**
 * The mock private account of the block producer's test fixtures
 * (crates/block-producer/src/test_utils/account.rs).
 *
 * An account is derived from a `u32` index: the index's four big-endian bytes,
 * padded with zeros, form a 32-byte seed; the account then walks through a fixed
 * number of states, each state being the hash of the previous one. Index 0 stands
 * for a new account, whose first state is the default digest.
 *
 * The hash, the digest encoding and the account-id derivation are foreign code;
 * they are fields of `Primitives`, so every property below holds for any of them.
 */
module MockAccount {

  import opened Machine

  /** The default value of the `NUM_STATES` const generic. */
  const DefaultNumStates: nat := 3

  /** Length of the seed passed to `MockPrivateAccount::new`. */
  const SeedLength: nat := 32

  /** The foreign operations the mock account uses. */
  datatype Primitives<!Digest, AccountId> = Primitives(
    hash: seq<uint8> -> Digest,        // Hasher::hash
    asBytes: Digest -> seq<uint8>,     // Digest::as_bytes
    defaultDigest: Digest,             // Digest::default()
    deriveId: seq<uint8> -> AccountId) // get_account_seed, then AccountId::new

  /** `MockPrivateAccount<NUM_STATES>`: an id and the states the account goes through. */
  datatype MockPrivateAccount<Digest, AccountId> = MockPrivateAccount(id: AccountId, states: seq<Digest>)

  /** The number whose big-endian encoding is `b`, most significant byte first. */
  function FromBigEndian(b: seq<uint8>): int
    requires |b| == 4
  {
    ((b[0] as int * 0x100 + b[1]) * 0x100 + b[2]) * 0x100 + b[3]
  }

  /** `u32::to_be_bytes`. */
  function BigEndianBytes(x: uint32): (b: seq<uint8>)
    ensures |b| == 4
  {
    [x / 0x100 / 0x100 / 0x100, x / 0x100 / 0x100 % 0x100, x / 0x100 % 0x100, x % 0x100]
  }

  /** Decoding the big-endian bytes of a `u32` gives the number back. */
  lemma BigEndianRoundTrip(x: uint32)
    ensures FromBigEndian(BigEndianBytes(x)) == x
  {
  }

  /** The seed `From<u32>` builds: the index's 4 big-endian bytes followed by 28 zero bytes. */
  function InitSeed(index: uint32): (seed: seq<uint8>)
    ensures |seed| == SeedLength
    ensures FromBigEndian(seed[..4]) == index
    ensures forall i | 4 <= i < |seed| :: seed[i] == 0
  {
    BigEndianRoundTrip(index);
    BigEndianBytes(index) + seq(28, _ => 0)
  }

  /** Distinct indices give distinct seeds, and equal indices equal seeds. */
  lemma InitSeedInjective(i: uint32, j: uint32)
    ensures InitSeed(i) == InitSeed(j) <==> i == j
  {
  }

  /** The state an account starts in: the default digest for a new account, the seed's hash otherwise. */
  function InitialState<Digest, AccountId>(p: Primitives<Digest, AccountId>, seed: seq<uint8>, newAccount: bool): Digest
  {
    if newAccount then p.defaultDigest else p.hash(seed)
  }

  /** The first `n` states of the account started by `seed` and `newAccount`. */
  function Chain<Digest, AccountId>(p: Primitives<Digest, AccountId>, seed: seq<uint8>, newAccount: bool, n: nat): (states: seq<Digest>)
    ensures |states| == n
    ensures n > 0 ==> states[0] == InitialState(p, seed, newAccount)
    ensures forall k | 1 <= k < n :: states[k] == p.hash(p.asBytes(states[k - 1]))
  {
    if n == 0 then []
    else if n == 1 then [InitialState(p, seed, newAccount)]
    else
      var prefix := Chain(p, seed, newAccount, n - 1);
      prefix + [p.hash(p.asBytes(prefix[n - 2]))]
  }

  /** The first state and the hash step determine the whole chain: no other sequence has Chain's properties. */
  lemma {:induction false} ChainDetermined<Digest, AccountId>(p: Primitives<Digest, AccountId>, seed: seq<uint8>, newAccount: bool, states: seq<Digest>)
    requires |states| > 0 ==> states[0] == InitialState(p, seed, newAccount)
    requires forall k | 1 <= k < |states| :: states[k] == p.hash(p.asBytes(states[k - 1]))
    ensures states == Chain(p, seed, newAccount, |states|)
  {
    if |states| > 1 {
      var prefix := states[..|states| - 1];
      ChainDetermined(p, seed, newAccount, prefix);
      assert states == prefix + [states[|states| - 1]];
    }
  }

  /**
   * `MockPrivateAccount::new`: fills an array of `numStates` digests, all default at first,
   * sets slot 0 to the seed's hash unless the account is new, and then hashes each slot into
   * the next. Rust panics on `states[0]` when the array is empty and the account is not new.
   */
  method New<Digest, AccountId>(p: Primitives<Digest, AccountId>, initSeed: seq<uint8>, newAccount: bool, numStates: nat)
    returns (account: MockPrivateAccount<Digest, AccountId>)
    requires |initSeed| == SeedLength
    requires newAccount || numStates >= 1
    ensures account.id == p.deriveId(initSeed)
    ensures account.states == Chain(p, initSeed, newAccount, numStates)
  {
    var states := new Digest[numStates](_ => p.defaultDigest);
    if !newAccount {
      states[0] := p.hash(initSeed);
    }
    var idx := 1;
    while idx < numStates
      invariant numStates == 0 || idx <= numStates
      invariant numStates > 0 ==> states[..idx] == Chain(p, initSeed, newAccount, idx)
      invariant forall k | idx <= k < numStates :: states[k] == p.defaultDigest
    {
      states[idx] := p.hash(p.asBytes(states[idx - 1]));
      idx := idx + 1;
    }
    account := MockPrivateAccount(p.deriveId(initSeed), states[..]);
  }

  /**
   * `From<u32>::from`: builds the seed from the index and starts a new account exactly when
   * the index is 0.
   */
  method FromIndex<Digest, AccountId>(p: Primitives<Digest, AccountId>, index: uint32, numStates: nat)
    returns (account: MockPrivateAccount<Digest, AccountId>)
    requires index == 0 || numStates >= 1
    ensures account.id == p.deriveId(InitSeed(index))
    ensures account.states == Chain(p, InitSeed(index), index == 0, numStates)
    ensures numStates > 0 && index == 0 ==> account.states[0] == p.defaultDigest
    ensures numStates > 0 && index != 0 ==> account.states[0] == p.hash(InitSeed(index))
  {
    var initSeed := InitSeed(index);
    if index == 0 {
      account := New(p, initSeed, true, numStates);
    } else {
      account := New(p, initSeed, false, numStates);
    }
  }

  /**
   * `MockPrivateAccount::from(index)` at the default `NUM_STATES`: three states, the first one
   * default exactly for index 0 and the seed's hash otherwise, each next one the hash of the last.
   */
  method FromIndexWithDefaultStates<Digest, AccountId>(p: Primitives<Digest, AccountId>, index: uint32)
    returns (account: MockPrivateAccount<Digest, AccountId>)
    ensures account.id == p.deriveId(InitSeed(index))
    ensures |account.states| == 3
    ensures account.states[0] == (if index == 0 then p.defaultDigest else p.hash(InitSeed(index)))
    ensures account.states[1] == p.hash(p.asBytes(account.states[0]))
    ensures account.states[2] == p.hash(p.asBytes(account.states[1]))
  {
    account := FromIndex(p, index, DefaultNumStates);
  }
}
