/** Values shared by the Aura slot-authority model: slots, headers, digest items, errors,
    and the primitives of the block and key scheme that the engine is generic over. */
module AuraTypes {

  datatype Option<+T> = None | Some(value: T)

  datatype Result<+T, +E> = Ok(value: T) | Err(error: E)

  /** 2^64: slots are `u64`. */
  const U64_LIMIT: nat := 0x1_0000_0000_0000_0000

  /** A slot index (`sp_consensus_slots::Slot`, a wrapper around `u64`). */
  type Slot = s: nat | s < U64_LIMIT

  /** A block number (`NumberFor<B>`). Its width is a parameter of the chain, so it is unbounded here. */
  type BlockNumber = nat

  type Bytes = seq<bv8>

  /** A block hash (`B::Hash`). */
  type Hash = Bytes

  /** `Default::default()` of a 256-bit block hash: 32 zero bytes. */
  const DEFAULT_HASH: Hash := [0, 0, 0, 0, 0, 0, 0, 0, 0, 0, 0, 0, 0, 0, 0, 0,
                                0, 0, 0, 0, 0, 0, 0, 0, 0, 0, 0, 0, 0, 0, 0, 0]

  /** A public key as raw bytes (`AuthorityId<P>` after `to_raw_vec`). */
  type Public = Bytes

  /** A four-byte key type tag (`KeyTypeId`). */
  type KeyTypeId = Bytes

  /** `sp_application_crypto::key_types::AURA`, the bytes of "aura". */
  const AURA: KeyTypeId := [0x61, 0x75, 0x72, 0x61]

  /** A signature of the key scheme `P` (`P::Signature`), after conversion from raw bytes. */
  datatype Signature = Signature(raw: Bytes)

  /** One entry of a header's digest log (`DigestItem`), kept as its encoding:
      what an entry means is for the digest codec to say. */
  datatype DigestItem = DigestItem(encoded: Bytes)

  /** A block header; the fields follow the argument order of `Header::new`. */
  datatype Header = Header(
    number: BlockNumber,
    extrinsicsRoot: Hash,
    stateRoot: Hash,
    parentHash: Hash,
    logs: seq<DigestItem>)

  /** The Aura engine's own errors that the modelled code raises. */
  datatype AuraError = MultipleHeaders | NoDigestFound

  /** The `sp_consensus::Error` variants that the modelled code raises. */
  datatype ConsensusError =
    | InvalidAuthoritiesSet
    | CannotSign(public: Public, reason: string)
    | InvalidSignature(signature: Bytes, public: Public)

  /** The behaviour of the worker's type parameters that lives outside this file: header
      hashing of `B`, the `CompatibleDigestItem` codec for `P::Signature`, the application key
      type of `P`'s public key (`AppKey::ID`), the crypto type of `P` and `TryFrom<Vec<u8>>`
      for `P::Signature`. Each is uninterpreted. */
  datatype Primitives = Primitives(
    headerHash: Header -> Hash,
    auraPreDigest: Slot -> DigestItem,
    asAuraPreDigest: DigestItem -> Option<Slot>,
    auraSeal: Signature -> DigestItem,
    appKeyId: KeyTypeId,
    cryptoType: Bytes,
    signatureFromRaw: Bytes -> Option<Signature>)
}
