/** The Aura authoring worker's decisions (`AuraWorker` as a `SimpleSlotWorker`): which
    authorities rule a slot, whether this node may claim it, whether to back off, and the
    import parameters of a block it has authored. */
module Worker {
  import opened AuraTypes
  import opened SlotSchedule
  import opened PreDigest
  import AuthorityResolution

  /** A block body entry (`B::Extrinsic`), kept opaque. */
  type Extrinsic = Bytes

  /** `CryptoTypePublicPair`: a public key tagged with its crypto scheme. */
  datatype CryptoTypePublicPair = CryptoTypePublicPair(cryptoType: Bytes, public: Public)

  /** What `SyncCryptoStore::sign_with` gives back: an error, no key, or signature bytes. */
  datatype SignOutcome = SignFailed(message: string) | KeyNotFound | Signed(signature: Bytes)

  /** The keystore, as an oracle: `has_keys` over a list of (raw public key, key type), and
      `sign_with` for a key type, a public key and a message. */
  datatype Keystore = Keystore(
    hasKeys: seq<(Bytes, KeyTypeId)> -> bool,
    signWith: (KeyTypeId, CryptoTypePublicPair, Bytes) -> SignOutcome)

  /** `BackoffAuthoringBlocksStrategy::should_backoff` over (chain head number, chain head
      slot, finalized number, current slot). */
  datatype BackoffStrategy = BackoffStrategy(shouldBackoff: (BlockNumber, Slot, BlockNumber, Slot) -> bool)

  /** The reason given when the keystore has no key to sign with. */
  const KEY_NOT_FOUND: string := "Could not find key in keystore."

  datatype BlockOrigin = Genesis | NetworkInitialSync | NetworkBroadcast | ConsensusBroadcast | Own | File

  datatype ForkChoiceStrategy = LongestChain | Custom(best: bool)

  /** The storage changes the proposer already computed for the block, kept opaque. */
  datatype StorageChanges = StorageChanges(transaction: Bytes)

  datatype StateAction = ApplyChanges(changes: StorageChanges) | Execute | ExecuteIfPossible | Skip

  /** The fields of `sc_consensus::BlockImportParams` that the worker sets. */
  datatype ImportParams = ImportParams(
    origin: BlockOrigin,
    header: Header,
    postDigests: seq<DigestItem>,
    body: Option<seq<Extrinsic>>,
    stateAction: StateAction,
    forkChoice: Option<ForkChoiceStrategy>)

  /** `BlockImportParams::new(origin, header)`: nothing attached yet. */
  function NewImportParams(origin: BlockOrigin, header: Header): ImportParams {
    ImportParams(origin, header, [], None, Execute, None)
  }

  datatype AuraWorker = AuraWorker(
    client: AuthorityResolution.Client,
    keystore: Keystore,
    primitives: Primitives,
    backoffAuthoringBlocks: Option<BackoffStrategy>,
    compatibilityMode: AuthorityResolution.CompatibilityMode)
  {
    /** `epoch_data`: the authorities for a block built on `header`, resolved in the context
        of the next block number with `header` as parent. */
    method EpochData(header: Header, slot: Slot)
      returns (r: Result<seq<Public>, ConsensusError>, ghost calls: seq<AuthorityResolution.RuntimeCall>)
      ensures r == AuthorityResolution.ResolveAuthorities(
                     client, primitives.headerHash(header), header.number + 1, compatibilityMode)
      ensures AuthorityResolution.InitializeBlockCalled(calls) <==>
                compatibilityMode.RunsInitializeBlock(header.number + 1)
    {
      r, calls := AuthorityResolution.Authorities(
                    client, primitives.headerHash(header), header.number + 1, compatibilityMode);
    }

    /** Whether the keystore holds the AURA key of `p`. */
    predicate HoldsAuraKey(p: Public) {
      keystore.hasKeys([(p, AURA)])
    }

    /** `claim_slot`: the expected author of `slot`, provided this node holds its key. */
    function ClaimSlot(header: Header, slot: Slot, epochData: seq<Public>): (claim: Option<Public>)
      ensures claim.Some? <==> SlotAuthor(slot, epochData).Some? && HoldsAuraKey(SlotAuthor(slot, epochData).value)
      ensures claim.Some? ==> SlotAuthor(slot, epochData) == Some(claim.value)
    {
      match SlotAuthor(slot, epochData)
      case None => None
      case Some(p) => if HoldsAuraKey(p) then Some(p) else None
    }

    /** `pre_digest_data`: the single Aura pre-digest announcing `slot`. */
    function PreDigestData(slot: Slot, claim: Public): (items: seq<DigestItem>)
      ensures |items| == 1 && items[0] == primitives.auraPreDigest(slot)
    {
      [primitives.auraPreDigest(slot)]
    }

    /** `should_backoff`: asks the strategy only when one is configured and the chain head's
        slot can be read; otherwise never backs off. */
    function ShouldBackoff(slot: Slot, chainHead: Header): (backoff: bool)
      ensures backoffAuthoringBlocks.None? ==> !backoff
      ensures PreDigestOf(chainHead, primitives.asAuraPreDigest).Err? ==> !backoff
      ensures backoffAuthoringBlocks.Some? && PreDigestOf(chainHead, primitives.asAuraPreDigest).Ok? ==>
                backoff == backoffAuthoringBlocks.value.shouldBackoff(
                  chainHead.number, PreDigestOf(chainHead, primitives.asAuraPreDigest).value,
                  client.finalizedNumber, slot)
    {
      match backoffAuthoringBlocks
      case None => false
      case Some(strategy) =>
        match PreDigestOf(chainHead, primitives.asAuraPreDigest)
        case Ok(chainHeadSlot) =>
          strategy.shouldBackoff(chainHead.number, chainHeadSlot, client.finalizedNumber, slot)
        case Err(_) => false
    }

    /** The keystore's answer when asked to sign `headerHash` with `public`, under the
        application key type of `P`'s public key. */
    function SignHeader(public: Public, headerHash: Hash): SignOutcome {
      keystore.signWith(primitives.appKeyId, CryptoTypePublicPair(primitives.cryptoType, public), headerHash)
    }

    /** `block_import_params`: sign the pre-sealed header hash with the claimed key, then
        attach the seal, the body and the computed storage changes to the import request. */
    method BlockImportParams(header: Header, headerHash: Hash, body: seq<Extrinsic>,
                             storageChanges: StorageChanges, public: Public)
      returns (r: Result<ImportParams, ConsensusError>)
      ensures SignHeader(public, headerHash).SignFailed? ==>
                r == Err(CannotSign(public, SignHeader(public, headerHash).message))
      ensures SignHeader(public, headerHash).KeyNotFound? ==> r == Err(CannotSign(public, KEY_NOT_FOUND))
      ensures SignHeader(public, headerHash).Signed? &&
              primitives.signatureFromRaw(SignHeader(public, headerHash).signature).None? ==>
                r == Err(InvalidSignature(SignHeader(public, headerHash).signature, public))
      ensures r.Ok? <==> SignHeader(public, headerHash).Signed? &&
                         primitives.signatureFromRaw(SignHeader(public, headerHash).signature).Some?
      ensures r.Ok? ==>
                && r.value.origin == Own
                && r.value.header == header
                && r.value.postDigests ==
                     [primitives.auraSeal(primitives.signatureFromRaw(SignHeader(public, headerHash).signature).value)]
                && r.value.body == Some(body)
                && r.value.stateAction == ApplyChanges(storageChanges)
                && r.value.forkChoice == Some(LongestChain)
    {
      var raw: Bytes;
      match SignHeader(public, headerHash) {
        case SignFailed(message) =>
          return Err(CannotSign(public, message));
        case KeyNotFound =>
          return Err(CannotSign(public, KEY_NOT_FOUND));
        case Signed(bytes) =>
          raw := bytes;
      }
      var signature := primitives.signatureFromRaw(raw);
      if signature.None? {
        return Err(InvalidSignature(raw, public));
      }
      var signatureDigestItem := primitives.auraSeal(signature.value);

      var importBlock := NewImportParams(Own, header);
      importBlock := importBlock.(postDigests := importBlock.postDigests + [signatureDigestItem]);
      importBlock := importBlock.(body := Some(body));
      importBlock := importBlock.(stateAction := ApplyChanges(storageChanges));
      importBlock := importBlock.(forkChoice := Some(LongestChain));
      return Ok(importBlock);
    }
  }

  /** A claimed slot belongs to the authority whose round-robin turn it is. */
  lemma ClaimIsScheduledAuthor(worker: AuraWorker, header: Header, slot: Slot, epochData: seq<Public>)
    requires worker.ClaimSlot(header, slot, epochData).Some?
    ensures var p := worker.ClaimSlot(header, slot, epochData).value;
            p in epochData && p == RoundRobin(slot, epochData) && worker.HoldsAuraKey(p)
  {
    SlotAuthorIsRoundRobin(slot, epochData);
  }

  /** Two nodes that both claim a slot over the same authority list claim the same key:
      at most one authority may author each slot. */
  lemma ClaimsAgree(w1: AuraWorker, w2: AuraWorker, h1: Header, h2: Header, slot: Slot, epochData: seq<Public>)
    requires w1.ClaimSlot(h1, slot, epochData).Some? && w2.ClaimSlot(h2, slot, epochData).Some?
    ensures w1.ClaimSlot(h1, slot, epochData) == w2.ClaimSlot(h2, slot, epochData)
  {
  }

  /** A node holding every listed authority's key claims every slot, and a node holding none
      of them claims no slot. */
  lemma ClaimDependsOnKeys(worker: AuraWorker, header: Header, slot: Slot, epochData: seq<Public>)
    ensures (forall i :: 0 <= i < |epochData| ==> worker.HoldsAuraKey(epochData[i])) && epochData != [] ==>
              worker.ClaimSlot(header, slot, epochData).Some?
    ensures (forall i :: 0 <= i < |epochData| ==> !worker.HoldsAuraKey(epochData[i])) ==>
              worker.ClaimSlot(header, slot, epochData).None?
  {
    if epochData != [] {
      assert epochData[slot % |epochData|] in epochData;
    }
  }

  /** If the digest codec reads back the pre-digest it writes, a non-genesis header that
      carries the worker's pre-digest data and no other Aura pre-digest announces the slot
      the worker claimed. */
  lemma PreDigestDataAnnouncesSlot(worker: AuraWorker, slot: Slot, claim: Public, header: Header,
                                   before: seq<DigestItem>, after: seq<DigestItem>)
    requires worker.primitives.asAuraPreDigest(worker.primitives.auraPreDigest(slot)) == Some(slot)
    requires header.number != 0
    requires header.logs == before + worker.PreDigestData(slot, claim) + after
    requires forall i :: 0 <= i < |before| ==> worker.primitives.asAuraPreDigest(before[i]).None?
    requires forall i :: 0 <= i < |after| ==> worker.primitives.asAuraPreDigest(after[i]).None?
    ensures PreDigestOf(header, worker.primitives.asAuraPreDigest) == Ok(slot)
  {
    SinglePreDigestFound(header, before, worker.primitives.auraPreDigest(slot), after,
                         worker.primitives.asAuraPreDigest, slot);
  }

  /** Backing off on a genesis chain head asks the strategy with head slot 0. */
  lemma GenesisHeadBacksOffFromSlotZero(worker: AuraWorker, slot: Slot, chainHead: Header)
    requires chainHead.number == 0 && worker.backoffAuthoringBlocks.Some?
    ensures worker.ShouldBackoff(slot, chainHead) ==
              worker.backoffAuthoringBlocks.value.shouldBackoff(0, 0, worker.client.finalizedNumber, slot)
  {
  }
}
