# Aura slot authority, modelled in Dafny

This project models the slot-authority core of Aura (authority-round), the block-authoring
engine in `node/consensus-transition/aura/src/lib.rs`. Time is divided into slots. For slot `s`,
the expected author is `A[s % |A|]` over the ordered authority list `A`. The model covers five
parts:

- **Leader schedule** (`SlotSchedule`): `slot_author`. It is proved equal to an independent
  round-robin definition, periodic with period `|A|`, and fair: every authority gets a turn in
  every `|A|` consecutive slots.
- **Pre-digest scan** (`PreDigest`): `find_pre_digest` is a loop with a one-slot accumulator.
  It is proved equal to a declarative specification that counts the header's Aura pre-digests.
  Lemmas give the exact conditions for each outcome: slot 0 at genesis, one pre-digest found,
  `MultipleHeaders`, and `NoDigestFound`. Other lemmas show that log entries from other
  engines never matter.
- **Authority resolution** (`AuthorityResolution`): `CompatibilityMode` and its `Default`,
  plus `authorities`. The runtime API is a class holding oracle results. It keeps a ghost
  record of the calls made on it. Its overlay state lets the authority query see the effect of
  a successful `initialize_block`.
- **Worker decisions** (`Worker.AuraWorker`): `epoch_data`, `claim_slot`, `pre_digest_data`,
  `should_backoff`, and `block_import_params`. The last one builds the import request by
  updating its fields one after another, as the source does.

Code that is not part of this model is an uninterpreted function held in a datatype field.
That covers the runtime (`Client`), the keystore (`Keystore`), the backoff strategy
(`BackoffStrategy`), header hashing, the `CompatibleDigestItem` codec, the application key type
of `P`'s public key and `TryFrom<Vec<u8>>` for signatures (`Primitives`). Nothing is assumed
about these functions. The one lemma that needs the codec to read back what it writes
(`Worker.PreDigestDataAnnouncesSlot`) takes that as a hypothesis.

Slots are `u64`: the subset type `Slot` is bounded by 2^64. Block numbers are unbounded
naturals, because `NumberFor<B>` is generic in the source.

Two facts about the code shape the model:

- `initialize_block` runs only while `until > context_block_number`
  (node/consensus-transition/aura/src/lib.rs:609). So the context numbered `until` already
  skips it (`AuthorityResolution.CompatibilityWindow`).
- An empty authority list from the runtime is returned as success
  (node/consensus-transition/aura/src/lib.rs:625-628). `slot_author` then gives no author, so
  `claim_slot` gives no claim.

## Model

| member | source | states |
|---|---|---|
| `SlotSchedule.SlotAuthor` | node/consensus-transition/aura/src/lib.rs:127-143 | No author exactly when the authority list is empty. Otherwise the author is a member of the list. The `assert!` (index fits in `usize`) and the `expect` (index in bounds) are proof obligations that hold. |
| `SlotSchedule.SlotAuthorIsRoundRobin` | node/consensus-transition/aura/src/lib.rs:127-143 | For a non-empty list, the author of slot `s` is the reference round-robin rotation: list order, round after round. |
| `SlotSchedule.SlotAuthorPeriodic` | node/consensus-transition/aura/src/lib.rs:132-142 | Slot `s` and slot `s + |A|` have the same author. |
| `SlotSchedule.EveryAuthorityGetsATurn` | node/consensus-transition/aura/src/lib.rs:132-142 | Every listed authority is the author of some slot in any window of `|A|` consecutive slots. |
| `PreDigest.AuraPreDigests` | node/consensus-transition/aura/src/lib.rs:580-586 | The filtered slots are no more than the log entries. They are empty exactly when no entry reads as an Aura pre-digest. Each slot comes from some entry. |
| `PreDigest.FindPreDigest` | node/consensus-transition/aura/src/lib.rs:574-589 | A genesis header gives `Ok(0)`. The loop with its accumulator and early `MultipleHeaders` return computes the specification: slot 0 at genesis, else no pre-digest gives `NoDigestFound`, one gives its slot, two or more give `MultipleHeaders`. |
| `PreDigest.SinglePreDigestFound` | node/consensus-transition/aura/src/lib.rs:579-588 | A non-genesis header with exactly one Aura pre-digest yields its slot, whatever non-Aura entries come before or after it. |
| `PreDigest.ForeignLogIgnored` | node/consensus-transition/aura/src/lib.rs:582-586 | Inserting a non-Aura entry anywhere in the log leaves the result unchanged. |
| `PreDigest.MultipleHeadersIff` | node/consensus-transition/aura/src/lib.rs:582-583 | The result is `MultipleHeaders` if and only if the header is not genesis and two of its entries are Aura pre-digests. |
| `PreDigest.NoDigestFoundIff` | node/consensus-transition/aura/src/lib.rs:588 | The result is `NoDigestFound` if and only if the header is not genesis and none of its entries is an Aura pre-digest. |
| `PreDigest.FoundSlotIsFromLog` | node/consensus-transition/aura/src/lib.rs:585-588 | A slot returned for a non-genesis header is carried by one of its entries. |
| `PreDigest.SlotFoundIff` | node/consensus-transition/aura/src/lib.rs:579-588 | A non-genesis header yields slot `s` if and only if exactly one entry is an Aura pre-digest and it carries `s`. |
| `AuthorityResolution.DefaultMode` | node/consensus-transition/aura/src/lib.rs:108-112 | The default mode never runs `initialize_block`, at any block number. |
| `AuthorityResolution.CompatibilityWindow` | node/consensus-transition/aura/src/lib.rs:608-609 | Once the mode no longer runs `initialize_block` at some context number, it does not run it at any later number. |
| `AuthorityResolution.RuntimeApi.constructor` | node/consensus-transition/aura/src/lib.rs:603 | A fresh runtime API instance has made no calls and has nothing initialised. |
| `AuthorityResolution.RuntimeApi.InitializeBlock` | node/consensus-transition/aura/src/lib.rs:610-621 | Reports the runtime's success or failure and records the call. On success, the header stays initialised in this instance. |
| `AuthorityResolution.RuntimeApi.Authorities` | node/consensus-transition/aura/src/lib.rs:625-627 | Returns the runtime's answer at the parent, as seen after whatever this instance initialised. Records the call. |
| `AuthorityResolution.Authorities` | node/consensus-transition/aura/src/lib.rs:591-629 | The result is the resolution specification. `initialize_block` is called if and only if the mode is `UseInitializeBlock { until }` with `until > context_block_number`. The exact call sequence is: the skeleton-header `initialize_block`, when required, then the query unless initialisation failed. |
| `AuthorityResolution.ResolveOutcomes` | node/consensus-transition/aura/src/lib.rs:621-628 | Every failure is `InvalidAuthoritiesSet`. Resolution fails exactly when the required `initialize_block` fails or the query has no answer. On success, the queried list is returned unchanged. |
| `AuthorityResolution.NoCompatibilityQueriesParentState` | node/consensus-transition/aura/src/lib.rs:605-609 | With the default mode, or at a number at or past `until`, the result is the parent state's own authority list. No block is initialised first. |
| `Worker.AuraWorker.EpochData` | node/consensus-transition/aura/src/lib.rs:391-402 | Resolves the authorities with the chain head's hash as parent and context number `head.number + 1`. `initialize_block` is called exactly when the mode requires it at that number. |
| `Worker.AuraWorker.ClaimSlot` | node/consensus-transition/aura/src/lib.rs:408-425 | A claim exists exactly when the slot has an expected author and the keystore holds that author's AURA key. The claimed key is that author. |
| `Worker.ClaimIsScheduledAuthor` | node/consensus-transition/aura/src/lib.rs:414-424 | A claimed key is listed, is the round-robin author of the slot, and is held by the keystore. |
| `Worker.ClaimsAgree` | node/consensus-transition/aura/src/lib.rs:414-424 | Two nodes that both claim a slot over the same authority list claim the same key. |
| `Worker.ClaimDependsOnKeys` | node/consensus-transition/aura/src/lib.rs:415-423 | A node holding every listed key claims every slot of a non-empty list. A node holding none of them claims no slot. |
| `Worker.AuraWorker.PreDigestData` | node/consensus-transition/aura/src/lib.rs:427-429 | Exactly one entry: the codec's pre-digest of the slot. The claim is unused. |
| `Worker.PreDigestDataAnnouncesSlot` | node/consensus-transition/aura/src/lib.rs:427-429 | Assume the codec reads back the pre-digest it writes. Then a non-genesis header carrying the worker's pre-digest data, and no other Aura pre-digest, yields the claimed slot from `find_pre_digest`. |
| `Worker.AuraWorker.ShouldBackoff` | node/consensus-transition/aura/src/lib.rs:482-495 | False when no strategy is configured or the head's pre-digest does not parse. Otherwise it is the strategy's answer on (head number, head slot, finalized number, slot). |
| `Worker.GenesisHeadBacksOffFromSlotZero` | node/consensus-transition/aura/src/lib.rs:482-491 | On a genesis chain head, the strategy is asked with head number 0 and head slot 0. |
| `Worker.AuraWorker.BlockImportParams` | node/consensus-transition/aura/src/lib.rs:431-476 | A keystore error or a missing key gives `CannotSign` with the keystore's message or "Could not find key in keystore.". Signing uses the application key type of `P`'s public key. A signature that fails conversion gives `InvalidSignature` with its bytes. Success happens exactly otherwise. It gives origin `Own`, the header unchanged, exactly one seal of the converted signature in `post_digests`, the body, `ApplyChanges` with the given storage changes, and `LongestChain`. |

## Left out

- `start_aura`, `build_aura_worker`, `StartAuraParams` and `BuildAuraWorkerParams` are left out. They only wire dependencies together and spawn the asynchronous slot worker.
- `slot_duration` is left out. It is a single runtime call.
- The accessors `block_import`, `sync_oracle`, `justification_sync_link`, `telemetry`, `logging_target` and `force_authoring` are left out. They return a field or a constant. The worker's `force_authoring` field is dropped too, because only its accessor reads it.
- `authorities_len` is left out. It returns `Some` of the authority list's length, and only the unmodelled slot worker loop uses it.
- `proposer` and `proposing_remaining_duration` are left out. They call into the proposer environment and into `sc_consensus_slots`, and neither is part of this model.
- The slot worker loop of `sc_consensus_slots` is not part of this model. That loop calls these decisions in the order claim, backoff, propose, sign, import.
- The verifier, equivocation tracking and the deferral of future blocks live in the `import_queue` module, which is not part of this model.
- Keystore signing and key lookup, signature conversion, header hashing, the runtime and the digest codec are uninterpreted. No byte-level round trip of pre-digests or seals is stated. The codec answers `None` both for entries of other engines and for malformed Aura entries, as `as_aura_pre_digest` does.
- The runtime overlay is simplified: the authority query sees the initialised header, if any. What a failed `initialize_block` leaves behind is not modelled, because `authorities` returns an error at once in that case.
- Two concrete choices stand in for generic behaviour. The default hash in the skeleton header is 32 zero bytes, while `B::Hash` is generic. The finalized number is a fixed field of `Client`, while `client.info().finalized_number` is read at the time of the call.
- Block numbers are unbounded, so the overflow of `header.number() + 1` for a fixed-width `NumberFor<B>` is not modelled.
- `usize` is taken to be 64 bits wide, and `authorities.len() as u64` is taken to be exact.
- Only these `BlockImportParams` fields are modelled: origin, header, post-digests, body, state action and fork choice. The unused `_epoch` argument of `block_import_params` is dropped.
- Async execution, `Arc`, `Send`/`Sync`, logging, error `Display` strings, and the Aura error variants that this code never raises are left out.
