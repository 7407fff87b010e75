/** Fetching the authority set for a block context, with the `CompatibilityMode` switch that
    replays `initialize_block` on old chain segments (`authorities`). */
module AuthorityResolution {
  import opened AuraTypes

  /** `CompatibilityMode<N>`: either no special handling, or call `initialize_block` before
      the authority query for every context block number below `until`. */
  datatype CompatibilityMode = None | UseInitializeBlock(until: BlockNumber)
  {
    /** Whether `initialize_block` runs before the authority query in the context of the
        block numbered `contextBlockNumber`. The block numbered `until` is the first that
        no longer runs it. */
    predicate RunsInitializeBlock(contextBlockNumber: BlockNumber) {
      UseInitializeBlock? && until > contextBlockNumber
    }
  }

  /** `CompatibilityMode::default()`. */
  function DefaultMode(): (mode: CompatibilityMode)
    ensures forall n: BlockNumber :: !mode.RunsInitializeBlock(n)
  {
    CompatibilityMode.None
  }

  /** Once the mode is off at some block number it stays off at every later one. */
  lemma CompatibilityWindow(mode: CompatibilityMode, n: BlockNumber, m: BlockNumber)
    requires n <= m
    ensures !mode.RunsInitializeBlock(n) ==> !mode.RunsInitializeBlock(m)
  {
  }

  /** The runtime behind the client, as an oracle: whether `Core::initialize_block` succeeds
      for a header on top of a block, and what `AuraApi::authorities` answers at a block,
      given the header (if any) that the same API instance initialised beforehand. */
  datatype Client = Client(
    initializeBlock: (Hash, Header) -> bool,
    authoritiesAt: (Hash, Option<Header>) -> Option<seq<Public>>,
    finalizedNumber: BlockNumber)

  datatype RuntimeCall =
    | InitializeBlockCall(at: Hash, header: Header)
    | AuthoritiesCall(at: Hash)

  /** One runtime API instance (`client.runtime_api()`): the changes made by a successful
      `initialize_block` stay in it and are seen by later calls on the same instance. */
  class RuntimeApi {
    const client: Client
    var initialized: Option<Header>
    /** Every call made on this instance, in order. */
    ghost var calls: seq<RuntimeCall>

    constructor (client: Client)
      ensures this.client == client
      ensures initialized == Option.None && calls == []
    {
      this.client := client;
      initialized := Option.None;
      calls := [];
    }

    method InitializeBlock(at: Hash, header: Header) returns (ok: bool)
      modifies this
      ensures ok == client.initializeBlock(at, header)
      ensures initialized == if ok then Some(header) else old(initialized)
      ensures calls == old(calls) + [InitializeBlockCall(at, header)]
    {
      ok := client.initializeBlock(at, header);
      if ok {
        initialized := Some(header);
      }
      calls := calls + [InitializeBlockCall(at, header)];
    }

    method Authorities(at: Hash) returns (r: Option<seq<Public>>)
      modifies this`calls
      ensures r == client.authoritiesAt(at, initialized)
      ensures calls == old(calls) + [AuthoritiesCall(at)]
    {
      r := client.authoritiesAt(at, initialized);
      calls := calls + [AuthoritiesCall(at)];
    }
  }

  /** The header skeleton handed to `initialize_block`: the context number and the parent,
      every other field at its default. */
  function SkeletonHeader(contextBlockNumber: BlockNumber, parentHash: Hash): (h: Header)
  {
    Header(contextBlockNumber, DEFAULT_HASH, DEFAULT_HASH, parentHash, [])
  }

  /** What `authorities` answers; every runtime failure becomes `InvalidAuthoritiesSet`. */
  function ResolveAuthorities(client: Client, parentHash: Hash, contextBlockNumber: BlockNumber,
                              mode: CompatibilityMode): Result<seq<Public>, ConsensusError>
  {
    var initialized: Option<Header> :=
      if mode.RunsInitializeBlock(contextBlockNumber) then Some(SkeletonHeader(contextBlockNumber, parentHash))
      else Option.None;
    if initialized.Some? && !client.initializeBlock(parentHash, initialized.value) then
      Err(InvalidAuthoritiesSet)
    else
      match client.authoritiesAt(parentHash, initialized)
      case Some(authorities) => Ok(authorities)
      case None => Err(InvalidAuthoritiesSet)
  }

  ghost predicate InitializeBlockCalled(calls: seq<RuntimeCall>) {
    exists i :: 0 <= i < |calls| && calls[i].InitializeBlockCall?
  }

  /** `authorities`: on a fresh runtime API instance, optionally `initialize_block`, then the
      authority query at the parent. */
  method Authorities(client: Client, parentHash: Hash, contextBlockNumber: BlockNumber, mode: CompatibilityMode)
    returns (r: Result<seq<Public>, ConsensusError>, ghost calls: seq<RuntimeCall>)
    ensures r == ResolveAuthorities(client, parentHash, contextBlockNumber, mode)
    ensures InitializeBlockCalled(calls) <==> mode.RunsInitializeBlock(contextBlockNumber)
    ensures calls ==
      (if mode.RunsInitializeBlock(contextBlockNumber)
       then [InitializeBlockCall(parentHash, SkeletonHeader(contextBlockNumber, parentHash))] else []) +
      (if mode.RunsInitializeBlock(contextBlockNumber) &&
          !client.initializeBlock(parentHash, SkeletonHeader(contextBlockNumber, parentHash))
       then [] else [AuthoritiesCall(parentHash)])
  {
    var runtimeApi := new RuntimeApi(client);
    match mode {
      case None =>
      case UseInitializeBlock(until) =>
        if until > contextBlockNumber {
          var ok := runtimeApi.InitializeBlock(parentHash, SkeletonHeader(contextBlockNumber, parentHash));
          if !ok {
            assert runtimeApi.calls[0].InitializeBlockCall?;
            return Err(InvalidAuthoritiesSet), runtimeApi.calls;
          }
        }
    }
    var authorities := runtimeApi.Authorities(parentHash);
    calls := runtimeApi.calls;
    assert mode.RunsInitializeBlock(contextBlockNumber) ==> calls[0].InitializeBlockCall?;
    match authorities
    case Some(a) => r := Ok(a);
    case None => r := Err(InvalidAuthoritiesSet);
  }

  /** Every failure of `authorities` is `InvalidAuthoritiesSet`; it fails exactly when the
      required `initialize_block` fails or the query has no answer; on success the queried
      list is returned unchanged. */
  lemma ResolveOutcomes(client: Client, parentHash: Hash, n: BlockNumber, mode: CompatibilityMode)
    ensures var r := ResolveAuthorities(client, parentHash, n, mode);
            var initialized := if mode.RunsInitializeBlock(n) then Some(SkeletonHeader(n, parentHash)) else Option.None;
            && (r.Err? ==> r.error == InvalidAuthoritiesSet)
            && (r.Err? <==> (initialized.Some? && !client.initializeBlock(parentHash, initialized.value))
                            || client.authoritiesAt(parentHash, initialized).None?)
            && (r.Ok? ==> Some(r.value) == client.authoritiesAt(parentHash, initialized))
  {
  }

  /** With the default mode, or at or past `until`, the authorities are those of the parent's
      own state, with no block initialised first. */
  lemma NoCompatibilityQueriesParentState(client: Client, parentHash: Hash, n: BlockNumber, mode: CompatibilityMode)
    requires mode == DefaultMode() || (mode.UseInitializeBlock? && n >= mode.until)
    ensures ResolveAuthorities(client, parentHash, n, mode) ==
              match client.authoritiesAt(parentHash, Option.None)
              case Some(a) => Ok(a)
              case None => Err(InvalidAuthoritiesSet)
  {
  }
}
