/** Reading the slot a header claims from its Aura pre-runtime digest (`find_pre_digest`). */
module PreDigest {
  import opened AuraTypes

  /** The slots carried by the Aura pre-digests among `logs`, in log order. Every entry that
      the codec does not read as an Aura pre-digest is skipped. */
  function AuraPreDigests(logs: seq<DigestItem>, asPreDigest: DigestItem -> Option<Slot>): (slots: seq<Slot>)
    ensures |slots| <= |logs|
    ensures slots == [] <==> forall i :: 0 <= i < |logs| ==> asPreDigest(logs[i]).None?
    ensures forall k :: 0 <= k < |slots| ==>
              exists i :: 0 <= i < |logs| && asPreDigest(logs[i]) == Some(slots[k])
  {
    if logs == [] then []
    else
      var init := logs[..|logs| - 1];
      var last := logs[|logs| - 1];
      assert forall i :: 0 <= i < |init| ==> init[i] == logs[i];
      match asPreDigest(last)
      case Some(s) => AuraPreDigests(init, asPreDigest) + [s]
      case None => AuraPreDigests(init, asPreDigest)
  }

  /** What `find_pre_digest` answers: slot 0 for genesis, otherwise the slot of the single
      Aura pre-digest, and an error when there are none or several. */
  function PreDigestOf(header: Header, asPreDigest: DigestItem -> Option<Slot>): Result<Slot, AuraError>
  {
    if header.number == 0 then Ok(0)
    else
      var found := AuraPreDigests(header.logs, asPreDigest);
      if |found| == 0 then Err(NoDigestFound)
      else if |found| == 1 then Ok(found[0])
      else Err(MultipleHeaders)
  }

  /** `find_pre_digest`: a scan of the log with a one-slot accumulator that stops at the
      second Aura pre-digest. */
  method FindPreDigest(header: Header, asPreDigest: DigestItem -> Option<Slot>) returns (r: Result<Slot, AuraError>)
    ensures header.number == 0 ==> r == Ok(0)
    ensures r == PreDigestOf(header, asPreDigest)
  {
    if header.number == 0 {
      return Ok(0);
    }
    var logs := header.logs;
    var preDigest: Option<Slot> := None;
    for i := 0 to |logs|
      invariant preDigest.None? <==> AuraPreDigests(logs[..i], asPreDigest) == []
      invariant preDigest.Some? ==> AuraPreDigests(logs[..i], asPreDigest) == [preDigest.value]
    {
      var log := logs[i];
      assert logs[..i + 1][..i] == logs[..i];
      match (asPreDigest(log), preDigest.Some?)
      case (Some(_), true) =>
        assert |AuraPreDigests(logs[..i + 1], asPreDigest)| == 2;
        AuraPreDigestsAppend(logs[..i + 1], logs[i + 1..], asPreDigest);
        assert logs[..i + 1] + logs[i + 1..] == logs;
        return Err(MultipleHeaders);
      case (None, _) =>
      case (s, false) =>
        preDigest := s;
    }
    assert logs[..|logs|] == logs;
    match preDigest
    case None => r := Err(NoDigestFound);
    case Some(s) => r := Ok(s);
  }

  /** Scanning two runs of log entries one after the other finds the pre-digests of each. */
  lemma {:induction false} AuraPreDigestsAppend(a: seq<DigestItem>, b: seq<DigestItem>, asPreDigest: DigestItem -> Option<Slot>)
    ensures AuraPreDigests(a + b, asPreDigest) == AuraPreDigests(a, asPreDigest) + AuraPreDigests(b, asPreDigest)
  {
    if b != [] {
      var b' := b[..|b| - 1];
      assert (a + b)[..|a + b| - 1] == a + b';
      assert (a + b)[|a + b| - 1] == b[|b| - 1];
      AuraPreDigestsAppend(a, b', asPreDigest);
    } else {
      assert a + b == a;
    }
  }

  /** A non-genesis header with exactly one Aura pre-digest yields that slot, whatever other
      entries surround it. */
  lemma SinglePreDigestFound(header: Header, before: seq<DigestItem>, item: DigestItem, after: seq<DigestItem>,
                             asPreDigest: DigestItem -> Option<Slot>, slot: Slot)
    requires header.number != 0
    requires header.logs == before + [item] + after
    requires asPreDigest(item) == Some(slot)
    requires forall i :: 0 <= i < |before| ==> asPreDigest(before[i]).None?
    requires forall i :: 0 <= i < |after| ==> asPreDigest(after[i]).None?
    ensures PreDigestOf(header, asPreDigest) == Ok(slot)
  {
    AuraPreDigestsAppend(before, [item], asPreDigest);
    AuraPreDigestsAppend(before + [item], after, asPreDigest);
    assert [item][..0] == [];
  }

  /** Inserting an entry that is not an Aura pre-digest anywhere in the log changes nothing. */
  lemma ForeignLogIgnored(header: Header, at: nat, item: DigestItem, asPreDigest: DigestItem -> Option<Slot>)
    requires at <= |header.logs|
    requires asPreDigest(item).None?
    ensures PreDigestOf(header.(logs := header.logs[..at] + [item] + header.logs[at..]), asPreDigest)
         == PreDigestOf(header, asPreDigest)
  {
    var logs := header.logs;
    AuraPreDigestsAppend(logs[..at], [item], asPreDigest);
    AuraPreDigestsAppend(logs[..at] + [item], logs[at..], asPreDigest);
    AuraPreDigestsAppend(logs[..at], logs[at..], asPreDigest);
    assert [item][..0] == [];
    assert logs[..at] + logs[at..] == logs;
  }

  /** A non-genesis header is rejected with `MultipleHeaders` exactly when two of its entries
      are Aura pre-digests. */
  lemma MultipleHeadersIff(header: Header, asPreDigest: DigestItem -> Option<Slot>)
    ensures PreDigestOf(header, asPreDigest) == Err(MultipleHeaders) <==>
              header.number != 0 &&
              exists i, j :: 0 <= i < j < |header.logs| &&
                asPreDigest(header.logs[i]).Some? && asPreDigest(header.logs[j]).Some?
  {
    var logs := header.logs;
    if |AuraPreDigests(logs, asPreDigest)| >= 2 {
      TwoPreDigestsLocated(logs, asPreDigest);
    }
    if exists i, j :: 0 <= i < j < |logs| && asPreDigest(logs[i]).Some? && asPreDigest(logs[j]).Some? {
      var i, j :| 0 <= i < j < |logs| && asPreDigest(logs[i]).Some? && asPreDigest(logs[j]).Some?;
      TwoPreDigestsCounted(logs, i, j, asPreDigest);
    }
  }

  lemma TwoPreDigestsCounted(logs: seq<DigestItem>, i: nat, j: nat, asPreDigest: DigestItem -> Option<Slot>)
    requires i < j < |logs|
    requires asPreDigest(logs[i]).Some? && asPreDigest(logs[j]).Some?
    ensures |AuraPreDigests(logs, asPreDigest)| >= 2
  {
    AuraPreDigestsAppend(logs[..j], logs[j..], asPreDigest);
    assert logs[..j] + logs[j..] == logs;
    assert logs[..j][i] == logs[i];
    assert AuraPreDigests(logs[..j], asPreDigest) != [];
    AuraPreDigestsAppend([logs[j]], logs[j + 1..], asPreDigest);
    assert [logs[j]] + logs[j + 1..] == logs[j..];
    assert [logs[j]][..0] == [];
    assert |AuraPreDigests(logs[j..], asPreDigest)| >= 1;
  }

  lemma {:induction false} TwoPreDigestsLocated(logs: seq<DigestItem>, asPreDigest: DigestItem -> Option<Slot>)
    requires |AuraPreDigests(logs, asPreDigest)| >= 2
    ensures exists i, j :: 0 <= i < j < |logs| && asPreDigest(logs[i]).Some? && asPreDigest(logs[j]).Some?
  {
    var init := logs[..|logs| - 1];
    var last := |logs| - 1;
    assert forall i :: 0 <= i < |init| ==> init[i] == logs[i];
    if asPreDigest(logs[last]).Some? {
      assert AuraPreDigests(init, asPreDigest) != [];
      var i :| 0 <= i < |init| && asPreDigest(init[i]).Some?;
      assert asPreDigest(logs[i]).Some?;
    } else {
      TwoPreDigestsLocated(init, asPreDigest);
      var i, j :| 0 <= i < j < |init| && asPreDigest(init[i]).Some? && asPreDigest(init[j]).Some?;
      assert asPreDigest(logs[i]).Some? && asPreDigest(logs[j]).Some?;
    }
  }

  /** A non-genesis header is rejected with `NoDigestFound` exactly when none of its entries
      is an Aura pre-digest. */
  lemma NoDigestFoundIff(header: Header, asPreDigest: DigestItem -> Option<Slot>)
    ensures PreDigestOf(header, asPreDigest) == Err(NoDigestFound) <==>
              header.number != 0 &&
              forall i :: 0 <= i < |header.logs| ==> asPreDigest(header.logs[i]).None?
  {
  }

  /** A slot found in a non-genesis header is the slot of one of its entries. */
  lemma FoundSlotIsFromLog(header: Header, asPreDigest: DigestItem -> Option<Slot>)
    requires header.number != 0
    requires PreDigestOf(header, asPreDigest).Ok?
    ensures exists i :: 0 <= i < |header.logs| &&
              asPreDigest(header.logs[i]) == Some(PreDigestOf(header, asPreDigest).value)
  {
  }

  /** A non-genesis header yields slot `s` exactly when one of its entries, and no other, is
      an Aura pre-digest, and that entry carries `s`. */
  lemma SlotFoundIff(header: Header, asPreDigest: DigestItem -> Option<Slot>, s: Slot)
    requires header.number != 0
    ensures PreDigestOf(header, asPreDigest) == Ok(s) <==>
              exists i :: 0 <= i < |header.logs| && asPreDigest(header.logs[i]) == Some(s) &&
                forall j :: 0 <= j < |header.logs| && j != i ==> asPreDigest(header.logs[j]).None?
  {
    var logs := header.logs;
    if PreDigestOf(header, asPreDigest) == Ok(s) {
      FoundSlotIsFromLog(header, asPreDigest);
      var i :| 0 <= i < |logs| && asPreDigest(logs[i]) == Some(s);
      forall j | 0 <= j < |logs| && j != i
        ensures asPreDigest(logs[j]).None?
      {
        if asPreDigest(logs[j]).Some? {
          if i < j { TwoPreDigestsCounted(logs, i, j, asPreDigest); }
          else { TwoPreDigestsCounted(logs, j, i, asPreDigest); }
        }
      }
    }
    if exists i :: 0 <= i < |logs| && asPreDigest(logs[i]) == Some(s) &&
         forall j :: 0 <= j < |logs| && j != i ==> asPreDigest(logs[j]).None? {
      var i :| 0 <= i < |logs| && asPreDigest(logs[i]) == Some(s) &&
        forall j :: 0 <= j < |logs| && j != i ==> asPreDigest(logs[j]).None?;
      assert logs == logs[..i] + [logs[i]] + logs[i + 1..];
      forall k | 0 <= k < |logs[..i]| ensures asPreDigest(logs[..i][k]).None? {
        assert logs[..i][k] == logs[k];
      }
      var after := logs[i + 1..];
      forall k | 0 <= k < |after| ensures asPreDigest(after[k]).None? {
        assert after[k] == logs[i + 1 + k];
      }
      SinglePreDigestFound(header, logs[..i], logs[i], after, asPreDigest, s);
    }
  }
}
