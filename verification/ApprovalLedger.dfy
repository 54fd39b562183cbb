/**
 The ledger of operation approvals that stands in for the database while a Facebook post
 is replayed.  An approval is appended under the id of its preview evidence and may be
 consumed once, by a request with its fingerprint; appending again renews it.  The ghost
 history keeps every append and every attempt with its decision.
 */
module ApprovalLedger {
  import opened Wrappers

  datatype Record = Record(previewEvidenceId: string, requestFingerprint: string, metadata: string)

  datatype Stored = Stored(record: Record, consumed: bool)

  datatype Reason = ApprovalRecordMissing | ApprovalRecordAlreadyConsumed | ApprovalFingerprintMismatch | ApprovalConsumed

  datatype Decision = Decision(
    reason: Reason, providerSlug: string, actionSlug: string,
    previewEvidenceIdPresent: bool, requestFingerprintPresent: bool, blocked: bool, consumed: bool)

  datatype Event = Append(record: Record) | Attempt(id: string, fingerprint: string, decision: Decision)

  // The event appends an approval for this id.
  predicate Appends(e: Event, id: string) {
    e.Append? && e.record.previewEvidenceId == id
  }

  // The event consumes the approval of this id.
  predicate Consumes(e: Event, id: string) {
    e.Attempt? && e.id == id && e.decision.consumed
  }

  // ---------------------------------------------------------------- what the history implies

  // What one event makes of the approval of an id.
  function StoredNext(before: Option<Stored>, e: Event, id: string): Option<Stored> {
    if Appends(e, id) then Some(Stored(e.record, false))
    else if Consumes(e, id) && before.Some? then Some(before.value.(consumed := true))
    else before
  }

  // The approval of an id after the first n events.
  function StoredAfter(h: seq<Event>, n: nat, id: string): Option<Stored>
    requires n <= |h|
  {
    if n == 0 then None else StoredNext(StoredAfter(h, n - 1, id), h[n - 1], id)
  }

  function ReasonFor(stored: Option<Stored>, fingerprint: string): Reason {
    if stored.None? then ApprovalRecordMissing
    else if stored.value.consumed then ApprovalRecordAlreadyConsumed
    else if stored.value.record.requestFingerprint != fingerprint then ApprovalFingerprintMismatch
    else ApprovalConsumed
  }

  // The decision is the one due to the approval, with the presence flags the script reports.
  predicate Due(d: Decision, stored: Option<Stored>, id: string, fingerprint: string) {
    && d.reason == ReasonFor(stored, fingerprint)
    && d.consumed == (d.reason == ApprovalConsumed) && d.blocked == !d.consumed
    && d.previewEvidenceIdPresent == (stored.Some? || id != "")
    && d.requestFingerprintPresent == (stored.Some? || fingerprint != "")
  }

  // Every decision in the history was the one due at its time.
  ghost predicate Legal(h: seq<Event>) {
    forall i :: 0 <= i < |h| ==> LegalAt(h, i)
  }

  ghost predicate LegalAt(h: seq<Event>, i: nat)
    requires i < |h|
  {
    h[i].Attempt? ==> Due(h[i].decision, StoredAfter(h, i, h[i].id), h[i].id, h[i].fingerprint)
  }

  lemma {:induction false} StoredAfterPrefix(h: seq<Event>, e: Event, n: nat, id: string)
    requires n <= |h|
    ensures StoredAfter(h + [e], n, id) == StoredAfter(h, n, id)
  {
    if n > 0 {
      StoredAfterPrefix(h, e, n - 1, id);
    }
  }

  lemma {:induction false} LegalSnoc(h: seq<Event>, e: Event)
    requires Legal(h)
    requires e.Attempt? ==> Due(e.decision, StoredAfter(h, |h|, e.id), e.id, e.fingerprint)
    ensures Legal(h + [e])
  {
    var more := h + [e];
    forall i | 0 <= i < |more| ensures LegalAt(more, i) {
      if more[i].Attempt? {
        StoredAfterPrefix(h, e, i, more[i].id);
      }
      if i < |h| {
        assert LegalAt(h, i);
      }
    }
  }

  // ---------------------------------------------------------------- the storage

  class FakeStorage {
    var operationApprovals: map<string, Stored>
    var operationApprovalAppends: nat
    var operationApprovalConsumes: nat
    ghost var history: seq<Event>

    ghost predicate Valid()
      reads this
    {
      && Legal(history)
      && operationApprovalAppends == Total(history, |history|, true)
      && operationApprovalConsumes == Total(history, |history|, false)
      && forall id :: Holding(operationApprovals, id) == StoredAfter(history, |history|, id)
    }

    constructor ()
      ensures Valid() && history == []
    {
      operationApprovals, operationApprovalAppends, operationApprovalConsumes, history := map[], 0, 0, [];
    }

    // `append_operation_approval_record`: false where forbidden text makes it raise, before any change.
    method AppendOperationApprovalRecord(record: Record, forbidden: set<string>) returns (ok: bool)
      requires Valid()
      modifies this
      ensures Valid() && ok == (record.metadata !in forbidden)
      ensures history == if ok then old(history) + [Append(record)] else old(history)
    {
      if record.metadata in forbidden {
        return false;
      }
      operationApprovalAppends := operationApprovalAppends + 1;
      operationApprovals := operationApprovals[record.previewEvidenceId := Stored(record, false)];
      Note(Append(record));
      ok := true;
    }

    // `consume_operation_approval_record`
    method ConsumeOperationApprovalRecord(previewEvidenceId: string, requestFingerprint: string,
                                          providerSlug: string, actionSlug: string)
      returns (d: Decision)
      requires Valid()
      modifies this
      ensures Valid() && history == old(history) + [Attempt(previewEvidenceId, requestFingerprint, d)]
      ensures d.providerSlug == providerSlug && d.actionSlug == actionSlug
      ensures d.blocked ==> operationApprovals == old(operationApprovals)
    {
      operationApprovalConsumes := operationApprovalConsumes + 1;
      if previewEvidenceId !in operationApprovals {
        d := Decision(ApprovalRecordMissing, providerSlug, actionSlug,
                      previewEvidenceId != "", requestFingerprint != "", true, false);
      } else if operationApprovals[previewEvidenceId].consumed {
        d := Decision(ApprovalRecordAlreadyConsumed, providerSlug, actionSlug, true, true, true, false);
      } else if operationApprovals[previewEvidenceId].record.requestFingerprint != requestFingerprint {
        d := Decision(ApprovalFingerprintMismatch, providerSlug, actionSlug, true, true, true, false);
      } else {
        var stored := operationApprovals[previewEvidenceId];
        operationApprovals := operationApprovals[previewEvidenceId := stored.(consumed := true)];
        d := Decision(ApprovalConsumed, providerSlug, actionSlug, true, true, false, true);
      }
      Note(Attempt(previewEvidenceId, requestFingerprint, d));
    }

    ghost method Note(e: Event)
      requires Legal(history)
      requires e.Attempt? ==> Due(e.decision, StoredAfter(history, |history|, e.id), e.id, e.fingerprint)
      requires operationApprovalAppends == Total(history, |history|, true) + (if e.Append? then 1 else 0)
      requires operationApprovalConsumes == Total(history, |history|, false) + (if e.Append? then 0 else 1)
      requires forall id :: Holding(operationApprovals, id) == StoredNext(StoredAfter(history, |history|, id), e, id)
      modifies this`history
      ensures Valid() && history == old(history) + [e]
    {
      var h := history;
      history := h + [e];
      LegalSnoc(h, e);
      TotalPrefix(h, e, |h|, true);
      TotalPrefix(h, e, |h|, false);
      forall id ensures StoredAfter(history, |history|, id) == StoredNext(StoredAfter(h, |h|, id), e, id) {
        StoredAfterPrefix(h, e, |h|, id);
      }
    }
  }

  function Holding(m: map<string, Stored>, id: string): Option<Stored> {
    if id in m then Some(m[id]) else None
  }

  // How many of the first n events are appends, or attempts.
  function Total(h: seq<Event>, n: nat, appends: bool): nat
    requires n <= |h|
  {
    if n == 0 then 0 else Total(h, n - 1, appends) + (if h[n - 1].Append? == appends then 1 else 0)
  }

  lemma {:induction false} TotalPrefix(h: seq<Event>, e: Event, n: nat, appends: bool)
    requires n <= |h|
    ensures Total(h + [e], n, appends) == Total(h, n, appends)
  {
    if n > 0 {
      TotalPrefix(h, e, n - 1, appends);
    }
  }

  // ---------------------------------------------------------------- laws of every run

  // The last append of the id among the first n events is the one at a.
  ghost predicate LastAppendAt(h: seq<Event>, a: nat, n: nat, id: string)
    requires n <= |h|
  {
    a < n && Appends(h[a], id) && forall k :: a < k < n ==> !Appends(h[k], id)
  }

  ghost predicate NeverAppended(h: seq<Event>, n: nat, id: string)
    requires n <= |h|
  {
    forall k :: 0 <= k < n ==> !Appends(h[k], id)
  }

  ghost predicate NotConsumedSince(h: seq<Event>, a: nat, n: nat, id: string)
    requires n <= |h|
  {
    forall c :: a < c < n ==> !Consumes(h[c], id)
  }

  // The stored approval is the last one appended, consumed if it has been since.
  lemma {:induction false} StoredIsLastAppended(h: seq<Event>, n: nat, id: string) returns (a: nat)
    requires n <= |h|
    ensures StoredAfter(h, n, id).None? <==> NeverAppended(h, n, id)
    ensures StoredAfter(h, n, id).Some? ==>
      && LastAppendAt(h, a, n, id) && StoredAfter(h, n, id).value.record == h[a].record
      && (StoredAfter(h, n, id).value.consumed <==> !NotConsumedSince(h, a, n, id))
  {
    if n == 0 {
      a := 0;
    } else {
      a := StoredIsLastAppended(h, n - 1, id);
      if Appends(h[n - 1], id) {
        a := n - 1;
      }
    }
  }

  // An attempt consumes exactly when the latest approval of its id has its fingerprint and
  // has not been consumed before; it is blocked as missing exactly when there is none, and
  // as already consumed exactly when the latest one has been, whatever the fingerprint.
  lemma {:induction false} DecisionIff(h: seq<Event>, i: nat, a: nat)
    requires Legal(h) && i < |h| && h[i].Attempt?
    requires NeverAppended(h, i, h[i].id) || LastAppendAt(h, a, i, h[i].id)
    ensures var d, id := h[i].decision, h[i].id;
            && (d.reason == ApprovalRecordMissing <==> NeverAppended(h, i, id))
            && (d.reason == ApprovalRecordAlreadyConsumed
                <==> !NeverAppended(h, i, id) && !NotConsumedSince(h, a, i, id))
            && (d.consumed <==> !NeverAppended(h, i, id) && NotConsumedSince(h, a, i, id)
                                && h[a].record.requestFingerprint == h[i].fingerprint)
            && d.blocked == !d.consumed
  {
    assert LegalAt(h, i);
    var last := StoredIsLastAppended(h, i, h[i].id);
    if !NeverAppended(h, i, h[i].id) {
      assert a == last;
    }
  }

  // Between two consuming attempts for an id the approval was appended again.
  lemma {:induction false} ConsumedOncePerAppend(h: seq<Event>, i: nat, j: nat, id: string) returns (a: nat)
    requires Legal(h) && i < j < |h| && Consumes(h[i], id) && Consumes(h[j], id)
    ensures i < a < j && Appends(h[a], id)
  {
    assert LegalAt(h, j);
    a := StoredIsLastAppended(h, j, id);
    assert LegalAt(h, i);
    var b := StoredIsLastAppended(h, i, id);
  }

  // How many of the first n events append, or consume, the approval of the id.
  function Count(h: seq<Event>, n: nat, id: string, appends: bool): nat
    requires n <= |h|
  {
    if n == 0 then 0
    else Count(h, n - 1, id, appends)
         + (if (if appends then Appends(h[n - 1], id) else Consumes(h[n - 1], id)) then 1 else 0)
  }

  // Never more consumed than appended, and fewer while an approval is open.
  lemma {:induction false} ConsumedAtMostAppended(h: seq<Event>, n: nat, id: string)
    requires Legal(h) && n <= |h|
    ensures Count(h, n, id, false) + (if OpenAfter(h, n, id) then 1 else 0) <= Count(h, n, id, true)
  {
    if n > 0 {
      ConsumedAtMostAppended(h, n - 1, id);
      assert LegalAt(h, n - 1);
    }
  }

  // An approval of the id waits to be consumed.
  predicate OpenAfter(h: seq<Event>, n: nat, id: string)
    requires n <= |h|
  {
    StoredAfter(h, n, id).Some? && !StoredAfter(h, n, id).value.consumed
  }

  predicate About(e: Event, id: string) {
    Appends(e, id) || (e.Attempt? && e.id == id)
  }

  // The events about one id.
  function Own(h: seq<Event>, n: nat, id: string): seq<Event>
    requires n <= |h|
  {
    if n == 0 then []
    else if About(h[n - 1], id) then Own(h, n - 1, id) + [h[n - 1]]
    else Own(h, n - 1, id)
  }

  // What is stored for an id, and so every decision on it, depends on the events about it only.
  lemma {:induction false} IdsAreIndependent(h: seq<Event>, n: nat, id: string)
    requires n <= |h|
    ensures StoredAfter(Own(h, n, id), |Own(h, n, id)|, id) == StoredAfter(h, n, id)
  {
    if n > 0 {
      IdsAreIndependent(h, n - 1, id);
      var before, e := Own(h, n - 1, id), h[n - 1];
      if About(e, id) {
        StoredAfterPrefix(before, e, |before|, id);
      }
    }
  }
}
