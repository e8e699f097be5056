/**
 * One cycle of updateApplicationStatuses, on values: each of the user's
 * records takes the status of the first record in the admin mirror that
 * has the same id.
 */
module Reconcile {
  import opened Wrappers
  import opened Records
  import opened Seqs

  /** The status a record should have after the cycle. */
  function MirrorStatus(app: Application, mirror: seq<Application>): string
  {
    match FindById(mirror, app.id)
    case Some(m) => m.status
    case None => app.status
  }

  /** Whether the cycle overwrites this record's status (and so notifies). */
  predicate StatusDiffers(app: Application, mirror: seq<Application>)
  {
    FindById(mirror, app.id).Some? && FindById(mirror, app.id).value.status != app.status
  }

  /** The loop body for one record: copy the mirror status when found and different. */
  function ReconcileOne(app: Application, mirror: seq<Application>): (r: Application)
    ensures r == app.(status := MirrorStatus(app, mirror))
    ensures r != app <==> StatusDiffers(app, mirror)
  {
    var found := FindById(mirror, app.id);
    if found.Some? && found.value.status != app.status then app.(status := found.value.status)
    else app
  }

  /** The user's records after one cycle. */
  function Reconciled(apps: seq<Application>, mirror: seq<Application>): (r: seq<Application>)
    ensures |r| == |apps|
    ensures forall i :: 0 <= i < |apps| ==> r[i] == apps[i].(status := MirrorStatus(apps[i], mirror))
  {
    seq(|apps|, i requires 0 <= i < |apps| => ReconcileOne(apps[i], mirror))
  }

  /** The records notifyStatusChange is called with, in loop order. */
  function StatusChanges(apps: seq<Application>, mirror: seq<Application>): (notices: seq<Application>)
    ensures |notices| <= |apps|
    ensures forall a :: a in notices ==> FindById(mirror, a.id).Some? && FindById(mirror, a.id).value.status == a.status
    decreases |apps|
  {
    if |apps| == 0 then []
    else
      var n := |apps| - 1;
      StatusChanges(apps[..n], mirror)
        + (if StatusDiffers(apps[n], mirror) then [ReconcileOne(apps[n], mirror)] else [])
  }

  /** Reconciling a prefix is the prefix of reconciling the whole. */
  lemma ReconciledPrefix(apps: seq<Application>, mirror: seq<Application>, n: nat)
    requires n <= |apps|
    ensures Reconciled(apps, mirror)[..n] == Reconciled(apps[..n], mirror)
  {
  }

  /** One notification per changed record, carrying the record's new state. */
  lemma {:induction false} StatusChangesAreChangedRecords(apps: seq<Application>, mirror: seq<Application>)
    ensures StatusChanges(apps, mirror) == Changed(apps, Reconciled(apps, mirror))
    decreases |apps|
  {
    if |apps| > 0 {
      var n := |apps| - 1;
      var r := Reconciled(apps, mirror);
      StatusChangesAreChangedRecords(apps[..n], mirror);
      ReconciledPrefix(apps, mirror, n);
      assert r[..n] == Reconciled(apps[..n], mirror);
      assert r[n] == ReconcileOne(apps[n], mirror);
    }
  }

  /** A second cycle against the same mirror changes nothing and notifies nobody. */
  lemma ReconcileIdempotent(apps: seq<Application>, mirror: seq<Application>)
    ensures Reconciled(Reconciled(apps, mirror), mirror) == Reconciled(apps, mirror)
    ensures StatusChanges(Reconciled(apps, mirror), mirror) == []
  {
    var r := Reconciled(apps, mirror);
    forall i | 0 <= i < |r| ensures Reconciled(r, mirror)[i] == r[i] {
      assert r[i].id == apps[i].id;
    }
    StatusChangesAreChangedRecords(r, mirror);
    ChangedSelf(r);
  }

  /** With no matching mirror record, or statuses that already agree, the cycle is a no-op. */
  lemma ReconcileNoOp(apps: seq<Application>, mirror: seq<Application>)
    requires forall i :: 0 <= i < |apps| ==>
      FindById(mirror, apps[i].id).None? || FindById(mirror, apps[i].id).value.status == apps[i].status
    ensures Reconciled(apps, mirror) == apps
    ensures StatusChanges(apps, mirror) == []
  {
    assert Reconciled(apps, mirror) == apps;
    StatusChangesAreChangedRecords(apps, mirror);
    ChangedSelf(apps);
  }

  /** A pending record and a mirror copy that has been approved: it becomes approved, notified once. */
  lemma ApprovalExample(app: Application, adminCopy: Application)
    requires app.status == "pending" && adminCopy.id == app.id && adminCopy.status == "approved"
    ensures Reconciled([app], [adminCopy]) == [app.(status := "approved")]
    ensures StatusChanges([app], [adminCopy]) == [app.(status := "approved")]
  {
    assert [app][..0] == [];
  }
}
