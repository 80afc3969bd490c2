/** The maintenance-plan reconciliation of `updateMaintenancePlanForEquipment`:
    each submitted plan either updates the stored plan its id names, or is saved
    as a new plan stamped with the equipment's id; the keys of the outcomes, in
    submission order, become the equipment's plan list. */
module PlanReconciliation {
  import opened Common
  import opened Domain

  /** The key under which the store saves `plan`: its own id when it has one
      (an upsert), otherwise the identifier the store assigns (`newId`). */
  function SavedKey(plan: MaintenancePlan, newId: Id): Id {
    if plan.id.Some? then plan.id.value else newId
  }

  /** The submitted plan carries a non-empty id that names a stored plan. */
  predicate RefersToStoredPlan(plans: map<Id, MaintenancePlan>, item: MaintenancePlan) {
    item.id.Some? && item.id.value != "" && item.id.value in plans
  }

  /** A stored plan with the three editable fields taken from the submission;
      its id and equipmentId are left as they were. */
  function Overwrite(stored: MaintenancePlan, item: MaintenancePlan): MaintenancePlan {
    stored.(maintenanceDate := item.maintenanceDate,
            description := item.description,
            sparePartId := item.sparePartId)
  }

  /** The record one submitted item leaves in the store, given the store it meets. */
  function ReconciledRecord(plans: map<Id, MaintenancePlan>, equipmentId: Id,
                            item: MaintenancePlan, newId: Id): MaintenancePlan
  {
    if RefersToStoredPlan(plans, item) then Overwrite(plans[item.id.value], item)
    else item.(id := Some(SavedKey(item, newId)), equipmentId := Some(equipmentId))
  }

  /** The plan list built so far and the plan store after saving each item. */
  datatype Reconciled = Reconciled(keys: seq<Id>, plans: map<Id, MaintenancePlan>)

  /** One turn of the loop: save the item's record and remember its key. */
  function ReconcileItem(plans: map<Id, MaintenancePlan>, equipmentId: Id,
                         item: MaintenancePlan, newId: Id): (Id, map<Id, MaintenancePlan>)
  {
    var k := SavedKey(item, newId);
    (k, plans[k := ReconciledRecord(plans, equipmentId, item, newId)])
  }

  /** The whole loop, as a fold over the submission from the first item to the
      last; `newIds[i]` is the identifier the store would assign to item `i`. */
  ghost function Reconcile(plans: map<Id, MaintenancePlan>, equipmentId: Id,
                           items: seq<MaintenancePlan>, newIds: seq<Id>): Reconciled
    requires |newIds| == |items|
    decreases |items|
  {
    if items == [] then Reconciled([], plans)
    else
      var n := |items| - 1;
      var before := Reconcile(plans, equipmentId, items[..n], newIds[..n]);
      var (k, after) := ReconcileItem(before.plans, equipmentId, items[n], newIds[n]);
      Reconciled(before.keys + [k], after)
  }

  /** The keys the items of a submission are saved under are pairwise distinct. */
  ghost predicate DistinctKeys(items: seq<MaintenancePlan>, newIds: seq<Id>)
    requires |newIds| == |items|
  {
    forall i, j | 0 <= i < j < |items| :: SavedKey(items[i], newIds[i]) != SavedKey(items[j], newIds[j])
  }

  // ---------------------------------------------------------------------------

  /** The new plan list has the submission's length and order: entry `i` is
      the id of item `i`, or the newIds identifier when it had none. */
  lemma {:induction false} ReconcileKeys(plans: map<Id, MaintenancePlan>, equipmentId: Id,
                                         items: seq<MaintenancePlan>, newIds: seq<Id>)
    requires |newIds| == |items|
    ensures var r := Reconcile(plans, equipmentId, items, newIds);
            |r.keys| == |items|
            && forall i | 0 <= i < |items| :: r.keys[i] == SavedKey(items[i], newIds[i])
  {
    if items != [] {
      var n := |items| - 1;
      ReconcileKeys(plans, equipmentId, items[..n], newIds[..n]);
    }
  }

  /** Nothing is deleted: the store afterwards holds the old keys and the keys
      of the plan list, and a stored plan no item names is left as it was. */
  lemma {:induction false} ReconcileFrame(plans: map<Id, MaintenancePlan>, equipmentId: Id,
                                          items: seq<MaintenancePlan>, newIds: seq<Id>)
    requires |newIds| == |items|
    ensures var r := Reconcile(plans, equipmentId, items, newIds);
            (forall k | k in r.plans :: k in plans || k in r.keys)
            && (forall k | k in r.keys :: k in r.plans)
            && (forall k | k in plans :: k in r.plans && (k !in r.keys ==> r.plans[k] == plans[k]))
  {
    if items != [] {
      var n := |items| - 1;
      ReconcileFrame(plans, equipmentId, items[..n], newIds[..n]);
      var before := Reconcile(plans, equipmentId, items[..n], newIds[..n]);
      var r := Reconcile(plans, equipmentId, items, newIds);
      assert r.keys == before.keys + [SavedKey(items[n], newIds[n])];
      assert forall k | k in r.keys :: k in before.keys || k == SavedKey(items[n], newIds[n]);
    }
  }

  /** When the submission's keys are distinct, each entry of the new plan list
      holds exactly what its item asked for: a stored plan named by a non-empty
      id gets the submitted date, description and spare part and keeps its
      equipmentId; any other item is saved as submitted, stamped with the
      equipment's id. */
  lemma {:induction false} ReconcileRecords(plans: map<Id, MaintenancePlan>, equipmentId: Id,
                                            items: seq<MaintenancePlan>, newIds: seq<Id>)
    requires |newIds| == |items|
    requires DistinctKeys(items, newIds)
    ensures var r := Reconcile(plans, equipmentId, items, newIds);
            |r.keys| == |items|
            && forall i | 0 <= i < |items| ::
                 r.keys[i] in r.plans && r.plans[r.keys[i]] == ReconciledRecord(plans, equipmentId, items[i], newIds[i])
  {
    ReconcileKeys(plans, equipmentId, items, newIds);
    if items != [] {
      var n := |items| - 1;
      var before := Reconcile(plans, equipmentId, items[..n], newIds[..n]);
      var r := Reconcile(plans, equipmentId, items, newIds);
      assert DistinctKeys(items[..n], newIds[..n]);
      ReconcileRecords(plans, equipmentId, items[..n], newIds[..n]);
      ReconcileKeys(plans, equipmentId, items[..n], newIds[..n]);
      ReconcileFrame(plans, equipmentId, items[..n], newIds[..n]);
      var k := SavedKey(items[n], newIds[n]);
      assert k !in before.keys by {
        forall i | 0 <= i < n ensures before.keys[i] != k {
          assert SavedKey(items[i], newIds[i]) != SavedKey(items[n], newIds[n]);
        }
      }
      assert before.plans[k := ReconciledRecord(before.plans, equipmentId, items[n], newIds[n])] == r.plans;
      assert k in before.plans <==> k in plans;
      assert k in plans ==> before.plans[k] == plans[k];
      assert ReconciledRecord(before.plans, equipmentId, items[n], newIds[n])
          == ReconciledRecord(plans, equipmentId, items[n], newIds[n]);
      forall i | 0 <= i < |items|
        ensures r.keys[i] in r.plans && r.plans[r.keys[i]] == ReconciledRecord(plans, equipmentId, items[i], newIds[i])
      {
        if i < n {
          assert items[..n][i] == items[i] && newIds[..n][i] == newIds[i];
          assert r.keys[i] == before.keys[i] != k;
        }
      }
    }
  }

  // ---------------------------------------------------------------------------
  // Idempotence, for submissions whose items all carry an id. Such an item's
  // key is its id whatever the store holds, and a later item with the same id
  // absorbs what an earlier one wrote, so the record under a key depends only
  // on the last item with that key.

  /** The stored record under `k`, if any. */
  function At(plans: map<Id, MaintenancePlan>, k: Id): Option<MaintenancePlan> {
    if k in plans then Some(plans[k]) else None
  }

  /** The record an item with an id leaves, given what its key held before. */
  function RecordOver(current: Option<MaintenancePlan>, equipmentId: Id, item: MaintenancePlan): MaintenancePlan
    requires item.id.Some?
  {
    if item.id.value != "" && current.Some? then Overwrite(current.value, item)
    else item.(equipmentId := Some(equipmentId))
  }

  /** The last item of the submission whose id is `k`. */
  function LastWithId(items: seq<MaintenancePlan>, k: Id): (r: Option<MaintenancePlan>)
    ensures r.Some? ==> r.value.id == Some(k) && r.value in items
    ensures r.None? ==> forall i | 0 <= i < |items| :: items[i].id != Some(k)
    decreases |items|
  {
    if items == [] then None
    else if items[|items| - 1].id == Some(k) then Some(items[|items| - 1])
    else LastWithId(items[..|items| - 1], k)
  }

  /** Writing under one id twice keeps only the second write's editable
      fields: the first write's record is absorbed. */
  lemma RecordOverAbsorbs(current: Option<MaintenancePlan>, equipmentId: Id, first: MaintenancePlan, second: MaintenancePlan)
    requires first.id.Some? && first.id == second.id
    ensures RecordOver(Some(RecordOver(current, equipmentId, first)), equipmentId, second)
         == RecordOver(current, equipmentId, second)
  {
  }

  /** When every item carries an id, the record under any key after the
      reconciliation is what the last item with that id makes of the record
      the key held before; a key no item names keeps what it held. */
  lemma {:induction false} ReconcileAtKey(plans: map<Id, MaintenancePlan>, equipmentId: Id,
                                          items: seq<MaintenancePlan>, newIds: seq<Id>, k: Id)
    requires |newIds| == |items|
    requires forall i | 0 <= i < |items| :: items[i].id.Some?
    ensures At(Reconcile(plans, equipmentId, items, newIds).plans, k)
         == match LastWithId(items, k)
            case None => At(plans, k)
            case Some(last) => Some(RecordOver(At(plans, k), equipmentId, last))
  {
    if items != [] {
      var n := |items| - 1;
      var before := Reconcile(plans, equipmentId, items[..n], newIds[..n]);
      ReconcileAtKey(plans, equipmentId, items[..n], newIds[..n], k);
      var item := items[n];
      assert ReconciledRecord(before.plans, equipmentId, item, newIds[n])
          == RecordOver(At(before.plans, item.id.value), equipmentId, item);
      if item.id == Some(k) {
        match LastWithId(items[..n], k)
        case None =>
        case Some(earlier) =>
          RecordOverAbsorbs(At(plans, k), equipmentId, earlier, item);
      }
    }
  }

  /** The store half of idempotence: a second pass over the same items,
      every one of which carries an id, leaves the store the first pass left,
      even when an id is listed more than once. */
  lemma ReconcileStoreStable(plans: map<Id, MaintenancePlan>, equipmentId: Id,
                             items: seq<MaintenancePlan>, newIds: seq<Id>)
    requires |newIds| == |items|
    requires forall i | 0 <= i < |items| :: items[i].id.Some?
    ensures var once := Reconcile(plans, equipmentId, items, newIds);
            Reconcile(once.plans, equipmentId, items, newIds).plans == once.plans
  {
    var once := Reconcile(plans, equipmentId, items, newIds);
    var twice := Reconcile(once.plans, equipmentId, items, newIds);
    forall k ensures At(twice.plans, k) == At(once.plans, k) {
      ReconcileAtKey(plans, equipmentId, items, newIds, k);
      ReconcileAtKey(once.plans, equipmentId, items, newIds, k);
      match LastWithId(items, k)
      case None =>
      case Some(last) =>
        RecordOverAbsorbs(At(plans, k), equipmentId, last, last);
    }
    forall k | k in twice.plans || k in once.plans ensures k in twice.plans && k in once.plans && twice.plans[k] == once.plans[k] {
      assert At(twice.plans, k) == At(once.plans, k);
    }
    assert twice.plans == once.plans;
  }

  /** Re-submitting the same list changes nothing more when every item carries
      an id (stored or not, empty or not, repeated or not): a second
      reconciliation returns the same plan list and the same store. An item
      without an id is saved under a new identifier on each submission. */
  lemma ReconcileIdempotent(plans: map<Id, MaintenancePlan>, equipmentId: Id,
                            items: seq<MaintenancePlan>, newIds: seq<Id>)
    requires |newIds| == |items|
    requires forall i | 0 <= i < |items| :: items[i].id.Some?
    ensures var once := Reconcile(plans, equipmentId, items, newIds);
            Reconcile(once.plans, equipmentId, items, newIds) == once
  {
    var once := Reconcile(plans, equipmentId, items, newIds);
    ReconcileKeys(plans, equipmentId, items, newIds);
    ReconcileKeys(once.plans, equipmentId, items, newIds);
    ReconcileStoreStable(plans, equipmentId, items, newIds);
  }
}
