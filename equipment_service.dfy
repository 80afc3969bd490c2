/** The business logic of `EquipmentService`, run against in-memory stores: a
    class owning the repositories as maps, the append-only transfer history and
    the log of messages handed to the broker. Directory answers and generated
    identifiers are parameters. */
module EquipmentService {
  import opened Common
  import opened Classification
  import opened SerialCode
  import opened Domain
  import opened PlanReconciliation
  import opened TransferNotifications

  // ---------------------------------------------------------------------------
  // Repository finders, as functions of the stored maps.

  /** `findByNom(nom).isPresent()`. */
  predicate NameInUse(equipments: map<Id, Equipment>, nom: string) {
    exists k | k in equipments :: equipments[k].nom == nom
  }

  /** The equipment `findBySerialCode` may return. */
  function WithSerialCode(equipments: map<Id, Equipment>, serialCode: string): set<Id> {
    set k | k in equipments && equipments[k].serialCode == serialCode
  }

  /** The brands `findByName` may return. */
  function BrandsNamed(brands: map<Id, Brand>, name: Text): set<Id> {
    set k | k in brands && brands[k].name == name
  }

  /** The brands `findByNameAndHospitalId` may return. */
  function BrandsNamedAt(brands: map<Id, Brand>, name: Text, hospitalId: Text): set<Id> {
    set k | k in brands && brands[k].name == name && brands[k].hospitalId == hospitalId
  }

  /** The distinct spare parts `findAllById(ids)` returns. */
  function FoundSpareParts(ids: seq<Id>, spareParts: map<Id, SparePart>): set<Id> {
    set i | i in ids && i in spareParts
  }

  /** `findByCodeRecursive` on a nullable code; no node carries a null code. */
  function ResolveCode(forest: seq<EmdnNode>, code: Text): (r: Option<EmdnNode>)
    ensures r.Some? ==> code.Some? && r.value.code == code.value
  {
    if code.None? then None else FindByCodeRecursive(forest, code.value)
  }

  /** The one element of a singleton set: what a finder returns when exactly one document matches. */
  ghost function TheOnly(s: set<Id>): (r: Id)
    requires |s| == 1
    ensures s == {r}
  {
    var x :| x in s;
    assert |s - {x}| == 0;
    x
  }

  lemma SingletonMember(s: set<Id>, x: Id)
    requires |s| == 1 && x in s
    ensures s == {x} && x == TheOnly(s)
  {
    assert x in {TheOnly(s)};
  }

  /** No identifier occurs twice in the list. */
  predicate NoDuplicates(ids: seq<Id>) {
    forall i, j | 0 <= i < j < |ids| :: ids[i] != ids[j]
  }

  // ---------------------------------------------------------------------------
  // The spare-part check of the reception: the count of parts found equals the
  // length of the submitted list exactly when every id exists and none repeats.

  lemma {:induction false} DistinctElementsCount(ids: seq<Id>)
    ensures |set i | i in ids| <= |ids|
    ensures |set i | i in ids| == |ids| <==> NoDuplicates(ids)
  {
    if ids != [] {
      var rest := ids[1..];
      DistinctElementsCount(rest);
      assert (set i | i in ids) == {ids[0]} + (set i | i in rest);
      if ids[0] in rest {
        assert (set i | i in ids) == (set i | i in rest);
        var j :| 0 <= j < |rest| && rest[j] == ids[0];
        assert ids[0] == ids[j + 1];
      } else {
        assert NoDuplicates(ids) <==> NoDuplicates(rest) by {
          if NoDuplicates(rest) {
            forall i, j | 0 <= i < j < |ids| ensures ids[i] != ids[j] {
              if i > 0 { assert ids[i] == rest[i - 1] && ids[j] == rest[j - 1]; }
              else { assert ids[j] in rest; }
            }
          }
          if NoDuplicates(ids) {
            forall i, j | 0 <= i < j < |rest| ensures rest[i] != rest[j] {
              assert rest[i] == ids[i + 1] && rest[j] == ids[j + 1];
            }
          }
        }
      }
    }
  }

  lemma SubsetCount(a: set<Id>, b: set<Id>)
    requires a <= b
    ensures |a| <= |b|
    ensures |a| == |b| ==> a == b
  {
    assert b == a + (b - a);
    assert a * (b - a) == {};
    if |a| == |b| {
      assert |b - a| == 0;
    }
  }

  /** The reception's all-or-nothing check on a submitted spare-part list:
      the number of parts found equals the list's length if and only if every
      listed id names a stored part and no id is listed twice. */
  lemma SparePartCheckIff(ids: seq<Id>, spareParts: map<Id, SparePart>)
    ensures |FoundSpareParts(ids, spareParts)| == |ids|
        <==> (forall i | 0 <= i < |ids| :: ids[i] in spareParts) && NoDuplicates(ids)
  {
    var listed := set i | i in ids;
    var found := FoundSpareParts(ids, spareParts);
    DistinctElementsCount(ids);
    SubsetCount(found, listed);
    if |found| == |ids| {
      forall i | 0 <= i < |ids| ensures ids[i] in spareParts {
        assert ids[i] in listed;
      }
    }
    if forall i | 0 <= i < |ids| :: ids[i] in spareParts {
      forall x | x in listed ensures x in found {
        var i :| 0 <= i < |ids| && ids[i] == x;
      }
      assert found == listed;
    }
  }

  // ---------------------------------------------------------------------------
  // The records each operation writes.

  /** The equipment `createEquipment` builds: not yet received, awaiting reception. */
  function NewEquipment(id: Id, request: EquipmentRequest, emdn: EmdnNode, serialCode: string): Equipment {
    Equipment(
      id := id, nom := request.nom, emdnCode := emdn, lifespan := request.lifespan,
      riskClass := request.riskClass, hospitalId := request.hospitalId, serviceId := None,
      serialCode := serialCode, brand := None, supplier := None, acquisitionDate := None,
      amount := None, startDateWarranty := None, endDateWarranty := None, slaId := None,
      sparePartIds := [], maintenancePlans := [], reception := false, status := Some(AwaitingReception))
  }

  /** The equipment after `updateEquipmentAfterReception`: the name is not
      written; the spare-part list is replaced only by a non-empty submission. */
  function Received(e: Equipment, request: EquipmentRequest, brand: Brand): Equipment {
    e.(brand := Some(brand), reception := true, status := Some(InService),
       supplier := request.supplier, acquisitionDate := request.acquisitionDate,
       amount := request.amount, endDateWarranty := request.endDateWarranty,
       startDateWarranty := request.startDateWarranty, serviceId := request.serviceId,
       slaId := request.slaId,
       sparePartIds := if |request.sparePartIds| > 0 then request.sparePartIds else e.sparePartIds)
  }

  /** The equipment after `updateEquipment`: every editable field, status and
      reception flag included, taken verbatim from the request. */
  function Updated(e: Equipment, request: EquipmentRequest, emdn: EmdnNode, brand: Brand): Equipment {
    e.(emdnCode := emdn, nom := request.nom, acquisitionDate := request.acquisitionDate,
       supplier := request.supplier, riskClass := request.riskClass, amount := request.amount,
       lifespan := request.lifespan, endDateWarranty := request.endDateWarranty,
       startDateWarranty := request.startDateWarranty, serviceId := request.serviceId,
       hospitalId := request.hospitalId, brand := Some(brand), sparePartIds := request.sparePartIds,
       status := request.status, reception := request.reception, slaId := request.slaId)
  }

  /** The administrative update's required-field check. */
  predicate MissingRequiredField(request: EquipmentRequest) {
    request.emdnCode.None? || request.lifespan <= 0 || request.riskClass.None?
  }

  /** The spare-part ids whose plans the delete cascade removes: those named by
      the plans owned by the deleted equipment. */
  ghost function CascadeSpareParts(plans: map<Id, MaintenancePlan>, owned: set<Id>): set<Id> {
    set k | k in owned && k in plans && plans[k].sparePartId.Some? :: plans[k].sparePartId.value
  }

  /** The plans owned by an equipment: `findByEquipmentId`. */
  function OwnedPlans(plans: map<Id, MaintenancePlan>, equipmentId: Id): set<Id> {
    set k | k in plans && plans[k].equipmentId == Some(equipmentId)
  }

  predicate LinkedToAny(plan: MaintenancePlan, spareIds: set<Id>) {
    plan.sparePartId.Some? && plan.sparePartId.value in spareIds
  }

  /** The plans of `plans` that name none of the spare parts `spareIds`. */
  ghost function WithoutLinked(plans: map<Id, MaintenancePlan>, spareIds: set<Id>): map<Id, MaintenancePlan> {
    map k | k in plans && !LinkedToAny(plans[k], spareIds) :: plans[k]
  }

  /** `deleteBySparePartId`. */
  function DeleteBySparePartId(plans: map<Id, MaintenancePlan>, sparePartId: Id): (r: map<Id, MaintenancePlan>)
    ensures forall k | k in r :: k in plans && r[k] == plans[k] && plans[k].sparePartId != Some(sparePartId)
    ensures forall k | k in plans && plans[k].sparePartId != Some(sparePartId) :: k in r
  {
    map k | k in plans && plans[k].sparePartId != Some(sparePartId) :: plans[k]
  }

  /** One turn of the cascade loop: deleting the plans linked to one more
      spare part widens the set of removed links by that part. */
  lemma CascadeStep(snapshot: map<Id, MaintenancePlan>, done: set<Id>, k: Id)
    requires k in snapshot
    ensures var sparePartId := snapshot[k].sparePartId;
            var removed := CascadeSpareParts(snapshot, done);
            && CascadeSpareParts(snapshot, done + {k})
               == removed + (if sparePartId.Some? then {sparePartId.value} else {})
            && (sparePartId.Some? ==>
                  DeleteBySparePartId(WithoutLinked(snapshot, removed), sparePartId.value)
                  == WithoutLinked(snapshot, removed + {sparePartId.value}))
            && (sparePartId.None? ==> removed == CascadeSpareParts(snapshot, done + {k}))
  {
    var sparePartId := snapshot[k].sparePartId;
    var removed := CascadeSpareParts(snapshot, done);
    if sparePartId.Some? {
      var left := DeleteBySparePartId(WithoutLinked(snapshot, removed), sparePartId.value);
      var right := WithoutLinked(snapshot, removed + {sparePartId.value});
      assert forall j | j in left :: j in right;
      assert forall j | j in right :: j in left;
    }
  }

  /** `sparePartRepository.deleteByEquipmentId`. */
  function DeleteSparePartsOf(spareParts: map<Id, SparePart>, equipmentId: Id): (r: map<Id, SparePart>)
    ensures forall k | k in r :: k in spareParts && r[k] == spareParts[k] && r[k].equipmentId != Some(equipmentId)
    ensures forall k | k in spareParts && spareParts[k].equipmentId != Some(equipmentId) :: k in r
  {
    map k | k in spareParts && spareParts[k].equipmentId != Some(equipmentId) :: spareParts[k]
  }

  /** `maintenancePlanRepository.deleteByEquipmentId`. */
  function DeletePlansOf(plans: map<Id, MaintenancePlan>, equipmentId: Id): (r: map<Id, MaintenancePlan>)
    ensures forall k | k in r :: k in plans && r[k] == plans[k] && r[k].equipmentId != Some(equipmentId)
    ensures forall k | k in plans && plans[k].equipmentId != Some(equipmentId) :: k in r
  {
    map k | k in plans && plans[k].equipmentId != Some(equipmentId) :: plans[k]
  }

  /** The plan store after deleting an equipment: a plan survives exactly when
      it belongs to another equipment (or none) and names none of the spare
      parts named by the deleted equipment's plans; survivors are untouched. */
  ghost function PlansAfterDelete(plans: map<Id, MaintenancePlan>, equipmentId: Id): (r: map<Id, MaintenancePlan>)
    ensures var linked := CascadeSpareParts(plans, OwnedPlans(plans, equipmentId));
            && (forall k | k in r :: k in plans && r[k] == plans[k]
                                     && r[k].equipmentId != Some(equipmentId) && !LinkedToAny(r[k], linked))
            && (forall k | k in plans && plans[k].equipmentId != Some(equipmentId) && !LinkedToAny(plans[k], linked)
                  :: k in r)
  {
    var linked := CascadeSpareParts(plans, OwnedPlans(plans, equipmentId));
    map k | k in plans && plans[k].equipmentId != Some(equipmentId) && !LinkedToAny(plans[k], linked) :: plans[k]
  }

  /** Removing the linked plans and then the owned ones leaves the store
      `PlansAfterDelete` describes. */
  lemma CascadeThenOwned(plans: map<Id, MaintenancePlan>, equipmentId: Id)
    ensures DeletePlansOf(WithoutLinked(plans, CascadeSpareParts(plans, OwnedPlans(plans, equipmentId))), equipmentId)
            == PlansAfterDelete(plans, equipmentId)
  {
    var left := DeletePlansOf(WithoutLinked(plans, CascadeSpareParts(plans, OwnedPlans(plans, equipmentId))), equipmentId);
    var right := PlansAfterDelete(plans, equipmentId);
    assert forall k | k in left :: k in right;
    assert forall k | k in right :: k in left;
  }

  /** Every value the service reads or writes, as one value. */
  datatype StoreState = StoreState(
    equipments: map<Id, Equipment>,
    brands: map<Id, Brand>,
    spareParts: map<Id, SparePart>,
    plans: map<Id, MaintenancePlan>,
    slas: set<Id>,
    nomenclature: seq<EmdnNode>,
    history: seq<TransferHistory>,
    published: seq<Published>)

  /** `EquipmentService` with its repositories. */
  class EquipmentStore {
    var equipments: map<Id, Equipment>
    var brands: map<Id, Brand>
    var spareParts: map<Id, SparePart>
    var plans: map<Id, MaintenancePlan>
    var slas: set<Id>
    var nomenclature: seq<EmdnNode>
    var history: seq<TransferHistory>
    var published: seq<Published>

    ghost function State(): StoreState
      reads this
    {
      StoreState(equipments, brands, spareParts, plans, slas, nomenclature, history, published)
    }

    /** Each record sits under its own id, and no two equipment share a name
        (every write of a name checks it first). */
    ghost predicate Valid()
      reads this
    {
      && (forall k | k in equipments :: equipments[k].id == k)
      && (forall k | k in spareParts :: spareParts[k].id == Some(k))
      && (forall k | k in plans :: plans[k].id == Some(k))
      && (forall a, b | a in equipments && b in equipments && a != b :: equipments[a].nom != equipments[b].nom)
    }

    /** A service over the given reference data and empty equipment stores. */
    constructor (nomenclature: seq<EmdnNode>, brands: map<Id, Brand>, slas: set<Id>)
      ensures Valid()
      ensures State() == StoreState(map[], brands, map[], map[], slas, nomenclature, [], [])
    {
      this.equipments := map[];
      this.brands := brands;
      this.spareParts := map[];
      this.plans := map[];
      this.slas := slas;
      this.nomenclature := nomenclature;
      this.history := [];
      this.published := [];
    }

    /** `createEquipment`. `uuid` is the random UUID behind the serial code and
        `newId` the identifier the store assigns to the new document. */
    method CreateEquipment(request: EquipmentRequest, uuid: string, newId: Id) returns (r: Result<Id>)
      requires Valid()
      requires IsCanonicalUuid(uuid)
      requires newId !in equipments
      modifies this
      ensures Valid()
      ensures NameInUse(old(equipments), request.nom) ==> r == Err(NameTaken)
      ensures !NameInUse(old(equipments), request.nom) && ResolveCode(old(nomenclature), request.emdnCode).None?
              ==> r == Err(InvalidEmdnCode)
      ensures !NameInUse(old(equipments), request.nom) && ResolveCode(old(nomenclature), request.emdnCode).Some?
              ==> r == Ok(newId)
      ensures r.Err? ==> State() == old(State())
      ensures r.Ok? ==>
                && r.value == newId
                && !NameInUse(old(equipments), request.nom)
                && ResolveCode(old(nomenclature), request.emdnCode).Some?
                && State() == old(State()).(equipments := old(equipments)[newId :=
                     NewEquipment(newId, request, ResolveCode(old(nomenclature), request.emdnCode).value,
                                  GenerateSerialCode(uuid))])
      ensures r.Ok? ==>
                && |equipments| == |old(equipments)| + 1
                && !equipments[newId].reception
                && equipments[newId].status == Some(AwaitingReception)
                && |equipments[newId].serialCode| == 10
                && forall i | 0 <= i < 10 :: equipments[newId].serialCode[i] in UpperHexDigits
    {
      if NameInUse(equipments, request.nom) {
        return Err(NameTaken);
      }
      var emdn := ResolveCode(nomenclature, request.emdnCode);
      if emdn.None? {
        return Err(InvalidEmdnCode);
      }
      var serialNumber := GenerateSerialCode(uuid);
      equipments := equipments[newId := NewEquipment(newId, request, emdn.value, serialNumber)];
      r := Ok(newId);
    }

    /** `updateEquipmentAfterReception`. Guards, in order: the serial code
        names exactly one equipment (none: not found; several: the finder
        throws), it is not yet received, no equipment at all bears the
        requested name, exactly one brand has the requested name, and a
        non-empty spare-part list is found in full. */
    method UpdateEquipmentAfterReception(serialNumber: string, request: EquipmentRequest) returns (r: Result<Id>)
      requires Valid()
      modifies this
      ensures Valid()
      ensures r.Err? ==> State() == old(State())
      ensures |WithSerialCode(old(equipments), serialNumber)| == 0 ==> r == Err(EquipmentNotFound)
      ensures |WithSerialCode(old(equipments), serialNumber)| > 1 ==> r == Err(LookupFailed)
      ensures |WithSerialCode(old(equipments), serialNumber)| == 1 ==>
                var e := old(equipments)[TheOnly(WithSerialCode(old(equipments), serialNumber))];
                var brandIds := BrandsNamed(old(brands), request.brand);
                var partsMissing := |request.sparePartIds| > 0
                                    && |FoundSpareParts(request.sparePartIds, old(spareParts))| != |request.sparePartIds|;
                && (e.reception ==> r == Err(AlreadyReceived))
                && (!e.reception && NameInUse(old(equipments), request.nom) ==> r == Err(NameTaken))
                && (!e.reception && !NameInUse(old(equipments), request.nom) && |brandIds| != 1
                    ==> r == Err(LookupFailed))
                && (!e.reception && !NameInUse(old(equipments), request.nom) && |brandIds| == 1 && partsMissing
                    ==> r == Err(SparePartsMissing))
                && (!e.reception && !NameInUse(old(equipments), request.nom) && |brandIds| == 1 && !partsMissing
                    ==> r == Ok(e.id)
                        && State() == old(State()).(equipments := old(equipments)[e.id :=
                             Received(e, request, old(brands)[TheOnly(brandIds)])]))
      ensures r.Ok? ==> r.value in equipments && equipments[r.value].reception
                        && equipments[r.value].status == Some(InService)
    {
      var matches := WithSerialCode(equipments, serialNumber);
      if |matches| == 0 {
        return Err(EquipmentNotFound);
      }
      if |matches| > 1 {
        return Err(LookupFailed);
      }
      var id :| id in matches;
      SingletonMember(matches, id);
      var equipment := equipments[id];
      if equipment.reception {
        return Err(AlreadyReceived);
      }
      if NameInUse(equipments, request.nom) {
        return Err(NameTaken);
      }
      var brandIds := BrandsNamed(brands, request.brand);
      if |brandIds| != 1 {
        return Err(LookupFailed);
      }
      var brandId :| brandId in brandIds;
      SingletonMember(brandIds, brandId);
      if |request.sparePartIds| > 0 {
        if |FoundSpareParts(request.sparePartIds, spareParts)| != |request.sparePartIds| {
          return Err(SparePartsMissing);
        }
      }
      equipments := equipments[id := Received(equipment, request, brands[brandId])];
      r := Ok(id);
    }

    /** `updateEquipment`, the administrative overwrite. Guards, in order: the
        equipment exists, the required fields are present, a changed name is
        not in use, the EMDN code resolves, and exactly one brand of that name
        exists at the requested hospital. */
    method UpdateEquipment(equipmentId: Id, request: EquipmentRequest) returns (r: Result<Equipment>)
      requires Valid()
      modifies this
      ensures Valid()
      ensures r.Err? ==> State() == old(State())
      ensures equipmentId !in old(equipments) ==> r == Err(EquipmentNotFound)
      ensures equipmentId in old(equipments) ==>
                var e := old(equipments)[equipmentId];
                var clash := request.nom != e.nom && NameInUse(old(equipments), request.nom);
                var emdn := ResolveCode(old(nomenclature), request.emdnCode);
                var brandIds := BrandsNamedAt(old(brands), request.brand, request.hospitalId);
                && (MissingRequiredField(request) ==> r == Err(MissingRequiredFields))
                && (!MissingRequiredField(request) && clash ==> r == Err(NameTaken))
                && (!MissingRequiredField(request) && !clash && emdn.None? ==> r == Err(InvalidEmdnCode))
                && (!MissingRequiredField(request) && !clash && emdn.Some? && |brandIds| != 1
                    ==> r == Err(LookupFailed))
                && (!MissingRequiredField(request) && !clash && emdn.Some? && |brandIds| == 1
                    ==> var updated := Updated(e, request, emdn.value, old(brands)[TheOnly(brandIds)]);
                        r == Ok(updated)
                        && State() == old(State()).(equipments := old(equipments)[equipmentId := updated]))
    {
      if equipmentId !in equipments {
        return Err(EquipmentNotFound);
      }
      var equipment := equipments[equipmentId];
      if MissingRequiredField(request) {
        return Err(MissingRequiredFields);
      }
      if request.nom != equipment.nom {
        if NameInUse(equipments, request.nom) {
          return Err(NameTaken);
        }
      }
      var emdn := ResolveCode(nomenclature, request.emdnCode);
      if emdn.None? {
        return Err(InvalidEmdnCode);
      }
      var brandIds := BrandsNamedAt(brands, request.brand, request.hospitalId);
      if |brandIds| != 1 {
        return Err(LookupFailed);
      }
      var brandId :| brandId in brandIds;
      SingletonMember(brandIds, brandId);
      var updated := Updated(equipment, request, emdn.value, brands[brandId]);
      equipments := equipments[equipmentId := updated];
      r := Ok(updated);
    }

    /** `addMaintenancePlan`: the plan is stamped with the equipment's id and
        saved (under its own id, or under `newId` when it has none), and its
        key is appended to the equipment's plan list, duplicates allowed. */
    method AddMaintenancePlan(equipmentId: Id, plan: MaintenancePlan, newId: Id) returns (r: Result<Equipment>)
      requires Valid()
      requires newId !in plans
      modifies this
      ensures Valid()
      ensures equipmentId !in old(equipments) ==> r == Err(EquipmentNotFound) && State() == old(State())
      ensures equipmentId in old(equipments) ==>
                var k := SavedKey(plan, newId);
                var e := old(equipments)[equipmentId];
                var e' := e.(maintenancePlans := e.maintenancePlans + [k]);
                && r == Ok(e')
                && State() == old(State()).(
                     plans := old(plans)[k := plan.(id := Some(k), equipmentId := Some(equipmentId))],
                     equipments := old(equipments)[equipmentId := e'])
      ensures r.Ok? ==> |r.value.maintenancePlans| == |old(equipments)[equipmentId].maintenancePlans| + 1
    {
      if equipmentId !in equipments {
        return Err(EquipmentNotFound);
      }
      var equipment := equipments[equipmentId];
      var k := SavedKey(plan, newId);
      plans := plans[k := plan.(id := Some(k), equipmentId := Some(equipmentId))];
      equipment := equipment.(maintenancePlans := equipment.maintenancePlans + [k]);
      equipments := equipments[equipmentId := equipment];
      r := Ok(equipment);
    }

    /** `addSparePart`: the part is stamped with the equipment's id and saved
        (under its own id, or under `newId` when it has none); its key is
        appended to the equipment's list unless already there. */
    method AddSparePart(equipmentId: Id, part: SparePart, newId: Id) returns (r: Result<Equipment>)
      requires Valid()
      requires newId !in spareParts
      modifies this
      ensures Valid()
      ensures equipmentId !in old(equipments) ==> r == Err(EquipmentNotFound) && State() == old(State())
      ensures equipmentId in old(equipments) ==>
                var k := if part.id.Some? then part.id.value else newId;
                var e := old(equipments)[equipmentId];
                var e' := e.(sparePartIds := if k in e.sparePartIds then e.sparePartIds else e.sparePartIds + [k]);
                && r == Ok(e')
                && State() == old(State()).(
                     spareParts := old(spareParts)[k := part.(id := Some(k), equipmentId := Some(equipmentId))],
                     equipments := old(equipments)[equipmentId := e'])
      ensures r.Ok? ==>
                var k := if part.id.Some? then part.id.value else newId;
                && k in r.value.sparePartIds
                && (NoDuplicates(old(equipments)[equipmentId].sparePartIds) ==> NoDuplicates(r.value.sparePartIds))
    {
      if equipmentId !in equipments {
        return Err(EquipmentNotFound);
      }
      var equipment := equipments[equipmentId];
      var k := if part.id.Some? then part.id.value else newId;
      spareParts := spareParts[k := part.(id := Some(k), equipmentId := Some(equipmentId))];
      if k !in equipment.sparePartIds {
        equipment := equipment.(sparePartIds := equipment.sparePartIds + [k]);
      }
      equipments := equipments[equipmentId := equipment];
      r := Ok(equipment);
    }

    /** `assignSlaToEquipment`: both the equipment and the SLA must exist. */
    method AssignSlaToEquipment(equipmentId: Id, slaId: Id) returns (r: Result<Equipment>)
      requires Valid()
      modifies this
      ensures Valid()
      ensures equipmentId !in old(equipments) ==> r == Err(EquipmentNotFound) && State() == old(State())
      ensures equipmentId in old(equipments) && slaId !in old(slas) ==> r == Err(SlaNotFound) && State() == old(State())
      ensures equipmentId in old(equipments) && slaId in old(slas) ==>
                var e' := old(equipments)[equipmentId].(slaId := Some(slaId));
                r == Ok(e') && State() == old(State()).(equipments := old(equipments)[equipmentId := e'])
    {
      if equipmentId !in equipments {
        return Err(EquipmentNotFound);
      }
      if slaId !in slas {
        return Err(SlaNotFound);
      }
      var equipment := equipments[equipmentId].(slaId := Some(slaId));
      equipments := equipments[equipmentId := equipment];
      r := Ok(equipment);
    }

    /** `updateMaintenancePlanForEquipment`. `newIds[i]` is the identifier the
        store assigns if item `i` is saved without an id; such identifiers are
        unused, distinct, and different from every submitted id. */
    method UpdateMaintenancePlanForEquipment(equipmentId: Id, updatedPlans: seq<MaintenancePlan>, newIds: seq<Id>)
      returns (r: Result<()>)
      requires Valid()
      requires |newIds| == |updatedPlans|
      requires forall i | 0 <= i < |newIds| :: newIds[i] !in plans
      requires forall i, j | 0 <= i < j < |newIds| :: newIds[i] != newIds[j]
      requires forall i, j | 0 <= i < |newIds| && 0 <= j < |updatedPlans| :: updatedPlans[j].id != Some(newIds[i])
      modifies this
      ensures Valid()
      ensures equipmentId !in old(equipments) ==> r == Err(EquipmentNotFound) && State() == old(State())
      ensures equipmentId in old(equipments) ==>
                var outcome := Reconcile(old(plans), equipmentId, updatedPlans, newIds);
                && r == Ok(())
                && State() == old(State()).(
                     plans := outcome.plans,
                     equipments := old(equipments)[equipmentId :=
                                     old(equipments)[equipmentId].(maintenancePlans := outcome.keys)])
    {
      if equipmentId !in equipments {
        return Err(EquipmentNotFound);
      }
      var equipment := equipments[equipmentId];
      var newMaintenancePlans: seq<Id> := [];
      for i := 0 to |updatedPlans|
        invariant Reconciled(newMaintenancePlans, plans) == Reconcile(old(plans), equipmentId, updatedPlans[..i], newIds[..i])
        invariant forall k | k in plans :: plans[k].id == Some(k)
        invariant equipments == old(equipments) && brands == old(brands) && spareParts == old(spareParts)
        invariant slas == old(slas) && nomenclature == old(nomenclature)
        invariant history == old(history) && published == old(published)
      {
        assert updatedPlans[..i + 1][..i] == updatedPlans[..i];
        assert newIds[..i + 1][..i] == newIds[..i];
        var updatedPlan := updatedPlans[i];
        if updatedPlan.id.Some? && updatedPlan.id.value != "" {
          var k := updatedPlan.id.value;
          if k in plans {
            var existingPlan := plans[k].(maintenanceDate := updatedPlan.maintenanceDate,
                                          description := updatedPlan.description,
                                          sparePartId := updatedPlan.sparePartId);
            plans := plans[k := existingPlan];
            newMaintenancePlans := newMaintenancePlans + [k];
          } else {
            plans := plans[k := updatedPlan.(equipmentId := Some(equipmentId))];
            newMaintenancePlans := newMaintenancePlans + [k];
          }
        } else {
          var k := SavedKey(updatedPlan, newIds[i]);
          plans := plans[k := updatedPlan.(id := Some(k), equipmentId := Some(equipmentId))];
          newMaintenancePlans := newMaintenancePlans + [k];
        }
      }
      assert updatedPlans[..|updatedPlans|] == updatedPlans;
      assert newIds[..|newIds|] == newIds;
      equipments := equipments[equipmentId := equipment.(maintenancePlans := newMaintenancePlans)];
      r := Ok(());
    }

    /** `deleteEquipment`: removes the plans naming a spare part that one of the
        equipment's plans names (whoever owns them), then the equipment's spare
        parts, then its plans, then the equipment itself. */
    method DeleteEquipment(equipmentId: Id) returns (r: Result<()>)
      requires Valid()
      modifies this
      ensures Valid()
      ensures equipmentId !in old(equipments) ==> r == Err(EquipmentNotFound) && State() == old(State())
      ensures equipmentId in old(equipments) ==>
                && r == Ok(())
                && State() == old(State()).(
                     equipments := old(equipments) - {equipmentId},
                     spareParts := DeleteSparePartsOf(old(spareParts), equipmentId),
                     plans := PlansAfterDelete(old(plans), equipmentId))
    {
      if equipmentId !in equipments {
        return Err(EquipmentNotFound);
      }
      var owned := OwnedPlans(plans, equipmentId);
      var snapshot := plans;
      var pending := owned;
      assert plans == WithoutLinked(snapshot, CascadeSpareParts(snapshot, owned - pending));
      while pending != {}
        invariant pending <= owned
        invariant plans == WithoutLinked(snapshot, CascadeSpareParts(snapshot, owned - pending))
        invariant equipments == old(equipments) && brands == old(brands) && spareParts == old(spareParts)
        invariant slas == old(slas) && nomenclature == old(nomenclature)
        invariant history == old(history) && published == old(published)
        decreases pending
      {
        var k :| k in pending;
        var sparePartId := snapshot[k].sparePartId;
        CascadeStep(snapshot, owned - pending, k);
        if sparePartId.Some? {
          plans := DeleteBySparePartId(plans, sparePartId.value);
        }
        assert owned - (pending - {k}) == (owned - pending) + {k};
        pending := pending - {k};
      }
      assert owned - pending == owned;
      CascadeThenOwned(snapshot, equipmentId);
      spareParts := DeleteSparePartsOf(spareParts, equipmentId);
      plans := DeletePlansOf(plans, equipmentId);
      equipments := equipments - {equipmentId};
      r := Ok(());
    }

    /** `sendTransferEmail`: builds the recipient list and publishes the
        structured event and the generic notification. */
    method SendTransferEmail(user: User, oldSupervisor: Option<SupervisorInfo>, newSupervisor: Option<SupervisorInfo>,
                             equipment: Equipment, oldServiceName: string, newServiceName: string,
                             description: string)
      modifies this`published
      ensures published == old(published)
                + ServiceTransferMessages(equipment, description, oldServiceName, newServiceName, user,
                                          oldSupervisor, newSupervisor,
                                          [user.email] + SupervisorEmail(oldSupervisor) + SupervisorEmail(newSupervisor))
    {
      var emailsToNotify := ServiceTransferRecipients(user, oldSupervisor, newSupervisor);
      published := published
        + [Published(ServiceTransferTopic,
             ServiceTransferEvent(equipment.serialCode, equipment.nom, description,
                                  oldServiceName, newServiceName,
                                  user.firstName, user.lastName, user.email,
                                  oldSupervisor, newSupervisor, emailsToNotify))];
      published := published
        + [Published(NotificationTopic,
             NotificationEvent("Transfert d'équipement",
                               TransferBody(equipment.nom, oldServiceName, newServiceName), emailsToNotify))];
    }

    /** `changeEquipmentInterService`. The directory answers are parameters:
        the supervisor lists of the old and new service (a failed call escapes
        after the equipment was saved) and the two service-name lookups (which
        degrade to a sentinel name). */
    method ChangeEquipmentInterService(equipmentId: Id, newServiceId: Text, description: string, user: User,
                                       oldSupervisors: Lookup<seq<User>>, newSupervisors: Lookup<seq<User>>,
                                       oldServiceAnswer: Lookup<Option<string>>, newServiceAnswer: Lookup<Option<string>>)
      returns (r: Result<Equipment>)
      requires Valid()
      modifies this
      ensures Valid()
      ensures equipmentId !in old(equipments) ==> r == Err(EquipmentNotFound) && State() == old(State())
      ensures equipmentId in old(equipments) ==>
                var e := old(equipments)[equipmentId];
                var moved := e.(serviceId := newServiceId);
                && equipments == old(equipments)[equipmentId := moved]
                && State() == old(State()).(equipments := equipments, history := history, published := published)
                && (oldSupervisors.Unavailable? || newSupervisors.Unavailable? ==>
                      r == Err(DirectoryUnavailable) && history == old(history) && published == old(published))
                && (oldSupervisors.Answered? && newSupervisors.Answered? ==>
                      var oldInfo := SupervisorInfoOf(FirstSupervisor(oldSupervisors.value), e.serviceId);
                      var newInfo := SupervisorInfoOf(FirstSupervisor(newSupervisors.value), newServiceId);
                      && r == Ok(moved)
                      && history == old(history) + [TransferHistory(equipmentId, InterService, e.serviceId, newServiceId,
                                                                    None, None, description, user.id, InitiatorName(user))]
                      && published == old(published)
                           + ServiceTransferMessages(moved, description,
                                                     ServiceNameById(oldServiceAnswer), ServiceNameById(newServiceAnswer),
                                                     user, oldInfo, newInfo,
                                                     [user.email] + SupervisorEmail(oldInfo) + SupervisorEmail(newInfo)))
    {
      if equipmentId !in equipments {
        return Err(EquipmentNotFound);
      }
      var equipment := equipments[equipmentId];
      var oldServiceId := equipment.serviceId;
      equipment := equipment.(serviceId := newServiceId);
      equipments := equipments[equipmentId := equipment];

      if oldSupervisors.Unavailable? || newSupervisors.Unavailable? {
        return Err(DirectoryUnavailable);
      }
      var oldSupervisor := FirstSupervisor(oldSupervisors.value);
      var newSupervisor := FirstSupervisor(newSupervisors.value);
      var oldServiceName := ServiceNameById(oldServiceAnswer);
      var newServiceName := ServiceNameById(newServiceAnswer);
      var oldSupervisorInfo := SupervisorInfoOf(oldSupervisor, oldServiceId);
      var newSupervisorInfo := SupervisorInfoOf(newSupervisor, newServiceId);
      SendTransferEmail(user, oldSupervisorInfo, newSupervisorInfo, equipment, oldServiceName, newServiceName, description);

      history := history + [TransferHistory(equipmentId, InterService, oldServiceId, newServiceId,
                                            None, None, description, user.id, InitiatorName(user))];
      r := Ok(equipment);
    }

    /** `changeEquipmentInterHospital`. The directory answers are parameters:
        the destination hospital's admin (possibly none), both hospital names
        and the origin hospital's users holding a notified role; any failed
        call escapes after the equipment was saved. */
    method ChangeEquipmentInterHospital(equipmentId: Id, newHospitalId: Text, description: string, user: User,
                                        adminOfNewHospital: Lookup<Option<User>>,
                                        newHospitalName: Lookup<string>, oldHospitalName: Lookup<string>,
                                        usersInService: Lookup<seq<User>>)
      returns (r: Result<Equipment>)
      requires Valid()
      modifies this
      ensures Valid()
      ensures equipmentId !in old(equipments) ==> r == Err(EquipmentNotFound) && State() == old(State())
      ensures equipmentId in old(equipments) ==>
                var e := old(equipments)[equipmentId];
                var moved := e.(hospitalId := newHospitalId, status := Some(AwaitingReception), reception := false);
                var answered := adminOfNewHospital.Answered? && newHospitalName.Answered?
                                && oldHospitalName.Answered? && usersInService.Answered?;
                && equipments == old(equipments)[equipmentId := moved]
                && State() == old(State()).(equipments := equipments, history := history, published := published)
                && (!answered ==> r == Err(DirectoryUnavailable) && history == old(history) && published == old(published))
                && (answered ==>
                      var emails := [user.email]
                                    + (if adminOfNewHospital.value.Some? then [adminOfNewHospital.value.value.email] else [])
                                    + EmailsOf(usersInService.value);
                      && r == Ok(moved)
                      && history == old(history) + [TransferHistory(equipmentId, InterHospital, None, None,
                                                                    e.hospitalId, newHospitalId,
                                                                    description, user.id, InitiatorName(user))]
                      && published == old(published)
                           + HospitalTransferMessages(moved, description, e.hospitalId, oldHospitalName.value,
                                                      newHospitalId, newHospitalName.value, user, emails))
    {
      if equipmentId !in equipments {
        return Err(EquipmentNotFound);
      }
      var equipment := equipments[equipmentId];
      var oldHospitalId := equipment.hospitalId;
      equipment := equipment.(hospitalId := newHospitalId, status := Some(AwaitingReception), reception := false);
      equipments := equipments[equipmentId := equipment];

      if adminOfNewHospital.Unavailable? || newHospitalName.Unavailable?
         || oldHospitalName.Unavailable? || usersInService.Unavailable? {
        return Err(DirectoryUnavailable);
      }
      var emailsToNotify := HospitalTransferRecipients(user, adminOfNewHospital.value, usersInService.value);
      published := published
        + HospitalTransferMessages(equipment, description, oldHospitalId, oldHospitalName.value,
                                   newHospitalId, newHospitalName.value, user, emailsToNotify);
      history := history + [TransferHistory(equipmentId, InterHospital, None, None, oldHospitalId, newHospitalId,
                                            description, user.id, InitiatorName(user))];
      r := Ok(equipment);
    }
  }
}
