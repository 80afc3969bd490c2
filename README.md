# Equipment service: a verified model of its business logic

This project models `EquipmentService` of the medical-equipment platform:
- the lifecycle of an equipment unit: creation by the ministry, reception at a hospital, and administrative update;
- its maintenance plans and spare parts;
- the SLA assignment;
- the cascading delete;
- the two transfer workflows (between services, between hospitals), which write an audit record and publish broker messages.

The repositories become the map fields of one class, `EquipmentService.EquipmentStore`. Alongside them are the append-only transfer history and the log of published messages. Each public operation is a method that:
- returns `Ok` or an `Err` naming the failure;
- states its whole new state through `State()`;
- preserves `Valid()`. Every record sits under its own id, and no two equipment share a name.

The private helper `sendTransferEmail` is a method too, but it returns nothing and may change only the message log. Its contract states what it appends.

Modules:
- `Common`: `Option`, and `Lookup`, which is how a call to another service ended (answered, or threw).
- `Classification`: the EMDN nomenclature tree and the first-match depth-first code lookup. It is proved equal to "first node in pre-order with that code", and it succeeds exactly when the code occurs at some depth.
- `SerialCode`: the serial code cut from a random UUID, proved to be ten upper-case hexadecimal characters taken from the UUID's first two groups.
- `Domain`: entities, requests, errors, events and topics.
- `PlanReconciliation`: the plan reconciliation loop as a left fold, with its key, frame, record and idempotence lemmas.
- `TransferNotifications`: recipient lists, the service-name fallback and the messages of both transfers.
- `EquipmentService`: the finders, the delete cascade and the store class.

Generated values are inputs. These are the random UUID behind a serial code, and the identifier the document store assigns on insert (`newId`, `newIds`). The user and hospital directories are `Lookup` parameters of the transfer methods.

### Behaviour of the code that departs from its evident intent (the model follows the code)
- Reception checks the requested name against every equipment, including the one being received, and never writes the name. A name collision is meant to count only against a different equipment, as the administrative update does at EquipmentService.java:169-174.
- Brand lookups use `Optional.get()`:
  - a missing brand, or several brands of one name, fail reception through its catch-all (`LookupFailed`);
  - they fail the administrative update with an exception (also `LookupFailed` here).
- `findBySerialCode` with several matches throws. Reception turns that into `LookupFailed`.
- The reception spare-part check compares the number of distinct parts found with the list's length. A list with a repeated id is therefore rejected even when every id exists (`EquipmentService.SparePartCheckIff`).
- The administrative update copies the spare-part list, status and reception flag verbatim, so duplicates and "received but awaiting reception" are possible.
- In the inter-service transfer, the two supervisor lookups are not guarded. In the inter-hospital transfer, none of the four directory calls is guarded. A failed call escapes after the equipment was saved, with no history record and no message. Only the service-name lookup degrades, to "Nom du service inconnu" (EquipmentService.java:364-378), so a directory failure after the save is evidently meant to be recovered rather than to leave a saved transfer with no record of it.
- The delete cascade removes every plan that names a spare part named by one of the deleted equipment's plans, including plans of other equipment. It then removes the equipment's own spare parts and plans. A spare part of the deleted equipment that none of its plans names takes no other plans with it.
- No serial code is checked for uniqueness.

## Model

| member | source | states |
|---|---|---|
| Classification.FindByCodeInSubtypes | src/main/java/platformMedical/equipment_service/service/EquipmentService.java:219-232 | a node found for a code carries that code |
| Classification.FindByCodeRecursive | src/main/java/platformMedical/equipment_service/service/EquipmentService.java:207-218 | a node found in the forest carries the code looked up |
| Classification.SubtreeSearchIsPreOrderFirst | src/main/java/platformMedical/equipment_service/service/EquipmentService.java:219-232 | the subtree search returns the first node with the code in the subtree's pre-order listing, and nothing when none has it |
| Classification.ListSearchIsPreOrderFirst | src/main/java/platformMedical/equipment_service/service/EquipmentService.java:209-215 | scanning a list of trees left to right returns the first pre-order match of the whole list |
| Classification.FindByCodeRecursiveIsFirstInPreOrder | src/main/java/platformMedical/equipment_service/service/EquipmentService.java:207-232 | the lookup is empty exactly when no node of the forest's pre-order listing has the code; otherwise it is the first such node |
| Classification.SubtreeSearchFindsAnyDepth | src/main/java/platformMedical/equipment_service/service/EquipmentService.java:219-232 | the subtree search succeeds if and only if the code occurs at some depth of the subtree |
| Classification.ListSearchFindsAnyDepth | src/main/java/platformMedical/equipment_service/service/EquipmentService.java:209-215 | the list search succeeds if and only if the code occurs in one of the trees |
| Classification.FindByCodeRecursiveIffOccurs | src/main/java/platformMedical/equipment_service/service/EquipmentService.java:207-232 | `findByCodeRecursive` finds a node if and only if some node of the forest, at any depth, has the code |
| SerialCode.ToUpper | src/main/java/platformMedical/equipment_service/service/EquipmentService.java:35 | upper-casing keeps the length and maps each character on its own |
| SerialCode.UuidHexPrefix | src/main/java/platformMedical/equipment_service/service/EquipmentService.java:35 | once the dashes of a canonical UUID are removed, the first ten characters are the first eight hex digits and the first two of the second group |
| SerialCode.GenerateSerialCode | src/main/java/platformMedical/equipment_service/service/EquipmentService.java:34-36 | the serial code has ten characters, all upper-case hexadecimal digits, and is the upper-cased first ten hex digits of the UUID |
| PlanReconciliation.ReconcileKeys | src/main/java/platformMedical/equipment_service/service/EquipmentService.java:254-285 | the new plan list has one entry per submitted plan, in order: its id, or the store-assigned id when it had none |
| PlanReconciliation.ReconcileFrame | src/main/java/platformMedical/equipment_service/service/EquipmentService.java:256-282 | reconciliation deletes no plan; every listed key is stored; a stored plan that no submitted plan names is unchanged |
| PlanReconciliation.ReconcileRecords | src/main/java/platformMedical/equipment_service/service/EquipmentService.java:256-282 | with distinct keys, an existing plan named by a non-empty id gets the submitted date, description and spare part and keeps its equipment id; any other plan is saved stamped with the equipment's id |
| PlanReconciliation.ReconcileAtKey | src/main/java/platformMedical/equipment_service/service/EquipmentService.java:256-282 | when every item carries an id, the record under any key afterwards is what the last item with that id makes of the key's earlier record (overwriting its date, description and spare part when it was stored under a non-empty id, otherwise saving the item stamped with the equipment's id); a key no item names keeps its record |
| PlanReconciliation.ReconcileStoreStable | src/main/java/platformMedical/equipment_service/service/EquipmentService.java:256-282 | when every item carries an id (an id may repeat), a second pass over the same submission leaves the plan store exactly as the first pass left it |
| PlanReconciliation.ReconcileIdempotent | src/main/java/platformMedical/equipment_service/service/EquipmentService.java:256-282 | resubmitting the same list, when every item carries an id (stored or not, empty or not, repeated or not), leaves the plan list and the store as the first submission left them |
| TransferNotifications.ServiceNameById | src/main/java/platformMedical/equipment_service/service/EquipmentService.java:364-378 | a service's name is returned only when the directory answers with a body; a missing body or a failed call gives "Nom du service inconnu" |
| TransferNotifications.FirstSupervisor | src/main/java/platformMedical/equipment_service/service/EquipmentService.java:330-335 | no supervisor exactly when the list is empty; otherwise the first one listed |
| TransferNotifications.EmailsOf | src/main/java/platformMedical/equipment_service/service/EquipmentService.java:463-465 | one address per user, in the directory's order |
| TransferNotifications.ServiceTransferRecipients | src/main/java/platformMedical/equipment_service/service/EquipmentService.java:382-389 | recipients are the initiator, then the old supervisor if found, then the new supervisor if found; length and positions stated |
| TransferNotifications.HospitalTransferRecipients | src/main/java/platformMedical/equipment_service/service/EquipmentService.java:455-465 | recipients are the initiator, then the destination admin if any, then every origin-hospital user holding a notified role, in order |
| TransferNotifications.EmailsOfAppend | src/main/java/platformMedical/equipment_service/service/EquipmentService.java:463-465 | collecting the addresses of two lists of users in turn is collecting those of their concatenation |
| EquipmentService.ResolveCode | src/main/java/platformMedical/equipment_service/service/EquipmentService.java:48-49 | a resolved EMDN node has the requested, non-null code |
| EquipmentService.DistinctElementsCount | src/main/java/platformMedical/equipment_service/service/EquipmentService.java:108-109 | a list has as many distinct ids as entries if and only if no id repeats |
| EquipmentService.SparePartCheckIff | src/main/java/platformMedical/equipment_service/service/EquipmentService.java:107-113 | the found count equals the list length if and only if every id exists and none is repeated |
| EquipmentService.DeleteBySparePartId | src/main/java/platformMedical/equipment_service/service/EquipmentService.java:304 | exactly the plans naming that spare part are removed; the others are kept unchanged |
| EquipmentService.DeleteSparePartsOf | src/main/java/platformMedical/equipment_service/service/EquipmentService.java:309 | exactly the spare parts of that equipment are removed; the others are kept unchanged |
| EquipmentService.DeletePlansOf | src/main/java/platformMedical/equipment_service/service/EquipmentService.java:312 | exactly the plans of that equipment are removed; the others are kept unchanged |
| EquipmentService.PlansAfterDelete | src/main/java/platformMedical/equipment_service/service/EquipmentService.java:299-312 | after the delete, a plan survives if and only if it belongs to another equipment and names no spare part named by the deleted equipment's plans; survivors are unchanged |
| EquipmentService.CascadeStep | src/main/java/platformMedical/equipment_service/service/EquipmentService.java:301-306 | deleting by one more plan's spare part widens the removed links by exactly that part, in any visiting order |
| EquipmentService.CascadeThenOwned | src/main/java/platformMedical/equipment_service/service/EquipmentService.java:299-312 | removing the linked plans, then the owned ones, yields `PlansAfterDelete` |
| EquipmentService.EquipmentStore.constructor | src/main/java/platformMedical/equipment_service/service/EquipmentService.java:21-31 | a service over the given reference data starts with empty stores and satisfies the invariant |
| EquipmentService.EquipmentStore.CreateEquipment | src/main/java/platformMedical/equipment_service/service/EquipmentService.java:39-68 | a used name gives NameTaken and an unresolvable code gives InvalidEmdnCode, both without writes; a free name with a resolvable code always succeeds with the new id, and exactly one equipment is added: not received, awaiting reception, with a ten-character upper-hex serial code; names stay unique |
| EquipmentService.EquipmentStore.UpdateEquipmentAfterReception | src/main/java/platformMedical/equipment_service/service/EquipmentService.java:70-124 | each guard in source order gives its error with no write; on success only that equipment changes: brand set, received, "En service", the fields copied, spare parts replaced when a list is given |
| EquipmentService.EquipmentStore.UpdateEquipment | src/main/java/platformMedical/equipment_service/service/EquipmentService.java:163-205 | not found, missing required field, clash of a changed name, unresolved code and brand lookup failure each give their error with no write; otherwise every editable field is overwritten from the request |
| EquipmentService.EquipmentStore.AddMaintenancePlan | src/main/java/platformMedical/equipment_service/service/EquipmentService.java:126-135 | the plan is stored stamped with the equipment's id and its key appended to the equipment's plan list; an unknown equipment changes nothing |
| EquipmentService.EquipmentStore.AddSparePart | src/main/java/platformMedical/equipment_service/service/EquipmentService.java:149-161 | the part is stored stamped with the equipment's id; its key is appended unless already listed, so a duplicate-free list stays duplicate-free |
| EquipmentService.EquipmentStore.AssignSlaToEquipment | src/main/java/platformMedical/equipment_service/service/EquipmentService.java:236-242 | an unknown equipment or SLA gives its error with no write; otherwise only the SLA reference changes |
| EquipmentService.EquipmentStore.UpdateMaintenancePlanForEquipment | src/main/java/platformMedical/equipment_service/service/EquipmentService.java:249-292 | the loop leaves the plan store and the equipment's new plan list that the reconciliation fold describes; nothing else changes |
| EquipmentService.EquipmentStore.DeleteEquipment | src/main/java/platformMedical/equipment_service/service/EquipmentService.java:294-316 | an unknown id changes nothing; otherwise the equipment and its spare parts are removed and the plan store becomes `PlansAfterDelete` |
| EquipmentService.EquipmentStore.SendTransferEmail | src/main/java/platformMedical/equipment_service/service/EquipmentService.java:380-417 | the structured event then the generic notification are appended, both carrying the initiator-and-supervisors recipient list |
| EquipmentService.EquipmentStore.ChangeEquipmentInterService | src/main/java/platformMedical/equipment_service/service/EquipmentService.java:320-362 | the service id is saved first; a failed supervisor lookup then fails with nothing else written; otherwise the two messages and one INTER_SERVICE history record are appended |
| EquipmentService.EquipmentStore.ChangeEquipmentInterHospital | src/main/java/platformMedical/equipment_service/service/EquipmentService.java:425-507 | the hospital is saved with the status reset to awaiting reception first; any failed directory call then fails with nothing else written; otherwise the two messages and one INTER_HOSPITAL history record are appended |

## Left out
- Broker delivery: publishing is appending to the `published` log. Delivery, its failure and its asynchrony are not modelled.
- The HTTP clients of the user and hospital directories and their token: each call is a `Lookup` parameter holding its answer.
- `UUID.randomUUID` and the ids the document store generates: they are inputs (`uuid`, `newId`, `newIds`), assumed unused where the store would generate a fresh one.
- The pass-through reads `getEquipmentByHospitalId`, `getSparePartsByEquipmentId`, `findBySerialNumber`, `getAllNonReceivedEquipment` and `findEquipmentById`: each returns one repository query unchanged and has no logic of its own.
- Logging, console output and the transaction annotation: deleting is one method, so it is atomic in the model.
- The ids and timestamps the store gives transfer-history records.
- Null requests, null non-optional fields and a null plan list: the model's types cannot hold null, so these `NullPointerException` paths are absent. A null spare-part list is modelled as the empty list.
- The source of the Equipment entity, and with it the entity's field defaults, is not part of this model. `Domain.Equipment` models its fields. A new equipment's spare-part and plan lists are assumed to start empty. If the builder left them null, `addMaintenancePlan` (EquipmentService.java:133) and `addSparePart` (:157) would throw on a freshly created equipment, and the model does not capture that. The equipment's plan list holds plan ids, not embedded plan objects.
- The response messages: each failure is an `Error` tag, and each success returns the saved record or id.
- Concurrent calls: the model's operations run one at a time.
- The EMDN nomenclature is an inductive datatype, so the model assumes an acyclic tree. On a cyclic nomenclature the Java search would recurse until the stack overflows, and the model cannot express that case.
- EquipmentService.EquipmentStore.UpdateMaintenancePlanForEquipment: assumes the store-assigned ids are distinct, unused and different from every submitted id.
- PlanReconciliation.ReconcileRecords: characterises each saved record only for submissions whose saved keys are distinct. When two items share a key, the later one wins. The fold `Reconcile` still describes that case exactly, and `PlanReconciliation.ReconcileAtKey` characterises it when every item carries an id.
