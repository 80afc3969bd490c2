/** The records the equipment service reads and writes, the request it
    receives, the errors it reports and the events it publishes. */
module Domain {
  import opened Common
  import opened Classification

  /** Document identifiers are strings. */
  type Id = string

  /** A nullable string attribute (supplier, dates, amount, organisational
      ids, ...); its content is opaque to the service. */
  type Text = Option<string>

  /** Status written when an equipment is created or moved to another hospital. */
  const AwaitingReception: string := "en attente de réception"

  /** Status written when an equipment is received. */
  const InService: string := "En service"

  datatype Brand = Brand(id: Id, name: Text, hospitalId: Text)

  /** A spare part; `id` is absent until the store assigns one. */
  datatype SparePart = SparePart(id: Option<Id>, equipmentId: Text, details: Text)

  /** A maintenance plan; `id` is absent until the store assigns one. */
  datatype MaintenancePlan = MaintenancePlan(
    id: Option<Id>,
    equipmentId: Text,
    maintenanceDate: Text,
    description: Text,
    sparePartId: Text)

  /** An equipment unit. `sparePartIds` and `maintenancePlans` hold references
      (ids) into the spare-part and maintenance-plan stores. */
  datatype Equipment = Equipment(
    id: Id,
    nom: string,
    emdnCode: EmdnNode,
    lifespan: int,
    riskClass: Text,
    hospitalId: Text,
    serviceId: Text,
    serialCode: string,
    brand: Option<Brand>,
    supplier: Text,
    acquisitionDate: Text,
    amount: Text,
    startDateWarranty: Text,
    endDateWarranty: Text,
    slaId: Text,
    sparePartIds: seq<Id>,
    maintenancePlans: seq<Id>,
    reception: bool,
    status: Text)

  /** The body of the create, receive and update requests. */
  datatype EquipmentRequest = EquipmentRequest(
    nom: string,
    emdnCode: Text,
    lifespan: int,
    riskClass: Text,
    hospitalId: Text,
    serviceId: Text,
    brand: Text,
    supplier: Text,
    acquisitionDate: Text,
    amount: Text,
    startDateWarranty: Text,
    endDateWarranty: Text,
    slaId: Text,
    sparePartIds: seq<Id>,
    status: Text,
    reception: bool)

  /** The user on whose behalf a transfer runs, or one returned by the user directory. */
  datatype User = User(id: string, firstName: string, lastName: string, email: string)

  /** A service supervisor as carried in the inter-service transfer event. */
  datatype SupervisorInfo = SupervisorInfo(firstName: string, lastName: string, email: string, serviceId: Text)

  datatype TransferType = InterService | InterHospital

  /** An append-only audit record; the fields a transfer type does not use stay absent. */
  datatype TransferHistory = TransferHistory(
    equipmentId: Id,
    transferType: TransferType,
    oldServiceId: Text,
    newServiceId: Text,
    oldHospitalId: Text,
    newHospitalId: Text,
    description: string,
    initiatedByUserId: string,
    initiatedByName: string)

  /** The payloads sent to the message broker. */
  datatype Event =
    | ServiceTransferEvent(
        serialCode: string, equipmentName: string, description: string,
        oldServiceName: string, newServiceName: string,
        firstName: string, lastName: string, email: string,
        oldSupervisor: Option<SupervisorInfo>, newSupervisor: Option<SupervisorInfo>,
        emails: seq<string>)
    | HospitalTransferEvent(
        serialCode: string, equipmentId: Id, equipmentName: string, description: string,
        oldHospitalId: Text, oldHospitalName: string, newHospitalId: Text, newHospitalName: string,
        firstName: string, lastName: string, email: string,
        emails: seq<string>)
    | NotificationEvent(subject: string, body: string, emails: seq<string>)

  /** One message handed to the broker: its topic and its payload. */
  datatype Published = Published(topic: string, event: Event)

  const ServiceTransferTopic: string := "equipment-service-transfer-events"
  const HospitalTransferTopic: string := "equipment-events"
  const NotificationTopic: string := "notification-events"

  /** Why an operation did not complete. The service reports some of these as a
      message and lets others escape as exceptions; the model returns both. */
  datatype Error =
    | EquipmentNotFound      // no equipment with that id or serial code
    | AlreadyReceived        // reception attempted twice
    | NameTaken              // another equipment already has the name
    | InvalidEmdnCode        // the EMDN code does not resolve in the nomenclature
    | MissingRequiredFields  // EMDN code or risk class absent, or lifespan <= 0
    | SparePartsMissing      // some submitted spare-part id was not found
    | SlaNotFound            // no SLA with that id
    | LookupFailed           // a repository finder threw: no brand, or a non-unique result
    | DirectoryUnavailable   // a user- or hospital-directory call threw

  datatype Result<T> = Ok(value: T) | Err(error: Error)
}
