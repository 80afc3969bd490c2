/** What the two transfer workflows derive from the directory answers: the
    supervisor to notify, the service-name fallback, the recipient lists and
    the two messages each workflow publishes. */
module TransferNotifications {
  import opened Common
  import opened Domain

  /** The name used when the hospital directory gives no service name. */
  const UnknownServiceName: string := "Nom du service inconnu"

  /** `getServiceNameById`: `answer` is how the directory call ended: it threw
      (`Unavailable`), answered without a body (`Answered(None)`), or answered
      with a service whose name is given. Only a named service is believed;
      every failure becomes the sentinel name, so the caller never fails. */
  function ServiceNameById(answer: Lookup<Option<string>>): (name: string)
    ensures answer.Answered? && answer.value.Some? ==> name == answer.value.value
    ensures !(answer.Answered? && answer.value.Some?) ==> name == UnknownServiceName
  {
    match answer
    case Unavailable => UnknownServiceName
    case Answered(None) => UnknownServiceName
    case Answered(Some(serviceName)) => serviceName
  }

  /** The supervisor kept for a service: the first one listed, none for an empty list. */
  function FirstSupervisor(supervisors: seq<User>): (r: Option<User>)
    ensures r.None? <==> supervisors == []
    ensures r.Some? ==> r.value == supervisors[0] && r.value in supervisors
  {
    if supervisors == [] then None else Some(supervisors[0])
  }

  /** The supervisor as carried in the transfer event, tagged with the service it supervises. */
  function SupervisorInfoOf(supervisor: Option<User>, serviceId: Text): Option<SupervisorInfo> {
    match supervisor
    case None => None
    case Some(u) => Some(SupervisorInfo(u.firstName, u.lastName, u.email, serviceId))
  }

  /** The e-mail of a supervisor who was found, as a list of zero or one address. */
  function SupervisorEmail(info: Option<SupervisorInfo>): seq<string> {
    match info
    case None => []
    case Some(s) => [s.email]
  }

  /** The e-mail addresses of some users, in order. */
  function EmailsOf(users: seq<User>): (r: seq<string>)
    ensures |r| == |users| && forall i | 0 <= i < |users| :: r[i] == users[i].email
  {
    if users == [] then [] else [users[0].email] + EmailsOf(users[1..])
  }

  /** The display name recorded in the audit trail. */
  function InitiatorName(user: User): string {
    user.firstName + " " + user.lastName
  }

  /** The human-readable body of the generic notification of both workflows. */
  function TransferBody(equipmentName: string, from: string, to: string): string {
    "L'équipement " + equipmentName + " a été transféré de " + from + " à " + to + "."
  }

  /** The recipients of an inter-service transfer, built as `sendTransferEmail`
      builds them: the initiator, then the old service's supervisor if one was
      found, then the new service's supervisor if one was found. */
  method ServiceTransferRecipients(initiator: User, oldSupervisor: Option<SupervisorInfo>,
                                   newSupervisor: Option<SupervisorInfo>)
    returns (emails: seq<string>)
    ensures emails == [initiator.email] + SupervisorEmail(oldSupervisor) + SupervisorEmail(newSupervisor)
    ensures |emails| == 1 + (if oldSupervisor.Some? then 1 else 0) + (if newSupervisor.Some? then 1 else 0)
    ensures oldSupervisor.Some? ==> emails[1] == oldSupervisor.value.email
    ensures newSupervisor.Some? ==> emails[|emails| - 1] == newSupervisor.value.email
  {
    emails := [initiator.email];
    if oldSupervisor.Some? {
      emails := emails + [oldSupervisor.value.email];
    }
    if newSupervisor.Some? {
      emails := emails + [newSupervisor.value.email];
    }
  }

  /** The recipients of an inter-hospital transfer: the initiator, then the
      destination hospital's admin if there is one, then every user the
      directory lists for the origin hospital under the roles hospital admin,
      ministry admin and maintenance engineer, in the order it listed them. */
  method HospitalTransferRecipients(initiator: User, admin: Option<User>, roleUsers: seq<User>)
    returns (emails: seq<string>)
    ensures emails == [initiator.email] + (if admin.Some? then [admin.value.email] else []) + EmailsOf(roleUsers)
    ensures var offset := if admin.Some? then 2 else 1;
            |emails| == offset + |roleUsers|
            && emails[0] == initiator.email
            && (admin.Some? ==> emails[1] == admin.value.email)
            && forall i | 0 <= i < |roleUsers| :: emails[offset + i] == roleUsers[i].email
  {
    emails := [initiator.email];
    if admin.Some? {
      emails := emails + [admin.value.email];
    }
    ghost var head := emails;
    for i := 0 to |roleUsers|
      invariant emails == head + EmailsOf(roleUsers[..i])
    {
      assert roleUsers[..i + 1] == roleUsers[..i] + [roleUsers[i]];
      EmailsOfAppend(roleUsers[..i], [roleUsers[i]]);
      emails := emails + [roleUsers[i].email];
    }
    assert roleUsers[..|roleUsers|] == roleUsers;
  }

  lemma {:induction false} EmailsOfAppend(a: seq<User>, b: seq<User>)
    ensures EmailsOf(a + b) == EmailsOf(a) + EmailsOf(b)
  {
    if a != [] {
      assert (a + b)[1..] == a[1..] + b;
      EmailsOfAppend(a[1..], b);
    } else {
      assert a + b == b;
    }
  }

  /** The two messages of an inter-service transfer: the structured event on
      its own topic, then the generic notification; both carry `emails`. */
  function ServiceTransferMessages(equipment: Equipment, description: string,
                                   oldServiceName: string, newServiceName: string, user: User,
                                   oldSupervisor: Option<SupervisorInfo>, newSupervisor: Option<SupervisorInfo>,
                                   emails: seq<string>): seq<Published>
  {
    [ Published(ServiceTransferTopic,
        ServiceTransferEvent(equipment.serialCode, equipment.nom, description,
                             oldServiceName, newServiceName,
                             user.firstName, user.lastName, user.email,
                             oldSupervisor, newSupervisor, emails)),
      Published(NotificationTopic,
        NotificationEvent("Transfert d'équipement",
                          TransferBody(equipment.nom, oldServiceName, newServiceName), emails)) ]
  }

  /** The two messages of an inter-hospital transfer. */
  function HospitalTransferMessages(equipment: Equipment, description: string,
                                    oldHospitalId: Text, oldHospitalName: string,
                                    newHospitalId: Text, newHospitalName: string, user: User,
                                    emails: seq<string>): seq<Published>
  {
    [ Published(HospitalTransferTopic,
        HospitalTransferEvent(equipment.serialCode, equipment.id, equipment.nom, description,
                              oldHospitalId, oldHospitalName, newHospitalId, newHospitalName,
                              user.firstName, user.lastName, user.email, emails)),
      Published(NotificationTopic,
        NotificationEvent("Transfert d'équipement inter-hôpital",
                          TransferBody(equipment.nom, oldHospitalName, newHospitalName), emails)) ]
  }
}
