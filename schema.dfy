/** The records of the family-group store and the factories that create them.
    Identifiers are fresh numbers handed out by the store, and every factory
    takes the creation instant `now` (milliseconds) as a parameter. */
module FamilySchema {
  import opened Text

  /** A member's role: 'admin' or 'member'. */
  datatype Role = Admin | Regular

  datatype Preferences = Preferences(eventCreated: bool, eventUpdated: bool, eventDeleted: bool, emailNotifications: bool)

  /** Every notification switched on, as new members get. */
  const AllOn: Preferences := Preferences(true, true, true, true)

  datatype Member = Member(email: string, name: string, role: Role, joinedAt: int, preferences: Preferences)

  datatype Group = Group(
    id: nat,
    name: string,
    description: Option<string>,
    createdBy: string,
    createdAt: int,
    updatedAt: int,
    members: seq<Member>)

  datatype Status = Pending | Accepted | Declined

  datatype Invitation = Invitation(
    id: nat,
    groupId: nat,
    groupName: string,
    invitedBy: string,
    invitedEmail: string,
    status: Status,
    createdAt: int,
    expiresAt: int)

  /** A notification; `kind` is its `type`. `acceptedBy` and `declinedBy` are
      empty until the first acceptance or refusal creates them. */
  datatype Notification = Notification(
    id: nat,
    groupId: nat,
    kind: string,
    triggeredBy: string,
    eventData: map<string, string>,
    recipients: seq<string>,
    createdAt: int,
    readBy: seq<string>,
    acceptedBy: seq<string>,
    declinedBy: seq<string>)

  /** Seven days in milliseconds. */
  const InvitationLifetime: int := 7 * 24 * 60 * 60 * 1000

  /** The new group has its creator as its only member, an admin with every
      notification on. */
  function CreateFamilyGroup(id: nat, name: string, description: Option<string>,
                             creatorEmail: string, creatorName: string, now: int): (g: Group)
    ensures g.id == id && g.name == name && g.description == description && g.createdBy == creatorEmail
    ensures g.createdAt == now && g.updatedAt == now
    ensures |g.members| == 1
    ensures g.members[0] == Member(creatorEmail, creatorName, Admin, now, AllOn)
  {
    Group(id, name, description, creatorEmail, now, now, [Member(creatorEmail, creatorName, Admin, now, AllOn)])
  }

  /** A new invitation is pending and runs out seven days after it is made. */
  function CreateInvitation(id: nat, groupId: nat, groupName: string, invitedBy: string,
                            invitedEmail: string, now: int): (inv: Invitation)
    ensures inv.id == id && inv.groupId == groupId && inv.groupName == groupName
    ensures inv.invitedBy == invitedBy && inv.invitedEmail == invitedEmail
    ensures inv.status == Pending
    ensures inv.createdAt == now && inv.expiresAt - inv.createdAt == 604800000
  {
    Invitation(id, groupId, groupName, invitedBy, invitedEmail, Pending, now, now + InvitationLifetime)
  }

  /** A new notification goes to the given recipients and nobody has read,
      accepted or refused it yet. */
  function CreateNotification(id: nat, groupId: nat, kind: string, triggeredBy: string,
                              eventData: map<string, string>, recipients: seq<string>, now: int): (n: Notification)
    ensures n.id == id && n.groupId == groupId && n.kind == kind && n.triggeredBy == triggeredBy
    ensures n.eventData == eventData && n.recipients == recipients && n.createdAt == now
    ensures n.readBy == [] && n.acceptedBy == [] && n.declinedBy == []
  {
    Notification(id, groupId, kind, triggeredBy, eventData, recipients, now, [], [], [])
  }
}
