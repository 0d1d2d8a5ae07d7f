/** The family-group routes over the three stores (groups, invitations,
    notifications), held in memory by one object. Each route is a method that
    answers with a value or with the status and error text the route sends. A
    missing `userEmail` is the empty string; the ids of new records come from
    a counter. */
module FamilyGroups {
  import opened Text
  import opened Lists
  import opened FamilySchema
  import opened Http
  import Sorting

  // ----- facts about one group -----

  predicate UniqueEmails(ms: seq<Member>) {
    forall i, j :: 0 <= i < j < |ms| ==> ms[i].email != ms[j].email
  }

  predicate HasAdmin(ms: seq<Member>) {
    exists i :: 0 <= i < |ms| && ms[i].role == Admin
  }

  /** Every member has an email, no email appears twice, and someone is an admin. */
  predicate GroupValid(g: Group) {
    (forall i :: 0 <= i < |g.members| ==> g.members[i].email != "")
    && UniqueEmails(g.members) && HasAdmin(g.members)
  }

  /** `group.members.some(m => m.email === email)`. */
  predicate IsMember(g: Group, email: string) {
    exists i :: 0 <= i < |g.members| && g.members[i].email == email
  }

  /** `group.members.find(m => m.email === email)`, as a position. */
  function MemberIndex(g: Group, email: string): (r: Option<nat>)
    ensures r.Some? <==> IsMember(g, email)
    ensures r.Some? ==> r.value < |g.members| && g.members[r.value].email == email
  {
    FindFirst(g.members, (m: Member) => m.email == email)
  }

  /** The member found for `email` has role 'admin'. */
  predicate IsAdmin(g: Group, email: string) {
    var k := MemberIndex(g, email);
    k.Some? && g.members[k.value].role == Admin
  }

  /** In a valid group a member is found exactly at its own position. */
  lemma MemberIndexUnique(g: Group, email: string, i: int)
    requires GroupValid(g) && 0 <= i < |g.members| && g.members[i].email == email
    ensures MemberIndex(g, email) == Some(i)
  {
  }

  /** A new group is valid, and its creator is its admin. */
  lemma CreatedGroupValid(id: nat, name: string, description: Option<string>,
                          creatorEmail: string, creatorName: string, now: int)
    requires creatorEmail != ""
    ensures GroupValid(CreateFamilyGroup(id, name, description, creatorEmail, creatorName, now))
    ensures IsAdmin(CreateFamilyGroup(id, name, description, creatorEmail, creatorName, now), creatorEmail)
  {
    var g := CreateFamilyGroup(id, name, description, creatorEmail, creatorName, now);
    assert g.members[0].role == Admin;
  }

  function CountAdmins(ms: seq<Member>): nat
    decreases |ms|
  {
    if ms == [] then 0 else (if ms[0].role == Admin then 1 else 0) + CountAdmins(ms[1..])
  }

  lemma {:induction false} CountAdminsPositive(ms: seq<Member>)
    ensures CountAdmins(ms) > 0 <==> HasAdmin(ms)
    decreases |ms|
  {
    if ms != [] {
      CountAdminsPositive(ms[1..]);
      if HasAdmin(ms[1..]) {
        var i :| 0 <= i < |ms[1..]| && ms[1..][i].role == Admin;
        assert ms[i + 1].role == Admin;
      }
      if HasAdmin(ms) && ms[0].role != Admin {
        var i :| 0 <= i < |ms| && ms[i].role == Admin;
        assert ms[1..][i - 1].role == Admin;
      }
    }
  }

  /** With two admins or more, there is an admin other than the one at `k`. */
  lemma {:induction false} AnotherAdmin(ms: seq<Member>, k: int)
    requires 0 <= k < |ms| && CountAdmins(ms) >= 2
    ensures exists i :: 0 <= i < |ms| && i != k && ms[i].role == Admin
    decreases |ms|
  {
    if ms[0].role == Admin && k != 0 {
    } else if ms[0].role == Admin {
      CountAdminsPositive(ms[1..]);
      var i :| 0 <= i < |ms[1..]| && ms[1..][i].role == Admin;
      assert ms[i + 1].role == Admin;
    } else if k == 0 {
      CountAdminsPositive(ms[1..]);
      var i :| 0 <= i < |ms[1..]| && ms[1..][i].role == Admin;
      assert ms[i + 1].role == Admin;
    } else {
      AnotherAdmin(ms[1..], k - 1);
      var i :| 0 <= i < |ms[1..]| && i != k - 1 && ms[1..][i].role == Admin;
      assert ms[i + 1].role == Admin;
    }
  }

  /** `members.filter(m => m.email !== email)`. */
  function WithoutEmail(ms: seq<Member>, email: string): seq<Member> {
    Filter(ms, (m: Member) => m.email != email)
  }

  /** With unique emails, filtering out the email of the member at `k`
      removes exactly that member. */
  lemma {:induction false} WithoutEmailRemovesOne(ms: seq<Member>, k: int)
    requires 0 <= k < |ms| && UniqueEmails(ms)
    ensures WithoutEmail(ms, ms[k].email) == ms[..k] + ms[k + 1..]
    decreases |ms|
  {
    var p := (m: Member) => m.email != ms[k].email;
    if k == 0 {
      assert forall x :: x in ms[1..] ==> p(x);
      FilterAll(ms[1..], p);
    } else {
      assert ms[1..][k - 1] == ms[k];
      WithoutEmailRemovesOne(ms[1..], k - 1);
      assert ms[1..][..k - 1] + ms[1..][k..] == ms[1..k] + ms[k + 1..];
      assert ms[..k] + ms[k + 1..] == [ms[0]] + (ms[1..k] + ms[k + 1..]);
    }
  }

  lemma WithoutEmailMembers(ms: seq<Member>, email: string)
    ensures forall m :: m in WithoutEmail(ms, email) <==> m in ms && m.email != email
  {
    FilterMembers(ms, (m: Member) => m.email != email);
  }

  // ----- the notification recipients -----

  /** Whether the member's preferences ask for notifications of this type;
      types other than the three event types go to everyone. */
  predicate Wants(p: Preferences, kind: string) {
    if kind == "event_created" then p.eventCreated
    else if kind == "event_updated" then p.eventUpdated
    else if kind == "event_deleted" then p.eventDeleted
    else true
  }

  function Emails(ms: seq<Member>): (r: seq<string>)
    ensures |r| == |ms| && forall i :: 0 <= i < |ms| ==> r[i] == ms[i].email
  {
    seq(|ms|, i requires 0 <= i < |ms| => ms[i].email)
  }

  /** The recipients of a notification sent by `sender`: the other members
      who want this type, in member order. */
  function Recipients(ms: seq<Member>, sender: string, kind: string): seq<string> {
    Emails(Filter(ms, (m: Member) => m.email != sender && Wants(m.preferences, kind)))
  }

  lemma RecipientsMembers(ms: seq<Member>, sender: string, kind: string)
    ensures forall e :: e in Recipients(ms, sender, kind) <==>
              e != sender && exists m :: m in ms && m.email == e && Wants(m.preferences, kind)
  {
    var p := (m: Member) => m.email != sender && Wants(m.preferences, kind);
    var f := Filter(ms, p);
    FilterMembers(ms, p);
    forall e ensures e in Recipients(ms, sender, kind) <==>
                     e != sender && exists m :: m in ms && m.email == e && Wants(m.preferences, kind) {
      if e in Recipients(ms, sender, kind) {
        var i :| 0 <= i < |f| && Emails(f)[i] == e;
        assert f[i] in f;
      }
      if e != sender && exists m :: m in ms && m.email == e && Wants(m.preferences, kind) {
        var m :| m in ms && m.email == e && Wants(m.preferences, kind);
        assert m in f;
        var i :| 0 <= i < |f| && f[i] == m;
        assert Emails(f)[i] == e;
      }
    }
  }

  /** `{ ...eventData, eventLocation: eventLocation || null, eventDescription:
      eventDescription || '', groupId, groupName }`; a null location drops out. */
  function EnhancedEventData(eventData: map<string, string>, groupId: nat, groupName: string): (r: map<string, string>)
    ensures "groupId" in r && r["groupId"] == NatToString(groupId)
    ensures "groupName" in r && r["groupName"] == groupName
    ensures "eventDescription" in r
    ensures r["eventDescription"] == (if "eventDescription" in eventData then eventData["eventDescription"] else "")
    ensures "eventLocation" in r <==> "eventLocation" in eventData && eventData["eventLocation"] != ""
    ensures "eventLocation" in r ==> r["eventLocation"] == eventData["eventLocation"]
    ensures r.Keys <= eventData.Keys + {"eventDescription", "groupId", "groupName"}
    ensures forall k :: k in eventData && k !in {"eventLocation", "eventDescription", "groupId", "groupName"}
                        ==> k in r && r[k] == eventData[k]
  {
    var description := if "eventDescription" in eventData then eventData["eventDescription"] else "";
    var located := if "eventLocation" in eventData && eventData["eventLocation"] != "" then eventData
                   else eventData - {"eventLocation"};
    located["eventDescription" := description]["groupId" := NatToString(groupId)]["groupName" := groupName]
  }

  // ----- facts about the whole store -----

  predicate DistinctIds(gs: seq<Group>) {
    forall i, j :: 0 <= i < j < |gs| ==> gs[i].id != gs[j].id
  }

  predicate PendingUnique(invs: seq<Invitation>) {
    forall i, j :: 0 <= i < j < |invs| && invs[i].status == Pending && invs[j].status == Pending
                   ==> invs[i].groupId != invs[j].groupId || invs[i].invitedEmail != invs[j].invitedEmail
  }

  /** Nobody holds a pending invitation to a group they already belong to. */
  predicate InviteesOutside(gs: seq<Group>, invs: seq<Invitation>) {
    forall i, k :: 0 <= i < |gs| && 0 <= k < |invs| && invs[k].status == Pending && invs[k].groupId == gs[i].id
                   ==> !IsMember(gs[i], invs[k].invitedEmail)
  }

  predicate NotificationValid(n: Notification) {
    NoDup(n.readBy) && NoDup(n.acceptedBy) && NoDup(n.declinedBy)
  }

  predicate StoreValid(gs: seq<Group>, invs: seq<Invitation>, ns: seq<Notification>, next: nat) {
    (forall i :: 0 <= i < |gs| ==> GroupValid(gs[i]) && gs[i].id < next)
    && DistinctIds(gs)
    && (forall k :: 0 <= k < |invs| ==> invs[k].groupId < next && invs[k].invitedEmail != "")
    && PendingUnique(invs) && InviteesOutside(gs, invs)
    && (forall k :: 0 <= k < |ns| ==> NotificationValid(ns[k]))
  }

  /** `groups.find(g => g.id === id)`, as a position. */
  function GroupIndex(gs: seq<Group>, id: nat): (r: Option<nat>)
    ensures r.Some? ==> r.value < |gs| && gs[r.value].id == id
    ensures r.None? ==> forall i :: 0 <= i < |gs| ==> gs[i].id != id
  {
    FindFirst(gs, (g: Group) => g.id == id)
  }

  /** Replacing a group by one with the same id that is valid and takes in no
      pending invitee keeps the store valid. */
  lemma ReplaceGroupValid(gs: seq<Group>, invs: seq<Invitation>, ns: seq<Notification>, next: nat, i: int, g: Group)
    requires StoreValid(gs, invs, ns, next) && 0 <= i < |gs|
    requires g.id == gs[i].id && GroupValid(g)
    requires forall k :: 0 <= k < |invs| && invs[k].status == Pending && invs[k].groupId == g.id
                         ==> !IsMember(g, invs[k].invitedEmail)
    ensures StoreValid(gs[i := g], invs, ns, next)
  {
  }

  /** The notification and invitation stores can change without touching the groups. */
  lemma ReplaceNotificationValid(gs: seq<Group>, invs: seq<Invitation>, ns: seq<Notification>, next: nat, k: int, n: Notification)
    requires StoreValid(gs, invs, ns, next) && 0 <= k < |ns| && NotificationValid(n)
    ensures StoreValid(gs, invs, ns[k := n], next)
  {
  }

  // ----- the store -----

  class FamilyStore {
    var groups: seq<Group>
    var invitations: seq<Invitation>
    var notifications: seq<Notification>
    var nextId: nat

    ghost predicate Valid()
      reads this
    {
      StoreValid(groups, invitations, notifications, nextId)
    }

    constructor()
      ensures Valid() && groups == [] && invitations == [] && notifications == []
    {
      groups := [];
      invitations := [];
      notifications := [];
      nextId := 0;
    }

    /** GET `/`: the groups the user belongs to. */
    function GroupsOf(userEmail: string): (r: Outcome<seq<Group>>)
      reads this
      ensures userEmail == "" <==> r.Err?
      ensures r.Err? ==> r == Err(400, "userEmail query parameter is required")
      ensures r.Ok? ==> forall g :: g in r.value <==> g in groups && IsMember(g, userEmail)
    {
      if userEmail == "" then Err(400, "userEmail query parameter is required")
      else
        var p := (g: Group) => IsMember(g, userEmail);
        FilterMembers(groups, p);
        Ok(Filter(groups, p))
    }

    /** POST `/`: a new group with its creator as the only, admin, member. */
    method CreateGroup(name: string, description: Option<string>, userEmail: string, userName: string, now: int)
      returns (r: Outcome<Group>)
      requires Valid()
      modifies this
      ensures Valid()
      ensures (name == "" || userEmail == "" || userName == "") <==> r.Err?
      ensures r.Err? ==> r == Err(400, "Name, userEmail, and userName are required") && unchanged(this)
      ensures r.Ok? ==> r.value == CreateFamilyGroup(old(nextId), name, description, userEmail, userName, now)
                        && groups == old(groups) + [r.value] && IsAdmin(r.value, userEmail)
                        && invitations == old(invitations) && notifications == old(notifications)
    {
      if name == "" || userEmail == "" || userName == "" {
        return Err(400, "Name, userEmail, and userName are required");
      }
      var g := CreateFamilyGroup(nextId, name, description, userEmail, userName, now);
      CreatedGroupValid(nextId, name, description, userEmail, userName, now);
      groups := groups + [g];
      nextId := nextId + 1;
      r := Ok(g);
    }

    /** PUT `/:groupId`: an admin renames the group or changes its description
        (`description` None: not sent; Some(None): null). */
    method UpdateGroup(groupId: nat, name: Option<string>, description: Option<Option<string>>, userEmail: string, now: int)
      returns (r: Outcome<Group>)
      requires Valid()
      modifies this
      ensures Valid()
      ensures GroupIndex(old(groups), groupId).None? ==> r == Err(404, "Group not found") && unchanged(this)
      ensures GroupIndex(old(groups), groupId).Some? && !IsAdmin(old(groups)[GroupIndex(old(groups), groupId).value], userEmail)
              ==> r == Err(403, "Only admins can update the group") && unchanged(this)
      ensures GroupIndex(old(groups), groupId).Some? && IsAdmin(old(groups)[GroupIndex(old(groups), groupId).value], userEmail)
              ==> r.Ok?
      ensures r.Ok? ==>
                var i := GroupIndex(old(groups), groupId).value;
                var g := old(groups)[i];
                IsAdmin(g, userEmail)
                && r.value == g.(name := if Present(name) then name.value else g.name,
                                 description := if description.Some? then description.value else g.description,
                                 updatedAt := now)
                && groups == old(groups)[i := r.value]
                && invitations == old(invitations) && notifications == old(notifications) && nextId == old(nextId)
    {
      var found := GroupIndex(groups, groupId);
      if found.None? {
        return Err(404, "Group not found");
      }
      var i := found.value;
      var g := groups[i];
      if !IsAdmin(g, userEmail) {
        return Err(403, "Only admins can update the group");
      }
      var updated := g.(name := if Present(name) then name.value else g.name,
                        description := if description.Some? then description.value else g.description,
                        updatedAt := now);
      ReplaceGroupValid(groups, invitations, notifications, nextId, i, updated);
      groups := groups[i := updated];
      r := Ok(updated);
    }

    /** DELETE `/:groupId`: an admin deletes the group. */
    method DeleteGroup(groupId: nat, userEmail: string) returns (r: Outcome<string>)
      requires Valid()
      modifies this
      ensures Valid()
      ensures userEmail == "" ==> r == Err(400, "userEmail is required") && unchanged(this)
      ensures userEmail != "" && GroupIndex(old(groups), groupId).None? ==> r == Err(404, "Group not found") && unchanged(this)
      ensures userEmail != "" && GroupIndex(old(groups), groupId).Some?
              && !IsAdmin(old(groups)[GroupIndex(old(groups), groupId).value], userEmail)
              ==> r == Err(403, "Only admins can delete the group") && unchanged(this)
      ensures userEmail != "" && GroupIndex(old(groups), groupId).Some?
              && IsAdmin(old(groups)[GroupIndex(old(groups), groupId).value], userEmail)
              ==> r.Ok?
      ensures r.Ok? ==>
                var i := GroupIndex(old(groups), groupId).value;
                IsAdmin(old(groups)[i], userEmail)
                && r.value == "Group deleted successfully"
                && groups == old(groups)[..i] + old(groups)[i + 1..]
                && (forall g :: g in groups <==> g in old(groups) && g.id != groupId)
                && invitations == old(invitations) && notifications == old(notifications) && nextId == old(nextId)
    {
      if userEmail == "" {
        return Err(400, "userEmail is required");
      }
      var found := GroupIndex(groups, groupId);
      if found.None? {
        return Err(404, "Group not found");
      }
      var i := found.value;
      if !IsAdmin(groups[i], userEmail) {
        return Err(403, "Only admins can delete the group");
      }
      var p := (g: Group) => g.id != groupId;
      FilterMembers(groups, p);
      RemoveGroupAt(groups, i);
      var rest := Filter(groups, p);
      RemoveGroupValid(groups, invitations, notifications, nextId, i);
      groups := rest;
      r := Ok("Group deleted successfully");
    }

    /** POST `/:groupId/invite`: an admin invites someone who is neither a
        member nor already invited; one pending invitation is appended. */
    method Invite(groupId: nat, invitedEmail: string, userEmail: string, now: int) returns (r: Outcome<Invitation>)
      requires Valid()
      modifies this
      ensures Valid()
      ensures r.Err? ==> unchanged(this)
      ensures invitedEmail == "" ==> r == Err(400, "Invited email is required")
      ensures invitedEmail != "" && GroupIndex(old(groups), groupId).None? ==> r == Err(404, "Group not found")
      ensures invitedEmail != "" && GroupIndex(old(groups), groupId).Some? ==>
                var g := old(groups)[GroupIndex(old(groups), groupId).value];
                (!IsAdmin(g, userEmail) ==> r == Err(403, "Only admins can invite members"))
                && (IsAdmin(g, userEmail) && IsMember(g, invitedEmail) ==> r == Err(400, "User is already a member"))
                && (IsAdmin(g, userEmail) && !IsMember(g, invitedEmail) && PendingExists(old(invitations), groupId, invitedEmail)
                    ==> r == Err(400, "Invitation already sent"))
                && (IsAdmin(g, userEmail) && !IsMember(g, invitedEmail) && !PendingExists(old(invitations), groupId, invitedEmail)
                    ==> r.Ok?)
      ensures r.Ok? ==>
                var g := old(groups)[GroupIndex(old(groups), groupId).value];
                invitedEmail != "" && IsAdmin(g, userEmail) && !IsMember(g, invitedEmail)
                && !PendingExists(old(invitations), groupId, invitedEmail)
                && r.value == CreateInvitation(old(nextId), groupId, g.name, userEmail, invitedEmail, now)
                && invitations == old(invitations) + [r.value]
                && groups == old(groups) && notifications == old(notifications)
    {
      if invitedEmail == "" {
        return Err(400, "Invited email is required");
      }
      var found := GroupIndex(groups, groupId);
      if found.None? {
        return Err(404, "Group not found");
      }
      var g := groups[found.value];
      if !IsAdmin(g, userEmail) {
        return Err(403, "Only admins can invite members");
      }
      if IsMember(g, invitedEmail) {
        return Err(400, "User is already a member");
      }
      if PendingExists(invitations, groupId, invitedEmail) {
        return Err(400, "Invitation already sent");
      }
      var invitation := CreateInvitation(nextId, groupId, g.name, userEmail, invitedEmail, now);
      AddInvitationValid(groups, invitations, notifications, nextId, found.value, invitation);
      invitations := invitations + [invitation];
      nextId := nextId + 1;
      r := Ok(invitation);
    }

    /** GET `/invitations/pending`: the user's pending invitations that have
        not run out. */
    function PendingFor(userEmail: string, now: int): (r: Outcome<seq<Invitation>>)
      reads this
      ensures userEmail == "" <==> r.Err?
      ensures r.Err? ==> r == Err(400, "userEmail query parameter is required")
      ensures r.Ok? ==> forall inv :: inv in r.value <==>
                          inv in invitations && inv.invitedEmail == userEmail && inv.status == Pending && inv.expiresAt > now
    {
      if userEmail == "" then Err(400, "userEmail query parameter is required")
      else
        var p := (inv: Invitation) => inv.invitedEmail == userEmail && inv.status == Pending && inv.expiresAt > now;
        FilterMembers(invitations, p);
        Ok(Filter(invitations, p))
    }

    /** POST `/invitations/:id/accept`: the invitee of a pending invitation that
        has not run out joins the group as a member with every notification
        on; the invitation becomes accepted and the other members are told. */
    method AcceptInvitation(invitationId: nat, userEmail: string, userName: string, now: int) returns (r: Outcome<Group>)
      requires Valid()
      modifies this
      ensures Valid()
      ensures r.Err? ==> unchanged(this)
      ensures InvitationIndex(old(invitations), invitationId).None? ==> r == Err(404, "Invitation not found")
      ensures InvitationIndex(old(invitations), invitationId).Some? ==>
                var inv := old(invitations)[InvitationIndex(old(invitations), invitationId).value];
                (inv.invitedEmail != userEmail ==> r == Err(403, "This invitation is not for you"))
                && (inv.invitedEmail == userEmail && inv.status != Pending ==> r == Err(400, "Invitation already processed"))
                && (inv.invitedEmail == userEmail && inv.status == Pending && inv.expiresAt < now
                    ==> r == Err(400, "Invitation has expired"))
                && ((inv.invitedEmail == userEmail && inv.status == Pending && inv.expiresAt >= now
                     && GroupIndex(old(groups), inv.groupId).None?) ==> r == Err(404, "Group not found"))
                && ((inv.invitedEmail == userEmail && inv.status == Pending && inv.expiresAt >= now
                     && GroupIndex(old(groups), inv.groupId).Some?) ==> r.Ok?)
      ensures r.Ok? ==>
                var k := InvitationIndex(old(invitations), invitationId).value;
                var inv := old(invitations)[k];
                var i := GroupIndex(old(groups), inv.groupId).value;
                var joined := Member(userEmail, if userName != "" then userName else LocalPart(userEmail), Regular, now, AllOn);
                inv.invitedEmail == userEmail && inv.status == Pending && now <= inv.expiresAt
                && !IsMember(old(groups)[i], userEmail)
                && r.value == old(groups)[i].(members := old(groups)[i].members + [joined])
                && groups == old(groups)[i := r.value]
                && invitations == old(invitations)[k := inv.(status := Accepted)]
                && notifications == old(notifications) + [CreateNotification(
                     old(nextId), inv.groupId, "member_joined", userEmail,
                     map["memberName" := if userName != "" then userName else userEmail],
                     Filter(Emails(r.value.members), (e: string) => e != userEmail), now)]
    {
      var foundInv := InvitationIndex(invitations, invitationId);
      if foundInv.None? {
        return Err(404, "Invitation not found");
      }
      var k := foundInv.value;
      var inv := invitations[k];
      if inv.invitedEmail != userEmail {
        return Err(403, "This invitation is not for you");
      }
      if inv.status != Pending {
        return Err(400, "Invitation already processed");
      }
      if inv.expiresAt < now {
        return Err(400, "Invitation has expired");
      }
      var foundGroup := GroupIndex(groups, inv.groupId);
      if foundGroup.None? {
        return Err(404, "Group not found");
      }
      var i := foundGroup.value;
      var joined := Member(userEmail, if userName != "" then userName else LocalPart(userEmail), Regular, now, AllOn);
      var grown := JoinGroup(i, k, joined, if userName != "" then userName else userEmail, now);
      r := Ok(grown);
    }

    /** The acceptance itself: the invitee joins group `i` at the end of its
        members, invitation `k` becomes accepted, and the other members are
        told with a "member_joined" notification. */
    method JoinGroup(i: nat, k: nat, joined: Member, displayName: string, now: int) returns (grown: Group)
      requires Valid() && i < |groups| && k < |invitations|
      requires invitations[k].status == Pending && invitations[k].groupId == groups[i].id
      requires joined.email == invitations[k].invitedEmail
      modifies this
      ensures Valid()
      ensures !IsMember(old(groups)[i], joined.email)
      ensures grown == old(groups)[i].(members := old(groups)[i].members + [joined])
      ensures groups == old(groups)[i := grown]
      ensures invitations == old(invitations)[k := old(invitations)[k].(status := Accepted)]
      ensures notifications == old(notifications) + [CreateNotification(
                old(nextId), old(invitations)[k].groupId, "member_joined", joined.email,
                map["memberName" := displayName],
                Filter(Emails(grown.members), (e: string) => e != joined.email), now)]
    {
      var g := groups[i];
      var inv := invitations[k];
      grown := g.(members := g.members + [joined]);
      AcceptValid(groups, invitations, notifications, nextId, i, k, joined);
      groups := groups[i := grown];
      invitations := invitations[k := inv.(status := Accepted)];
      var notification := CreateNotification(nextId, inv.groupId, "member_joined", joined.email,
                                             map["memberName" := displayName],
                                             Filter(Emails(grown.members), (e: string) => e != joined.email), now);
      notifications := notifications + [notification];
      nextId := nextId + 1;
    }

    /** POST `/invitations/:id/decline`: the invitee marks the invitation
        declined, whatever its status was. A missing email makes the route fail. */
    method DeclineInvitation(invitationId: nat, userEmail: string) returns (r: Outcome<string>)
      requires Valid()
      modifies this
      ensures Valid()
      ensures r.Err? ==> unchanged(this)
      ensures userEmail == "" ==> r == Err(500, "Failed to decline invitation")
      ensures userEmail != "" && InvitationIndex(old(invitations), invitationId).None? ==> r == Err(404, "Invitation not found")
      ensures userEmail != "" && InvitationIndex(old(invitations), invitationId).Some?
              && old(invitations)[InvitationIndex(old(invitations), invitationId).value].invitedEmail != userEmail
              ==> r == Err(403, "This invitation is not for you")
      ensures userEmail != "" && InvitationIndex(old(invitations), invitationId).Some?
              && old(invitations)[InvitationIndex(old(invitations), invitationId).value].invitedEmail == userEmail
              ==> r.Ok?
      ensures r.Ok? ==>
                var k := InvitationIndex(old(invitations), invitationId).value;
                old(invitations)[k].invitedEmail == userEmail
                && r.value == "Invitation declined"
                && invitations == old(invitations)[k := old(invitations)[k].(status := Declined)]
                && groups == old(groups) && notifications == old(notifications) && nextId == old(nextId)
    {
      if userEmail == "" {
        return Err(500, "Failed to decline invitation");
      }
      var found := InvitationIndex(invitations, invitationId);
      if found.None? {
        return Err(404, "Invitation not found");
      }
      var k := found.value;
      if invitations[k].invitedEmail != userEmail {
        return Err(403, "This invitation is not for you");
      }
      SettleInvitationValid(groups, invitations, notifications, nextId, k, Declined);
      invitations := invitations[k := invitations[k].(status := Declined)];
      r := Ok("Invitation declined");
    }

    /** POST `/:groupId/notify`: a member tells the other members who want
        this type of notification; with nobody to tell nothing is stored. */
    method Notify(groupId: nat, kind: string, eventData: Option<map<string, string>>, userEmail: string, now: int)
      returns (r: Outcome<Option<Notification>>)
      requires Valid()
      modifies this
      ensures Valid()
      ensures r.Err? || r == Ok(None) ==> unchanged(this)
      ensures kind == "" || eventData.None? ==> r == Err(400, "Type and eventData are required")
      ensures kind != "" && eventData.Some? && GroupIndex(old(groups), groupId).None? ==> r == Err(404, "Group not found")
      ensures kind != "" && eventData.Some? && GroupIndex(old(groups), groupId).Some? ==>
                var g := old(groups)[GroupIndex(old(groups), groupId).value];
                (!IsMember(g, userEmail) ==> r == Err(403, "You are not a member of this group"))
                && (IsMember(g, userEmail) && Recipients(g.members, userEmail, kind) == [] ==> r == Ok(None))
                && (IsMember(g, userEmail) && Recipients(g.members, userEmail, kind) != [] ==>
                      r == Ok(Some(CreateNotification(old(nextId), groupId, kind, userEmail,
                                                      EnhancedEventData(eventData.value, groupId, g.name),
                                                      Recipients(g.members, userEmail, kind), now)))
                      && notifications == old(notifications) + [r.value.value]
                      && groups == old(groups) && invitations == old(invitations))
    {
      if kind == "" || eventData.None? {
        return Err(400, "Type and eventData are required");
      }
      var found := GroupIndex(groups, groupId);
      if found.None? {
        return Err(404, "Group not found");
      }
      var g := groups[found.value];
      if !IsMember(g, userEmail) {
        return Err(403, "You are not a member of this group");
      }
      var recipients := Recipients(g.members, userEmail, kind);
      if recipients == [] {
        return Ok(None);
      }
      var notification := CreateNotification(nextId, groupId, kind, userEmail,
                                             EnhancedEventData(eventData.value, groupId, g.name), recipients, now);
      AddNotificationValid(groups, invitations, notifications, nextId, notification);
      notifications := notifications + [notification];
      nextId := nextId + 1;
      r := Ok(Some(notification));
    }

    /** POST `/notifications/:id/accept-event` (`accept`) and
        `/decline-event` (not `accept`): a recipient reads the notification
        and is recorded, once, as accepting or declining the event. */
    method AnswerEvent(notificationId: nat, userEmail: string, accept: bool) returns (r: Outcome<Notification>)
      requires Valid()
      modifies this
      ensures Valid()
      ensures r.Err? ==> unchanged(this)
      ensures NotificationIndex(old(notifications), notificationId).None? ==> r == Err(404, "Notification not found")
      ensures NotificationIndex(old(notifications), notificationId).Some?
              && userEmail !in old(notifications)[NotificationIndex(old(notifications), notificationId).value].recipients
              ==> r == Err(403, "This notification is not for you")
      ensures NotificationIndex(old(notifications), notificationId).Some?
              && userEmail in old(notifications)[NotificationIndex(old(notifications), notificationId).value].recipients
              ==> r.Ok?
      ensures r.Ok? ==>
                var k := NotificationIndex(old(notifications), notificationId).value;
                var n := old(notifications)[k];
                userEmail in n.recipients
                && r.value == (if accept then n.(readBy := AddOnce(n.readBy, userEmail), acceptedBy := AddOnce(n.acceptedBy, userEmail))
                               else n.(readBy := AddOnce(n.readBy, userEmail), declinedBy := AddOnce(n.declinedBy, userEmail)))
                && notifications == old(notifications)[k := r.value]
                && groups == old(groups) && invitations == old(invitations) && nextId == old(nextId)
    {
      var found := NotificationIndex(notifications, notificationId);
      if found.None? {
        return Err(404, "Notification not found");
      }
      var k := found.value;
      var n := notifications[k];
      if userEmail !in n.recipients {
        return Err(403, "This notification is not for you");
      }
      var answered := if accept then n.(readBy := AddOnce(n.readBy, userEmail), acceptedBy := AddOnce(n.acceptedBy, userEmail))
                      else n.(readBy := AddOnce(n.readBy, userEmail), declinedBy := AddOnce(n.declinedBy, userEmail));
      ReplaceNotificationValid(groups, invitations, notifications, nextId, k, answered);
      notifications := notifications[k := answered];
      r := Ok(answered);
    }

    /** GET `/notifications/unread`: the user's unread notifications, newest
        first, at most twenty. */
    function Unread(userEmail: string): (r: Outcome<seq<Notification>>)
      reads this
      ensures userEmail == "" <==> r.Err?
      ensures r.Err? ==> r == Err(400, "userEmail query parameter is required")
      ensures r.Ok? ==> |r.value| <= UnreadLimit
                        && (forall n :: n in r.value ==> n in notifications && UnreadBy(n, userEmail))
                        && (forall i, j :: 0 <= i < j < |r.value| ==> r.value[i].createdAt >= r.value[j].createdAt)
                        && (forall n, k :: n in notifications && UnreadBy(n, userEmail) && n !in r.value && k in r.value
                              ==> n.createdAt <= k.createdAt)
                        && |r.value| == (if |UnreadOf(notifications, userEmail)| <= UnreadLimit
                                         then |UnreadOf(notifications, userEmail)| else UnreadLimit)
                        && (|UnreadOf(notifications, userEmail)| <= UnreadLimit ==>
                              forall n :: n in notifications && UnreadBy(n, userEmail) ==> n in r.value)
                        && multiset(r.value) <= multiset(UnreadOf(notifications, userEmail))
    {
      if userEmail == "" then Err(400, "userEmail query parameter is required")
      else
        NewestUnreadFacts(notifications, userEmail);
        NewestUnreadCount(notifications, userEmail);
        Ok(NewestUnread(notifications, userEmail))
    }

    /** POST `/notifications/:id/read`: a recipient marks the notification
        read, once. A missing email makes the route fail. */
    method MarkRead(notificationId: nat, userEmail: string) returns (r: Outcome<string>)
      requires Valid()
      modifies this
      ensures Valid()
      ensures r.Err? ==> unchanged(this)
      ensures userEmail == "" ==> r == Err(500, "Failed to mark notification as read")
      ensures userEmail != "" && NotificationIndex(old(notifications), notificationId).None? ==> r == Err(404, "Notification not found")
      ensures userEmail != "" && NotificationIndex(old(notifications), notificationId).Some?
              && userEmail !in old(notifications)[NotificationIndex(old(notifications), notificationId).value].recipients
              ==> r == Err(403, "This notification is not for you")
      ensures userEmail != "" && NotificationIndex(old(notifications), notificationId).Some?
              && userEmail in old(notifications)[NotificationIndex(old(notifications), notificationId).value].recipients
              ==> r.Ok?
      ensures r.Ok? ==>
                var k := NotificationIndex(old(notifications), notificationId).value;
                var n := old(notifications)[k];
                userEmail in n.recipients && r.value == "Notification marked as read"
                && notifications == old(notifications)[k := n.(readBy := AddOnce(n.readBy, userEmail))]
                && (userEmail in n.readBy ==> notifications == old(notifications))
                && groups == old(groups) && invitations == old(invitations) && nextId == old(nextId)
    {
      if userEmail == "" {
        return Err(500, "Failed to mark notification as read");
      }
      var found := NotificationIndex(notifications, notificationId);
      if found.None? {
        return Err(404, "Notification not found");
      }
      var k := found.value;
      var n := notifications[k];
      if userEmail !in n.recipients {
        return Err(403, "This notification is not for you");
      }
      var read := n.(readBy := AddOnce(n.readBy, userEmail));
      ReplaceNotificationValid(groups, invitations, notifications, nextId, k, read);
      notifications := notifications[k := read];
      r := Ok("Notification marked as read");
    }

    /** PUT `/:groupId/preferences`: a member overrides some of their own
        notification preferences. */
    method UpdatePreferences(groupId: nat, userEmail: string, patch: PreferencesPatch) returns (r: Outcome<Preferences>)
      requires Valid()
      modifies this
      ensures Valid()
      ensures r.Err? ==> unchanged(this)
      ensures GroupIndex(old(groups), groupId).None? ==> r == Err(404, "Group not found")
      ensures GroupIndex(old(groups), groupId).Some? && !IsMember(old(groups)[GroupIndex(old(groups), groupId).value], userEmail)
              ==> r == Err(404, "You are not a member of this group")
      ensures GroupIndex(old(groups), groupId).Some? && IsMember(old(groups)[GroupIndex(old(groups), groupId).value], userEmail)
              ==> r.Ok?
      ensures r.Ok? ==>
                var i := GroupIndex(old(groups), groupId).value;
                var g := old(groups)[i];
                var j := MemberIndex(g, userEmail).value;
                r.value == MergePreferences(g.members[j].preferences, patch)
                && groups == old(groups)[i := g.(members := g.members[j := g.members[j].(preferences := r.value)])]
                && invitations == old(invitations) && notifications == old(notifications) && nextId == old(nextId)
    {
      var found := GroupIndex(groups, groupId);
      if found.None? {
        return Err(404, "Group not found");
      }
      var i := found.value;
      var g := groups[i];
      var member := MemberIndex(g, userEmail);
      if member.None? {
        return Err(404, "You are not a member of this group");
      }
      var j := member.value;
      var merged := MergePreferences(g.members[j].preferences, patch);
      var g' := g.(members := g.members[j := g.members[j].(preferences := merged)]);
      SameMembersValid(g, g');
      ReplaceGroupValid(groups, invitations, notifications, nextId, i, g');
      groups := groups[i := g'];
      r := Ok(merged);
    }

    /** DELETE `/:groupId/members/:memberEmail`: a member leaves, or an admin
        removes another member, but never the group's last admin; the members
        left are told. Removing someone who is not a member makes the route fail. */
    method RemoveMember(groupId: nat, memberEmail: string, userEmail: string, now: int) returns (r: Outcome<string>)
      requires Valid()
      modifies this
      ensures Valid()
      ensures r.Err? ==> unchanged(this)
      ensures userEmail == "" ==> r == Err(400, "userEmail is required")
      ensures userEmail != "" && GroupIndex(old(groups), groupId).None? ==> r == Err(404, "Group not found")
      ensures userEmail != "" && GroupIndex(old(groups), groupId).Some? ==>
                var check := RemovalCheck(old(groups)[GroupIndex(old(groups), groupId).value], memberEmail, userEmail);
                (check.Err? <==> r.Err?) && (check.Err? ==> r == Err(check.status, check.error))
      ensures r.Ok? ==>
                var i := GroupIndex(old(groups), groupId).value;
                var g := old(groups)[i];
                var j := RemovalCheck(g, memberEmail, userEmail).value;
                var left := g.members[..j] + g.members[j + 1..];
                r.value == "Member removed successfully"
                && groups == old(groups)[i := g.(members := left)]
                && (forall m :: m in left <==> m in g.members && m.email != memberEmail)
                && invitations == old(invitations)
                && notifications == old(notifications) + [CreateNotification(
                     old(nextId), groupId, "member_left", memberEmail,
                     map["memberName" := g.members[j].name], Emails(left), now)]
    {
      if userEmail == "" {
        return Err(400, "userEmail is required");
      }
      var found := GroupIndex(groups, groupId);
      if found.None? {
        return Err(404, "Group not found");
      }
      var i := found.value;
      var g := groups[i];
      var check := RemovalCheck(g, memberEmail, userEmail);
      if check.Err? {
        return Err(check.status, check.error);
      }
      var j := check.value;
      TakeOutMember(i, j, now);
      WithoutEmailRemovesOne(g.members, j);
      WithoutEmailMembers(g.members, memberEmail);
      r := Ok("Member removed successfully");
    }
    /** The removal itself: the member at `j` is filtered out of group `i` by
        email, and the members left are told with a "member_left" notification. */
    method TakeOutMember(i: nat, j: nat, now: int)
      requires Valid() && i < |groups| && j < |groups[i].members|
      requires groups[i].members[j].role == Admin ==> CountAdmins(groups[i].members) >= 2
      modifies this
      ensures Valid()
      ensures var g := old(groups)[i];
              var left := g.members[..j] + g.members[j + 1..];
              groups == old(groups)[i := g.(members := left)]
              && invitations == old(invitations)
              && notifications == old(notifications) + [CreateNotification(
                   old(nextId), g.id, "member_left", g.members[j].email,
                   map["memberName" := g.members[j].name], Emails(left), now)]
    {
      var g := groups[i];
      var leaving := g.members[j];
      WithoutEmailRemovesOne(g.members, j);
      var left := WithoutEmail(g.members, leaving.email);
      RemoveFromStoreValid(groups, invitations, notifications, nextId, i, j);
      groups := groups[i := g.(members := left)];
      var notification := CreateNotification(nextId, g.id, "member_left", leaving.email,
                                             map["memberName" := leaving.name], Emails(left), now);
      AddNotificationValid(groups, invitations, notifications, nextId, notification);
      notifications := notifications + [notification];
      nextId := nextId + 1;
    }
  }

  // ----- lookups and helpers of the routes -----

  /** The checks of the removal route on the group, in their order: the
      position of the member to remove, or the refusal. The caller must be a
      member, and an admin unless they remove themselves; the member removed
      must exist and must not be the last admin. */
  function RemovalCheck(g: Group, memberEmail: string, userEmail: string): (r: Outcome<nat>)
    ensures !IsMember(g, userEmail) ==> r == Err(403, "You are not a member of this group")
    ensures IsMember(g, userEmail) && memberEmail != userEmail && !IsAdmin(g, userEmail)
            ==> r == Err(403, "Only admins can remove other members")
    ensures IsMember(g, userEmail) && (memberEmail == userEmail || IsAdmin(g, userEmail)) && !IsMember(g, memberEmail)
            ==> r == Err(500, "Failed to remove member")
    ensures IsMember(g, userEmail) && (memberEmail == userEmail || IsAdmin(g, userEmail)) && IsAdmin(g, memberEmail)
            && CountAdmins(g.members) == 1
            ==> r == Err(400, "Cannot remove the last admin. Assign another admin first.")
    ensures r.Ok? ==>
              IsMember(g, userEmail) && (memberEmail == userEmail || IsAdmin(g, userEmail))
              && MemberIndex(g, memberEmail) == Some(r.value)
              && (g.members[r.value].role == Admin ==> CountAdmins(g.members) >= 2)
  {
    if !IsMember(g, userEmail) then Err(403, "You are not a member of this group")
    else if memberEmail != userEmail && !IsAdmin(g, userEmail) then Err(403, "Only admins can remove other members")
    else
      var target := MemberIndex(g, memberEmail);
      if target.None? then Err(500, "Failed to remove member")
      else if g.members[target.value].role == Admin && CountAdmins(g.members) == 1 then
        Err(400, "Cannot remove the last admin. Assign another admin first.")
      else
        CountAdminsPositive(g.members);
        assert g.members[target.value].role == Admin ==> HasAdmin(g.members);
        Ok(target.value)
  }

  function InvitationIndex(invs: seq<Invitation>, id: nat): (r: Option<nat>)
    ensures r.Some? ==> r.value < |invs| && invs[r.value].id == id
  {
    FindFirst(invs, (inv: Invitation) => inv.id == id)
  }

  function NotificationIndex(ns: seq<Notification>, id: nat): (r: Option<nat>)
    ensures r.Some? ==> r.value < |ns| && ns[r.value].id == id
  {
    FindFirst(ns, (n: Notification) => n.id == id)
  }

  /** A pending invitation of `email` to the group already exists. */
  predicate PendingExists(invs: seq<Invitation>, groupId: nat, email: string) {
    exists k :: 0 <= k < |invs| && invs[k].groupId == groupId && invs[k].invitedEmail == email && invs[k].status == Pending
  }

  /** `email.split('@')[0]`: the part before the first '@'. */
  function LocalPart(email: string): (r: string)
    ensures '@' !in r
    ensures |r| <= |email| && r == email[..|r|]
    ensures |r| < |email| ==> email[|r|] == '@'
  {
    if email == [] || email[0] == '@' then [] else [email[0]] + LocalPart(email[1..])
  }

  /** The fields of a preferences object sent with the request; a missing
      field keeps the member's current value. */
  datatype PreferencesPatch = PreferencesPatch(eventCreated: Option<bool>, eventUpdated: Option<bool>,
                                               eventDeleted: Option<bool>, emailNotifications: Option<bool>)

  function Pick(o: Option<bool>, current: bool): bool {
    if o.Some? then o.value else current
  }

  /** `{ ...current, ...patch }`. */
  function MergePreferences(current: Preferences, patch: PreferencesPatch): (r: Preferences)
    ensures patch.eventCreated.Some? ==> r.eventCreated == patch.eventCreated.value
    ensures patch.eventCreated.None? ==> r.eventCreated == current.eventCreated
    ensures patch.eventUpdated.Some? ==> r.eventUpdated == patch.eventUpdated.value
    ensures patch.eventUpdated.None? ==> r.eventUpdated == current.eventUpdated
    ensures patch.eventDeleted.Some? ==> r.eventDeleted == patch.eventDeleted.value
    ensures patch.eventDeleted.None? ==> r.eventDeleted == current.eventDeleted
    ensures patch.emailNotifications.Some? ==> r.emailNotifications == patch.emailNotifications.value
    ensures patch.emailNotifications.None? ==> r.emailNotifications == current.emailNotifications
  {
    Preferences(Pick(patch.eventCreated, current.eventCreated), Pick(patch.eventUpdated, current.eventUpdated),
                Pick(patch.eventDeleted, current.eventDeleted), Pick(patch.emailNotifications, current.emailNotifications))
  }

  /** Sending the same preferences twice is sending them once. */
  lemma MergePreferencesIdempotent(current: Preferences, patch: PreferencesPatch)
    ensures MergePreferences(MergePreferences(current, patch), patch) == MergePreferences(current, patch)
  {
  }

  // ----- unread notifications -----

  const UnreadLimit: nat := 20

  function NegCreated(n: Notification): int { -n.createdAt }

  /** Whether the notification is addressed to `email` and not read by them. */
  predicate UnreadBy(n: Notification, email: string) {
    email in n.recipients && email !in n.readBy
  }

  /** The notifications addressed to `email` that they have not read, in store order. */
  function UnreadOf(ns: seq<Notification>, email: string): seq<Notification> {
    Filter(ns, (n: Notification) => UnreadBy(n, email))
  }

  lemma UnreadOfMembers(ns: seq<Notification>, email: string)
    ensures forall n :: n in UnreadOf(ns, email) <==> n in ns && UnreadBy(n, email)
  {
    FilterMembers(ns, (n: Notification) => UnreadBy(n, email));
  }

  /** The unread notifications, sorted newest first with a stable sort, cut to twenty. */
  function NewestUnread(ns: seq<Notification>, email: string): seq<Notification> {
    var sorted := Sorting.SortBy(UnreadOf(ns, email), NegCreated);
    if |sorted| <= UnreadLimit then sorted else sorted[..UnreadLimit]
  }

  /** At most twenty notifications, all unread by the user, newest first;
      when there are twenty or fewer, all of them. */
  lemma NewestUnreadFacts(ns: seq<Notification>, email: string)
    ensures |NewestUnread(ns, email)| <= UnreadLimit
    ensures forall n :: n in NewestUnread(ns, email) ==> n in ns && UnreadBy(n, email)
    ensures forall i, j :: 0 <= i < j < |NewestUnread(ns, email)| ==>
              NewestUnread(ns, email)[i].createdAt >= NewestUnread(ns, email)[j].createdAt
    ensures |UnreadOf(ns, email)| <= UnreadLimit ==>
              forall n :: n in ns && UnreadBy(n, email) ==> n in NewestUnread(ns, email)
    ensures forall n, k :: n in ns && UnreadBy(n, email) && n !in NewestUnread(ns, email) && k in NewestUnread(ns, email)
              ==> n.createdAt <= k.createdAt
  {
    var f := UnreadOf(ns, email);
    var sorted := Sorting.SortBy(f, NegCreated);
    var r := NewestUnread(ns, email);
    UnreadOfMembers(ns, email);
    Sorting.SortBySorted(f, NegCreated);
    forall n | n in r ensures n in ns && UnreadBy(n, email) {
      assert n in sorted;
      assert n in multiset(sorted);
      assert n in multiset(f);
    }
    forall i, j | 0 <= i < j < |r| ensures r[i].createdAt >= r[j].createdAt {
      assert r[i] == sorted[i] && r[j] == sorted[j];
      assert NegCreated(sorted[i]) <= NegCreated(sorted[j]);
    }
    if |f| <= UnreadLimit {
      forall n | n in ns && UnreadBy(n, email) ensures n in r {
        assert n in f;
        assert n in multiset(f);
        assert n in multiset(sorted);
      }
    }
    forall n, k | n in ns && UnreadBy(n, email) && n !in r && k in r ensures n.createdAt <= k.createdAt {
      assert n in multiset(f);
      assert n in multiset(sorted);
      var a :| 0 <= a < |sorted| && sorted[a] == n;
      var b :| 0 <= b < |r| && r[b] == k;
      assert a >= |r|;
      assert NegCreated(sorted[b]) <= NegCreated(sorted[a]);
    }
  }

  /** `.slice(0, 20)` of the sorted list: exactly twenty when there are more,
      all of them otherwise, each taken from the unread ones. */
  lemma NewestUnreadCount(ns: seq<Notification>, email: string)
    ensures |NewestUnread(ns, email)| == if |UnreadOf(ns, email)| <= UnreadLimit then |UnreadOf(ns, email)| else UnreadLimit
    ensures multiset(NewestUnread(ns, email)) <= multiset(UnreadOf(ns, email))
  {
    var sorted := Sorting.SortBy(UnreadOf(ns, email), NegCreated);
    var r := NewestUnread(ns, email);
    if |sorted| > UnreadLimit {
      assert sorted == r + sorted[UnreadLimit..];
      assert multiset(sorted) == multiset(r) + multiset(sorted[UnreadLimit..]);
    }
  }

  // ----- the store stays valid -----

  /** Changing the status of an invitation to a settled one keeps the store valid. */
  lemma SettleInvitationValid(gs: seq<Group>, invs: seq<Invitation>, ns: seq<Notification>, next: nat, k: int, st: Status)
    requires StoreValid(gs, invs, ns, next) && 0 <= k < |invs| && st != Pending
    ensures StoreValid(gs, invs[k := invs[k].(status := st)], ns, next)
  {
  }

  lemma AddNotificationValid(gs: seq<Group>, invs: seq<Invitation>, ns: seq<Notification>, next: nat, n: Notification)
    requires StoreValid(gs, invs, ns, next) && NotificationValid(n)
    ensures StoreValid(gs, invs, ns + [n], next + 1)
  {
  }

  /** A pending invitation of a non-member, not yet invited, keeps the store valid. */
  lemma AddInvitationValid(gs: seq<Group>, invs: seq<Invitation>, ns: seq<Notification>, next: nat, i: int, inv: Invitation)
    requires StoreValid(gs, invs, ns, next) && 0 <= i < |gs|
    requires inv.groupId == gs[i].id && inv.invitedEmail != "" && inv.status == Pending
    requires !IsMember(gs[i], inv.invitedEmail) && !PendingExists(invs, inv.groupId, inv.invitedEmail)
    ensures StoreValid(gs, invs + [inv], ns, next + 1)
  {
    var invs' := invs + [inv];
    forall a, k | 0 <= a < |gs| && 0 <= k < |invs'| && invs'[k].status == Pending && invs'[k].groupId == gs[a].id
      ensures !IsMember(gs[a], invs'[k].invitedEmail)
    {
      if k == |invs| {
        assert a == i;
      } else {
        assert invs'[k] == invs[k];
      }
    }
    forall a, b | 0 <= a < b < |invs'| && invs'[a].status == Pending && invs'[b].status == Pending
      ensures invs'[a].groupId != invs'[b].groupId || invs'[a].invitedEmail != invs'[b].invitedEmail
    {
      if b == |invs| {
        assert invs'[a] == invs[a];
      }
    }
  }

  /** Keeping the members' emails and roles keeps a group valid and its membership. */
  lemma SameMembersValid(g: Group, g': Group)
    requires GroupValid(g) && |g'.members| == |g.members|
    requires forall j :: 0 <= j < |g.members| ==> g'.members[j].email == g.members[j].email && g'.members[j].role == g.members[j].role
    ensures GroupValid(g') && forall e :: IsMember(g', e) <==> IsMember(g, e)
  {
    var j :| 0 <= j < |g.members| && g.members[j].role == Admin;
    assert g'.members[j].role == Admin;
  }

  /** The members after the one at `j` move up one place. */
  lemma RemoveAtShifts(ms: seq<Member>, j: int, left: seq<Member>)
    requires 0 <= j < |ms| && left == ms[..j] + ms[j + 1..]
    ensures |left| == |ms| - 1
    ensures forall a :: 0 <= a < j ==> left[a] == ms[a]
    ensures forall a :: j <= a < |left| ==> left[a] == ms[a + 1]
  {
  }

  /** Taking out a member keeps the emails unique. */
  lemma RemoveAtUnique(ms: seq<Member>, j: int)
    requires UniqueEmails(ms) && 0 <= j < |ms|
    ensures UniqueEmails(ms[..j] + ms[j + 1..])
  {
    var left := ms[..j] + ms[j + 1..];
    RemoveAtShifts(ms, j, left);
    forall a, b | 0 <= a < b < |left| ensures left[a].email != left[b].email {
      assert left[a] == ms[if a < j then a else a + 1] && left[b] == ms[if b < j then b else b + 1];
    }
  }

  /** Taking out anyone but the only admin leaves an admin. */
  lemma RemoveAtKeepsAdmin(ms: seq<Member>, j: int)
    requires HasAdmin(ms) && 0 <= j < |ms|
    requires ms[j].role == Admin ==> CountAdmins(ms) >= 2
    ensures HasAdmin(ms[..j] + ms[j + 1..])
  {
    var left := ms[..j] + ms[j + 1..];
    var admin: int;
    if ms[j].role == Admin {
      AnotherAdmin(ms, j);
      admin :| 0 <= admin < |ms| && admin != j && ms[admin].role == Admin;
    } else {
      admin :| 0 <= admin < |ms| && ms[admin].role == Admin;
    }
    if admin < j {
      assert left[admin] == ms[..j][admin] == ms[admin];
    } else {
      assert left[admin - 1] == ms[j + 1..][admin - 1 - j] == ms[admin];
    }
  }

  /** Taking out a member keeps a group valid when an admin is left. */
  lemma RemoveMemberValid(g: Group, j: int)
    requires GroupValid(g) && 0 <= j < |g.members|
    requires g.members[j].role == Admin ==> CountAdmins(g.members) >= 2
    ensures GroupValid(g.(members := g.members[..j] + g.members[j + 1..]))
    ensures forall e :: IsMember(g.(members := g.members[..j] + g.members[j + 1..]), e) ==> IsMember(g, e)
  {
    var ms := g.members;
    var left := ms[..j] + ms[j + 1..];
    var g' := g.(members := left);
    RemoveAtShifts(ms, j, left);
    RemoveAtUnique(ms, j);
    RemoveAtKeepsAdmin(ms, j);
    forall e | IsMember(g', e) ensures IsMember(g, e) {
      var b :| 0 <= b < |left| && left[b].email == e;
      assert ms[if b < j then b else b + 1].email == e;
    }
  }

  /** Taking out a member who is not the last admin keeps the store valid. */
  lemma RemoveFromStoreValid(gs: seq<Group>, invs: seq<Invitation>, ns: seq<Notification>, next: nat, i: int, j: int)
    requires StoreValid(gs, invs, ns, next) && 0 <= i < |gs| && 0 <= j < |gs[i].members|
    requires gs[i].members[j].role == Admin ==> CountAdmins(gs[i].members) >= 2
    ensures StoreValid(gs[i := gs[i].(members := gs[i].members[..j] + gs[i].members[j + 1..])], invs, ns, next)
  {
    RemoveMemberValid(gs[i], j);
    ReplaceGroupValid(gs, invs, ns, next, i, gs[i].(members := gs[i].members[..j] + gs[i].members[j + 1..]));
  }

  /** The invitee of a pending invitation joining its group keeps the store
      valid once the invitation is marked accepted. */
  lemma AcceptValid(gs: seq<Group>, invs: seq<Invitation>, ns: seq<Notification>, next: nat, i: int, k: int, joined: Member)
    requires StoreValid(gs, invs, ns, next) && 0 <= i < |gs| && 0 <= k < |invs|
    requires invs[k].status == Pending && invs[k].groupId == gs[i].id && joined.email == invs[k].invitedEmail
    ensures !IsMember(gs[i], joined.email)
    ensures StoreValid(gs[i := gs[i].(members := gs[i].members + [joined])], invs[k := invs[k].(status := Accepted)], ns, next)
  {
    var g := gs[i];
    var g' := g.(members := g.members + [joined]);
    var invs' := invs[k := invs[k].(status := Accepted)];
    SettleInvitationValid(gs, invs, ns, next, k, Accepted);
    assert !IsMember(g, joined.email);
    var admin :| 0 <= admin < |g.members| && g.members[admin].role == Admin;
    assert g'.members[admin].role == Admin;
    forall a, b | 0 <= a < b < |g'.members| ensures g'.members[a].email != g'.members[b].email {
      if b == |g.members| {
        assert g'.members[a] == g.members[a];
      }
    }
    forall q | 0 <= q < |invs'| && invs'[q].status == Pending && invs'[q].groupId == g'.id
      ensures !IsMember(g', invs'[q].invitedEmail)
    {
      assert q != k && invs'[q] == invs[q];
      assert invs[q].invitedEmail != joined.email by {
        if q < k {
          assert invs[q].groupId != invs[k].groupId || invs[q].invitedEmail != invs[k].invitedEmail;
        } else {
          assert invs[k].groupId != invs[q].groupId || invs[k].invitedEmail != invs[q].invitedEmail;
        }
      }
      assert !IsMember(g, invs[q].invitedEmail);
    }
    ReplaceGroupValid(gs, invs', ns, next, i, g');
  }


  /** With distinct ids, filtering one id out removes exactly that group. */
  lemma {:induction false} RemoveGroupAt(gs: seq<Group>, i: int)
    requires DistinctIds(gs) && 0 <= i < |gs|
    ensures Filter(gs, (g: Group) => g.id != gs[i].id) == gs[..i] + gs[i + 1..]
    decreases |gs|
  {
    var p := (g: Group) => g.id != gs[i].id;
    if i == 0 {
      assert forall x :: x in gs[1..] ==> p(x);
      FilterAll(gs[1..], p);
    } else {
      assert gs[1..][i - 1] == gs[i];
      RemoveGroupAt(gs[1..], i - 1);
      assert gs[1..][..i - 1] + gs[1..][i..] == gs[1..i] + gs[i + 1..];
      assert gs[..i] + gs[i + 1..] == [gs[0]] + (gs[1..i] + gs[i + 1..]);
    }
  }

  lemma RemoveGroupValid(gs: seq<Group>, invs: seq<Invitation>, ns: seq<Notification>, next: nat, i: int)
    requires StoreValid(gs, invs, ns, next) && 0 <= i < |gs|
    ensures StoreValid(gs[..i] + gs[i + 1..], invs, ns, next)
  {
    var rest := gs[..i] + gs[i + 1..];
    forall a, b | 0 <= a < b < |rest| ensures rest[a].id != rest[b].id {
      var a' := if a < i then a else a + 1;
      var b' := if b < i then b else b + 1;
      assert rest[a] == gs[a'] && rest[b] == gs[b'];
    }
    forall a, k | 0 <= a < |rest| && 0 <= k < |invs| && invs[k].status == Pending && invs[k].groupId == rest[a].id
      ensures !IsMember(rest[a], invs[k].invitedEmail)
    {
      var a' := if a < i then a else a + 1;
      assert rest[a] == gs[a'];
    }
  }
}
