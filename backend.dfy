/** The store the three route files work on, and their handlers as methods
    of one `Store`: `POST`, `GET` and `PUT /maintenance/request`,
    `POST` and `GET /penalty`, and `PUT /qrscanner/update`. */
module Backend {
  import opened Schema
  import opened Lifecycle
  import opened Ledger
  import opened AssetCall

  /** The JSON body of `POST /maintenance/request`; `""` stands for a
      missing or falsy field. */
  datatype RequestBody = RequestBody(userId: string, itemId: string, issueDescription: string)

  /** The JSON body of `POST /penalty` without `isPenalty`: the user, the
      number of stars (`numberOfStarsReduced` or `numberOfStarsAdded`) and
      any other fields, which go into the new row as they are. */
  datatype LedgerData = LedgerData(userId: string, numberOfStars: int, details: map<string, string>)

  /** The JSON body of `PUT /qrscanner/update`. */
  datatype ItemBody = ItemBody(itemId: string, condition: Patch<string>, temporaryLocation: Option<string>)

  /** A row of the `GET /maintenance/request` listing: the request with the
      requester's govId and name and the item's category and type. */
  datatype UserSummary = UserSummary(govId: string, name: string)
  datatype ItemSummary = ItemSummary(category: string, itemType: string)
  datatype RequestView = RequestView(request: Request, user: UserSummary, item: ItemSummary)

  const NO_GOV_ID := "no govId"
  const FIELDS_REQUIRED := "userId, itemId, and issueDescription are required."
  const INVALID_ACTION := "Invalid action type"
  const USER_NOT_FOUND := "User not found!"
  const PENALTIES_FAILED := "Failed to find penalties"
  const ITEM_FIELDS_REQUIRED := "Item ID and location/temporary location are required"
  const ITEM_NOT_FOUND := "Item not found"
  const TEMPORARY_LOCATION_REQUIRED := "Temporary location is required"

  function UserNotLocated(userId: string): string
  {
    "User with id '" + userId + "' not found or location is missing."
  }

  function ItemMissing(itemId: string): string
  {
    "InventoryItem with itemId '" + itemId + "' does not exist."
  }

  function NoInchargeFor(location: string): string
  {
    "No incharge found for location '" + location + "'."
  }

  function NewRequestMessage(name: string, userId: string): string
  {
    "New maintenance request created by " + name + " having govId " + userId + ". "
  }

  /** `session?.user.govId` when it is truthy. */
  function CallerGovId(session: Option<Session>): Option<string>
  {
    if session.Some? && session.value.govId != "" then Some(session.value.govId) else None
  }

  /** All three fields of a maintenance request are truthy. */
  predicate HasFields(body: RequestBody)
  {
    body.userId != "" && body.itemId != "" && body.issueDescription != ""
  }

  /** The row `POST /maintenance/request` inserts: pending, with the
      caller's govId in its own `govId` column, linked to the requester
      `body.userId` and to the item. */
  function Opened(id: nat, callerGovId: string, body: RequestBody): Request
  {
    Request(id, body.issueDescription, callerGovId, body.userId, body.itemId, Pending,
            None, None, None, None, None, None)
  }

  predicate IsInchargeAt(u: User, location: string)
  {
    u.role == Incharge && u.location == Some(location)
  }

  /** The ledger event a `POST /penalty` applies to the rating. */
  function EntryOf(isPenalty: bool, numberOfStars: int): Entry
  {
    if isPenalty then PenaltyEntry(numberOfStars) else AwardEntry(numberOfStars)
  }

  class Store {
    var users: map<string, User>          // keyed by govId
    var items: map<string, Item>          // keyed by itemId
    var requests: seq<Request>            // the request with id i is requests[i]
    var notifications: seq<Notification>
    var penalties: seq<Penalty>
    var awards: seq<Award>

    /** The user table is keyed by govId and no two users share an id. */
    ghost predicate UsersKeyed()
      reads this`users
    {
      && (forall g :: g in users ==> users[g].govId == g)
      && (forall g, h :: g in users && h in users && users[g].id == users[h].id ==> g == h)
    }

    /** Keys agree with the rows, user ids are unique, and every request
        links to a user and an item that exist. */
    ghost predicate Valid()
      reads this
    {
      && UsersKeyed()
      && (forall k :: k in items ==> items[k].itemId == k)
      && (forall i :: 0 <= i < |requests| ==>
            requests[i].id == i && requests[i].userId in users && requests[i].itemId in items)
    }

    /** A store holding registered users and items and nothing else yet. */
    constructor (users0: map<string, User>, items0: map<string, Item>)
      requires forall g :: g in users0 ==> users0[g].govId == g
      requires forall g, h :: g in users0 && h in users0 && users0[g].id == users0[h].id ==> g == h
      requires forall k :: k in items0 ==> items0[k].itemId == k
      ensures Valid()
      ensures users == users0 && items == items0
      ensures requests == [] && notifications == [] && penalties == [] && awards == []
    {
      users, items := users0, items0;
      requests, notifications, penalties, awards := [], [], [], [];
    }

    // ---------------------------------------------------------------
    // src/app/api/maintenance/request/route.ts
    // ---------------------------------------------------------------

    /** The requester exists and has a truthy location. */
    predicate Locatable(govId: string)
      reads this`users
    {
      govId in users && Present(users[govId].location)
    }

    /** Every check of `POST` before the insert passes. */
    predicate Admitted(session: Option<Session>, body: RequestBody)
      reads this`users, this`items
    {
      CallerGovId(session).Some? && HasFields(body) && Locatable(body.userId) && body.itemId in items
    }

    predicate HasInchargeAt(location: string)
      reads this`users
    {
      exists g :: g in users && IsInchargeAt(users[g], location)
    }

    /** `user.findFirst({ where: { role: "incharge", location } })`: some
        incharge at the location, with no defined order among several. */
    method FindIncharge(location: string) returns (r: Option<User>)
      requires UsersKeyed()
      ensures r.None? <==> !HasInchargeAt(location)
      ensures r.Some? ==> r.value.govId in users && users[r.value.govId] == r.value
      ensures r.Some? ==> IsInchargeAt(r.value, location)
    {
      if g :| g in users && IsInchargeAt(users[g], location) {
        r := Some(users[g]);
      } else {
        r := None;
      }
    }

    /** `POST /maintenance/request`. Checks the caller's govId, the body
        fields, the requester and their location, then the item; inserts the
        request; then looks up the incharge of the requester's location and
        notifies them. A missing incharge or a failed email leaves what was
        already written in place. */
    method CreateRequest(session: Option<Session>, body: RequestBody, emailSent: bool)
      returns (resp: Response<Request>)
      requires Valid()
      modifies this`requests, this`notifications
      ensures Valid()
      ensures CallerGovId(session).None? ==>
        resp == Response(200, Message(NO_GOV_ID)) && unchanged(this)
      ensures CallerGovId(session).Some? && !HasFields(body) ==>
        resp == Response(400, Message(FIELDS_REQUIRED)) && unchanged(this)
      ensures CallerGovId(session).Some? && HasFields(body) && !Locatable(body.userId) ==>
        resp == Response(404, Message(UserNotLocated(body.userId))) && unchanged(this)
      ensures CallerGovId(session).Some? && HasFields(body) && Locatable(body.userId)
              && body.itemId !in items ==>
        resp == Response(404, Message(ItemMissing(body.itemId))) && unchanged(this)
      ensures Admitted(session, body) ==>
        requests == old(requests) + [Opened(|old(requests)|, CallerGovId(session).value, body)]
      ensures Admitted(session, body) && !HasInchargeAt(users[body.userId].location.value) ==>
        resp == Response(404, Message(NoInchargeFor(users[body.userId].location.value)))
        && notifications == old(notifications)
      ensures Admitted(session, body) && HasInchargeAt(users[body.userId].location.value) ==>
        (exists g :: g in users && IsInchargeAt(users[g], users[body.userId].location.value)
           && notifications == old(notifications) + [Notification(
                CallerGovId(session).value, users[g].govId,
                NewRequestMessage(users[body.userId].name, body.userId))])
        && resp == if emailSent then Response(201, Data(Opened(|old(requests)|, CallerGovId(session).value, body)))
                   else Response(500, Message(INTERNAL_ERROR))
    {
      var caller := CallerGovId(session);
      if caller.None? {
        return Response(200, Message(NO_GOV_ID));
      }
      if !HasFields(body) {
        return Response(400, Message(FIELDS_REQUIRED));
      }
      if !Locatable(body.userId) {
        return Response(404, Message(UserNotLocated(body.userId)));
      }
      var user := users[body.userId];
      var location := user.location.value;
      if body.itemId !in items {
        return Response(404, Message(ItemMissing(body.itemId)));
      }
      var created := Opened(|requests|, caller.value, body);
      requests := requests + [created];
      var incharge := FindIncharge(location);
      if incharge.None? {
        return Response(404, Message(NoInchargeFor(location)));
      }
      notifications := notifications + [Notification(caller.value, incharge.value.govId,
                                                      NewRequestMessage(user.name, body.userId))];
      if !emailSent {
        return Response(500, Message(INTERNAL_ERROR));
      }
      return Response(201, Data(created));
    }

    /** `GET /maintenance/request`: every request, in table order, with its
        requester's govId and name and its item's category and type. */
    function GetRequests(): (r: Response<seq<RequestView>>)
      reads this
      requires Valid()
      ensures r.status == 200 && r.body.Data? && |r.body.value| == |requests|
      ensures forall i :: 0 <= i < |requests| ==>
        && r.body.value[i].request == requests[i]
        && r.body.value[i].user == UserSummary(requests[i].userId, users[requests[i].userId].name)
        && r.body.value[i].item == ItemSummary(items[requests[i].itemId].category,
                                               items[requests[i].itemId].itemType)
    {
      var views := seq(|requests|, i requires 0 <= i < |requests| && requests[i].userId in users
                                               && requests[i].itemId in items reads this =>
        RequestView(requests[i],
                    UserSummary(users[requests[i].userId].govId, users[requests[i].userId].name),
                    ItemSummary(items[requests[i].itemId].category, items[requests[i].itemId].itemType)));
      Response(200, Data(views))
    }

    /** `PUT /maintenance/request`: an unknown action is refused before
        anything is read; a known one updates the one row `requestId`
        according to `Transition`, whatever its status was. A missing row
        makes the update throw, which the handler answers with 500. */
    method UpdateRequest(action: string, requestId: nat, changes: Changes, now: nat)
      returns (resp: Response<Request>)
      requires Valid()
      modifies this`requests
      ensures Valid()
      ensures ParseAction(action).None? ==>
        resp == Response(400, Message(INVALID_ACTION)) && requests == old(requests)
      ensures ParseAction(action).Some? && requestId >= |old(requests)| ==>
        resp == Response(500, Message(INTERNAL_ERROR)) && requests == old(requests)
      ensures ParseAction(action).Some? && requestId < |old(requests)| ==>
        var updated := Transition(old(requests)[requestId], ParseAction(action).value, changes, now);
        requests == old(requests)[requestId := updated] && resp == Response(200, Data(updated))
    {
      var a := ParseAction(action);
      if a.None? {
        return Response(400, Message(INVALID_ACTION));
      }
      if requestId >= |requests| {
        return Response(500, Message(INTERNAL_ERROR));
      }
      var updated := Transition(requests[requestId], a.value, changes, now);
      requests := requests[requestId := updated];
      return Response(200, Data(updated));
    }

    // ---------------------------------------------------------------
    // src/app/api/penalty/route.ts
    // ---------------------------------------------------------------

    /** `POST /penalty`: for a known user, appends a penalty (when
        `isPenalty` is truthy) or an award, then overwrites that user's
        `stars` with `StarsAfter`; replies 201 with the body minus
        `isPenalty`. */
    method RecordLedgerEvent(isPenalty: bool, data: LedgerData) returns (resp: Response<LedgerData>)
      requires Valid()
      modifies this`users, this`penalties, this`awards
      ensures Valid()
      ensures data.userId !in old(users) ==>
        resp == Response(404, Message(USER_NOT_FOUND)) && unchanged(this)
      ensures data.userId in old(users) ==> resp == Response(201, Data(data))
      ensures data.userId in old(users) && isPenalty ==>
        penalties == old(penalties) + [Penalty(data.userId, data.numberOfStars, data.details)]
        && awards == old(awards)
      ensures data.userId in old(users) && !isPenalty ==>
        awards == old(awards) + [Award(data.userId, data.numberOfStars, data.details)]
        && penalties == old(penalties)
      ensures data.userId in old(users) ==>
        var u := old(users)[data.userId];
        users == old(users)[data.userId := u.(stars := Some(StarsAfter(u.stars, EntryOf(isPenalty, data.numberOfStars))))]
    {
      if data.userId !in users {
        return Response(404, Message(USER_NOT_FOUND));
      }
      var user := users[data.userId];
      if isPenalty {
        penalties := penalties + [Penalty(data.userId, data.numberOfStars, data.details)];
      } else {
        awards := awards + [Award(data.userId, data.numberOfStars, data.details)];
      }
      var newStars := StarsAfter(user.stars, EntryOf(isPenalty, data.numberOfStars));
      users := users[data.userId := user.(stars := Some(newStars))];
      return Response(201, Data(data));
    }

    /** `GET /penalty`: the user whose govId is the session's `id`, and the
        penalties recorded against that user's govId. */
    function GetPenalties(session: Option<Session>): (r: Response<seq<Penalty>>)
      reads this
      requires Valid()
      ensures session.None? ==> r == Response(500, Error(PENALTIES_FAILED))
      ensures session.Some? && session.value.id !in users ==> r == Response(404, Message(USER_NOT_FOUND))
      ensures session.Some? && session.value.id in users ==>
        r.status == 201 && r.body.Data?
        && r.body.value == PenaltiesOf(penalties, session.value.id)
        && forall p :: p in r.body.value <==> p in penalties && p.userId == session.value.id
    {
      if session.None? then Response(500, Error(PENALTIES_FAILED))
      else if session.value.id !in users then Response(404, Message(USER_NOT_FOUND))
      else Response(201, Data(PenaltiesOf(penalties, users[session.value.id].govId)))
    }

    // ---------------------------------------------------------------
    // src/app/api/qrscanner/update/route.ts
    // ---------------------------------------------------------------

    /** `db.user.findUnique({ where: { id }, select: { location: true } })`:
        `None` when no user has that id, else that user's (nullable)
        location. */
    function CallerRecord(id: string): (r: Option<Option<string>>)
      reads this`users
      requires UsersKeyed()
      ensures r.None? <==> forall g :: g in users ==> users[g].id != id
      ensures forall g :: g in users && users[g].id == id ==> r == Some(users[g].location)
    {
      if exists g :: g in users && users[g].id == id then
        var g :| g in users && users[g].id == id; Some(users[g].location)
      else None
    }

    /** The first check of the handler: an item id, and either a stored
        record for the caller or a temporary location. */
    predicate HasTarget(s: Session, body: ItemBody)
      reads this`users
      requires UsersKeyed()
    {
      body.itemId != "" && (CallerRecord(s.id).Some? || Present(body.temporaryLocation))
    }

    /** `PUT /qrscanner/update`. An incharge moves the item to their own
        stored location and sets its condition; an ordinary user sets only
        the temporary location and then reports it to the asset-location
        endpoint at `domain`, whose failure is surfaced after the update has
        been written; an admin changes nothing and gets the success message
        without an item. */
    method UpdateItem(session: Option<Session>, body: ItemBody, domain: string, endpoint: Outcome)
      returns (resp: Response<Option<Item>>)
      requires Valid()
      modifies this`items
      ensures Valid()
      ensures session.None? ==> resp == Response(500, Message(INTERNAL_ERROR)) && items == old(items)
      ensures session.Some? && !HasTarget(session.value, body) ==>
        resp == Response(400, Message(ITEM_FIELDS_REQUIRED)) && items == old(items)
      ensures session.Some? && HasTarget(session.value, body) && body.itemId !in old(items) ==>
        resp == Response(404, Message(ITEM_NOT_FOUND)) && items == old(items)
      ensures session.Some? && HasTarget(session.value, body) && body.itemId in old(items)
              && session.value.role == Incharge ==>
        var item := old(items)[body.itemId];
        var record := CallerRecord(session.value.id);
        var moved := item.(location := if record.Some? then record.value else item.location,
                           condition := Patched(body.condition, item.condition));
        items == old(items)[body.itemId := moved] && resp == Response(200, MessageAndData(UPDATED, Some(moved)))
      ensures session.Some? && HasTarget(session.value, body) && body.itemId in old(items)
              && session.value.role == Ordinary && !Present(body.temporaryLocation) ==>
        resp == Response(400, Message(TEMPORARY_LOCATION_REQUIRED)) && items == old(items)
      ensures session.Some? && HasTarget(session.value, body) && body.itemId in old(items)
              && session.value.role == Ordinary && Present(body.temporaryLocation) ==>
        var carried := old(items)[body.itemId].(temporaryLocation := body.temporaryLocation);
        items == old(items)[body.itemId := carried]
        && resp == Reply(Fetch(IntendedUrl(domain), endpoint), carried)
      ensures session.Some? && HasTarget(session.value, body) && body.itemId in old(items)
              && session.value.role == Admin ==>
        resp == Response(200, MessageAndData(UPDATED, None)) && items == old(items)
    {
      if session.None? {
        return Response(500, Message(INTERNAL_ERROR));
      }
      var caller := session.value;
      var record := CallerRecord(caller.id);
      if body.itemId == "" || (record.None? && !Present(body.temporaryLocation)) {
        return Response(400, Message(ITEM_FIELDS_REQUIRED));
      }
      if body.itemId !in items {
        return Response(404, Message(ITEM_NOT_FOUND));
      }
      var item := items[body.itemId];
      match caller.role
      case Incharge =>
        var moved := item.(location := if record.Some? then record.value else item.location,
                           condition := Patched(body.condition, item.condition));
        items := items[body.itemId := moved];
        resp := Response(200, MessageAndData(UPDATED, Some(moved)));
      case Ordinary =>
        if !Present(body.temporaryLocation) {
          return Response(400, Message(TEMPORARY_LOCATION_REQUIRED));
        }
        var carried := item.(temporaryLocation := body.temporaryLocation);
        items := items[body.itemId := carried];
        resp := Reply(Fetch(IntendedUrl(domain), endpoint), carried);
      case Admin =>
        resp := Response(200, MessageAndData(UPDATED, None));
    }
  }
}
