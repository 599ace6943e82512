/** Two end-to-end runs checked against the contracts of `Store`: a
    request filed by a user at location "LocA", routed to the one incharge
    there and completed; and two penalties on a user without a rating. */
module Scenarios {
  import opened Schema
  import opened Lifecycle
  import opened Ledger
  import opened Backend

  method FileRouteAndComplete()
  {
    var requester := User("u-1", "U1", "Uma", "uma@example.org", Ordinary, Some("LocA"), None);
    var incharge := User("i-1", "I1", "Ira", "ira@example.org", Incharge, Some("LocA"), Some(4));
    var drill := Item("ITM1", "tools", "drill", Some("LocA"), None, Some("good"));
    var store := new Store(map["U1" := requester, "I1" := incharge], map["ITM1" := drill]);

    var caller := Some(Session("u-1", "U1", Ordinary));
    var created := store.CreateRequest(caller, RequestBody("U1", "ITM1", "broken chuck"), true);
    assert store.Admitted(caller, RequestBody("U1", "ITM1", "broken chuck"));
    assert IsInchargeAt(store.users["I1"], "LocA");
    assert created == Response(201, Data(Opened(0, "U1", RequestBody("U1", "ITM1", "broken chuck"))));
    assert created.body.value.status == Pending;
    assert |store.notifications| == 1 && store.notifications[0].inchargeId == "I1";
    assert store.notifications[0].userId == "U1";

    var done := store.UpdateRequest("complete", 0, Changes(Keep, Set(Some("fixed")), Keep, Set(Some(50))), 1000);
    assert done.status == 200 && done.body.value.status == Completed;
    assert done.body.value.completionDate == Some(1000) && done.body.value.maintenanceCharge == Some(50);

    var refused := store.UpdateRequest("reopen", 0, Changes(Keep, Keep, Keep, Keep), 1001);
    assert refused.status == 400 && store.requests[0] == done.body.value;
  }

  method PenaltyOnUnratedUser()
  {
    var u := User("u-1", "U1", "Uma", "uma@example.org", Ordinary, Some("LocA"), None);
    var store := new Store(map["U1" := u], map[]);

    var first := store.RecordLedgerEvent(true, LedgerData("U1", 2, map[]));
    assert first.status == 201 && store.users["U1"].stars == Some(3);

    // A second penalty leaves the rating where the first one put it.
    var second := store.RecordLedgerEvent(true, LedgerData("U1", 1, map[]));
    assert second.status == 201 && store.users["U1"].stars == Some(3);
    assert |store.penalties| == 2;
  }
}
