/** One payment followed from a fresh service to the moment it is mined, and what the health check and the event
    subscriber then make of it. */
module Deliveries {
  import opened Types
  import opened Lifecycle
  import opened Invariant
  import opened Growth
  import opened Theorems
  import opened Runs
  import opened World
  import HealthCheck
  import Events

  /** Signed, sent, IN_NETWORK, and mined. */
  function Steps(): seq<Step> {
    SignSteps(PAYER) + DeliverSteps(PAYER, 0, 1)
  }

  lemma IsDelivered()
    ensures var s := Run(FRESH, Steps());
            && Init(FRESH) && s.otx == map[1 := PaymentRow(PAYER, 0, 1)] && StatusesOf(s, 1) == [IN_NETWORK]
            && HashMined(s, HashOf(Payment(PAYER, 0))) && MinedBy(s.mined, PAYER)[0].ok
            && s.active == {} && OTHER in s.next
  {
    FreshIsInit();
    var signed := Signed(FRESH, PAYER);
    IsJustSigned(FRESH, PAYER);
    var s := Delivered(signed, PAYER, 0, 1);
    assert Run(FRESH, Steps()) == s by {
      hide Run, Signed, Delivered;
      SignsPayment(FRESH, PAYER);
      DeliversPayment(signed, PAYER, 0, 1);
      RunAppend(FRESH, SignSteps(PAYER), DeliverSteps(PAYER, 0, 1));
    }
    assert MinedBy(s.mined, PAYER) == [Mined(Payment(PAYER, 0), 0, true)];
    assert s.otx == map[1 := PaymentRow(PAYER, 0, 1)];
  }

  /** The health check finds the receipt and writes SUCCESS. */
  method CheckConfirms() returns (statuses: seq<Status>)
    ensures statuses == [SUCCESS]
  {
    IsDelivered();
    hide Run, Init, Inv;
    var s := Run(FRESH, Steps());
    var w := new World(FRESH, Steps(), s, true);
    assert HealthCheck.OnTheWayBefore(s, 1) == {};
    assert HealthCheck.Due(s, 1, {1});
    hide HealthCheck.Due;
    var ok;
    ghost var checked, replies;
    ok, checked, replies := HealthCheck.Work(w, {1});
    statuses := StatusesOf(w.s, 1);
  }

  /** The event of a successful registration settles the otx and activates the key. */
  method EventActivates() returns (statuses: seq<Status>, active: set<Address>)
    ensures statuses == [SUCCESS] && active == {OTHER}
  {
    IsDelivered();
    hide Run, Init, Inv;
    var s := Run(FRESH, Steps());
    var w := new World(FRESH, Steps(), s, true);
    assert s.otx[1].hash == HashOf(Payment(PAYER, 0));
    var ok;
    ghost var row;
    ok, row := Events.ProcessEvent(w, Events.Event(HashOf(Payment(PAYER, 0)), true, Some(OTHER)));
    statuses, active := StatusesOf(w.s, 1), w.s.active;
  }
}
