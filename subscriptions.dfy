/**
 * The subscriptions page (app/subscriptions/page.tsx): which buttons the
 * current-plan panel and the Free, Pro and Unlimited plan cards offer, as a
 * function of the current subscription record, and the handlers that replace
 * that record with what the server returns.
 */
module Subscriptions {
  import opened Wrappers

  datatype Subscription = Subscription(
    subscriptionId: string,
    planType: string,
    termFrom: string,
    termTo: string,
    cancelAtPeriodEnd: bool,
    willDowngradeTo: Option<string>)

  const ProPriceId := "price_1OMVlsHar31BZeHdTk89gPZs"
  const UnlimitedPriceId := "price_1OMVmkHar31BZeHdzlW9fyFE"

  /** What a click on a button does. */
  datatype Action =
    | NoAction
    | CancelSubscription
    | ReactivateSubscription
    | ChangePlan(planType: string)
    | CancelDowngrade
    | OpenPaymentModal(priceId: string)

  datatype Label =
    | CurrentPlan
    | Downgrade
    | Upgrade
    | GetStarted
    | WillStartOn(date: string)
    | ReactivateFirst
    | Reactivate
    | CancelTheDowngrade
    | CancelYourSubscription

  datatype Button = Button(caption: Label, action: Action, disabled: bool)

  /** JavaScript truthiness of `will_downgrade_to`. */
  predicate DowngradePending(s: Subscription) {
    s.willDowngradeTo.Some? && s.willDowngradeTo.value != ""
  }

  /** The buttons of the current-plan panel, or None when the panel is not rendered. */
  function Panel(current: Option<Subscription>): Option<seq<Button>> {
    if current.None? then None
    else
      var s := current.value;
      Some((if s.cancelAtPeriodEnd then [Button(Reactivate, ReactivateSubscription, false)] else [])
        + (if DowngradePending(s) then [Button(CancelTheDowngrade, CancelDowngrade, false)] else [])
        + (if !s.cancelAtPeriodEnd && !DowngradePending(s) then [Button(CancelYourSubscription, CancelSubscription, false)] else []))
  }

  function FreeFooter(current: Option<Subscription>): seq<Button> {
    (if current.None? then [Button(CurrentPlan, NoAction, false)] else [])
    + (if current.Some? && !current.value.cancelAtPeriodEnd then [Button(Downgrade, CancelSubscription, false)] else [])
    + (if current.Some? && current.value.cancelAtPeriodEnd then [Button(WillStartOn(current.value.termTo), NoAction, true)] else [])
  }

  function ProFooter(current: Option<Subscription>): seq<Button> {
    (if current.None? then [Button(GetStarted, OpenPaymentModal(ProPriceId), false)] else [])
    + (if current.Some? && !current.value.cancelAtPeriodEnd && current.value.planType == "pro"
       then [Button(CurrentPlan, NoAction, false)] else [])
    + (if current.Some? && !current.value.cancelAtPeriodEnd && !DowngradePending(current.value) && current.value.planType == "unlimited"
       then [Button(Downgrade, ChangePlan("pro"), false)] else [])
    + (if current.Some? && current.value.cancelAtPeriodEnd then [Button(ReactivateFirst, NoAction, true)] else [])
    + (if current.Some? && current.value.willDowngradeTo == Some("pro")
       then [Button(WillStartOn(current.value.termTo), NoAction, true)] else [])
  }

  function UnlimitedFooter(current: Option<Subscription>): seq<Button> {
    (if current.None? then [Button(GetStarted, OpenPaymentModal(UnlimitedPriceId), false)] else [])
    + (if current.Some? && !current.value.cancelAtPeriodEnd && current.value.planType == "unlimited"
       then [Button(CurrentPlan, NoAction, false)] else [])
    + (if current.Some? && !current.value.cancelAtPeriodEnd && current.value.planType == "pro"
       then [Button(Upgrade, ChangePlan("unlimited"), false)] else [])
    + (if current.Some? && current.value.cancelAtPeriodEnd then [Button(ReactivateFirst, NoAction, true)] else [])
  }

  /** Every button of the three plan-card footers, Free first. */
  function Footers(current: Option<Subscription>): seq<Button> {
    FreeFooter(current) + ProFooter(current) + UnlimitedFooter(current)
  }

  /** Some enabled button of `buttons` performs `a`. */
  predicate Offers(buttons: seq<Button>, a: Action) {
    exists b <- buttons :: b.action == a && !b.disabled
  }

  function CountLabel(buttons: seq<Button>, l: Label): nat {
    if buttons == [] then 0
    else (if buttons[0].caption == l then 1 else 0) + CountLabel(buttons[1..], l)
  }

  // ---------------------------------------------------------------------------

  /**
   * The panel renders only for a subscription; in it, "Reactivate" shows iff
   * the subscription is cancelling, "Cancel the downgrade" iff a downgrade is
   * pending, and "Cancel your subscription" iff neither.
   */
  lemma PanelTable(current: Option<Subscription>)
    ensures Panel(current).Some? <==> current.Some?
    ensures current.Some? ==>
      && (Offers(Panel(current).value, ReactivateSubscription) <==> current.value.cancelAtPeriodEnd)
      && (Offers(Panel(current).value, CancelDowngrade) <==> DowngradePending(current.value))
      && (Offers(Panel(current).value, CancelSubscription)
          <==> !current.value.cancelAtPeriodEnd && !DowngradePending(current.value))
  {
    if current.Some? {
      var s := current.value;
      var p := Panel(current).value;
      if s.cancelAtPeriodEnd {
        assert p[0] == Button(Reactivate, ReactivateSubscription, false);
      }
      if DowngradePending(s) {
        assert p[if s.cancelAtPeriodEnd then 1 else 0] == Button(CancelTheDowngrade, CancelDowngrade, false);
      }
      if !s.cancelAtPeriodEnd && !DowngradePending(s) {
        assert p[0] == Button(CancelYourSubscription, CancelSubscription, false);
      }
    }
  }

  /**
   * The Free card shows exactly one button: "Current Plan" without a
   * subscription, "Downgrade" (which cancels) for a subscription that is not
   * cancelling, and the disabled "Will start on" for one that is.
   */
  lemma FreeFooterSingle(current: Option<Subscription>)
    ensures |FreeFooter(current)| == 1
    ensures FreeFooter(current)[0] ==
      if current.None? then Button(CurrentPlan, NoAction, false)
      else if !current.value.cancelAtPeriodEnd then Button(Downgrade, CancelSubscription, false)
      else Button(WillStartOn(current.value.termTo), NoAction, true)
  {
  }

  lemma {:induction false} CountLabelConcat(a: seq<Button>, b: seq<Button>, l: Label)
    ensures CountLabel(a + b, l) == CountLabel(a, l) + CountLabel(b, l)
  {
    if a == [] {
      assert a + b == b;
    } else {
      assert (a + b)[1..] == a[1..] + b;
      CountLabelConcat(a[1..], b, l);
    }
  }

  /**
   * "Current Plan" appears on at most one card: on Free iff there is no
   * subscription, on Pro or Unlimited iff the subscription is not cancelling
   * and has that plan type.
   */
  lemma CurrentPlanAtMostOnce(current: Option<Subscription>)
    ensures CountLabel(Footers(current), CurrentPlan) <= 1
    ensures CountLabel(FreeFooter(current), CurrentPlan) == (if current.None? then 1 else 0)
    ensures CountLabel(ProFooter(current), CurrentPlan) ==
      (if current.Some? && !current.value.cancelAtPeriodEnd && current.value.planType == "pro" then 1 else 0)
    ensures CountLabel(UnlimitedFooter(current), CurrentPlan) ==
      (if current.Some? && !current.value.cancelAtPeriodEnd && current.value.planType == "unlimited" then 1 else 0)
  {
    CountLabelConcat(FreeFooter(current), ProFooter(current), CurrentPlan);
    CountLabelConcat(FreeFooter(current) + ProFooter(current), UnlimitedFooter(current), CurrentPlan);
    var c := current;
    var free := FreeFooter(c);
    CountLabelConcat((if c.None? then [Button(CurrentPlan, NoAction, false)] else [])
      + (if c.Some? && !c.value.cancelAtPeriodEnd then [Button(Downgrade, CancelSubscription, false)] else []),
      (if c.Some? && c.value.cancelAtPeriodEnd then [Button(WillStartOn(c.value.termTo), NoAction, true)] else []),
      CurrentPlan);
    CountLabelConcat((if c.None? then [Button(CurrentPlan, NoAction, false)] else []),
      (if c.Some? && !c.value.cancelAtPeriodEnd then [Button(Downgrade, CancelSubscription, false)] else []),
      CurrentPlan);
    ProCount(c);
    UnlimitedCount(c);
  }

  lemma ProCount(c: Option<Subscription>)
    ensures CountLabel(ProFooter(c), CurrentPlan) ==
      (if c.Some? && !c.value.cancelAtPeriodEnd && c.value.planType == "pro" then 1 else 0)
  {
    var a := if c.None? then [Button(GetStarted, OpenPaymentModal(ProPriceId), false)] else [];
    var b := if c.Some? && !c.value.cancelAtPeriodEnd && c.value.planType == "pro"
       then [Button(CurrentPlan, NoAction, false)] else [];
    var d := if c.Some? && !c.value.cancelAtPeriodEnd && !DowngradePending(c.value) && c.value.planType == "unlimited"
       then [Button(Downgrade, ChangePlan("pro"), false)] else [];
    var e := if c.Some? && c.value.cancelAtPeriodEnd then [Button(ReactivateFirst, NoAction, true)] else [];
    var f := if c.Some? && c.value.willDowngradeTo == Some("pro")
       then [Button(WillStartOn(c.value.termTo), NoAction, true)] else [];
    assert ProFooter(c) == a + b + d + e + f;
    CountLabelConcat(a + b + d + e, f, CurrentPlan);
    CountLabelConcat(a + b + d, e, CurrentPlan);
    CountLabelConcat(a + b, d, CurrentPlan);
    CountLabelConcat(a, b, CurrentPlan);
  }

  lemma UnlimitedCount(c: Option<Subscription>)
    ensures CountLabel(UnlimitedFooter(c), CurrentPlan) ==
      (if c.Some? && !c.value.cancelAtPeriodEnd && c.value.planType == "unlimited" then 1 else 0)
  {
    var a := if c.None? then [Button(GetStarted, OpenPaymentModal(UnlimitedPriceId), false)] else [];
    var b := if c.Some? && !c.value.cancelAtPeriodEnd && c.value.planType == "unlimited"
       then [Button(CurrentPlan, NoAction, false)] else [];
    var d := if c.Some? && !c.value.cancelAtPeriodEnd && c.value.planType == "pro"
       then [Button(Upgrade, ChangePlan("unlimited"), false)] else [];
    var e := if c.Some? && c.value.cancelAtPeriodEnd then [Button(ReactivateFirst, NoAction, true)] else [];
    assert UnlimitedFooter(c) == a + b + d + e;
    CountLabelConcat(a + b + d, e, CurrentPlan);
    CountLabelConcat(a + b, d, CurrentPlan);
    CountLabelConcat(a, b, CurrentPlan);
  }

  /** A subscriber sees no "Get Started" button on any card. */
  lemma GetStartedOnlyWithout(current: Option<Subscription>)
    requires current.Some?
    ensures forall b <- Footers(current) :: b.caption != GetStarted
  {
    var c := current;
    FreeFooterSingle(c);
    assert FreeFooter(c) == [FreeFooter(c)[0]];
    assert forall x <- ProFooter(c) :: x.caption != GetStarted;
    assert forall x <- UnlimitedFooter(c) :: x.caption != GetStarted;
  }

  /**
   * "Get Started" is offered only without a subscription, and then opens the
   * payment form with the Pro price on the Pro card and the Unlimited price on
   * the Unlimited card.
   */
  lemma GetStartedPrices(current: Option<Subscription>)
    ensures Offers(ProFooter(current), OpenPaymentModal(ProPriceId)) <==> current.None?
    ensures Offers(UnlimitedFooter(current), OpenPaymentModal(UnlimitedPriceId)) <==> current.None?
    ensures !Offers(ProFooter(current), OpenPaymentModal(UnlimitedPriceId))
    ensures !Offers(UnlimitedFooter(current), OpenPaymentModal(ProPriceId))
  {
    ProOffers(current, OpenPaymentModal(ProPriceId));
    ProOffers(current, OpenPaymentModal(UnlimitedPriceId));
    UnlimitedOffers(current, OpenPaymentModal(UnlimitedPriceId));
    UnlimitedOffers(current, OpenPaymentModal(ProPriceId));
  }

  /** A list offers an action exactly when one of its two parts does. */
  lemma OffersConcat(a: seq<Button>, b: seq<Button>, act: Action)
    ensures Offers(a + b, act) <==> Offers(a, act) || Offers(b, act)
  {
    if Offers(a + b, act) {
      var x :| x in a + b && x.action == act && !x.disabled;
      assert x in a || x in b;
    }
    if Offers(a, act) {
      var x :| x in a && x.action == act && !x.disabled;
      assert x in a + b;
    }
    if Offers(b, act) {
      var x :| x in b && x.action == act && !x.disabled;
      assert x in a + b;
    }
  }

  /** The Free card's only enabled action is the downgrade that cancels a live subscription. */
  lemma FreeOffers(c: Option<Subscription>, act: Action)
    requires act != NoAction
    ensures Offers(FreeFooter(c), act) <==> c.Some? && !c.value.cancelAtPeriodEnd && act == CancelSubscription
  {
    FreeFooterSingle(c);
    assert FreeFooter(c) == [FreeFooter(c)[0]];
  }

  /**
   * The Pro card's enabled actions: the payment form with the Pro price
   * without a subscription, and the downgrade for a live Unlimited
   * subscription with no downgrade pending.
   */
  lemma ProOffers(c: Option<Subscription>, act: Action)
    requires act != NoAction
    ensures Offers(ProFooter(c), act) <==>
      || (c.None? && act == OpenPaymentModal(ProPriceId))
      || (c.Some? && !c.value.cancelAtPeriodEnd && !DowngradePending(c.value) && c.value.planType == "unlimited"
          && act == ChangePlan("pro"))
  {
    var a := if c.None? then [Button(GetStarted, OpenPaymentModal(ProPriceId), false)] else [];
    var b := if c.Some? && !c.value.cancelAtPeriodEnd && c.value.planType == "pro"
       then [Button(CurrentPlan, NoAction, false)] else [];
    var d := if c.Some? && !c.value.cancelAtPeriodEnd && !DowngradePending(c.value) && c.value.planType == "unlimited"
       then [Button(Downgrade, ChangePlan("pro"), false)] else [];
    var e := if c.Some? && c.value.cancelAtPeriodEnd then [Button(ReactivateFirst, NoAction, true)] else [];
    var f := if c.Some? && c.value.willDowngradeTo == Some("pro")
       then [Button(WillStartOn(c.value.termTo), NoAction, true)] else [];
    assert ProFooter(c) == a + b + d + e + f;
    OffersConcat(a + b + d + e, f, act);
    OffersConcat(a + b + d, e, act);
    OffersConcat(a + b, d, act);
    OffersConcat(a, b, act);
  }

  /**
   * The Unlimited card's enabled actions: the payment form with the Unlimited
   * price without a subscription, and the upgrade for a live Pro subscription.
   */
  lemma UnlimitedOffers(c: Option<Subscription>, act: Action)
    requires act != NoAction
    ensures Offers(UnlimitedFooter(c), act) <==>
      || (c.None? && act == OpenPaymentModal(UnlimitedPriceId))
      || (c.Some? && !c.value.cancelAtPeriodEnd && c.value.planType == "pro" && act == ChangePlan("unlimited"))
  {
    var a := if c.None? then [Button(GetStarted, OpenPaymentModal(UnlimitedPriceId), false)] else [];
    var b := if c.Some? && !c.value.cancelAtPeriodEnd && c.value.planType == "unlimited"
       then [Button(CurrentPlan, NoAction, false)] else [];
    var d := if c.Some? && !c.value.cancelAtPeriodEnd && c.value.planType == "pro"
       then [Button(Upgrade, ChangePlan("unlimited"), false)] else [];
    var e := if c.Some? && c.value.cancelAtPeriodEnd then [Button(ReactivateFirst, NoAction, true)] else [];
    assert UnlimitedFooter(c) == a + b + d + e;
    OffersConcat(a + b + d, e, act);
    OffersConcat(a + b, d, act);
    OffersConcat(a, b, act);
  }

  /** What the three cards together offer, from each card's table. */
  lemma FootersOffers(c: Option<Subscription>, act: Action)
    requires act != NoAction
    ensures Offers(Footers(c), act) <==>
      Offers(FreeFooter(c), act) || Offers(ProFooter(c), act) || Offers(UnlimitedFooter(c), act)
  {
    OffersConcat(FreeFooter(c) + ProFooter(c), UnlimitedFooter(c), act);
    OffersConcat(FreeFooter(c), ProFooter(c), act);
  }

  /**
   * Plan changes: the upgrade to Unlimited is offered iff a subscription that
   * is not cancelling is on Pro; the downgrade to Pro iff a subscription that
   * is not cancelling and has no pending downgrade is on Unlimited.
   */
  lemma PlanChangeOffers(current: Option<Subscription>)
    ensures Offers(Footers(current), ChangePlan("unlimited")) <==>
      current.Some? && !current.value.cancelAtPeriodEnd && current.value.planType == "pro"
    ensures Offers(Footers(current), ChangePlan("pro")) <==>
      current.Some? && !current.value.cancelAtPeriodEnd && !DowngradePending(current.value)
      && current.value.planType == "unlimited"
  {
    FootersOffers(current, ChangePlan("unlimited"));
    FreeOffers(current, ChangePlan("unlimited"));
    ProOffers(current, ChangePlan("unlimited"));
    UnlimitedOffers(current, ChangePlan("unlimited"));
    FootersOffers(current, ChangePlan("pro"));
    FreeOffers(current, ChangePlan("pro"));
    ProOffers(current, ChangePlan("pro"));
    UnlimitedOffers(current, ChangePlan("pro"));
  }

  /** While the subscription is cancelling, every plan card's button is disabled. */
  lemma CancellingFreezesPlans(current: Option<Subscription>)
    requires current.Some? && current.value.cancelAtPeriodEnd
    ensures forall b <- Footers(current) :: b.disabled
  {
  }

  // ---------------------------------------------------------------------------

  /** The server's answer to a subscription request: a rejected promise, or `data.attributes`. */
  datatype Reply = Failed | Returned(attributes: Option<Subscription>)

  /** A POST the page sends: the endpoint and its JSON body. */
  datatype Request = Request(endpoint: string, subscriptionId: string, planType: Option<string>)

  class SubscriptionsPage {
    var currentSubscription: Option<Subscription>
    var selectedPriceId: string

    constructor ()
      ensures currentSubscription == None && selectedPriceId == ""
    {
      currentSubscription := None;
      selectedPriceId := "";
    }

    /** The mount effect: GET /subscriptions/current and store its attributes. */
    method FetchCurrent(reply: Reply)
      modifies this
      ensures currentSubscription == if reply.Returned? then reply.attributes else old(currentSubscription)
      ensures selectedPriceId == old(selectedPriceId)
    {
      if reply.Returned? {
        currentSubscription := reply.attributes;
      }
    }

    /**
     * The shared shape of the four POST handlers: without a current record
     * reading its id throws and nothing is sent; otherwise the request goes out
     * and a returned `data.attributes` replaces the record.
     */
    method Post(endpoint: string, planType: Option<string>, reply: Reply) returns (sent: Option<Request>)
      modifies this
      ensures sent == if old(currentSubscription).None? then None
        else Some(Request(endpoint, old(currentSubscription).value.subscriptionId, planType))
      ensures currentSubscription ==
        if old(currentSubscription).Some? && reply.Returned? then reply.attributes else old(currentSubscription)
      ensures selectedPriceId == old(selectedPriceId)
    {
      if currentSubscription.None? {
        return None;
      }
      sent := Some(Request(endpoint, currentSubscription.value.subscriptionId, planType));
      if reply.Returned? {
        currentSubscription := reply.attributes;
      }
    }

    method Cancel(reply: Reply) returns (sent: Option<Request>)
      modifies this
      ensures sent == if old(currentSubscription).None? then None
        else Some(Request("/subscriptions/cancel", old(currentSubscription).value.subscriptionId, None))
      ensures currentSubscription ==
        if old(currentSubscription).Some? && reply.Returned? then reply.attributes else old(currentSubscription)
      ensures selectedPriceId == old(selectedPriceId)
    {
      sent := Post("/subscriptions/cancel", None, reply);
    }

    method ReactivateCurrent(reply: Reply) returns (sent: Option<Request>)
      modifies this
      ensures sent == if old(currentSubscription).None? then None
        else Some(Request("/subscriptions/reactivate", old(currentSubscription).value.subscriptionId, None))
      ensures currentSubscription ==
        if old(currentSubscription).Some? && reply.Returned? then reply.attributes else old(currentSubscription)
      ensures selectedPriceId == old(selectedPriceId)
    {
      sent := Post("/subscriptions/reactivate", None, reply);
    }

    method ChangePlanTo(planType: string, reply: Reply) returns (sent: Option<Request>)
      modifies this
      ensures sent == if old(currentSubscription).None? then None
        else Some(Request("/subscriptions/change_plan", old(currentSubscription).value.subscriptionId, Some(planType)))
      ensures currentSubscription ==
        if old(currentSubscription).Some? && reply.Returned? then reply.attributes else old(currentSubscription)
      ensures selectedPriceId == old(selectedPriceId)
    {
      sent := Post("/subscriptions/change_plan", Some(planType), reply);
    }

    method CancelPendingDowngrade(reply: Reply) returns (sent: Option<Request>)
      modifies this
      ensures sent == if old(currentSubscription).None? then None
        else Some(Request("/subscriptions/cancel_downgrade", old(currentSubscription).value.subscriptionId, None))
      ensures currentSubscription ==
        if old(currentSubscription).Some? && reply.Returned? then reply.attributes else old(currentSubscription)
      ensures selectedPriceId == old(selectedPriceId)
    {
      sent := Post("/subscriptions/cancel_downgrade", None, reply);
    }

    /** openPaymentModal: remember the chosen price for the checkout form. */
    method SelectPrice(priceId: string)
      modifies this
      ensures selectedPriceId == priceId && currentSubscription == old(currentSubscription)
    {
      selectedPriceId := priceId;
    }
  }
}
