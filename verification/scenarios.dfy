/** Worked runs of the render check and the click handler on small sessions. */
module Scenarios {
  import opened Wrappers
  import opened Dice
  import opened Resource
  import opened Actors
  import opened Chat
  import opened Guard
  import opened Reroll

  /**
   * An owner with a quantity-1 item and a check of 12 + 3 = 15: the button is offered,
   * the reroll is `1d20+3`, a 7 on the die totals 10, the quantity drops to 0, and
   * neither message offers a button afterwards.
   */
  method QuantityOneRun()
    returns (offeredBefore: bool, quantityAfter: Option<int>, originalUsed: bool,
             rerollIsEmergency: bool, rerollTotal: int, offeredAfter: bool)
    ensures offeredBefore && quantityAfter == Some(0) && originalUsed && rerollIsEmergency
    ensures rerollTotal == 10 && !offeredAfter
  {
    var item := new Item("item-1", "Emergency D20", Some(1), None);
    var actor := Actor("actor-1", true, [item]);
    var host := Host(map["actor-1" := actor], None, false, "Emergency D20");
    var check := Roll([Die(20, Some(12)), Operator('+'), Number(3)], 15, None);
    var message := new ChatMessage("msg-1", Some(Speaker(Some("actor-1"), None)), [check], None, map[]);
    var world := new World(host, [message]);

    D20DieMakesTest([check], 0);
    assert ActorFromSpeaker(host, message.speaker) == Some(actor);
    assert CandidateItem(host, message) == Some(item);
    offeredBefore := RenderVerdict(host, message).Offer?;

    ScenarioModifierThree();
    var outcome := world.HandleEmergencyD20Click(message, actor, item, 7, "msg-2");
    quantityAfter := item.quantity;
    originalUsed := message.FlagSet(UsedFlag);
    rerollIsEmergency := outcome.Rerolled? && outcome.reroll.FlagSet(IsEmergencyFlag);
    rerollTotal := if outcome.Rerolled? then outcome.reroll.rolls[0].total else 0;
    offeredAfter := RenderVerdict(host, message).Offer?;
  }

  /**
   * A quantity-0 item (with uses left, which the quantity overrides): the click is
   * refused with a warning, and neither the item nor the message's flags change.
   */
  method ExhaustedRun()
    returns (offeredBefore: bool, notice: Option<Notice>, quantityAfter: Option<int>,
             usesAfter: Option<int>, flagsAfter: map<string, FlagValue>, published: nat)
    ensures !offeredBefore && notice == Some(Warn("No Emergency D20 remaining."))
    ensures quantityAfter == Some(0) && usesAfter == Some(3) && flagsAfter == map[]
    ensures published == 0
  {
    var item := new Item("item-1", "Emergency D20", Some(0), Some(3));
    var actor := Actor("actor-1", true, [item]);
    var host := Host(map["actor-1" := actor], None, false, "Emergency D20");
    var check := Roll([Die(20, Some(12)), Operator('+'), Number(3)], 15, None);
    var message := new ChatMessage("msg-1", Some(Speaker(Some("actor-1"), None)), [check], None, map[]);
    var world := new World(host, [message]);

    D20DieMakesTest([check], 0);
    assert ActorFromSpeaker(host, message.speaker) == Some(actor);
    assert CandidateItem(host, message) == Some(item);
    offeredBefore := RenderVerdict(host, message).Offer?;

    var outcome := world.HandleEmergencyD20Click(message, actor, item, 7, "msg-2");
    notice := NoticeOf(outcome);
    quantityAfter := item.quantity;
    usesAfter := item.usesValue;
    flagsAfter := message.flags;
    published := |world.messages| - 1;
  }

  /** A damage roll of 2d6 is not a d20 test: no button. */
  method DamageRollRun() returns (verdict: Verdict)
    ensures verdict == Skip(NotD20Test)
  {
    var item := new Item("item-1", "Emergency D20", Some(1), None);
    var actor := Actor("actor-1", true, [item]);
    var host := Host(map["actor-1" := actor], None, false, "Emergency D20");
    var damage := Roll([Die(6, Some(7))], 7, None);
    var message := new ChatMessage("msg-1", Some(Speaker(Some("actor-1"), None)), [damage], None, map[]);
    assert DiceFaces(damage.terms) == [6];
    verdict := RenderVerdict(host, message);
  }

  /**
   * The handler does not look at the `used` flag itself: two clicks on the same message
   * spend two uses and publish two rerolls. Only the render check stops a second button.
   */
  method TwoClicksRun() returns (quantityAfter: Option<int>, published: nat, offeredBetween: bool)
    ensures quantityAfter == Some(0) && published == 2 && !offeredBetween
  {
    var item := new Item("item-1", "Emergency D20", Some(2), None);
    var actor := Actor("actor-1", true, [item]);
    var host := Host(map["actor-1" := actor], None, false, "Emergency D20");
    var check := Roll([Die(20, Some(12)), Operator('+'), Number(3)], 15, None);
    var message := new ChatMessage("msg-1", Some(Speaker(Some("actor-1"), None)), [check], None, map[]);
    var world := new World(host, [message]);

    var first := world.HandleEmergencyD20Click(message, actor, item, 7, "msg-2");
    assert first.Rerolled?;
    assert item.quantity == Some(1) && |world.messages| == 2;
    offeredBetween := RenderVerdict(host, message).Offer?;
    var second := world.HandleEmergencyD20Click(message, actor, item, 15, "msg-3");
    assert second.Rerolled?;
    assert item.quantity == Some(0) && |world.messages| == 3;
    quantityAfter := item.quantity;
    published := |world.messages| - 1;
  }
}
