/**
 * The click handler: authorise, check the pool, work out the formula, spend one use,
 * mark the original message used, roll, and publish the reroll flagged as an
 * emergency roll.
 */
module Reroll {
  import opened Wrappers
  import opened Dice
  import opened Resource
  import opened Actors
  import opened Chat
  import opened Guard

  /** How a click ends: one of the early exits, or the published reroll. */
  datatype Outcome =
    | NotInControl
    | NoneRemaining
    | NothingToReroll
    | NotConsumed
    | Rerolled(reroll: ChatMessage)

  datatype Notice = Warn(text: string) | Info(text: string)

  /** The notification the user sees at the end of a click. */
  function NoticeOf(outcome: Outcome): (n: Option<Notice>)
    ensures n.None? <==> outcome.NothingToReroll?
    ensures n.Some? && n.value.Info? <==> outcome.Rerolled?
  {
    match outcome
    case NotInControl => Some(Warn("You do not control this actor."))
    case NoneRemaining => Some(Warn("No Emergency D20 remaining."))
    case NothingToReroll => None
    case NotConsumed => Some(Warn("Could not consume an Emergency D20."))
    case Rerolled(_) => Some(Info("Emergency D20 used!"))
  }

  /** A flavor text as JavaScript's `||` reads it: absent or empty falls through. */
  predicate Given(s: Option<string>) { s.Some? && s.value != "" }

  /**
   * The reroll's flavor: the original roll's flavor, else the message's, else
   * "Emergency D20", followed by " (Emergency D20)".
   */
  function RerollFlavor(rollFlavor: Option<string>, messageFlavor: Option<string>): (f: string)
    ensures var suffix := " (Emergency D20)";
      |f| >= |suffix| && f[|f| - |suffix|..] == suffix
    ensures Given(rollFlavor) ==> f == rollFlavor.value + " (Emergency D20)"
    ensures !Given(rollFlavor) && Given(messageFlavor) ==> f == messageFlavor.value + " (Emergency D20)"
    ensures !Given(rollFlavor) && !Given(messageFlavor) ==> f == "Emergency D20 (Emergency D20)"
  {
    var base := if Given(rollFlavor) then rollFlavor.value
                else if Given(messageFlavor) then messageFlavor.value
                else "Emergency D20";
    base + " (Emergency D20)"
  }

  /** The flags a reroll is published with: where it came from, and that it is an emergency roll. */
  function RerollFlags(sourceId: string, actorId: string, itemId: string): map<string, FlagValue>
  {
    map[SourceMessageIdFlag := Text(sourceId), ActorIdFlag := Text(actorId),
        ItemIdFlag := Text(itemId), IsEmergencyFlag := Flag(true)]
  }

  /** The session: host state the handler reads, and the chat log it appends to. */
  class World {
    const host: Host
    var messages: seq<ChatMessage>

    constructor (host: Host, messages: seq<ChatMessage>)
      ensures this.host == host && this.messages == messages
    {
      this.host := host;
      this.messages := messages;
    }

    /**
     * One run of the click handler, as one uninterrupted step. `d20` is what the
     * reroll's die shows and `newId` the id the host gives the published message.
     */
    method HandleEmergencyD20Click(message: ChatMessage, actor: Actor, item: Item, d20: int, newId: string)
      returns (outcome: Outcome)
      requires 1 <= d20 <= 20
      modifies this, message, item
      ensures outcome.NotInControl? <==> !actor.isOwner && !host.isGM
      ensures outcome.NoneRemaining? <==> (actor.isOwner || host.isGM) && !old(HasUsesRemaining(item))
      ensures outcome.NothingToReroll? <==>
        (actor.isOwner || host.isGM) && old(HasUsesRemaining(item)) && |message.rolls| == 0
      ensures !outcome.NotConsumed?
      ensures !outcome.Rerolled? ==> unchanged(item, message) && messages == old(messages)
      // what a successful run changes
      ensures outcome.Rerolled? ==>
        item.Pool() == Decrement(old(item.Pool())) &&
        (old(item.quantity).Some? ==> item.usesValue == old(item.usesValue)) &&
        (old(item.quantity).None? ==> item.quantity == old(item.quantity)) &&
        message.flags == old(message.flags)[UsedFlag := Flag(true)]
      ensures forall k :: k in old(message.flags) ==> k in message.flags
      // the one message it publishes
      ensures outcome.Rerolled? ==>
        var r := outcome.reroll;
        fresh(r) && messages == old(messages) + [r] &&
        r.id == newId && r.speaker == message.speaker &&
        r.flags == RerollFlags(message.id, actor.id, item.id) &&
        r.flavor == Some(RerollFlavor(message.rolls[0].flavor, message.flavor)) &&
        |r.rolls| == 1 &&
        Some(r.rolls[0]) == EvaluateFormula(Formula(Modifier(message.rolls[0])), d20) &&
        Modifier(r.rolls[0]) == Modifier(message.rolls[0]) &&
        r.rolls[0].total == d20 + Modifier(message.rolls[0])
      // re-rendering either message offers no further button
      ensures outcome.Rerolled? ==>
        RenderVerdict(host, message).Skip? &&
        RenderVerdict(host, outcome.reroll) == Skip(IsEmergencyRoll)
    {
      if !actor.isOwner && !host.isGM {
        return NotInControl;
      }
      if !HasUsesRemaining(item) {
        return NoneRemaining;
      }
      var rolls := message.rolls;
      if |rolls| == 0 {
        return NothingToReroll;
      }
      var originalRoll := rolls[0];
      var modifier := ComputeModifierFromRoll(originalRoll);
      var formula := Formula(modifier);

      var consumed := ConsumeEmergencyD20(item);
      if !consumed {
        return NotConsumed;
      }

      message.SetFlag(UsedFlag, Flag(true));

      RerollPreservesModifier(modifier, d20);
      var roll := EvaluateFormula(formula, d20).value;
      var flavor := RerollFlavor(originalRoll.flavor, message.flavor);
      var newMessage := new ChatMessage(newId, message.speaker, [roll], Some(flavor),
                                        RerollFlags(message.id, actor.id, item.id));
      messages := messages + [newMessage];

      newMessage.SetFlag(IsEmergencyFlag, Flag(true));
      outcome := Rerolled(newMessage);
      assert message.FlagSet(UsedFlag) && newMessage.FlagSet(IsEmergencyFlag);
    }
  }
}
