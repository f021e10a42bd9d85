/**
 * The chain of checks run each time a chat message is displayed, deciding whether the
 * message gets a "Use Emergency D20" button.
 */
module Guard {
  import opened Wrappers
  import opened Dice
  import opened Resource
  import opened Actors
  import opened Chat

  /** Why no button is offered, one reason per check, in the order they are made. */
  datatype SkipReason =
    | IsEmergencyRoll
    | NoRolls
    | NotD20Test
    | AlreadyUsed
    | NoActor
    | NotOwner
    | NoItem
    | NoUsesLeft

  /** Skip, or offer the button for this actor and item (the ids the button carries). */
  datatype Verdict = Skip(reason: SkipReason) | Offer(actor: Actor, item: Item)

  /** The emergency-reroll item of the message's speaker, if one resolves. */
  function CandidateItem(host: Host, message: ChatMessage): Option<Item>
  {
    FindEmergencyD20Item(ActorFromSpeaker(host, message.speaker), host.itemName)
  }

  function ItemFrame(item: Option<Item>): set<Item>
  {
    if item.Some? then {item.value} else {}
  }

  /**
   * The render-time decision: the button is offered only when every check passes, and
   * a message flagged as an emergency reroll is skipped before anything else is read.
   */
  function RenderVerdict(host: Host, message: ChatMessage): (v: Verdict)
    reads message, ItemFrame(CandidateItem(host, message))
    ensures v.Offer? <==>
      !message.FlagSet(IsEmergencyFlag) &&
      |message.rolls| > 0 &&
      IsD20TestMessage(message.rolls) &&
      !message.FlagSet(UsedFlag) &&
      ActorFromSpeaker(host, message.speaker).Some? &&
      (ActorFromSpeaker(host, message.speaker).value.isOwner || host.isGM) &&
      CandidateItem(host, message).Some? &&
      HasUsesRemaining(CandidateItem(host, message).value)
    ensures v.Offer? ==>
      Some(v.actor) == ActorFromSpeaker(host, message.speaker) && Some(v.item) == CandidateItem(host, message)
    ensures message.FlagSet(IsEmergencyFlag) ==> v == Skip(IsEmergencyRoll)
    ensures message.FlagSet(UsedFlag) ==> v.Skip?
  {
    if message.FlagSet(IsEmergencyFlag) then Skip(IsEmergencyRoll)
    else if |message.rolls| == 0 then Skip(NoRolls)
    else if !IsD20TestMessage(message.rolls) then Skip(NotD20Test)
    else if message.FlagSet(UsedFlag) then Skip(AlreadyUsed)
    else
      match ActorFromSpeaker(host, message.speaker)
      case None => Skip(NoActor)
      case Some(actor) =>
        if !actor.isOwner && !host.isGM then Skip(NotOwner)
        else
          match CandidateItem(host, message)
          case None => Skip(NoItem)
          case Some(item) =>
            if !HasUsesRemaining(item) then Skip(NoUsesLeft) else Offer(actor, item)
  }
}
