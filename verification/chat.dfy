/** Chat messages carrying rolls, and the flags the rule set keeps on them. */
module Chat {
  import opened Wrappers
  import opened Dice
  import opened Actors

  /** A flag value under the module's namespace: a boolean or an id string. */
  datatype FlagValue = Flag(on: bool) | Text(text: string)

  /** JavaScript truthiness of a flag value. */
  predicate Truthy(v: FlagValue)
  {
    match v
    case Flag(b) => b
    case Text(s) => s != ""
  }

  /** Set on a message that is itself an emergency reroll. */
  const IsEmergencyFlag: string := "isEmergency"
  /** Set on a message whose emergency reroll has been spent. */
  const UsedFlag: string := "used"
  const SourceMessageIdFlag: string := "sourceMessageId"
  const ActorIdFlag: string := "actorId"
  const ItemIdFlag: string := "itemId"

  /**
   * A chat message. Its id, speaker, rolls and flavor are fixed once it is created; its
   * flags (those of the module's namespace) are written by `SetFlag`.
   */
  class ChatMessage {
    const id: string
    const speaker: Option<Speaker>
    const rolls: seq<Roll>
    const flavor: Option<string>
    var flags: map<string, FlagValue>

    constructor (id: string, speaker: Option<Speaker>, rolls: seq<Roll>, flavor: Option<string>, flags: map<string, FlagValue>)
      ensures this.id == id && this.speaker == speaker && this.rolls == rolls
      ensures this.flavor == flavor && this.flags == flags
    {
      this.id := id;
      this.speaker := speaker;
      this.rolls := rolls;
      this.flavor := flavor;
      this.flags := flags;
    }

    /** `getFlag` read as a condition: present and truthy. */
    predicate FlagSet(key: string)
      reads this
    {
      key in flags && Truthy(flags[key])
    }

    /** `setFlag`: writes one key and keeps every other. */
    method SetFlag(key: string, value: FlagValue)
      modifies this
      ensures flags == old(flags)[key := value]
      ensures forall k :: k in old(flags) ==> k in flags
    {
      flags := flags[key := value];
    }
  }
}
