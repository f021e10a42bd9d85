/**
 * Finding who made a check and the emergency-reroll item they carry, from the host
 * state the rule set reads: the actor directory, the token layer of the scene, the
 * current user's GM status and the configured item name.
 */
module Actors {
  import opened Wrappers
  import opened Resource

  /** An actor: its id, whether the current user owns it, and its items in insertion order. */
  datatype Actor = Actor(id: string, isOwner: bool, items: seq<Item>)

  /** A token on the scene and the actor it stands for, if any. */
  datatype Token = Token(id: string, actor: Option<Actor>)

  /** The scene's token layer: placed tokens by id, and the tokens the user has selected. */
  datatype TokenLayer = TokenLayer(placed: map<string, Token>, controlled: seq<Token>)

  /** Who spoke a chat message: an actor id and a token id, either possibly missing. */
  datatype Speaker = Speaker(actor: Option<string>, token: Option<string>)

  /**
   * The host state the rule set reads. `tokens` is None when no scene is shown;
   * `itemName` is the configured name of the emergency-reroll item.
   */
  datatype Host = Host(actors: map<string, Actor>, tokens: Option<TokenLayer>, isGM: bool, itemName: string)

  /** A non-empty id, as JavaScript's truthiness test reads an id string. */
  predicate Present(id: Option<string>) { id.Some? && id.value != "" }

  /** The first way to resolve a speaker: its actor id, looked up in the actor directory. */
  function ByActorId(host: Host, s: Speaker): Option<Actor>
  {
    if Present(s.actor) && s.actor.value in host.actors then Some(host.actors[s.actor.value]) else None
  }

  /** The second: its token id, looked up on the scene, and that token's actor. */
  function ByToken(host: Host, s: Speaker): Option<Actor>
  {
    if Present(s.token) && host.tokens.Some? && s.token.value in host.tokens.value.placed
    then host.tokens.value.placed[s.token.value].actor
    else None
  }

  /** The last: the actor of the one selected token, when exactly one is selected. */
  function BySoleControlled(host: Host): Option<Actor>
  {
    if host.tokens.Some? && |host.tokens.value.controlled| == 1
    then host.tokens.value.controlled[0].actor
    else None
  }

  /**
   * Resolves the speaker of a message to an actor: the first of the actor id, the token
   * id and the sole selected token that yields one; none for a missing speaker.
   */
  function ActorFromSpeaker(host: Host, speaker: Option<Speaker>): (r: Option<Actor>)
    ensures speaker.None? ==> r.None?
    ensures speaker.Some? && ByActorId(host, speaker.value).Some? ==> r == ByActorId(host, speaker.value)
    ensures speaker.Some? && ByActorId(host, speaker.value).None? && ByToken(host, speaker.value).Some? ==>
      r == ByToken(host, speaker.value)
    ensures speaker.Some? && ByActorId(host, speaker.value).None? && ByToken(host, speaker.value).None? ==>
      r == BySoleControlled(host)
    ensures speaker.Some? ==>
      r == FirstPresent([ByActorId(host, speaker.value), ByToken(host, speaker.value), BySoleControlled(host)])
    ensures r.Some? ==>
      (r.value in host.actors.Values) ||
      (host.tokens.Some? && exists t :: t in host.tokens.value.placed.Values && t.actor == r) ||
      (host.tokens.Some? && |host.tokens.value.controlled| == 1 && host.tokens.value.controlled[0].actor == r)
  {
    match speaker
    case None => None
    case Some(s) =>
      FirstOfThree(ByActorId(host, s), ByToken(host, s), BySoleControlled(host));
      var byId := ByActorId(host, s);
      if byId.Some? then byId
      else
        var byToken := ByToken(host, s);
        if byToken.Some? then byToken else BySoleControlled(host)
  }

  lemma FirstOfThree<T>(a: Option<T>, b: Option<T>, c: Option<T>)
    ensures FirstPresent([a, b, c]) == if a.Some? then a else if b.Some? then b else c
  {
    assert [a, b, c][1..] == [b, c];
    assert [b, c][1..] == [c];
    assert [c][1..] == [];
    assert FirstPresent([c]) == c;
    assert FirstPresent([b, c]) == if b.Some? then b else c;
  }

  /** The first item of the list whose name is exactly the given one. */
  function FirstNamed(items: seq<Item>, name: string): (r: Option<Item>)
    ensures r.None? <==> forall i :: 0 <= i < |items| ==> items[i].name != name
    ensures r.Some? ==> exists i :: 0 <= i < |items| && items[i] == r.value && items[i].name == name &&
                                    forall j :: 0 <= j < i ==> items[j].name != name
  {
    if items == [] then None
    else if items[0].name == name then Some(items[0])
    else
      var r := FirstNamed(items[1..], name);
      assert r.Some? ==> exists i :: 0 <= i < |items| && items[i] == r.value && items[i].name == name &&
                                    forall j :: 0 <= j < i ==> items[j].name != name by {
        if r.Some? {
          var i :| 0 <= i < |items| - 1 && items[1..][i] == r.value && items[1..][i].name == name &&
                   forall j :: 0 <= j < i ==> items[1..][j].name != name;
          assert items[i + 1] == r.value;
        }
      }
      r
  }

  /** The actor's emergency-reroll item: the first one carrying the configured name. */
  function FindEmergencyD20Item(actor: Option<Actor>, itemName: string): (r: Option<Item>)
    ensures actor.None? ==> r.None?
    ensures r.Some? ==> actor.Some? && r.value in actor.value.items && r.value.name == itemName
    ensures actor.Some? && (exists i :: 0 <= i < |actor.value.items| && actor.value.items[i].name == itemName) ==> r.Some?
    ensures actor.Some? ==> r == FirstNamed(actor.value.items, itemName)
  {
    match actor
    case None => None
    case Some(a) => FirstNamed(a.items, itemName)
  }
}
