/** The document store the services persist to, held in memory. A handler's
    `get` reads a copy of a document, `save` writes the copy back under its id,
    `insert` stores a new document under a fresh id and `delete` removes it. */
module Store {
  import opened Models

  class Database {
    var users: map<Id, User>
    var characters: map<Id, Character>
    var campaigns: map<Id, Campaign>
    var turns: map<Id, Turn>
    var levels: map<Id, Level>
    /** Every id in use is below `nextId`, so `nextId` is always fresh. */
    var nextId: Id

    ghost predicate Valid()
      reads this
    {
      && (forall k :: k in users ==> k < nextId)
      && (forall k :: k in characters ==> k < nextId && characters[k].id == k)
      && (forall k :: k in campaigns ==> k < nextId)
      && (forall k :: k in turns ==> k < nextId)
      && (forall k :: k in levels ==> k < nextId)
    }

    constructor ()
      ensures Valid()
      ensures users == map[] && characters == map[] && campaigns == map[]
      ensures turns == map[] && levels == map[] && nextId == 0
    {
      users, characters, campaigns, turns, levels := map[], map[], map[], map[], map[];
      nextId := 0;
    }

    /** Reserves an id that no stored document uses. */
    method NewId() returns (id: Id)
      requires Valid()
      modifies this`nextId
      ensures Valid()
      ensures id == old(nextId) && nextId == id + 1
      ensures id !in users && id !in characters && id !in campaigns
      ensures id !in turns && id !in levels
    {
      id := nextId;
      nextId := nextId + 1;
    }
  }
}
