/** The debug cheats (app/utils/cheats.py): while the campaign's last turn is in
    active combat, force the player's or the enemy's health down to 1 in that
    turn's snapshots (and, for the player, in the character). No turn is added and
    no other turn is touched. */
module Cheats {
  import opened Models
  import opened Store

  /** The id of the campaign's last turn. */
  function LastTurnId(campaign: Campaign): (id: Id)
    requires campaign.turns != []
  {
    campaign.turns[|campaign.turns| - 1]
  }

  /** The guard of both cheats: there is a last turn, it is stored, it is in active
      combat and it holds a combat snapshot. */
  predicate InCombat(turns: map<Id, Turn>, campaign: Campaign) {
    && campaign.turns != []
    && LastTurnId(campaign) in turns
    && turns[LastTurnId(campaign)].activeCombat
    && turns[LastTurnId(campaign)].combatState.Some?
  }

  /** A turn with the player's health set to 1 in both of its snapshots. */
  function PlayerAtOne(t: Turn): (r: Turn)
    requires t.combatState.Some?
    ensures r.characterHealth == Some(1)
    ensures r.combatState.Some? && r.combatState.value.player.health == 1
    ensures r.enemyHealth == t.enemyHealth && r.combatState.value.enemy == t.combatState.value.enemy
    ensures r.combatState.value.player.(health := t.combatState.value.player.health) == t.combatState.value.player
    ensures r.(characterHealth := t.characterHealth, combatState := t.combatState) == t
  {
    var cs := t.combatState.value;
    t.(combatState := Some(cs.(player := cs.player.(health := 1))), characterHealth := Some(1))
  }

  /** A turn with the enemy's health set to 1 in both of its snapshots. */
  function EnemyAtOne(t: Turn): (r: Turn)
    requires t.combatState.Some?
    ensures r.enemyHealth == Some(1)
    ensures r.combatState.Some? && r.combatState.value.enemy.health == 1
    ensures r.characterHealth == t.characterHealth && r.combatState.value.player == t.combatState.value.player
    ensures r.combatState.value.enemy.(health := t.combatState.value.enemy.health) == t.combatState.value.enemy
    ensures r.(enemyHealth := t.enemyHealth, combatState := t.combatState) == t
  {
    var cs := t.combatState.value;
    t.(combatState := Some(cs.(enemy := cs.enemy.(health := 1))), enemyHealth := Some(1))
  }

  /** The stored turns after the player cheat: only the last turn changes, and only
      when the guard holds. */
  function PlayerCheatTurns(turns: map<Id, Turn>, campaign: Campaign): (r: map<Id, Turn>)
    ensures r.Keys == turns.Keys
    ensures forall k :: k in turns && (!InCombat(turns, campaign) || k != LastTurnId(campaign)) ==> r[k] == turns[k]
    ensures InCombat(turns, campaign) ==> InCombat(r, campaign) && r[LastTurnId(campaign)] == PlayerAtOne(turns[LastTurnId(campaign)])
  {
    if InCombat(turns, campaign) then
      var last := LastTurnId(campaign);
      turns[last := PlayerAtOne(turns[last])]
    else turns
  }

  /** The stored turns after the enemy cheat. */
  function EnemyCheatTurns(turns: map<Id, Turn>, campaign: Campaign): (r: map<Id, Turn>)
    ensures r.Keys == turns.Keys
    ensures forall k :: k in turns && (!InCombat(turns, campaign) || k != LastTurnId(campaign)) ==> r[k] == turns[k]
    ensures InCombat(turns, campaign) ==> InCombat(r, campaign) && r[LastTurnId(campaign)] == EnemyAtOne(turns[LastTurnId(campaign)])
  {
    if InCombat(turns, campaign) then
      var last := LastTurnId(campaign);
      turns[last := EnemyAtOne(turns[last])]
    else turns
  }

  /** The caller's character after the player cheat. */
  function PlayerCheatCharacter(turns: map<Id, Turn>, campaign: Campaign, character: Character): (r: Character)
    ensures InCombat(turns, campaign) ==> r.currentHealth == 1
    ensures r.(currentHealth := character.currentHealth) == character
    ensures !InCombat(turns, campaign) ==> r == character
  {
    if InCombat(turns, campaign) then character.(currentHealth := 1) else character
  }

  /** The stored characters after the player cheat: the character is saved only
      when its health actually changes. */
  function PlayerCheatCharacters(turns: map<Id, Turn>, campaign: Campaign, character: Character, characters: map<Id, Character>): (r: map<Id, Character>)
    ensures InCombat(turns, campaign) && character.currentHealth != 1 ==> r == characters[character.id := character.(currentHealth := 1)]
    ensures !InCombat(turns, campaign) || character.currentHealth == 1 ==> r == characters
  {
    if InCombat(turns, campaign) && character.currentHealth != 1 then
      characters[character.id := PlayerCheatCharacter(turns, campaign, character)]
    else characters
  }

  /** `cheat_set_player_health_to_one`; returns the caller's character as the cheat leaves it. */
  method CheatSetPlayerHealthToOne(db: Database, campaign: Campaign, character: Character) returns (updated: Character)
    requires db.Valid() && character.id in db.characters
    modifies db
    ensures db.Valid()
    ensures updated == PlayerCheatCharacter(old(db.turns), campaign, character)
    ensures db.turns == PlayerCheatTurns(old(db.turns), campaign)
    ensures db.characters == PlayerCheatCharacters(old(db.turns), campaign, character, old(db.characters))
    ensures db.users == old(db.users) && db.campaigns == old(db.campaigns)
    ensures db.levels == old(db.levels) && db.nextId == old(db.nextId)
  {
    updated := character;
    if campaign.turns == [] {
      return;
    }
    var last := campaign.turns[|campaign.turns| - 1];
    if last !in db.turns {
      return;
    }
    var lastTurn := db.turns[last];
    if !lastTurn.activeCombat || lastTurn.combatState.None? {
      return;
    }
    // 1) the character document
    if updated.currentHealth != 1 {
      updated := updated.(currentHealth := 1);
      db.characters := db.characters[updated.id := updated];
    }
    // 2) the turn's snapshots
    var cs := lastTurn.combatState.value;
    cs := cs.(player := cs.player.(health := 1));
    lastTurn := lastTurn.(combatState := Some(cs), characterHealth := Some(1));
    db.turns := db.turns[last := lastTurn];
  }

  /** `cheat_set_enemy_health_to_one`. */
  method CheatSetEnemyHealthToOne(db: Database, campaign: Campaign)
    requires db.Valid()
    modifies db
    ensures db.Valid()
    ensures db.turns == EnemyCheatTurns(old(db.turns), campaign)
    ensures db.users == old(db.users) && db.characters == old(db.characters) && db.campaigns == old(db.campaigns)
    ensures db.levels == old(db.levels) && db.nextId == old(db.nextId)
  {
    if campaign.turns == [] {
      return;
    }
    var last := campaign.turns[|campaign.turns| - 1];
    if last !in db.turns {
      return;
    }
    var lastTurn := db.turns[last];
    if !lastTurn.activeCombat || lastTurn.combatState.None? {
      return;
    }
    var cs := lastTurn.combatState.value;
    cs := cs.(enemy := cs.enemy.(health := 1));
    lastTurn := lastTurn.(combatState := Some(cs), enemyHealth := Some(1));
    db.turns := db.turns[last := lastTurn];
  }

  /** Applying the player cheat a second time changes nothing more. */
  lemma PlayerCheatIdempotent(turns: map<Id, Turn>, characters: map<Id, Character>, campaign: Campaign, character: Character)
    ensures var turns1 := PlayerCheatTurns(turns, campaign);
      var character1 := PlayerCheatCharacter(turns, campaign, character);
      var characters1 := PlayerCheatCharacters(turns, campaign, character, characters);
      && PlayerCheatTurns(turns1, campaign) == turns1
      && PlayerCheatCharacter(turns1, campaign, character1) == character1
      && PlayerCheatCharacters(turns1, campaign, character1, characters1) == characters1
  {
  }

  /** Applying the enemy cheat a second time changes nothing more. */
  lemma EnemyCheatIdempotent(turns: map<Id, Turn>, campaign: Campaign)
    ensures EnemyCheatTurns(EnemyCheatTurns(turns, campaign), campaign) == EnemyCheatTurns(turns, campaign)
  {
  }

  /** The two cheats touch disjoint fields, so their order does not matter. */
  lemma CheatsCommute(turns: map<Id, Turn>, campaign: Campaign)
    ensures PlayerCheatTurns(EnemyCheatTurns(turns, campaign), campaign)
         == EnemyCheatTurns(PlayerCheatTurns(turns, campaign), campaign)
  {
  }
}
