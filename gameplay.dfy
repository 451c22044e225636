/** Level-based action processing (app/services/gameplay_service.py): every action
    deals a fixed 10-point hit to the current level's enemy, marks the level completed
    once the enemy reaches 0, and records a numbered turn on the level. */
module Gameplay {
  import opened Models
  import opened Store

  /** The fixed damage of one action. */
  const HitDamage: int := 10

  /** Python's `s[i]`, where a negative index counts from the end. */
  function PyIndex<T>(s: seq<T>, i: int): (r: Option<T>) {
    if 0 <= i < |s| then Some(s[i])
    else if -|s| <= i < 0 then Some(s[|s| + i])
    else None
  }

  /** The id of the campaign's current level: fails with "No active level" past the
      last level; for a level number of 1 or more it is `levels[current_level - 1]`;
      a level number of 0 or less indexes from the end, as Python does, and fails
      with an IndexError when that runs off the front. */
  function CurrentLevelId(campaign: Campaign): (r: Result<Id>)
    ensures campaign.currentLevel > |campaign.levels| ==> r == Err(ValueError("No active level"))
    ensures 1 <= campaign.currentLevel <= |campaign.levels| ==> r == Ok(campaign.levels[campaign.currentLevel - 1])
    ensures r.Ok? ==> r.value in campaign.levels
    ensures r.Err? ==> campaign.currentLevel > |campaign.levels| || campaign.currentLevel < 1 - |campaign.levels|
  {
    if campaign.currentLevel > |campaign.levels| then Err(ValueError("No active level"))
    else match PyIndex(campaign.levels, campaign.currentLevel - 1)
      case None => Err(IndexError)
      case Some(id) => Ok(id)
  }

  /** The level after one hit: the enemy's health drops by 10 and stops at 0 (so it
      never goes negative and never rises from a non-negative value), and the level is
      completed once the enemy is at 0 — and stays completed if it already was. */
  function Strike(level: Level): (r: Level)
    ensures r.enemyHealth >= 0
    ensures level.enemyHealth >= 0 ==> r.enemyHealth <= level.enemyHealth
    ensures level.enemyHealth > 0 ==> r.enemyHealth < level.enemyHealth
    ensures level.enemyHealth > HitDamage ==> r.enemyHealth == level.enemyHealth - HitDamage
    ensures r.enemyHealth == 0 <==> level.enemyHealth <= HitDamage
    ensures r.isCompleted <==> level.isCompleted || r.enemyHealth == 0
    ensures r.enemyName == level.enemyName && r.turns == level.turns
  {
    var health := if level.enemyHealth - HitDamage >= 0 then level.enemyHealth - HitDamage else 0;
    if health <= 0 then level.(enemyHealth := health, isCompleted := true)
    else level.(enemyHealth := health)
  }

  /** `n` actions in a row on the same level (ignoring the turns they record). */
  function Strikes(level: Level, n: nat): (r: Level) {
    if n == 0 then level else Strike(Strikes(level, n - 1))
  }

  /** After `n` actions an enemy that started at `h >= 0` has `max(0, h - 10n)` health,
      and the level is completed exactly when some action brought it to 0. */
  lemma {:induction false} StrikesDefeat(level: Level, n: nat)
    requires level.enemyHealth >= 0
    ensures Strikes(level, n).enemyHealth == if level.enemyHealth >= HitDamage * n then level.enemyHealth - HitDamage * n else 0
    ensures n >= 1 ==> (Strikes(level, n).isCompleted <==> level.isCompleted || level.enemyHealth <= HitDamage * n)
    ensures n == 0 ==> Strikes(level, n).isCompleted == level.isCompleted
  {
    if n > 0 {
      StrikesDefeat(level, n - 1);
    }
  }

  /** The narrative of an action; it announces the enemy's defeat when the hit left it at 0. */
  function ActionNarrative(action: string, struck: Level): (narrative: string)
    ensures |narrative| >= |"You performed: " + action|
    ensures narrative[..|"You performed: " + action|] == "You performed: " + action
    ensures struck.enemyHealth > 0 ==> narrative == "You performed: " + action
    ensures struck.enemyHealth <= 0 ==>
      var news := " The " + struck.enemyName + " has been defeated!";
      |narrative| >= |news| && narrative[|narrative| - |news|..] == news
    ensures struck.enemyHealth <= 0 ==>
      |narrative| == |"You performed: " + action| + |" The " + struck.enemyName + " has been defeated!"|
  {
    "You performed: " + action
      + (if struck.enemyHealth <= 0 then " The " + struck.enemyName + " has been defeated!" else "")
  }

  /** The turn one action records: numbered after the level's existing turns, with a
      single 10-point damage effect on the enemy and both health snapshots. */
  function ActionTurn(action: string, before: Level, character: Character): (t: Turn)
    ensures t.turnNumber == |before.turns| + 1
    ensures t.effects == [Effect(Damage, "enemy", HitDamage, None)]
    ensures t.characterHealth == Some(character.currentHealth)
    ensures t.enemyHealth == Some(Strike(before).enemyHealth) && t.enemyHealth.value >= 0
    ensures t.userInput == action
    ensures t.narrative == ActionNarrative(action, Strike(before))
  {
    var struck := Strike(before);
    Turn(|before.turns| + 1, action, ActionNarrative(action, struck),
         [Effect(Damage, "enemy", HitDamage, None)],
         Some(character.currentHealth), Some(struck.enemyHealth), false, None)
  }

  datatype ActionSummary = ActionSummary(
    narrative: string,
    enemyHealth: int,
    characterHealth: int,
    enemyDefeated: bool,
    turnNumber: int)

  /** `process_player_action`. On an error nothing is stored. Otherwise the level is
      struck and gains the new turn's id at the end of its turns, the turn is inserted
      under a fresh id, the character is saved as given (its health untouched), and
      the summary reports exactly the stored level, turn and character. */
  method ProcessPlayerAction(db: Database, campaign: Campaign, action: string, character: Character)
    returns (r: Result<ActionSummary>)
    requires db.Valid() && character.id in db.characters
    modifies db
    ensures db.Valid()
    ensures CurrentLevelId(campaign).Err? ==> r == Err(CurrentLevelId(campaign).error)
    ensures CurrentLevelId(campaign).Ok? && CurrentLevelId(campaign).value !in old(db.levels) ==>
      r == Err(ValueError("Level not found"))
    ensures r.Err? ==> unchanged(db)
    ensures r.Ok? <==> CurrentLevelId(campaign).Ok? && CurrentLevelId(campaign).value in old(db.levels)
    ensures r.Ok? ==>
      var lid := CurrentLevelId(campaign).value;
      var before := old(db.levels)[lid];
      var tid := old(db.nextId);
      && tid !in old(db.turns)
      && db.nextId == tid + 1
      && db.levels == old(db.levels)[lid := Strike(before).(turns := before.turns + [tid])]
      && db.turns == old(db.turns)[tid := ActionTurn(action, before, character)]
      && db.characters == old(db.characters)[character.id := character]
      && db.users == old(db.users) && db.campaigns == old(db.campaigns)
      && r.value.narrative == db.turns[tid].narrative
      && r.value.enemyHealth == db.levels[lid].enemyHealth
      && r.value.enemyDefeated == db.levels[lid].isCompleted
      && r.value.characterHealth == db.characters[character.id].currentHealth
      && r.value.turnNumber == db.turns[tid].turnNumber == |before.turns| + 1
  {
    var selected := CurrentLevelId(campaign);
    if selected.Err? {
      return Err(selected.error);
    }
    var lid := selected.value;
    if lid !in db.levels {
      return Err(ValueError("Level not found"));
    }
    var level := db.levels[lid];
    var before := level;

    var narrative := "You performed: " + action;
    level := level.(enemyHealth := if level.enemyHealth - HitDamage >= 0 then level.enemyHealth - HitDamage else 0);
    if level.enemyHealth <= 0 {
      level := level.(isCompleted := true);
      narrative := narrative + " The " + level.enemyName + " has been defeated!";
    }
    assert level == Strike(before);
    assert narrative == ActionNarrative(action, level);

    db.characters := db.characters[character.id := character];

    var turn := Turn(|level.turns| + 1, action, narrative,
                     [Effect(Damage, "enemy", HitDamage, None)],
                     Some(character.currentHealth), Some(level.enemyHealth), false, None);
    var tid := db.NewId();
    db.turns := db.turns[tid := turn];

    level := level.(turns := level.turns + [tid]);
    db.levels := db.levels[lid := level];

    assert turn == ActionTurn(action, before, character);
    r := Ok(ActionSummary(narrative, level.enemyHealth, character.currentHealth, level.isCompleted, turn.turnNumber));
  }
}
