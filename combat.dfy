/** Combat-state scaffolding (app/utils/combat.py): an enemy baseline jittered by
    ±30% from the player's stats, and the `{player, enemy}` snapshot with one d20
    roll per side. Every `random.randint(low, high)` result is a parameter that
    the caller draws from `[low, high]`. */
module Combat {
  import opened Models

  function Max(a: int, b: int): (m: int) {
    if a >= b then a else b
  }

  /** `int(n / 10)` as Python computes it: the quotient rounded toward zero,
      where Dafny's `/` rounds a negative quotient down. */
  function TruncTenths(n: int): (q: int)
    ensures n >= 0 ==> 0 <= q && 10 * q <= n < 10 * q + 10
    ensures n < 0 ==> q <= 0 && n <= 10 * q < n + 10
  {
    if n >= 0 then n / 10 else -((-n) / 10)
  }

  /** The lower end of the jitter range of `base`: 70% of it, truncated, and at least 1. */
  function Low(base: int): (low: int)
    ensures low >= 1
    ensures low == 1 || 10 * low <= 7 * base
    ensures 7 * base < 10 * low + 10
  {
    Max(1, TruncTenths(7 * base))
  }

  /** The upper end of the jitter range of `base`: 130% of it, truncated, and never
      below the lower end, so the range is never empty. */
  function High(base: int): (high: int)
    ensures high >= Low(base)
    ensures high == Low(base) || 10 * high <= 13 * base
    ensures 13 * base < 10 * high + 10
    ensures base >= 1 ==> Low(base) <= base <= high
  {
    Max(Low(base), TruncTenths(13 * base))
  }

  /** `value` is a possible draw of `vary(base)`. */
  predicate Jittered(value: int, base: int) {
    Low(base) <= value <= High(base)
  }

  /** `vary(base)`: the draw itself, once it is known to lie in the jitter range.
      The result is at least 1 whatever the base; for a positive base it is at most
      130% of the base and above 70% of the base minus one (the truncated low end);
      it is exactly 1 for a base of 1 or less. */
  function Vary(base: int, draw: int): (v: int)
    requires Jittered(draw, base)
    ensures v >= 1
    ensures Jittered(v, base)
    ensures base >= 1 ==> 10 * v <= 13 * base && 7 * base < 10 * v + 10
    ensures base <= 1 ==> v == 1
  {
    draw
  }

  /** The five `randint` results of one baseline estimate, in the order the source
      draws them; `health` is used only when no previous enemy health is known. */
  datatype BaselineDraws = BaselineDraws(strength: int, dexterity: int, intelligence: int, charisma: int, health: int)

  predicate DrawsFit(character: Character, lastEnemyHealth: Option<int>, d: BaselineDraws) {
    && Jittered(d.strength, character.attributes.strength)
    && Jittered(d.dexterity, character.attributes.dexterity)
    && Jittered(d.intelligence, character.attributes.intelligence)
    && Jittered(d.charisma, character.attributes.charisma)
    && (lastEnemyHealth.None? ==> Jittered(d.health, character.maxHealth))
  }

  datatype EnemyBaseline = EnemyBaseline(health: int, attributes: AttributeSet)

  /** `estimate_enemy_baseline`: each enemy attribute is a jittered copy of the
      player's attribute of the same name; a known enemy health is kept (clamped at 0),
      and only without one is the enemy health a jittered copy of the player's maximum. */
  function EstimateEnemyBaseline(character: Character, lastEnemyHealth: Option<int>, draws: BaselineDraws): (e: EnemyBaseline)
    requires DrawsFit(character, lastEnemyHealth, draws)
    ensures e.health >= 0
    ensures lastEnemyHealth.Some? && lastEnemyHealth.value >= 0 ==> e.health == lastEnemyHealth.value
    ensures lastEnemyHealth.Some? && lastEnemyHealth.value < 0 ==> e.health == 0
    ensures lastEnemyHealth.None? ==> e.health >= 1 && Jittered(e.health, character.maxHealth)
    ensures Jittered(e.attributes.strength, character.attributes.strength)
    ensures Jittered(e.attributes.dexterity, character.attributes.dexterity)
    ensures Jittered(e.attributes.intelligence, character.attributes.intelligence)
    ensures Jittered(e.attributes.charisma, character.attributes.charisma)
    ensures e.attributes == AttributeSet(draws.strength, draws.dexterity, draws.intelligence, draws.charisma)
    ensures lastEnemyHealth.None? ==> e.health == draws.health
  {
    var attrs := character.attributes;
    var enemyAttrs := AttributeSet(
      Vary(attrs.strength, draws.strength),
      Vary(attrs.dexterity, draws.dexterity),
      Vary(attrs.intelligence, draws.intelligence),
      Vary(attrs.charisma, draws.charisma));
    var health :=
      if lastEnemyHealth.Some? then Max(0, lastEnemyHealth.value)
      else Vary(character.maxHealth, draws.health);
    EnemyBaseline(health, enemyAttrs)
  }

  /** Continuity wins over re-baselining: once an enemy health is known, the
      estimate's health does not depend on the random draws at all. */
  lemma KnownEnemyHealthIgnoresDraws(character: Character, last: int, d1: BaselineDraws, d2: BaselineDraws)
    requires DrawsFit(character, Some(last), d1) && DrawsFit(character, Some(last), d2)
    ensures EstimateEnemyBaseline(character, Some(last), d1).health == EstimateEnemyBaseline(character, Some(last), d2).health
    ensures last > 0 ==> EstimateEnemyBaseline(character, Some(last), d1).health == last
  {
  }

  /** The attributes of a caller-supplied enemy state, any of which may be missing. */
  datatype PartialAttributes = PartialAttributes(
    strength: Option<int>, dexterity: Option<int>, intelligence: Option<int>, charisma: Option<int>)

  /** A caller-supplied enemy state: a mapping whose keys may be missing. */
  datatype EnemyState = EnemyState(health: Option<int>, attributes: Option<PartialAttributes>)

  /** The enemy state a baseline stands for (every key present). */
  function AsEnemyState(b: EnemyBaseline): (s: EnemyState) {
    EnemyState(Some(b.health), Some(PartialAttributes(
      Some(b.attributes.strength), Some(b.attributes.dexterity),
      Some(b.attributes.intelligence), Some(b.attributes.charisma))))
  }

  /** `v` is the value `o` holds, or 0 when it is missing. */
  predicate ValueOrZero(v: int, o: Option<int>) {
    if o.Some? then v == o.value else v == 0
  }

  /** The enemy attributes: a present attribute is kept, a missing one (or a missing
      attribute mapping) reads as 0. */
  function EnemyAttributes(s: EnemyState): (a: AttributeSet)
    ensures s.attributes.None? ==> a == AttributeSet(0, 0, 0, 0)
    ensures s.attributes.Some? ==>
      && ValueOrZero(a.strength, s.attributes.value.strength)
      && ValueOrZero(a.dexterity, s.attributes.value.dexterity)
      && ValueOrZero(a.intelligence, s.attributes.value.intelligence)
      && ValueOrZero(a.charisma, s.attributes.value.charisma)
  {
    match s.attributes
    case None => AttributeSet(0, 0, 0, 0)
    case Some(p) => AttributeSet(p.strength.GetOr(0), p.dexterity.GetOr(0), p.intelligence.GetOr(0), p.charisma.GetOr(0))
  }

  predicate IsRoll(r: int) {
    1 <= r <= 20
  }

  /** `build_combat_state`: the player side is an exact copy of the character's live
      health, maximum health and attributes; the enemy side comes from the supplied
      state, with missing health and attributes read as 0, or from a fresh baseline
      when none is supplied; each side gets its own d20 roll. */
  function BuildCombatState(
    character: Character, enemyState: Option<EnemyState>, draws: BaselineDraws,
    playerRoll: int, enemyRoll: int): (c: CombatState)
    requires IsRoll(playerRoll) && IsRoll(enemyRoll)
    requires enemyState.None? ==> DrawsFit(character, None, draws)
    ensures c.player.health == character.currentHealth
    ensures c.player.maxHealth == Some(character.maxHealth)
    ensures c.player.attributes == character.attributes
    ensures IsRoll(c.player.roll) && IsRoll(c.enemy.roll)
    ensures c.player.roll == playerRoll && c.enemy.roll == enemyRoll
    ensures c.enemy.maxHealth.None?
    ensures enemyState.Some? ==> ValueOrZero(c.enemy.health, enemyState.value.health)
    ensures enemyState.Some? ==> c.enemy.attributes == EnemyAttributes(enemyState.value)
    ensures enemyState.None? ==> c.enemy.health >= 1 && Jittered(c.enemy.health, character.maxHealth)
    ensures enemyState.None? ==> Jittered(c.enemy.attributes.strength, character.attributes.strength)
    ensures enemyState.None? ==> Jittered(c.enemy.attributes.dexterity, character.attributes.dexterity)
    ensures enemyState.None? ==> Jittered(c.enemy.attributes.intelligence, character.attributes.intelligence)
    ensures enemyState.None? ==> Jittered(c.enemy.attributes.charisma, character.attributes.charisma)
    ensures enemyState.None? ==> c.enemy.health == draws.health
    ensures enemyState.None? ==>
      c.enemy.attributes == AttributeSet(draws.strength, draws.dexterity, draws.intelligence, draws.charisma)
  {
    var enemy := if enemyState.None? then AsEnemyState(EstimateEnemyBaseline(character, None, draws)) else enemyState.value;
    CombatState(
      CombatSide(character.currentHealth, Some(character.maxHealth), character.attributes, playerRoll),
      CombatSide(enemy.health.GetOr(0), None, EnemyAttributes(enemy), enemyRoll))
  }

  /** Supplying a baseline as the enemy state gives the same snapshot as letting
      `build_combat_state` estimate it, and a baseline that kept a known, non-negative
      enemy health carries that health into the snapshot unchanged. */
  lemma BaselineRoundTrip(
    character: Character, last: Option<int>, draws: BaselineDraws, playerRoll: int, enemyRoll: int)
    requires IsRoll(playerRoll) && IsRoll(enemyRoll)
    requires DrawsFit(character, last, draws)
    ensures var b := EstimateEnemyBaseline(character, last, draws);
      && BuildCombatState(character, Some(AsEnemyState(b)), draws, playerRoll, enemyRoll).enemy
         == CombatSide(b.health, None, b.attributes, enemyRoll)
      && (last.Some? && last.value >= 0 ==>
          BuildCombatState(character, Some(AsEnemyState(b)), draws, playerRoll, enemyRoll).enemy.health == last.value)
    ensures last.None? ==>
      BuildCombatState(character, Some(AsEnemyState(EstimateEnemyBaseline(character, last, draws))), draws, playerRoll, enemyRoll)
      == BuildCombatState(character, None, draws, playerRoll, enemyRoll)
  {
  }
}
