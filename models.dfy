/** The game's records, as the services use them. The enums and the small records
    (EffectType, AttributeSet, Effect) follow app/models.py; the health, level and
    combat fields of Character, Campaign, Turn and Level follow how the services
    read and write them. */
module Models {

  /** A document id. Every stored document gets a fresh one on insert. */
  type Id = nat

  datatype Option<+T> = None | Some(value: T) {
    /** The value, or `default` when there is none (Python's `dict.get(key, default)`). */
    function GetOr(default: T): (v: T) {
      match this
      case Some(v) => v
      case None => default
    }
  }

  /** An error raised by a service or returned as an HTTP error by a route. */
  datatype Error =
    | HttpError(status: int, detail: string)
    | ValueError(message: string)
    | IndexError

  datatype Result<+T> = Ok(value: T) | Err(error: Error)

  datatype EffectType = Damage | Heal | Buff | Debuff

  datatype AttributeSet = AttributeSet(strength: int, dexterity: int, intelligence: int, charisma: int)

  datatype Effect = Effect(kind: EffectType, target: string, value: int, attribute: Option<string>)

  /** One side of a fight: the enemy side carries no maximum health. */
  datatype CombatSide = CombatSide(health: int, maxHealth: Option<int>, attributes: AttributeSet, roll: int)

  datatype CombatState = CombatState(player: CombatSide, enemy: CombatSide)

  /** A turn record; the health snapshots and the combat fields are absent on turns
      that do not set them. */
  datatype Turn = Turn(
    turnNumber: int,
    userInput: string,
    narrative: string,
    effects: seq<Effect>,
    characterHealth: Option<int>,
    enemyHealth: Option<int>,
    activeCombat: bool,
    combatState: Option<CombatState>)

  datatype Level = Level(enemyName: string, enemyHealth: int, isCompleted: bool, turns: seq<Id>)

  datatype Campaign = Campaign(
    name: string,
    description: string,
    isActive: bool,
    characterId: Id,
    turns: seq<Id>,
    levels: seq<Id>,
    currentLevel: int)

  /** A character carries its own id because services receive it as an object and save it back. */
  datatype Character = Character(
    id: Id,
    name: string,
    race: string,
    charClass: string,
    description: string,
    attributes: AttributeSet,
    level: int,
    skillPoints: int,
    currentHealth: int,
    maxHealth: int,
    currentCampaign: Option<Id>,
    pastCampaigns: seq<Id>,
    userId: Id)

  datatype User = User(name: string, email: string, characters: seq<Id>)
}
