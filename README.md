# Text-RPG backend core, modelled in Dafny

This project models the deterministic core of a turn-based text RPG backend (a FastAPI service over a
document store). The core has five parts:

- **Combat-state scaffolding** (`combat.dfy`, module `Combat`). An enemy baseline is jittered by ±30%
  from the player's attributes and maximum health. A previously known enemy health is kept instead.
  The `{player, enemy}` combat snapshot copies the player's live stats and gives each side a d20 roll.
- **Debug cheats** (`cheats.dfy`, module `Cheats`). These set the player's or the enemy's health to 1
  in the last turn of a campaign, but only while that turn is in active combat.
- **Level-based action processing** (`gameplay.dfy`, module `Gameplay`). Each action deals a fixed
  10-point hit to the current level's enemy, completes the level when the enemy reaches 0, and records
  a numbered turn.
- **Narrative service helpers** (`narration.dfy`, module `Narration`). These are the turn-history
  formatter, the SUCCESS/FAILURE label, and the outcome record with its defaults and its fallback.
- **Campaign lifecycle handlers** (`routes.dfy`, module `Routes`). These create a character and a
  campaign, act in a campaign, end it, and clear its history.

`models.dfy` (module `Models`) holds the records. `EffectType`, `AttributeSet` and `Effect` follow
`app/models.py`. That file predates the services, so the health, level and combat fields of
`Character`, `Campaign`, `Turn` and `Level` follow how the services read and write them. The
services also use a campaign's character and a character's current campaign, which `app/models.py`
stores only as ids; the model keeps ids.

`store.dfy` (module `Store`) is the document store: one `Database` class whose fields map ids to
documents. A handler's `get` reads a copy of a document, changes the copy, and `save` writes it back.
In the model that is a reassignment of one map entry, so every handler states exactly which entries
change. Ids come from a counter that `Valid()` keeps above every id in use.

Randomness becomes input. Every `random.randint(low, high)` result is a parameter that must lie in
`[low, high]`. The enemy baseline's five draws form one `BaselineDraws` record. A d20 roll is any
`r` with `1 <= r <= 20`.

Python's `int(base * (1 ± 0.30))` is modelled as exact tenths truncated toward zero (`TruncTenths`).
Dafny's own `/` rounds negative quotients down, so truncation is written out. The negative index that
`campaign.levels[current_level - 1]` takes when the level number is 0 or less is modelled as Python
does it (`PyIndex`).

## Model

| member | source | states |
|---|---|---|
| `Combat.TruncTenths` | app/utils/combat.py:18-19 | `int()` of a tenth rounds toward zero: for a non-negative value the result is the largest multiple not above it, and for a negative value the smallest not below it |
| `Combat.Low` | app/utils/combat.py:18 | the low end of the jitter range is at least 1; unless clamped to 1 it is at most 70% of the base, and it is above 70% of the base minus one |
| `Combat.High` | app/utils/combat.py:19 | the high end is never below the low end, so the range is never empty, for any base including 0 and negatives; unless raised to the low end it is at most 130% of the base; a positive base lies inside its own range |
| `Combat.Vary` | app/utils/combat.py:17-20 | a jittered value is at least 1 and in `[Low, High]`; for a positive base it is at most 130% of the base and above 70% of the base minus one; for a base of 1 or less it is exactly 1 |
| `Combat.EstimateEnemyBaseline` | app/utils/combat.py:8-38 | the enemy health is never negative; a known health of 0 or more is kept exactly and a negative one becomes 0; without one, the health is a jittered copy of the player's maximum health and at least 1; each enemy attribute is a jittered copy of the player's attribute of the same name; each attribute, and a fresh health, is exactly its own `randint` draw, never a pinned value |
| `Combat.KnownEnemyHealthIgnoresDraws` | app/utils/combat.py:30-31 | once an enemy health is known, the estimate's health does not depend on the random draws, so a live enemy is never re-baselined |
| `Combat.EnemyAttributes` | app/utils/combat.py:67-72 | a supplied enemy attribute is kept and a missing one, or a missing attribute mapping, reads as 0 |
| `Combat.BuildCombatState` | app/utils/combat.py:41-75 | the player side copies the character's current health, maximum health and all four attributes exactly; each side's roll is exactly its own d20 draw, so it lies in [1, 20] and is never pinned; the enemy has no maximum health; a supplied enemy state is used, with missing health and attributes read as 0; without one, the enemy's health and attributes are exactly the baseline's draws |
| `Combat.BaselineRoundTrip` | app/utils/combat.py:50-73 | passing a baseline in as the enemy state gives the same snapshot as letting the builder estimate it; a kept non-negative enemy health reaches the snapshot unchanged |
| `Narration.Join` | app/services/llm_service.py:65 | the joined text starts with the first line |
| `Narration.SplitJoin` | app/services/llm_service.py:65 | splitting the joined text at newlines gives back the lines, when no line holds a newline |
| `Narration.Bulleted` | app/services/llm_service.py:65 | there is one bulleted line per history entry |
| `Narration.FormatPrevious` | app/services/llm_service.py:60-65 | an empty history gives `"- (no prior turns)"`; every result starts with the bullet `"- "` |
| `Narration.FormatPreviousPrepends` | app/services/llm_service.py:60-65 | for any entries, multi-line ones included: one entry gives `"- "` followed by it, and adding a newer entry puts its bulleted line, then a newline, in front of the older history's text |
| `Narration.FormatPreviousLines` | app/services/llm_service.py:60-65 | for n newline-free entries the text has exactly n lines, and line i is `"- "` followed by entry n-1-i (newest first); an empty history gives a single line |
| `Narration.OutcomeLabel` | app/services/llm_service.py:82 | the label is `"SUCCESS"` exactly when the outcome succeeded, and `"FAILURE"` exactly when it did not |
| `Narration.BuildOutcome` | app/services/llm_service.py:15-19 | an outcome can be built exactly when a narrative is present; given fields are kept; each missing field takes its own default, independently of the others: 0 for either health change and an empty list for the status effects |
| `Narration.FallbackOutcome` | app/services/llm_service.py:111-118 | the fallback outcome changes no health and has no status effects |
| `Narration.FallbackIsNarrativeOnly` | app/services/llm_service.py:111-118 | the fallback's explicit values are exactly the defaults of an outcome built from its narrative alone |
| `Narration.SettleResponse` | app/services/llm_service.py:103-118 | a typed answer wins; otherwise decoded text with a narrative gives the outcome built from it; otherwise the result is the neutral fallback, so once an answer has arrived, settling on an outcome never fails |
| `Cheats.PlayerAtOne` | app/utils/cheats.py:25-31 | the turn's character-health snapshot and its combat snapshot's player health become 1; the enemy fields and every other field stay as they were |
| `Cheats.EnemyAtOne` | app/utils/cheats.py:47-53 | the turn's enemy-health snapshot and its combat snapshot's enemy health become 1; the player fields and every other field stay as they were |
| `Cheats.PlayerCheatTurns` | app/utils/cheats.py:12-32 | no turn is added or removed; with no turns, a missing last turn, no active combat or no combat snapshot nothing changes; otherwise only the last turn changes, to `PlayerAtOne` of itself |
| `Cheats.EnemyCheatTurns` | app/utils/cheats.py:40-54 | the same guard and frame as the player cheat, with `EnemyAtOne` applied to the last turn |
| `Cheats.PlayerCheatCharacter` | app/utils/cheats.py:19-21 | under the guard the caller's character ends at health 1; nothing else about it changes |
| `Cheats.PlayerCheatCharacters` | app/utils/cheats.py:19-22 | the stored character is rewritten only when the guard holds and its health was not already 1 |
| `Cheats.CheatSetPlayerHealthToOne` | app/utils/cheats.py:6-32 | the store's turns and characters become the cheat's result; users, campaigns, levels and the id counter are untouched; the returned character is the caller's character as the cheat leaves it |
| `Cheats.CheatSetEnemyHealthToOne` | app/utils/cheats.py:35-54 | the store's turns become the enemy cheat's result; the characters and every other collection are untouched |
| `Cheats.PlayerCheatIdempotent` | app/utils/cheats.py:19-32 | applying the player cheat twice leaves the turns, the stored characters and the caller's character as applying it once |
| `Cheats.EnemyCheatIdempotent` | app/utils/cheats.py:51-54 | applying the enemy cheat twice leaves the turns as applying it once |
| `Cheats.CheatsCommute` | app/utils/cheats.py:29-53 | the two cheats touch disjoint fields, so either order gives the same turns |
| `Gameplay.CurrentLevelId` | app/services/gameplay_service.py:8-13 | a level number past the last level fails with "No active level"; a level number from 1 up to the count selects `levels[current_level - 1]`; the selected id is one of the campaign's levels |
| `Gameplay.Strike` | app/services/gameplay_service.py:20-25 | the enemy health drops by 10 and stops at 0; it is never negative and never rises from a non-negative value; it reaches 0 exactly when it was at most 10; the level is completed exactly when it was already completed or the enemy is at 0, so completion is never undone |
| `Gameplay.StrikesDefeat` | app/services/gameplay_service.py:20-24 | after n actions an enemy that started at h ≥ 0 has max(0, h − 10n) health, and, for n ≥ 1, the level is completed exactly when it already was or h ≤ 10n |
| `Gameplay.ActionTurn` | app/services/gameplay_service.py:32-39 | the turn is numbered one past the level's turns; its effects are exactly one 10-point damage effect on `"enemy"`; its snapshots are the character's unchanged health and the enemy's new, non-negative health; its narrative is `ActionNarrative` of the struck level |
| `Gameplay.ActionNarrative` | app/services/gameplay_service.py:19-25 | the narrative opens with "You performed: " and the action; it is exactly that while the enemy still has health, and otherwise it is exactly the action text followed by " The <enemy> has been defeated!" |
| `Gameplay.ProcessPlayerAction` | app/services/gameplay_service.py:5-53 | a missing level fails with "No active level", IndexError or "Level not found", and nothing is stored; otherwise the level is struck and gains the fresh turn id at the end of its turns, the turn is inserted, and the character is saved as given; the summary equals the stored level's health and completion, the turn's number and narrative, and the character's health |
| `Routes.CreateCharacter` | app/routes.py:50-78 | an unknown user fails with 404; otherwise a character with level 1, no skill points and no campaigns is stored under a fresh id, and that id is appended to the user's characters |
| `Routes.CreateCampaign` | app/routes.py:100-121 | an unknown character fails with 404; otherwise an active campaign without turns is stored under a fresh id and becomes the character's current campaign |
| `Routes.CampaignAction` | app/routes.py:132-153 | a missing or inactive campaign fails with 400 and nothing is stored; otherwise the new turn is numbered `len(turns) + 1`, narrates "You performed: " plus the action, has no effects, and its id is appended at the end of the campaign's turns; turns numbered 1..n stay numbered 1..n+1 |
| `Routes.EndCampaign` | app/routes.py:156-170 | an unknown campaign fails with 404; otherwise the campaign becomes inactive, so it no longer accepts actions, and its character gets it appended to its past campaigns with no current campaign |
| `Routes.ClearHistory` | app/routes.py:184-196 | an unknown campaign fails with 404; otherwise exactly the campaign's turns are deleted from the store and its turn list becomes empty |
| `Routes.EndedCampaignRejectsActions` | app/routes.py:134-163 | once a campaign has been ended, an action on it fails with 400 and stores no turn |

## Left out

- The narrative generator call, the prompt template and how its answer is decoded (app/services/llm_service.py:9-12, 22-57, 84-110). These are an external service call. The typed answer and the decoded JSON fields reach `SettleResponse` as parameters.
- An error raised by the generator call itself (app/services/llm_service.py:94-101) is outside the `try` and propagates uncaught, so that action gets no outcome. The model starts from an answer that has arrived.
- Pydantic's type coercion and validation of the outcome fields. Only a missing narrative is modelled as a validation failure.
- Combat.Low: exact tenths are used where the source multiplies by the float 0.7. For some bases the float product falls just below an integer. For example, 90 × 0.7 is slightly under 63, so the source's low end is 62 and the model's is 63. The model's range can then be one narrower at the bottom.
- Combat.EstimateEnemyBaseline: the `variance` parameter is fixed at its default of 0.30, which is the only value any caller passes.
- The `isinstance(cs, dict)` conversion in the cheats (app/utils/cheats.py:26-27, 48-49). Stored combat snapshots have one typed form here. An empty snapshot mapping, which Python treats as false in the guard, is therefore not modelled.
- Objects passed by reference. The cheats and `ProcessPlayerAction` receive a campaign and a character as values. Each requires the character to be a stored document. The player cheat returns the caller's character as changed, instead of updating it in place.
- The starting health of a new character, and the active-combat flag and snapshots of a new turn, come from model defaults that the source does not show. New characters take their health as parameters; new turns have no snapshots and no active combat. A new campaign starts with no levels at level 1 for the same reason.
- `create_campaign`'s re-read of the character and its 500 error (app/routes.py:113-115). The character was read in the same request and nothing removes it, so the model omits that branch. The debug `print` is omitted too.
- `clear_history` deletes each linked turn. A link whose turn is already gone is a no-op here.
- Authentication and the read-only handlers (`signup`, `login`, `get_me`, `list_characters`, `get_character`, `get_campaign`, `get_history`). Password hashing and tokens are foreign cryptography, and the lookups change nothing.
- `async`/`await`, concurrent requests and the database connection (main.py, app/config.py). Handlers run one at a time as single steps of the store.
- The vector-store scripts under app/chromadb. They are thin wrappers around an external store.
