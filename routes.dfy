/** The campaign lifecycle of the HTTP handlers (app/routes.py): creating a
    character and a campaign, acting in a campaign, ending it and clearing its
    history. Each handler is one step of the store; an HTTP error is an `Err`. */
module Routes {
  import opened Models
  import opened Store

  /** A campaign that accepts actions: it exists and is active. */
  predicate AcceptsActions(campaigns: map<Id, Campaign>, campaignId: Id) {
    campaignId in campaigns && campaigns[campaignId].isActive
  }

  /** The campaign's turns are all stored and numbered 1, 2, ... in order. */
  predicate Numbered(campaigns: map<Id, Campaign>, turns: map<Id, Turn>, campaignId: Id) {
    campaignId in campaigns &&
    forall i :: 0 <= i < |campaigns[campaignId].turns| ==>
      campaigns[campaignId].turns[i] in turns && turns[campaigns[campaignId].turns[i]].turnNumber == i + 1
  }

  /** `create_character`: a new character under a fresh id, appended to its user's
      characters. The starting health comes from the character model's defaults,
      which are parameters here. */
  method CreateCharacter(
    db: Database, name: string, race: string, charClass: string, description: string,
    attributes: AttributeSet, userId: Id, currentHealth: int, maxHealth: int)
    returns (r: Result<Character>)
    requires db.Valid()
    modifies db
    ensures db.Valid()
    ensures userId !in old(db.users) <==> r.Err?
    ensures r.Err? ==> r.error == HttpError(404, "User not found") && unchanged(db)
    ensures r.Ok? ==>
      var c := r.value;
      && c.id == old(db.nextId) && c.id !in old(db.characters)
      && c == Character(c.id, name, race, charClass, description, attributes, 1, 0,
                        currentHealth, maxHealth, None, [], userId)
      && db.characters == old(db.characters)[c.id := c]
      && db.users == old(db.users)[userId := old(db.users)[userId].(characters := old(db.users)[userId].characters + [c.id])]
      && db.campaigns == old(db.campaigns) && db.turns == old(db.turns) && db.levels == old(db.levels)
  {
    if userId !in db.users {
      return Err(HttpError(404, "User not found"));
    }
    var user := db.users[userId];
    var id := db.NewId();
    var character := Character(id, name, race, charClass, description, attributes, 1, 0,
                               currentHealth, maxHealth, None, [], userId);
    db.characters := db.characters[id := character];
    user := user.(characters := user.characters + [id]);
    db.users := db.users[userId := user];
    r := Ok(character);
  }

  /** `create_campaign`: a new, active campaign without turns under a fresh id, which
      becomes the character's current campaign. A new campaign starts with no levels
      and at level 1. */
  method CreateCampaign(db: Database, characterId: Id, name: string, description: string)
    returns (r: Result<Id>)
    requires db.Valid()
    modifies db
    ensures db.Valid()
    ensures characterId !in old(db.characters) <==> r.Err?
    ensures r.Err? ==> r.error == HttpError(404, "Character not found") && unchanged(db)
    ensures r.Ok? ==>
      var id := r.value;
      && id == old(db.nextId) && id !in old(db.campaigns)
      && db.campaigns == old(db.campaigns)[id := Campaign(name, description, true, characterId, [], [], 1)]
      && AcceptsActions(db.campaigns, id) && Numbered(db.campaigns, db.turns, id)
      && db.characters == old(db.characters)[characterId := old(db.characters)[characterId].(currentCampaign := Some(id))]
      && db.users == old(db.users) && db.turns == old(db.turns) && db.levels == old(db.levels)
  {
    if characterId !in db.characters {
      return Err(HttpError(404, "Character not found"));
    }
    var character := db.characters[characterId];
    var id := db.NewId();
    db.campaigns := db.campaigns[id := Campaign(name, description, true, characterId, [], [], 1)];
    // The character was read above and nothing removed it, so re-reading it succeeds.
    character := character.(currentCampaign := Some(id));
    db.characters := db.characters[characterId := character];
    r := Ok(id);
  }

  /** `campaign_action`: on a missing or inactive campaign it fails and stores
      nothing; otherwise it stores a turn numbered one past the campaign's turns,
      narrating the action with no effects, and appends its id to the campaign. */
  method CampaignAction(db: Database, campaignId: Id, action: string) returns (r: Result<Turn>)
    requires db.Valid()
    modifies db
    ensures db.Valid()
    ensures r.Ok? <==> AcceptsActions(old(db.campaigns), campaignId)
    ensures r.Err? ==> r.error == HttpError(400, "Campaign not active") && unchanged(db)
    ensures r.Ok? ==>
      var c := old(db.campaigns)[campaignId];
      var id := old(db.nextId);
      && id !in old(db.turns)
      && r.value == Turn(|c.turns| + 1, action, "You performed: " + action, [], None, None, false, None)
      && db.turns == old(db.turns)[id := r.value]
      && db.campaigns == old(db.campaigns)[campaignId := c.(turns := c.turns + [id])]
      && db.users == old(db.users) && db.characters == old(db.characters) && db.levels == old(db.levels)
    ensures Numbered(old(db.campaigns), old(db.turns), campaignId) ==> Numbered(db.campaigns, db.turns, campaignId)
  {
    if campaignId !in db.campaigns || !db.campaigns[campaignId].isActive {
      return Err(HttpError(400, "Campaign not active"));
    }
    var campaign := db.campaigns[campaignId];
    var turn := Turn(|campaign.turns| + 1, action, "You performed: " + action, [], None, None, false, None);
    var id := db.NewId();
    db.turns := db.turns[id := turn];
    campaign := campaign.(turns := campaign.turns + [id]);
    db.campaigns := db.campaigns[campaignId := campaign];
    r := Ok(turn);
  }

  /** `end_campaign`: the campaign becomes inactive and moves from the character's
      current campaign to its past campaigns. When the campaign's character cannot be
      fetched the campaign has already been ended and the request fails with a server
      error. */
  method EndCampaign(db: Database, campaignId: Id) returns (r: Result<string>)
    requires db.Valid()
    modifies db
    ensures db.Valid()
    ensures campaignId !in old(db.campaigns) ==> r == Err(HttpError(404, "Campaign not found")) && unchanged(db)
    ensures campaignId in old(db.campaigns) ==>
      var c := old(db.campaigns)[campaignId];
      && db.campaigns == old(db.campaigns)[campaignId := c.(isActive := false)]
      && !AcceptsActions(db.campaigns, campaignId)
      && (c.characterId in old(db.characters) ==>
            var ch := old(db.characters)[c.characterId];
            && r == Ok("Campaign ended")
            && db.characters == old(db.characters)[c.characterId :=
                 ch.(pastCampaigns := ch.pastCampaigns + [campaignId], currentCampaign := None)])
      && (c.characterId !in old(db.characters) ==>
            r == Err(HttpError(500, "Internal Server Error")) && db.characters == old(db.characters))
    ensures db.users == old(db.users) && db.turns == old(db.turns) && db.levels == old(db.levels)
    ensures db.nextId == old(db.nextId)
  {
    if campaignId !in db.campaigns {
      return Err(HttpError(404, "Campaign not found"));
    }
    var campaign := db.campaigns[campaignId];
    campaign := campaign.(isActive := false);
    db.campaigns := db.campaigns[campaignId := campaign];

    if campaign.characterId !in db.characters {
      return Err(HttpError(500, "Internal Server Error"));
    }
    var character := db.characters[campaign.characterId];
    character := character.(pastCampaigns := character.pastCampaigns + [campaignId], currentCampaign := None);
    db.characters := db.characters[campaign.characterId := character];
    r := Ok("Campaign ended");
  }

  /** `clear_history`: every turn of the campaign is deleted from the store and the
      campaign's turn list becomes empty; no other document changes. */
  method ClearHistory(db: Database, campaignId: Id) returns (r: Result<string>)
    requires db.Valid()
    modifies db
    ensures db.Valid()
    ensures campaignId !in old(db.campaigns) ==> r == Err(HttpError(404, "Campaign not found")) && unchanged(db)
    ensures campaignId in old(db.campaigns) ==>
      var c := old(db.campaigns)[campaignId];
      && r == Ok("History cleared")
      && db.turns == old(db.turns) - (set i | 0 <= i < |c.turns| :: c.turns[i])
      && db.campaigns == old(db.campaigns)[campaignId := c.(turns := [])]
      && Numbered(db.campaigns, db.turns, campaignId)
    ensures db.users == old(db.users) && db.characters == old(db.characters) && db.levels == old(db.levels)
    ensures db.nextId == old(db.nextId)
  {
    if campaignId !in db.campaigns {
      return Err(HttpError(404, "Campaign not found"));
    }
    var campaign := db.campaigns[campaignId];
    var i := 0;
    while i < |campaign.turns|
      invariant 0 <= i <= |campaign.turns|
      invariant db.turns == old(db.turns) - (set j | 0 <= j < i :: campaign.turns[j])
      invariant db.users == old(db.users) && db.characters == old(db.characters)
      invariant db.campaigns == old(db.campaigns) && db.levels == old(db.levels)
      invariant db.nextId == old(db.nextId) && db.Valid()
    {
      db.turns := db.turns - {campaign.turns[i]};
      i := i + 1;
    }
    campaign := campaign.(turns := []);
    db.campaigns := db.campaigns[campaignId := campaign];
    r := Ok("History cleared");
  }

  /** Once a campaign has been ended, acting in it fails and stores nothing. */
  method EndedCampaignRejectsActions(db: Database, campaignId: Id, action: string)
    returns (ended: Result<string>, acted: Result<Turn>)
    requires db.Valid()
    modifies db
    ensures acted == Err(HttpError(400, "Campaign not active"))
    ensures db.turns == old(db.turns) && db.nextId == old(db.nextId)
  {
    ended := EndCampaign(db, campaignId);
    acted := CampaignAction(db, campaignId, action);
  }
}
