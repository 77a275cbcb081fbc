/**
 * `MoodService`: the mood queries, which report per mood how many
 * experience-mood rows name it, the two queries that follow the experience-mood
 * rows in either direction, and the mood mutations. Deleting a mood takes its
 * experience-mood rows with it (cascading foreign key).
 */
module MoodService {
  import opened Models
  import opened Text
  import opened Data

  /** What the service reports about the mood stored under `id`: its name and its number of experience-mood rows. */
  ghost function MoodSummary(moods: map<nat, Mood>, links: map<nat, ExperienceMood>, id: int): MoodDto
    requires id in moods
  {
    var mood := moods[id];
    MoodDto(mood.moodId, Some(mood.moodName), MoodExperienceCount(links, mood.moodId))
  }

  /** The entry `ListMoodsForExperience` builds for a mood: its count is left at its default. */
  function MoodEntry(mood: Mood): MoodDto {
    MoodDto(mood.moodId, Some(mood.moodName), 0)
  }

  /** `_context.ExperienceMoods.Count(em => em.MoodId == moodId)`. */
  method LinkCount(links: map<nat, ExperienceMood>, moodId: int) returns (count: nat)
    ensures count == MoodExperienceCount(links, moodId)
  {
    count := 0;
    var todo := links.Keys;
    ghost var done: set<nat> := {};
    while todo != {}
      invariant todo + done == links.Keys && todo !! done
      invariant count == |Where(links, done, OfMood(moodId))|
      decreases todo
    {
      var k :| k in todo;
      WhereStep(links, done, k, OfMood(moodId));
      Visit(links.Keys, todo, done, k);
      if links[k].moodId == moodId {
        count := count + 1;
      }
      todo, done := todo - {k}, done + {k};
    }
  }

  /**
   * One entry per stored mood, with the number of experience-mood rows naming it.
   * The rows come in no particular order; `order` names the key behind each entry.
   */
  method ListMoods(db: Database) returns (dtos: seq<MoodDto>, ghost order: seq<nat>)
    ensures |dtos| == |db.moods|
    ensures |order| == |dtos|
    ensures forall k :: k in db.moods <==> k in order
    ensures forall i, j :: 0 <= i < j < |order| ==> order[i] != order[j]
    ensures forall i :: 0 <= i < |dtos| ==>
      order[i] in db.moods && dtos[i] == MoodSummary(db.moods, db.experienceMoods, order[i])
  {
    dtos, order := [], [];
    var todo := db.moods.Keys;
    while todo != {}
      invariant todo <= db.moods.Keys
      invariant |dtos| == |order|
      invariant forall i :: 0 <= i < |order| ==> order[i] in db.moods && order[i] !in todo
      invariant forall k :: k in db.moods ==> k in todo || k in order
      invariant forall i, j :: 0 <= i < j < |order| ==> order[i] != order[j]
      invariant forall i :: 0 <= i < |dtos| ==> dtos[i] == MoodSummary(db.moods, db.experienceMoods, order[i])
      decreases todo
    {
      var k :| k in todo;
      var mood := db.moods[k];
      var count := LinkCount(db.experienceMoods, mood.moodId);
      dtos := dtos + [MoodDto(mood.moodId, Some(mood.moodName), count)];
      todo, order := todo - {k}, order + [k];
    }
    DistinctKeysCount(order, db.moods.Keys);
  }

  /** Nothing when no mood has that id, otherwise the same summary the list reports. */
  method FindMood(db: Database, id: int) returns (r: Option<MoodDto>)
    ensures r.None? <==> id !in db.moods
    ensures r.Some? ==> r.value == MoodSummary(db.moods, db.experienceMoods, id)
  {
    if id !in db.moods {
      return None;
    }
    var mood := db.moods[id];
    var count := LinkCount(db.experienceMoods, mood.moodId);
    r := Some(MoodDto(mood.moodId, Some(mood.moodName), count));
  }

  /**
   * Each experience some experience-mood row of the mood points at, once, however
   * many rows link it; `order` names the experience behind each entry.
   */
  method ListExperiencesForMood(db: Database, moodId: int) returns (dtos: seq<ExperienceDto>, ghost order: seq<nat>)
    requires LinksResolve(db.experiences, db.moods, db.experienceMoods)
    ensures |dtos| == |LinkedExperiences(db.experienceMoods, MoodLinkIds(db.experienceMoods, moodId))|
    ensures |order| == |dtos|
    ensures forall e :: e in LinkedExperiences(db.experienceMoods, MoodLinkIds(db.experienceMoods, moodId)) <==> e in order
    ensures forall i, j :: 0 <= i < j < |order| ==> order[i] != order[j]
    ensures forall i :: 0 <= i < |dtos| ==>
      order[i] in db.experiences && dtos[i] == ExperienceView(db.hobbies, db.experiences[order[i]])
  {
    ghost var target := LinkedExperiences(db.experienceMoods, MoodLinkIds(db.experienceMoods, moodId));
    dtos, order := [], [];
    var seen: set<nat> := {};
    var todo := db.experienceMoods.Keys;
    while todo != {}
      invariant todo <= db.experienceMoods.Keys
      invariant seen <= target
      invariant forall k :: k in db.experienceMoods && db.experienceMoods[k].moodId == moodId ==>
        k in todo || db.experienceMoods[k].experienceId in seen
      invariant |dtos| == |order|
      invariant forall i :: 0 <= i < |order| ==> order[i] in seen
      invariant forall e :: e in seen ==> e in order
      invariant forall i, j :: 0 <= i < j < |order| ==> order[i] != order[j]
      invariant forall i :: 0 <= i < |dtos| ==>
        order[i] in db.experiences && dtos[i] == ExperienceView(db.hobbies, db.experiences[order[i]])
      decreases todo
    {
      var k :| k in todo;
      var link := db.experienceMoods[k];
      if link.moodId == moodId && link.experienceId !in seen {
        assert k in MoodLinkIds(db.experienceMoods, moodId);
        dtos := dtos + [ExperienceView(db.hobbies, db.experiences[link.experienceId])];
        order := order + [link.experienceId];
        seen := seen + {link.experienceId};
      }
      todo := todo - {k};
    }
    assert forall e :: e in target ==> e in seen;
    DistinctKeysCount(order, target);
  }

  /**
   * One entry per experience-mood row of the experience, so a mood recorded twice
   * appears twice; `order` names the row behind each entry.
   */
  method ListMoodsForExperience(db: Database, experienceId: int) returns (dtos: seq<MoodDto>, ghost order: seq<nat>)
    requires LinksResolve(db.experiences, db.moods, db.experienceMoods)
    ensures |dtos| == |ExperienceLinkIds(db.experienceMoods, experienceId)|
    ensures |order| == |dtos|
    ensures forall k :: k in ExperienceLinkIds(db.experienceMoods, experienceId) <==> k in order
    ensures forall i, j :: 0 <= i < j < |order| ==> order[i] != order[j]
    ensures forall i :: 0 <= i < |dtos| ==>
      order[i] in db.experienceMoods && dtos[i] == MoodEntry(db.moods[db.experienceMoods[order[i]].moodId])
  {
    dtos, order := [], [];
    var todo := db.experienceMoods.Keys;
    while todo != {}
      invariant todo <= db.experienceMoods.Keys
      invariant |dtos| == |order|
      invariant forall i :: 0 <= i < |order| ==>
        order[i] in db.experienceMoods && order[i] !in todo && db.experienceMoods[order[i]].experienceId == experienceId
      invariant forall k :: k in db.experienceMoods && db.experienceMoods[k].experienceId == experienceId ==>
        k in todo || k in order
      invariant forall i, j :: 0 <= i < j < |order| ==> order[i] != order[j]
      invariant forall i :: 0 <= i < |dtos| ==>
        dtos[i] == MoodEntry(db.moods[db.experienceMoods[order[i]].moodId])
      decreases todo
    {
      var k :| k in todo;
      var link := db.experienceMoods[k];
      if link.experienceId == experienceId {
        dtos, order := dtos + [MoodEntry(db.moods[link.moodId])], order + [k];
      }
      todo := todo - {k};
    }
    DistinctKeysCount(order, ExperienceLinkIds(db.experienceMoods, experienceId));
  }

  /** A blank name is refused and nothing is stored; otherwise one mood is inserted under the next identity key. */
  method AddMood(db: Database, moodDto: MoodDto) returns (response: ServiceResponse)
    requires db.Valid()
    modifies db
    ensures db.Valid()
    ensures IsNullOrWhiteSpace(moodDto.moodName) ==>
      response == Respond(Error, ["Mood name cannot be empty."]) && unchanged(db)
    ensures !IsNullOrWhiteSpace(moodDto.moodName) ==>
      var id := old(db.nextMoodId);
      && id !in old(db.moods)
      && response == ServiceResponse(Created, Some(id), [])
      && db.moods == old(db.moods)[id := Mood(id, moodDto.moodName.value)]
      && db.nextMoodId == id + 1
      && db.hobbies == old(db.hobbies) && db.experiences == old(db.experiences)
      && db.experienceMoods == old(db.experienceMoods)
      && db.nextHobbyId == old(db.nextHobbyId) && db.nextExperienceId == old(db.nextExperienceId)
      && db.nextExperienceMoodId == old(db.nextExperienceMoodId)
  {
    if IsNullOrWhiteSpace(moodDto.moodName) {
      return Respond(Error, ["Mood name cannot be empty."]);
    }
    var id := db.nextMoodId;
    db.moods := db.moods[id := Mood(id, moodDto.moodName.value)];
    db.nextMoodId := id + 1;
    response := ServiceResponse(Created, Some(id), []);
  }

  /**
   * An id that disagrees with the record is refused before any lookup, then a
   * missing mood; on success only that mood's name changes, and a blank name is
   * accepted. A null name makes the save throw `DbUpdateException` (the column is
   * `NOT NULL` and only `DbUpdateConcurrencyException` is caught), and nothing is
   * written.
   */
  method UpdateMood(db: Database, id: int, moodDto: MoodDto) returns (outcome: ServiceOutcome)
    requires db.Valid()
    modifies db
    ensures db.Valid()
    ensures id != moodDto.moodId ==> outcome == Answered(Respond(Error, ["Mood ID mismatch."])) && unchanged(db)
    ensures id == moodDto.moodId && id !in old(db.moods) ==>
      outcome == Answered(Respond(NotFound, ["Mood not found."])) && unchanged(db)
    ensures id == moodDto.moodId && id in old(db.moods) && moodDto.moodName.None? ==>
      outcome == Threw("DbUpdateException") && unchanged(db)
    ensures id == moodDto.moodId && id in old(db.moods) && moodDto.moodName.Some? ==>
      && outcome == Answered(Respond(Updated, []))
      && db.moods == old(db.moods)[id := Mood(id, moodDto.moodName.value)]
      && db.hobbies == old(db.hobbies) && db.experiences == old(db.experiences)
      && db.experienceMoods == old(db.experienceMoods)
      && db.nextHobbyId == old(db.nextHobbyId) && db.nextExperienceId == old(db.nextExperienceId)
      && db.nextMoodId == old(db.nextMoodId) && db.nextExperienceMoodId == old(db.nextExperienceMoodId)
  {
    if id != moodDto.moodId {
      return Answered(Respond(Error, ["Mood ID mismatch."]));
    }
    if id !in db.moods {
      return Answered(Respond(NotFound, ["Mood not found."]));
    }
    if moodDto.moodName.None? {
      return Threw("DbUpdateException");
    }
    db.moods := db.moods[id := db.moods[id].(moodName := moodDto.moodName.value)];
    outcome := Answered(Respond(Updated, []));
  }

  /** A missing mood is reported and nothing changes; otherwise the mood goes, with its experience-mood rows. */
  method DeleteMood(db: Database, id: int) returns (response: ServiceResponse)
    requires db.Valid()
    modifies db
    ensures db.Valid()
    ensures id !in old(db.moods) ==> response == Respond(NotFound, ["Mood not found."]) && unchanged(db)
    ensures id in old(db.moods) ==>
      && response == Respond(Deleted, [])
      && db.moods == old(db.moods) - {id}
      && db.experienceMoods == old(db.experienceMoods) - LinksOfMood(old(db.experienceMoods), id)
      && db.hobbies == old(db.hobbies) && db.experiences == old(db.experiences)
      && db.nextHobbyId == old(db.nextHobbyId) && db.nextExperienceId == old(db.nextExperienceId)
      && db.nextMoodId == old(db.nextMoodId) && db.nextExperienceMoodId == old(db.nextExperienceMoodId)
  {
    if id !in db.moods {
      return Respond(NotFound, ["Mood not found."]);
    }
    var links := set k | k in db.experienceMoods && db.experienceMoods[k].moodId == id;
    db.experienceMoods := db.experienceMoods - links;
    db.moods := db.moods - {id};
    response := Respond(Deleted, []);
  }

  /** Listing a mood's experiences never yields more entries than the count the mood reports. */
  lemma ExperiencesForMoodWithinCount(links: map<nat, ExperienceMood>, moodId: int)
    ensures |LinkedExperiences(links, MoodLinkIds(links, moodId))| <= MoodExperienceCount(links, moodId)
  {
    LinkedExperiencesBound(links, MoodLinkIds(links, moodId));
  }
}
