/**
 * `ExperienceMoodService`: the experience-mood rows, each recording how one mood
 * felt before and after one experience. The queries join each row with its
 * experience and its mood; the mutations add, rewrite and remove single rows.
 */
module ExperienceMoodService {
  import opened Models
  import opened Data

  /** The joined view of the row `k`: its own fields, its experience's name and date, and its mood's name. */
  function ExperienceMoodView(
    experiences: map<nat, Experience>, moods: map<nat, Mood>, links: map<nat, ExperienceMood>, k: nat)
    : ExperienceMoodDto
    requires k in links && LinksResolve(experiences, moods, links)
  {
    var l := links[k];
    var e := experiences[l.experienceId];
    ExperienceMoodDto(l.experienceMoodId, l.experienceId, l.moodId, e.experienceName,
                      moods[l.moodId].moodName, e.experienceDate, l.moodIntensityBefore, l.moodIntensityAfter)
  }

  /** One joined entry per row; `order` names the row behind each entry. */
  method ListExperienceMoods(db: Database) returns (dtos: seq<ExperienceMoodDto>, ghost order: seq<nat>)
    requires LinksResolve(db.experiences, db.moods, db.experienceMoods)
    ensures |dtos| == |db.experienceMoods|
    ensures |order| == |dtos|
    ensures forall k :: k in db.experienceMoods <==> k in order
    ensures forall i, j :: 0 <= i < j < |order| ==> order[i] != order[j]
    ensures forall i :: 0 <= i < |dtos| ==>
      order[i] in db.experienceMoods
      && dtos[i] == ExperienceMoodView(db.experiences, db.moods, db.experienceMoods, order[i])
  {
    dtos, order := [], [];
    var todo := db.experienceMoods.Keys;
    while todo != {}
      invariant todo <= db.experienceMoods.Keys
      invariant |dtos| == |order|
      invariant forall i :: 0 <= i < |order| ==> order[i] in db.experienceMoods && order[i] !in todo
      invariant forall k :: k in db.experienceMoods ==> k in todo || k in order
      invariant forall i, j :: 0 <= i < j < |order| ==> order[i] != order[j]
      invariant forall i :: 0 <= i < |dtos| ==>
        dtos[i] == ExperienceMoodView(db.experiences, db.moods, db.experienceMoods, order[i])
      decreases todo
    {
      var k :| k in todo;
      dtos, order := dtos + [ExperienceMoodView(db.experiences, db.moods, db.experienceMoods, k)], order + [k];
      todo := todo - {k};
    }
    DistinctKeysCount(order, db.experienceMoods.Keys);
  }

  /** Nothing exactly when no row has that id; otherwise the joined view of that row. */
  method FindExperienceMood(db: Database, id: int) returns (r: Option<ExperienceMoodDto>)
    requires LinksResolve(db.experiences, db.moods, db.experienceMoods)
    ensures r.None? <==> id !in db.experienceMoods
    ensures r.Some? ==>
      && r.value == ExperienceMoodView(db.experiences, db.moods, db.experienceMoods, id)
      && r.value.experienceName == db.experiences[db.experienceMoods[id].experienceId].experienceName
      && r.value.experienceDate == db.experiences[db.experienceMoods[id].experienceId].experienceDate
      && r.value.moodName == db.moods[db.experienceMoods[id].moodId].moodName
  {
    if id !in db.experienceMoods {
      return None;
    }
    r := Some(ExperienceMoodView(db.experiences, db.moods, db.experienceMoods, id));
  }

  /** Exactly the rows of the experience, joined, each once; `order` names the row behind each entry. */
  method ListExperienceMoodsForExperience(db: Database, experienceId: int)
    returns (dtos: seq<ExperienceMoodDto>, ghost order: seq<nat>)
    requires LinksResolve(db.experiences, db.moods, db.experienceMoods)
    ensures |dtos| == |ExperienceLinkIds(db.experienceMoods, experienceId)|
    ensures |order| == |dtos|
    ensures forall k :: k in ExperienceLinkIds(db.experienceMoods, experienceId) <==> k in order
    ensures forall i, j :: 0 <= i < j < |order| ==> order[i] != order[j]
    ensures forall i :: 0 <= i < |dtos| ==>
      order[i] in db.experienceMoods
      && dtos[i] == ExperienceMoodView(db.experiences, db.moods, db.experienceMoods, order[i])
      && dtos[i].experienceId == experienceId
  {
    dtos, order := [], [];
    var todo := db.experienceMoods.Keys;
    while todo != {}
      invariant todo <= db.experienceMoods.Keys
      invariant |dtos| == |order|
      invariant forall i :: 0 <= i < |order| ==>
        order[i] in db.experienceMoods && order[i] !in todo && db.experienceMoods[order[i]].experienceId == experienceId
      invariant forall k :: k in db.experienceMoods && db.experienceMoods[k].experienceId == experienceId ==>
        k in todo || k in order
      invariant forall i, j :: 0 <= i < j < |order| ==> order[i] != order[j]
      invariant forall i :: 0 <= i < |dtos| ==>
        dtos[i] == ExperienceMoodView(db.experiences, db.moods, db.experienceMoods, order[i])
      decreases todo
    {
      var k :| k in todo;
      if db.experienceMoods[k].experienceId == experienceId {
        dtos, order := dtos + [ExperienceMoodView(db.experiences, db.moods, db.experienceMoods, k)], order + [k];
      }
      todo := todo - {k};
    }
    DistinctKeysCount(order, ExperienceLinkIds(db.experienceMoods, experienceId));
  }

  /**
   * Both references must exist; then one row with the record's references and
   * intensities is inserted under the next identity key, and its mood's count
   * grows by one.
   */
  method AddExperienceMood(db: Database, experienceMoodDto: ExperienceMoodDto) returns (response: ServiceResponse)
    requires db.Valid()
    modifies db
    ensures db.Valid()
    ensures experienceMoodDto.experienceId !in old(db.experiences) || experienceMoodDto.moodId !in old(db.moods) ==>
      response == Respond(NotFound, ["Invalid ExperienceId or MoodId."]) && unchanged(db)
    ensures experienceMoodDto.experienceId in old(db.experiences) && experienceMoodDto.moodId in old(db.moods) ==>
      var id := old(db.nextExperienceMoodId);
      && id !in old(db.experienceMoods)
      && response == ServiceResponse(Created, Some(id), [])
      && db.experienceMoods == old(db.experienceMoods)[id := ExperienceMood(id,
           experienceMoodDto.experienceId, experienceMoodDto.moodId,
           experienceMoodDto.moodIntensityBefore, experienceMoodDto.moodIntensityAfter)]
      && db.nextExperienceMoodId == id + 1
      && MoodExperienceCount(db.experienceMoods, experienceMoodDto.moodId)
         == MoodExperienceCount(old(db.experienceMoods), experienceMoodDto.moodId) + 1
      && db.hobbies == old(db.hobbies) && db.experiences == old(db.experiences) && db.moods == old(db.moods)
      && db.nextHobbyId == old(db.nextHobbyId) && db.nextExperienceId == old(db.nextExperienceId)
      && db.nextMoodId == old(db.nextMoodId)
  {
    if experienceMoodDto.experienceId !in db.experiences || experienceMoodDto.moodId !in db.moods {
      return Respond(NotFound, ["Invalid ExperienceId or MoodId."]);
    }
    var id := db.nextExperienceMoodId;
    var row := ExperienceMood(id, experienceMoodDto.experienceId, experienceMoodDto.moodId,
                              experienceMoodDto.moodIntensityBefore, experienceMoodDto.moodIntensityAfter);
    InsertLinkCount(db.experienceMoods, id, row, experienceMoodDto.moodId);
    db.experienceMoods := db.experienceMoods[id := row];
    db.nextExperienceMoodId := id + 1;
    response := ServiceResponse(Created, Some(id), []);
  }

  /**
   * Checks, in order, the id against the record, that the row exists, and that
   * both new references exist; no failure changes anything. On success only that
   * row changes: both references and both intensities come from the record.
   */
  method UpdateExperienceMood(db: Database, id: int, experienceMoodDto: ExperienceMoodDto)
    returns (response: ServiceResponse)
    requires db.Valid()
    modifies db
    ensures db.Valid()
    ensures id != experienceMoodDto.experienceMoodId ==>
      response == Respond(Error, ["ExperienceMood ID mismatch."]) && unchanged(db)
    ensures id == experienceMoodDto.experienceMoodId && id !in old(db.experienceMoods) ==>
      response == Respond(NotFound, ["ExperienceMood not found."]) && unchanged(db)
    ensures id == experienceMoodDto.experienceMoodId && id in old(db.experienceMoods) ==>
      !(experienceMoodDto.experienceId in old(db.experiences) && experienceMoodDto.moodId in old(db.moods)) ==>
      response == Respond(NotFound, ["Invalid ExperienceId or MoodId."]) && unchanged(db)
    ensures id == experienceMoodDto.experienceMoodId && id in old(db.experienceMoods) ==>
      (experienceMoodDto.experienceId in old(db.experiences) && experienceMoodDto.moodId in old(db.moods)) ==>
      && response == Respond(Updated, [])
      && db.experienceMoods == old(db.experienceMoods)[id := ExperienceMood(id,
           experienceMoodDto.experienceId, experienceMoodDto.moodId,
           experienceMoodDto.moodIntensityBefore, experienceMoodDto.moodIntensityAfter)]
      && db.hobbies == old(db.hobbies) && db.experiences == old(db.experiences) && db.moods == old(db.moods)
      && db.nextHobbyId == old(db.nextHobbyId) && db.nextExperienceId == old(db.nextExperienceId)
      && db.nextMoodId == old(db.nextMoodId) && db.nextExperienceMoodId == old(db.nextExperienceMoodId)
  {
    if id != experienceMoodDto.experienceMoodId {
      return Respond(Error, ["ExperienceMood ID mismatch."]);
    }
    if id !in db.experienceMoods {
      return Respond(NotFound, ["ExperienceMood not found."]);
    }
    if experienceMoodDto.experienceId !in db.experiences || experienceMoodDto.moodId !in db.moods {
      return Respond(NotFound, ["Invalid ExperienceId or MoodId."]);
    }
    db.experienceMoods := db.experienceMoods[id := ExperienceMood(id,
      experienceMoodDto.experienceId, experienceMoodDto.moodId,
      experienceMoodDto.moodIntensityBefore, experienceMoodDto.moodIntensityAfter)];
    response := Respond(Updated, []);
  }

  /** Removes exactly the row `id` when it exists, answering `notFound` otherwise. */
  method RemoveRow(db: Database, id: int, notFound: string) returns (response: ServiceResponse)
    requires db.Valid()
    modifies db
    ensures db.Valid()
    ensures id !in old(db.experienceMoods) ==> response == Respond(NotFound, [notFound]) && unchanged(db)
    ensures id in old(db.experienceMoods) ==>
      && response == Respond(Deleted, [])
      && db.experienceMoods == old(db.experienceMoods) - {id}
      && db.hobbies == old(db.hobbies) && db.experiences == old(db.experiences) && db.moods == old(db.moods)
      && db.nextHobbyId == old(db.nextHobbyId) && db.nextExperienceId == old(db.nextExperienceId)
      && db.nextMoodId == old(db.nextMoodId) && db.nextExperienceMoodId == old(db.nextExperienceMoodId)
  {
    if id !in db.experienceMoods {
      return Respond(NotFound, [notFound]);
    }
    db.experienceMoods := db.experienceMoods - {id};
    response := Respond(Deleted, []);
  }

  /** A missing row is reported; otherwise exactly that row goes. */
  method DeleteExperienceMood(db: Database, id: int) returns (response: ServiceResponse)
    requires db.Valid()
    modifies db
    ensures db.Valid()
    ensures id !in old(db.experienceMoods) ==>
      response == Respond(NotFound, ["ExperienceMood not found."]) && unchanged(db)
    ensures id in old(db.experienceMoods) ==>
      && response == Respond(Deleted, [])
      && db.experienceMoods == old(db.experienceMoods) - {id}
      && db.hobbies == old(db.hobbies) && db.experiences == old(db.experiences) && db.moods == old(db.moods)
      && db.nextHobbyId == old(db.nextHobbyId) && db.nextExperienceId == old(db.nextExperienceId)
      && db.nextMoodId == old(db.nextMoodId) && db.nextExperienceMoodId == old(db.nextExperienceMoodId)
  {
    response := RemoveRow(db, id, "ExperienceMood not found.");
  }

  /** `x ?? 0`. */
  function OrZero(x: Option<int>): (r: int)
    ensures x.Some? ==> r == x.value
    ensures x.None? ==> r == 0
  {
    match x
    case Some(v) => v
    case None => 0
  }

  /**
   * Both ends must exist; then a new row is always inserted, even when the pair is
   * already linked, with absent intensities read as 0; the answer carries no id.
   */
  method LinkExperienceToMood(
    db: Database, experienceId: int, moodId: int, moodIntensityBefore: Option<int>, moodIntensityAfter: Option<int>)
    returns (response: ServiceResponse)
    requires db.Valid()
    modifies db
    ensures db.Valid()
    ensures experienceId !in old(db.experiences) || moodId !in old(db.moods) ==>
      && response == Respond(NotFound,
           MissingMessages(experienceId in old(db.experiences), "Experience not found.",
                           moodId in old(db.moods), "Mood not found."))
      && unchanged(db)
    ensures experienceId in old(db.experiences) && moodId in old(db.moods) ==>
      var id := old(db.nextExperienceMoodId);
      && id !in old(db.experienceMoods)
      && response == Respond(Created, [])
      && db.experienceMoods == old(db.experienceMoods)[id := ExperienceMood(id, experienceId, moodId,
           OrZero(moodIntensityBefore), OrZero(moodIntensityAfter))]
      && db.nextExperienceMoodId == id + 1
      && MoodExperienceCount(db.experienceMoods, moodId) == MoodExperienceCount(old(db.experienceMoods), moodId) + 1
      && db.hobbies == old(db.hobbies) && db.experiences == old(db.experiences) && db.moods == old(db.moods)
      && db.nextHobbyId == old(db.nextHobbyId) && db.nextExperienceId == old(db.nextExperienceId)
      && db.nextMoodId == old(db.nextMoodId)
  {
    if experienceId !in db.experiences || moodId !in db.moods {
      return Respond(NotFound, MissingMessages(experienceId in db.experiences, "Experience not found.",
                                               moodId in db.moods, "Mood not found."));
    }
    var id := db.nextExperienceMoodId;
    var row := ExperienceMood(id, experienceId, moodId, OrZero(moodIntensityBefore), OrZero(moodIntensityAfter));
    InsertLinkCount(db.experienceMoods, id, row, moodId);
    db.experienceMoods := db.experienceMoods[id := row];
    db.nextExperienceMoodId := id + 1;
    response := Respond(Created, []);
  }

  /** Looks the row up by its own id: a missing row is reported; otherwise exactly that row goes. */
  method UnlinkExperienceFromMood(db: Database, experienceMoodId: int) returns (response: ServiceResponse)
    requires db.Valid()
    modifies db
    ensures db.Valid()
    ensures experienceMoodId !in old(db.experienceMoods) ==>
      response == Respond(NotFound, ["Link between experience and mood not found."]) && unchanged(db)
    ensures experienceMoodId in old(db.experienceMoods) ==>
      && response == Respond(Deleted, [])
      && db.experienceMoods == old(db.experienceMoods) - {experienceMoodId}
      && db.hobbies == old(db.hobbies) && db.experiences == old(db.experiences) && db.moods == old(db.moods)
      && db.nextHobbyId == old(db.nextHobbyId) && db.nextExperienceId == old(db.nextExperienceId)
      && db.nextMoodId == old(db.nextMoodId) && db.nextExperienceMoodId == old(db.nextExperienceMoodId)
  {
    response := RemoveRow(db, experienceMoodId, "Link between experience and mood not found.");
  }

  /** Linking a pair that is already linked adds a second row, so the mood's count exceeds its number of distinct experiences. */
  lemma RelinkingDuplicates(links: map<nat, ExperienceMood>, k: nat, id: nat, before: int, after: int)
    requires k in links && id !in links
    ensures var l := links[k];
      var links' := links[id := ExperienceMood(id, l.experienceId, l.moodId, before, after)];
      |LinkedExperiences(links', MoodLinkIds(links', l.moodId))| < MoodExperienceCount(links', l.moodId)
  {
    var l := links[k];
    var links' := links[id := ExperienceMood(id, l.experienceId, l.moodId, before, after)];
    DuplicateLinkCountsTwice(links', l.moodId, k, id);
  }

  /**
   * Linking a pair and then unlinking the row that the link created leaves the
   * links as they were; only the row counter has moved, and only when both ends
   * existed. The link answers Created exactly when the unlink answers Deleted.
   */
  method LinkThenUnlinkRestores(
    db: Database, experienceId: int, moodId: int, moodIntensityBefore: Option<int>, moodIntensityAfter: Option<int>)
    returns (linked: ServiceResponse, unlinked: ServiceResponse)
    requires db.Valid()
    modifies db
    ensures db.Valid()
    ensures db.experienceMoods == old(db.experienceMoods)
    ensures db.nextExperienceMoodId ==
      old(db.nextExperienceMoodId) + (if experienceId in old(db.experiences) && moodId in old(db.moods) then 1 else 0)
    ensures linked.status == Created <==> unlinked.status == Deleted
    ensures db.hobbies == old(db.hobbies) && db.experiences == old(db.experiences) && db.moods == old(db.moods)
    ensures db.nextHobbyId == old(db.nextHobbyId) && db.nextExperienceId == old(db.nextExperienceId)
    ensures db.nextMoodId == old(db.nextMoodId)
  {
    var id := db.nextExperienceMoodId;
    ghost var links := db.experienceMoods;
    linked := LinkExperienceToMood(db, experienceId, moodId, moodIntensityBefore, moodIntensityAfter);
    unlinked := UnlinkExperienceFromMood(db, id);
    if linked.status == Created {
      assert db.experienceMoods == links by {
        assert forall k :: k in db.experienceMoods <==> k in links;
      }
    }
  }
}
