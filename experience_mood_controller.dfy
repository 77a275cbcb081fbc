/**
 * `ExperienceMoodController`, the `api/ExperienceMood` routes: each action calls
 * the experience-mood service and turns its answer into an HTTP result.
 */
module ExperienceMoodController {
  import opened Models
  import opened Text
  import opened Data
  import opened Http
  import ExperienceMoodService

  /** `GET List`: always 200, with one joined entry per row. */
  method ListExperienceMoods(db: Database) returns (r: ActionResult<seq<ExperienceMoodDto>>, ghost order: seq<nat>)
    requires LinksResolve(db.experiences, db.moods, db.experienceMoods)
    ensures r.Ok? && |r.value| == |db.experienceMoods|
    ensures |order| == |r.value|
    ensures forall k :: k in db.experienceMoods <==> k in order
    ensures forall i :: 0 <= i < |r.value| ==>
      order[i] in db.experienceMoods
      && r.value[i] == ExperienceMoodService.ExperienceMoodView(db.experiences, db.moods, db.experienceMoods, order[i])
  {
    var dtos;
    dtos, order := ExperienceMoodService.ListExperienceMoods(db);
    r := Ok(dtos);
  }

  /** `GET Find/{id}`: 404 without a body for an unknown row, otherwise 200 with its joined view. */
  method FindExperienceMood(db: Database, id: int) returns (r: ActionResult<ExperienceMoodDto>)
    requires LinksResolve(db.experiences, db.moods, db.experienceMoods)
    ensures StatusCode(r) == 404 <==> id !in db.experienceMoods
    ensures id !in db.experienceMoods ==> r == NotFoundResult(None)
    ensures id in db.experienceMoods ==>
      r == Ok(ExperienceMoodService.ExperienceMoodView(db.experiences, db.moods, db.experienceMoods, id))
  {
    var found := ExperienceMoodService.FindExperienceMood(db, id);
    r := Found(found);
  }

  /** `GET ListForExperience/{experienceId}`: always 200, with the experience's rows. */
  method ListExperienceMoodsForExperience(db: Database, experienceId: int)
    returns (r: ActionResult<seq<ExperienceMoodDto>>, ghost order: seq<nat>)
    requires LinksResolve(db.experiences, db.moods, db.experienceMoods)
    ensures r.Ok? && |r.value| == |ExperienceLinkIds(db.experienceMoods, experienceId)|
    ensures |order| == |r.value|
    ensures forall k :: k in ExperienceLinkIds(db.experienceMoods, experienceId) <==> k in order
    ensures forall i :: 0 <= i < |r.value| ==>
      order[i] in db.experienceMoods
      && r.value[i] == ExperienceMoodService.ExperienceMoodView(db.experiences, db.moods, db.experienceMoods, order[i])
  {
    var dtos;
    dtos, order := ExperienceMoodService.ListExperienceMoodsForExperience(db, experienceId);
    r := Ok(dtos);
  }

  /** `POST Add`: 404 with the service's message when a reference is missing; otherwise 201 pointing at the new row. */
  method AddExperienceMood(db: Database, experienceMoodDto: ExperienceMoodDto) returns (r: ActionResult<ExperienceMoodDto>)
    requires db.Valid()
    modifies db
    ensures db.Valid()
    ensures experienceMoodDto.experienceId !in old(db.experiences) || experienceMoodDto.moodId !in old(db.moods) ==>
      r == NotFoundResult(Some(["Invalid ExperienceId or MoodId."])) && unchanged(db)
    ensures experienceMoodDto.experienceId in old(db.experiences) && experienceMoodDto.moodId in old(db.moods) ==>
      var id := old(db.nextExperienceMoodId);
      && r == CreatedResult("api/ExperienceMood/Find/" + IntToString(id), experienceMoodDto)
      && db.experienceMoods == old(db.experienceMoods)[id := ExperienceMood(id,
           experienceMoodDto.experienceId, experienceMoodDto.moodId,
           experienceMoodDto.moodIntensityBefore, experienceMoodDto.moodIntensityAfter)]
      && db.nextExperienceMoodId == id + 1
      && UnchangedExcept(db, {LinkTable, LinkCounter})
  {
    var response := ExperienceMoodService.AddExperienceMood(db, experienceMoodDto);
    r := FromStatus(response, true, CreatedAt("api/ExperienceMood/Find/", response.createdId, experienceMoodDto));
  }

  /**
   * `POST Update/{id}`: a route id that disagrees with the record answers 400
   * without reaching the service; a missing row or reference answers 404 with
   * the service's message; otherwise the row is rewritten and the answer is 204.
   */
  method UpdateExperienceMood(db: Database, id: int, experienceMoodDto: ExperienceMoodDto) returns (r: ActionResult<()>)
    requires db.Valid()
    modifies db
    ensures db.Valid()
    ensures id != experienceMoodDto.experienceMoodId ==> r == BadRequest && unchanged(db)
    ensures id == experienceMoodDto.experienceMoodId && id !in old(db.experienceMoods) ==>
      r == NotFoundResult(Some(["ExperienceMood not found."])) && unchanged(db)
    ensures id == experienceMoodDto.experienceMoodId && id in old(db.experienceMoods) ==>
      !(experienceMoodDto.experienceId in old(db.experiences) && experienceMoodDto.moodId in old(db.moods)) ==>
      r == NotFoundResult(Some(["Invalid ExperienceId or MoodId."])) && unchanged(db)
    ensures id == experienceMoodDto.experienceMoodId && id in old(db.experienceMoods) ==>
      (experienceMoodDto.experienceId in old(db.experiences) && experienceMoodDto.moodId in old(db.moods)) ==>
      && r == NoContent
      && db.experienceMoods == old(db.experienceMoods)[id := ExperienceMood(id,
           experienceMoodDto.experienceId, experienceMoodDto.moodId,
           experienceMoodDto.moodIntensityBefore, experienceMoodDto.moodIntensityAfter)]
      && UnchangedExcept(db, {LinkTable})
  {
    if id != experienceMoodDto.experienceMoodId {
      return BadRequest;
    }
    var response := ExperienceMoodService.UpdateExperienceMood(db, id, experienceMoodDto);
    r := FromStatus(response, true, NoContent);
  }

  /** `DELETE Delete/{id}`: 404 without a body for an unknown row; otherwise exactly that row goes, and 204. */
  method DeleteExperienceMood(db: Database, id: int) returns (r: ActionResult<()>)
    requires db.Valid()
    modifies db
    ensures db.Valid()
    ensures id !in old(db.experienceMoods) ==> r == NotFoundResult(None) && unchanged(db)
    ensures id in old(db.experienceMoods) ==>
      && r == NoContent
      && db.experienceMoods == old(db.experienceMoods) - {id}
      && UnchangedExcept(db, {LinkTable})
  {
    var response := ExperienceMoodService.DeleteExperienceMood(db, id);
    r := FromStatus(response, false, NoContent);
  }
}
