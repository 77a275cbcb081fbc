/**
 * `ExperienceController`, the `api/Experience` routes: each action calls the
 * experience service and turns its answer into an HTTP result.
 */
module ExperienceController {
  import opened Models
  import opened Text
  import opened Data
  import opened Http
  import ExperienceService

  /** `GET List`: always 200, with one entry per experience. */
  method ListExperiences(db: Database) returns (r: ActionResult<seq<ExperienceDto>>, ghost order: seq<nat>)
    ensures r.Ok? && |r.value| == |db.experiences|
    ensures |order| == |r.value|
    ensures forall k :: k in db.experiences <==> k in order
    ensures forall i :: 0 <= i < |r.value| ==>
      order[i] in db.experiences
      && r.value[i] == ExperienceService.ListedExperience(db.hobbies, db.experiences[order[i]])
  {
    var dtos;
    dtos, order := ExperienceService.ListExperiences(db);
    r := Ok(dtos);
  }

  /** `GET Find/{id}`: 404 without a body for an unknown experience, otherwise 200 with it. */
  method FindExperience(db: Database, id: int) returns (r: ActionResult<ExperienceDto>)
    ensures StatusCode(r) == 404 <==> id !in db.experiences
    ensures id !in db.experiences ==> r == NotFoundResult(None)
    ensures id in db.experiences ==> r == Ok(ExperienceView(db.hobbies, db.experiences[id]))
  {
    var found := ExperienceService.FindExperience(db, id);
    r := Found(found);
  }

  /**
   * `POST Add`: only Error is tested, so an unknown hobby, which the service
   * reports as NotFound, still answers 201, with a location that ends where the
   * missing id would go, and nothing is stored. A null name answers 500 with the
   * service's two messages.
   */
  method AddExperience(db: Database, experienceDto: ExperienceDto, failureMessage: string)
    returns (r: ActionResult<ExperienceDto>)
    requires db.Valid()
    modifies db
    ensures db.Valid()
    ensures experienceDto.hobbyId !in old(db.hobbies) ==>
      r == CreatedResult("api/Experience/Find/", experienceDto) && unchanged(db)
    ensures experienceDto.hobbyId in old(db.hobbies) && experienceDto.experienceName.None? ==>
      && r == ServerError(["There was an error adding the experience.", failureMessage])
      && unchanged(db)
    ensures experienceDto.hobbyId in old(db.hobbies) && experienceDto.experienceName.Some? ==>
      var id := old(db.nextExperienceId);
      && r == CreatedResult("api/Experience/Find/" + IntToString(id), experienceDto)
      && db.experiences == old(db.experiences)[id := ExperienceService.NewExperience(id, experienceDto)]
      && db.nextExperienceId == id + 1
      && UnchangedExcept(db, {ExperienceTable, ExperienceCounter})
  {
    var response := ExperienceService.AddExperience(db, experienceDto, failureMessage);
    r := CreatedUnlessError(response, "api/Experience/Find/", experienceDto);
  }

  /**
   * `PUT Update/{id}`: a route id that disagrees with the record answers 400
   * without reaching the service; an unknown experience or hobby answers 404
   * without a body; a null mood list or a null name makes the service throw, so
   * the answer is 500 and nothing is written; otherwise the update is applied and
   * the answer is 204.
   */
  method UpdateExperience(db: Database, id: int, experienceDto: ExperienceDto) returns (r: ActionResult<()>)
    requires db.Valid()
    modifies db
    ensures db.Valid()
    ensures id != experienceDto.experienceId ==> r == BadRequest && unchanged(db)
    ensures id == experienceDto.experienceId && (id !in old(db.experiences) || experienceDto.hobbyId !in old(db.hobbies)) ==>
      r == NotFoundResult(None) && unchanged(db)
    ensures id == experienceDto.experienceId && id in old(db.experiences) && experienceDto.hobbyId in old(db.hobbies) ==>
      experienceDto.experienceMoods.None? ==>
      r == Unhandled("NullReferenceException") && unchanged(db)
    ensures id == experienceDto.experienceId && id in old(db.experiences) && experienceDto.hobbyId in old(db.hobbies) ==>
      experienceDto.experienceMoods.Some? && experienceDto.experienceName.None? ==>
      r == Unhandled("DbUpdateException") && unchanged(db)
    ensures id == experienceDto.experienceId && id in old(db.experiences) && experienceDto.hobbyId in old(db.hobbies) ==>
      experienceDto.experienceMoods.Some? && experienceDto.experienceName.Some? ==>
      && r == NoContent
      && db.experiences == old(db.experiences)[id := ExperienceService.NewExperience(id, experienceDto).(
           experienceImagePath := old(db.experiences)[id].experienceImagePath)]
      && db.experienceMoods == ExperienceService.ApplyIntensities(old(db.experienceMoods), experienceDto.experienceMoods.value)
      && UnchangedExcept(db, {ExperienceTable, LinkTable})
  {
    if id != experienceDto.experienceId {
      return BadRequest;
    }
    var outcome := ExperienceService.UpdateExperience(db, id, experienceDto);
    r := FromOutcome(outcome, false, NoContent);
  }

  /** `DELETE Delete/{id}`: 404 without a body for an unknown experience; otherwise it goes with its rows, and 204. */
  method DeleteExperience(db: Database, id: int) returns (r: ActionResult<()>)
    requires db.Valid()
    modifies db
    ensures db.Valid()
    ensures id !in old(db.experiences) ==> r == NotFoundResult(None) && unchanged(db)
    ensures id in old(db.experiences) ==>
      && r == NoContent
      && db.experiences == old(db.experiences) - {id}
      && db.experienceMoods == old(db.experienceMoods) - ExperienceLinkIds(old(db.experienceMoods), id)
      && UnchangedExcept(db, {ExperienceTable, LinkTable})
  {
    var response := ExperienceService.DeleteExperience(db, id);
    r := FromStatus(response, false, NoContent);
  }

  /**
   * `PUT UpdateExperienceImage/{id}`: 404 without a body for an unknown
   * experience, 500 with the service's message for a rejected upload, and
   * otherwise 200 with a confirmation.
   */
  method UpdateExperienceImage(
    db: Database, id: int, image: Option<ExperienceService.UploadedFile>, fileSaved: bool)
    returns (r: ActionResult<string>)
    requires db.Valid()
    modifies db
    ensures db.Valid()
    ensures id !in old(db.experiences) ==> r == NotFoundResult(None) && unchanged(db)
    ensures id in old(db.experiences) && ExperienceService.ImageRejection(id, true, image).Some? ==>
      r == ServerError(ExperienceService.ImageRejection(id, true, image).value.messages) && unchanged(db)
    ensures ExperienceService.ImageRejection(id, id in old(db.experiences), image).None? ==>
      && r == Ok("Image updated successfully.")
      && db.experiences == (if fileSaved then
           old(db.experiences)[id := old(db.experiences)[id].(experienceImagePath := Some(
             ExperienceService.ImageFileName(id, ExperienceService.ImageExtension(image.value))))]
         else old(db.experiences))
      && UnchangedExcept(db, {ExperienceTable})
  {
    var response := ExperienceService.UpdateExperienceImage(db, id, image, fileSaved);
    r := FromStatus(response, false, Ok("Image updated successfully."));
  }
}
