/**
 * `HobbyController`, the `api/Hobby` routes: each action calls the hobby service
 * and turns its answer into an HTTP result.
 */
module HobbyController {
  import opened Models
  import opened Text
  import opened Data
  import opened Http
  import HobbyService

  /** `GET List`: always 200, with one summary per hobby. */
  method ListHobbies(db: Database) returns (r: ActionResult<seq<HobbyDto>>, ghost order: seq<nat>)
    ensures r.Ok? && |r.value| == |db.hobbies|
    ensures |order| == |r.value|
    ensures forall k :: k in db.hobbies <==> k in order
    ensures forall i :: 0 <= i < |r.value| ==>
      order[i] in db.hobbies && r.value[i] == HobbyService.HobbySummary(db.hobbies, db.experiences, order[i])
  {
    var dtos;
    dtos, order := HobbyService.ListHobbies(db);
    r := Ok(dtos);
  }

  /** `GET Find/{id}`: 404 without a body for an unknown hobby, otherwise 200 with its summary. */
  method FindHobby(db: Database, id: int) returns (r: ActionResult<HobbyDto>)
    ensures StatusCode(r) == 404 <==> id !in db.hobbies
    ensures id !in db.hobbies ==> r == NotFoundResult(None)
    ensures id in db.hobbies ==> r == Ok(HobbyService.HobbySummary(db.hobbies, db.experiences, id))
  {
    var found := HobbyService.FindHobby(db, id);
    r := Found(found);
  }

  /** `GET Experiences/{hobbyId}`: always 200, with the hobby's experiences. */
  method ListExperiencesForHobby(db: Database, hobbyId: int) returns (r: ActionResult<seq<ExperienceDto>>, ghost order: seq<nat>)
    ensures r.Ok? && |r.value| == NumberOfExperiences(db.experiences, hobbyId)
    ensures |order| == |r.value|
    ensures forall k :: k in HobbyExperienceIds(db.experiences, hobbyId) <==> k in order
    ensures forall i :: 0 <= i < |r.value| ==>
      order[i] in db.experiences && r.value[i] == ExperienceView(db.hobbies, db.experiences[order[i]])
  {
    var dtos;
    dtos, order := HobbyService.ListExperiencesForHobby(db, hobbyId);
    r := Ok(dtos);
  }

  /** `POST Add`: a blank name answers 500 with the service's message; otherwise 201 pointing at the new hobby. */
  method AddHobby(db: Database, hobbyDto: HobbyDto) returns (r: ActionResult<HobbyDto>)
    requires db.Valid()
    modifies db
    ensures db.Valid()
    ensures IsNullOrWhiteSpace(hobbyDto.hobbyName) ==>
      r == ServerError(["Hobby name cannot be empty."]) && unchanged(db)
    ensures !IsNullOrWhiteSpace(hobbyDto.hobbyName) ==>
      var id := old(db.nextHobbyId);
      && r == CreatedResult("api/Hobby/Find/" + IntToString(id), hobbyDto)
      && db.hobbies == old(db.hobbies)[id := Hobby(id, hobbyDto.hobbyName.value)]
      && db.nextHobbyId == id + 1
      && UnchangedExcept(db, {HobbyTable, HobbyCounter})
  {
    var response := HobbyService.AddHobby(db, hobbyDto);
    r := FromStatus(response, true, CreatedAt("api/Hobby/Find/", response.createdId, hobbyDto));
  }

  /**
   * `PUT Update/{id}`: a route id that disagrees with the record answers 400
   * without reaching the service; an unknown hobby answers 404 with the
   * service's message; a null name makes the service throw, so the answer is
   * 500 and nothing is written; otherwise the name is replaced and the answer is 204.
   */
  method UpdateHobby(db: Database, id: int, hobbyDto: HobbyDto) returns (r: ActionResult<()>)
    requires db.Valid()
    modifies db
    ensures db.Valid()
    ensures id != hobbyDto.hobbyId ==> r == BadRequest && unchanged(db)
    ensures id == hobbyDto.hobbyId && id !in old(db.hobbies) ==>
      r == NotFoundResult(Some(["Hobby not found."])) && unchanged(db)
    ensures id == hobbyDto.hobbyId && id in old(db.hobbies) && hobbyDto.hobbyName.None? ==>
      r == Unhandled("DbUpdateException") && unchanged(db)
    ensures id == hobbyDto.hobbyId && id in old(db.hobbies) && hobbyDto.hobbyName.Some? ==>
      && r == NoContent
      && db.hobbies == old(db.hobbies)[id := Hobby(id, hobbyDto.hobbyName.value)]
      && UnchangedExcept(db, {HobbyTable})
  {
    if id != hobbyDto.hobbyId {
      return BadRequest;
    }
    var outcome := HobbyService.UpdateHobby(db, id, hobbyDto);
    r := FromOutcome(outcome, true, NoContent);
  }

  /** `DELETE Delete/{id}`: 404 without a body for an unknown hobby; otherwise the cascading delete and 204. */
  method DeleteHobby(db: Database, id: int) returns (r: ActionResult<()>)
    requires db.Valid()
    modifies db
    ensures db.Valid()
    ensures id !in old(db.hobbies) ==> r == NotFoundResult(None) && unchanged(db)
    ensures id in old(db.hobbies) ==>
      var gone := HobbyExperienceIds(old(db.experiences), id);
      && r == NoContent
      && db.hobbies == old(db.hobbies) - {id}
      && db.experiences == old(db.experiences) - gone
      && db.experienceMoods == old(db.experienceMoods) - LinksOfExperiences(old(db.experienceMoods), gone)
      && UnchangedExcept(db, {HobbyTable, ExperienceTable, LinkTable})
  {
    var response := HobbyService.DeleteHobby(db, id);
    r := FromStatus(response, false, NoContent);
  }

  /** `POST Link`: 404 without a body when either end is missing; otherwise the experience moves to the hobby and 204. */
  method LinkHobbyToExperience(db: Database, hobbyId: int, experienceId: int) returns (r: ActionResult<()>)
    requires db.Valid()
    modifies db
    ensures db.Valid()
    ensures hobbyId !in old(db.hobbies) || experienceId !in old(db.experiences) ==>
      r == NotFoundResult(None) && unchanged(db)
    ensures hobbyId in old(db.hobbies) && experienceId in old(db.experiences) ==>
      && r == NoContent
      && db.experiences == old(db.experiences)[experienceId := old(db.experiences)[experienceId].(hobbyId := hobbyId)]
      && UnchangedExcept(db, {ExperienceTable})
  {
    var response := HobbyService.LinkHobbyToExperience(db, hobbyId, experienceId);
    r := FromStatus(response, false, NoContent);
  }
}
