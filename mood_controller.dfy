/**
 * `MoodController`, the `api/Mood` routes: each action calls the mood service
 * and turns its answer into an HTTP result.
 */
module MoodController {
  import opened Models
  import opened Text
  import opened Data
  import opened Http
  import MoodService

  /** `GET List`: always 200, with one summary per mood. */
  method ListMoods(db: Database) returns (r: ActionResult<seq<MoodDto>>, ghost order: seq<nat>)
    ensures r.Ok? && |r.value| == |db.moods|
    ensures |order| == |r.value|
    ensures forall k :: k in db.moods <==> k in order
    ensures forall i :: 0 <= i < |r.value| ==>
      order[i] in db.moods && r.value[i] == MoodService.MoodSummary(db.moods, db.experienceMoods, order[i])
  {
    var dtos;
    dtos, order := MoodService.ListMoods(db);
    r := Ok(dtos);
  }

  /** `GET Find/{id}`: 404 without a body for an unknown mood, otherwise 200 with its summary. */
  method FindMood(db: Database, id: int) returns (r: ActionResult<MoodDto>)
    ensures StatusCode(r) == 404 <==> id !in db.moods
    ensures id !in db.moods ==> r == NotFoundResult(None)
    ensures id in db.moods ==> r == Ok(MoodService.MoodSummary(db.moods, db.experienceMoods, id))
  {
    var found := MoodService.FindMood(db, id);
    r := Found(found);
  }

  /** `GET Experiences/{moodId}`: always 200, with each experience linked to the mood once. */
  method ListExperiencesForMood(db: Database, moodId: int) returns (r: ActionResult<seq<ExperienceDto>>, ghost order: seq<nat>)
    requires LinksResolve(db.experiences, db.moods, db.experienceMoods)
    ensures r.Ok? && |r.value| == |LinkedExperiences(db.experienceMoods, MoodLinkIds(db.experienceMoods, moodId))|
    ensures |order| == |r.value|
    ensures forall e :: e in LinkedExperiences(db.experienceMoods, MoodLinkIds(db.experienceMoods, moodId)) <==> e in order
    ensures forall i, j :: 0 <= i < j < |order| ==> order[i] != order[j]
    ensures forall i :: 0 <= i < |r.value| ==>
      order[i] in db.experiences && r.value[i] == ExperienceView(db.hobbies, db.experiences[order[i]])
  {
    var dtos;
    dtos, order := MoodService.ListExperiencesForMood(db, moodId);
    r := Ok(dtos);
  }

  /**
   * `POST Add`: only Error is tested, so a blank name answers 500 with the
   * service's message; otherwise 201 pointing at the new mood.
   */
  method AddMood(db: Database, moodDto: MoodDto) returns (r: ActionResult<MoodDto>)
    requires db.Valid()
    modifies db
    ensures db.Valid()
    ensures IsNullOrWhiteSpace(moodDto.moodName) ==>
      r == ServerError(["Mood name cannot be empty."]) && unchanged(db)
    ensures !IsNullOrWhiteSpace(moodDto.moodName) ==>
      var id := old(db.nextMoodId);
      && r == CreatedResult("api/Mood/Find/" + IntToString(id), moodDto)
      && db.moods == old(db.moods)[id := Mood(id, moodDto.moodName.value)]
      && db.nextMoodId == id + 1
      && UnchangedExcept(db, {MoodTable, MoodCounter})
  {
    var response := MoodService.AddMood(db, moodDto);
    r := CreatedUnlessError(response, "api/Mood/Find/", moodDto);
  }

  /**
   * `PUT Update/{id}`: a route id that disagrees with the record answers 400
   * without reaching the service; an unknown mood answers 404 with the
   * service's message; a null name makes the service throw, so the answer is
   * 500 and nothing is written; otherwise the name is replaced and the answer is 204.
   */
  method UpdateMood(db: Database, id: int, moodDto: MoodDto) returns (r: ActionResult<()>)
    requires db.Valid()
    modifies db
    ensures db.Valid()
    ensures id != moodDto.moodId ==> r == BadRequest && unchanged(db)
    ensures id == moodDto.moodId && id !in old(db.moods) ==>
      r == NotFoundResult(Some(["Mood not found."])) && unchanged(db)
    ensures id == moodDto.moodId && id in old(db.moods) && moodDto.moodName.None? ==>
      r == Unhandled("DbUpdateException") && unchanged(db)
    ensures id == moodDto.moodId && id in old(db.moods) && moodDto.moodName.Some? ==>
      && r == NoContent
      && db.moods == old(db.moods)[id := Mood(id, moodDto.moodName.value)]
      && UnchangedExcept(db, {MoodTable})
  {
    if id != moodDto.moodId {
      return BadRequest;
    }
    var outcome := MoodService.UpdateMood(db, id, moodDto);
    r := FromOutcome(outcome, true, NoContent);
  }

  /** `DELETE Delete/{id}`: 404 without a body for an unknown mood; otherwise the mood and its rows go, and 204. */
  method DeleteMood(db: Database, id: int) returns (r: ActionResult<()>)
    requires db.Valid()
    modifies db
    ensures db.Valid()
    ensures id !in old(db.moods) ==> r == NotFoundResult(None) && unchanged(db)
    ensures id in old(db.moods) ==>
      && r == NoContent
      && db.moods == old(db.moods) - {id}
      && db.experienceMoods == old(db.experienceMoods) - LinksOfMood(old(db.experienceMoods), id)
      && UnchangedExcept(db, {MoodTable, LinkTable})
  {
    var response := MoodService.DeleteMood(db, id);
    r := FromStatus(response, false, NoContent);
  }
}
