/**
 * `HobbyService`: the hobby queries, which report per hobby how many
 * experiences it has and how many hours they took, and the hobby mutations.
 * Deleting a hobby takes its experiences with it (cascading foreign key), and
 * their experience-mood rows with them.
 */
module HobbyService {
  import opened Models
  import opened Text
  import opened Data

  /** What the service reports about the hobby stored under `id`: its name, and the count and hours of its experiences. */
  ghost function HobbySummary(hobbies: map<nat, Hobby>, experiences: map<nat, Experience>, id: int): HobbyDto
    requires id in hobbies
  {
    var hobby := hobbies[id];
    HobbyDto(hobby.hobbyId, Some(hobby.hobbyName),
             NumberOfExperiences(experiences, hobby.hobbyId), HoursSpent(experiences, hobby.hobbyId))
  }

  /** `hobby.Experiences.Count` and `hobby.Experiences.Sum(e => e.DurationinHours)`. */
  method ExperienceTotals(experiences: map<nat, Experience>, hobbyId: int) returns (count: nat, hours: Hundredths)
    ensures count == NumberOfExperiences(experiences, hobbyId)
    ensures hours == HoursSpent(experiences, hobbyId)
  {
    count, hours := 0, 0;
    var todo := experiences.Keys;
    ghost var done: set<nat> := {};
    while todo != {}
      invariant todo + done == experiences.Keys && todo !! done
      invariant count == |Where(experiences, done, OfHobby(hobbyId))|
      invariant hours == TotalDuration(experiences, Where(experiences, done, OfHobby(hobbyId)))
      decreases todo
    {
      var k :| k in todo;
      HobbyTotalsStep(experiences, done, k, hobbyId);
      Visit(experiences.Keys, todo, done, k);
      if experiences[k].hobbyId == hobbyId {
        count, hours := count + 1, hours + experiences[k].durationInHours;
      }
      todo, done := todo - {k}, done + {k};
    }
  }

  /**
   * One entry per stored hobby, with that hobby's experience count and hours.
   * The rows come in no particular order; `order` names the key behind each entry.
   */
  method ListHobbies(db: Database) returns (dtos: seq<HobbyDto>, ghost order: seq<nat>)
    ensures |dtos| == |db.hobbies|
    ensures |order| == |dtos|
    ensures forall k :: k in db.hobbies <==> k in order
    ensures forall i, j :: 0 <= i < j < |order| ==> order[i] != order[j]
    ensures forall i :: 0 <= i < |dtos| ==>
      order[i] in db.hobbies && dtos[i] == HobbySummary(db.hobbies, db.experiences, order[i])
  {
    dtos, order := [], [];
    var todo := db.hobbies.Keys;
    while todo != {}
      invariant todo <= db.hobbies.Keys
      invariant |dtos| == |order|
      invariant forall i :: 0 <= i < |order| ==> order[i] in db.hobbies && order[i] !in todo
      invariant forall k :: k in db.hobbies ==> k in todo || k in order
      invariant forall i, j :: 0 <= i < j < |order| ==> order[i] != order[j]
      invariant forall i :: 0 <= i < |dtos| ==> dtos[i] == HobbySummary(db.hobbies, db.experiences, order[i])
      decreases todo
    {
      var k :| k in todo;
      var hobby := db.hobbies[k];
      var count, hours := ExperienceTotals(db.experiences, hobby.hobbyId);
      dtos := dtos + [HobbyDto(hobby.hobbyId, Some(hobby.hobbyName), count, hours)];
      todo, order := todo - {k}, order + [k];
    }
    DistinctKeysCount(order, db.hobbies.Keys);
  }

  /** Nothing when no hobby has that id, otherwise the same summary the list reports. */
  method FindHobby(db: Database, id: int) returns (r: Option<HobbyDto>)
    ensures r.None? <==> id !in db.hobbies
    ensures r.Some? ==> r.value == HobbySummary(db.hobbies, db.experiences, id)
  {
    if id !in db.hobbies {
      return None;
    }
    var hobby := db.hobbies[id];
    var count, hours := ExperienceTotals(db.experiences, hobby.hobbyId);
    r := Some(HobbyDto(hobby.hobbyId, Some(hobby.hobbyName), count, hours));
  }

  /** Exactly the experiences whose `HobbyId` is `hobbyId`, each once; `order` names the key behind each entry. */
  method ListExperiencesForHobby(db: Database, hobbyId: int) returns (dtos: seq<ExperienceDto>, ghost order: seq<nat>)
    ensures |dtos| == NumberOfExperiences(db.experiences, hobbyId)
    ensures |order| == |dtos|
    ensures forall k :: k in HobbyExperienceIds(db.experiences, hobbyId) <==> k in order
    ensures forall i, j :: 0 <= i < j < |order| ==> order[i] != order[j]
    ensures forall i :: 0 <= i < |dtos| ==>
      order[i] in db.experiences && dtos[i] == ExperienceView(db.hobbies, db.experiences[order[i]])
  {
    dtos, order := [], [];
    var todo := db.experiences.Keys;
    while todo != {}
      invariant todo <= db.experiences.Keys
      invariant |dtos| == |order|
      invariant forall i :: 0 <= i < |order| ==>
        order[i] in db.experiences && order[i] !in todo && db.experiences[order[i]].hobbyId == hobbyId
      invariant forall k :: k in db.experiences && db.experiences[k].hobbyId == hobbyId ==> k in todo || k in order
      invariant forall i, j :: 0 <= i < j < |order| ==> order[i] != order[j]
      invariant forall i :: 0 <= i < |dtos| ==> dtos[i] == ExperienceView(db.hobbies, db.experiences[order[i]])
      decreases todo
    {
      var k :| k in todo;
      var e := db.experiences[k];
      if e.hobbyId == hobbyId {
        dtos, order := dtos + [ExperienceView(db.hobbies, e)], order + [k];
      }
      todo := todo - {k};
    }
    DistinctKeysCount(order, HobbyExperienceIds(db.experiences, hobbyId));
  }

  /** A blank name is refused and nothing is stored; otherwise one hobby is inserted under the next identity key. */
  method AddHobby(db: Database, hobbyDto: HobbyDto) returns (response: ServiceResponse)
    requires db.Valid()
    modifies db
    ensures db.Valid()
    ensures IsNullOrWhiteSpace(hobbyDto.hobbyName) ==>
      response == Respond(Error, ["Hobby name cannot be empty."]) && unchanged(db)
    ensures !IsNullOrWhiteSpace(hobbyDto.hobbyName) ==>
      var id := old(db.nextHobbyId);
      && id !in old(db.hobbies)
      && response == ServiceResponse(Created, Some(id), [])
      && db.hobbies == old(db.hobbies)[id := Hobby(id, hobbyDto.hobbyName.value)]
      && db.nextHobbyId == id + 1
      && db.experiences == old(db.experiences) && db.moods == old(db.moods)
      && db.experienceMoods == old(db.experienceMoods)
      && db.nextExperienceId == old(db.nextExperienceId) && db.nextMoodId == old(db.nextMoodId)
      && db.nextExperienceMoodId == old(db.nextExperienceMoodId)
  {
    if IsNullOrWhiteSpace(hobbyDto.hobbyName) {
      return Respond(Error, ["Hobby name cannot be empty."]);
    }
    var id := db.nextHobbyId;
    db.hobbies := db.hobbies[id := Hobby(id, hobbyDto.hobbyName.value)];
    db.nextHobbyId := id + 1;
    response := ServiceResponse(Created, Some(id), []);
  }

  /**
   * An id that disagrees with the record is refused before any lookup, then a
   * missing hobby; on success only that hobby's name changes, and a blank name
   * is accepted. A null name makes the save throw `DbUpdateException` (the
   * column is `NOT NULL` and only `DbUpdateConcurrencyException` is caught), and
   * nothing is written.
   */
  method UpdateHobby(db: Database, id: int, hobbyDto: HobbyDto) returns (outcome: ServiceOutcome)
    requires db.Valid()
    modifies db
    ensures db.Valid()
    ensures id != hobbyDto.hobbyId ==> outcome == Answered(Respond(Error, ["Hobby ID mismatch."])) && unchanged(db)
    ensures id == hobbyDto.hobbyId && id !in old(db.hobbies) ==>
      outcome == Answered(Respond(NotFound, ["Hobby not found."])) && unchanged(db)
    ensures id == hobbyDto.hobbyId && id in old(db.hobbies) && hobbyDto.hobbyName.None? ==>
      outcome == Threw("DbUpdateException") && unchanged(db)
    ensures id == hobbyDto.hobbyId && id in old(db.hobbies) && hobbyDto.hobbyName.Some? ==>
      && outcome == Answered(Respond(Updated, []))
      && db.hobbies == old(db.hobbies)[id := Hobby(id, hobbyDto.hobbyName.value)]
      && db.experiences == old(db.experiences) && db.moods == old(db.moods)
      && db.experienceMoods == old(db.experienceMoods)
      && db.nextHobbyId == old(db.nextHobbyId) && db.nextExperienceId == old(db.nextExperienceId)
      && db.nextMoodId == old(db.nextMoodId) && db.nextExperienceMoodId == old(db.nextExperienceMoodId)
  {
    if id != hobbyDto.hobbyId {
      return Answered(Respond(Error, ["Hobby ID mismatch."]));
    }
    if id !in db.hobbies {
      return Answered(Respond(NotFound, ["Hobby not found."]));
    }
    if hobbyDto.hobbyName.None? {
      return Threw("DbUpdateException");
    }
    db.hobbies := db.hobbies[id := db.hobbies[id].(hobbyName := hobbyDto.hobbyName.value)];
    outcome := Answered(Respond(Updated, []));
  }

  /**
   * A missing hobby is reported and nothing changes; otherwise the hobby goes,
   * and with it its experiences and their experience-mood rows.
   */
  method DeleteHobby(db: Database, id: int) returns (response: ServiceResponse)
    requires db.Valid()
    modifies db
    ensures db.Valid()
    ensures id !in old(db.hobbies) ==> response == Respond(NotFound, ["Hobby not found."]) && unchanged(db)
    ensures id in old(db.hobbies) ==>
      var gone := HobbyExperienceIds(old(db.experiences), id);
      && response == Respond(Deleted, [])
      && db.hobbies == old(db.hobbies) - {id}
      && db.experiences == old(db.experiences) - gone
      && db.experienceMoods == old(db.experienceMoods) - LinksOfExperiences(old(db.experienceMoods), gone)
      && db.moods == old(db.moods)
      && db.nextHobbyId == old(db.nextHobbyId) && db.nextExperienceId == old(db.nextExperienceId)
      && db.nextMoodId == old(db.nextMoodId) && db.nextExperienceMoodId == old(db.nextExperienceMoodId)
  {
    if id !in db.hobbies {
      return Respond(NotFound, ["Hobby not found."]);
    }
    var gone := set k | k in db.experiences && db.experiences[k].hobbyId == id;
    assert gone == HobbyExperienceIds(db.experiences, id);
    var links := set k | k in db.experienceMoods && db.experienceMoods[k].experienceId in gone;
    db.experienceMoods := db.experienceMoods - links;
    db.experiences := db.experiences - gone;
    db.hobbies := db.hobbies - {id};
    response := Respond(Deleted, []);
  }

  /** Both ends must exist; then the experience moves to the hobby, and nothing else changes. */
  method LinkHobbyToExperience(db: Database, hobbyId: int, experienceId: int) returns (response: ServiceResponse)
    requires db.Valid()
    modifies db
    ensures db.Valid()
    ensures hobbyId !in old(db.hobbies) || experienceId !in old(db.experiences) ==>
      && response == Respond(NotFound,
           MissingMessages(hobbyId in old(db.hobbies), "Hobby was not found.",
                           experienceId in old(db.experiences), "Experience was not found."))
      && unchanged(db)
    ensures hobbyId in old(db.hobbies) && experienceId in old(db.experiences) ==>
      && response == Respond(Created, [])
      && db.experiences == old(db.experiences)[experienceId := old(db.experiences)[experienceId].(hobbyId := hobbyId)]
      && db.hobbies == old(db.hobbies) && db.moods == old(db.moods)
      && db.experienceMoods == old(db.experienceMoods)
      && db.nextHobbyId == old(db.nextHobbyId) && db.nextExperienceId == old(db.nextExperienceId)
      && db.nextMoodId == old(db.nextMoodId) && db.nextExperienceMoodId == old(db.nextExperienceMoodId)
  {
    if hobbyId !in db.hobbies || experienceId !in db.experiences {
      return Respond(NotFound, MissingMessages(hobbyId in db.hobbies, "Hobby was not found.",
                                               experienceId in db.experiences, "Experience was not found."));
    }
    db.experiences := db.experiences[experienceId := db.experiences[experienceId].(hobbyId := hobbyId)];
    response := Respond(Created, []);
  }

  /** The NotFound branch of unlinking: the response when the hobby or the experience is missing, nothing otherwise. */
  function UnlinkHobbyFromExperienceNotFound(
    hobbies: map<nat, Hobby>, experiences: map<nat, Experience>, hobbyId: int, experienceId: int)
    : (r: Option<ServiceResponse>)
    ensures r.None? <==> hobbyId in hobbies && experienceId in experiences
    ensures r.Some? ==> r.value.status == NotFound && r.value.createdId.None? && 1 <= |r.value.messages| <= 2
  {
    if hobbyId in hobbies && experienceId in experiences then None
    else Some(Respond(NotFound, MissingMessages(hobbyId in hobbies, "Hobby was not found.",
                                                experienceId in experiences, "Experience was not found.")))
  }

  // ---- How the mutations move the reported totals ----

  /** Linking an experience to a hobby moves its count and hours from its former hobby to the new one. */
  lemma LinkMovesTotals(experiences: map<nat, Experience>, experienceId: nat, hobbyId: int, h: int)
    requires experienceId in experiences
    ensures var after := experiences[experienceId := experiences[experienceId].(hobbyId := hobbyId)];
      var e := experiences[experienceId];
      && NumberOfExperiences(after, h)
         == NumberOfExperiences(experiences, h) - (if e.hobbyId == h then 1 else 0) + (if hobbyId == h then 1 else 0)
      && HoursSpent(after, h)
         == HoursSpent(experiences, h) - (if e.hobbyId == h then e.durationInHours else 0)
            + (if hobbyId == h then e.durationInHours else 0)
  {
    ReplaceExperienceTotals(experiences, experienceId, experiences[experienceId].(hobbyId := hobbyId), h);
  }
}
