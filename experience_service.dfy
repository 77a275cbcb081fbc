/**
 * `ExperienceService`: the experience queries, the experience mutations (an
 * update also rewrites the mood intensities it is sent), linking an experience
 * to a hobby and unlinking it, and the validation and path bookkeeping of an
 * image upload.
 */
module ExperienceService {
  import opened Models
  import opened Text
  import opened Data
  import HobbyService

  /** The hobby name `ListExperiences` reports for an experience whose hobby is missing. */
  const NoHobbyAssociated: string := "No Hobby Associated"

  /** The entry `ListExperiences` builds: the hobby's name, or `NoHobbyAssociated` when no hobby has that id. */
  function ListedExperience(hobbies: map<nat, Hobby>, e: Experience): ExperienceDto {
    var name := if e.hobbyId in hobbies then hobbies[e.hobbyId].hobbyName else NoHobbyAssociated;
    ExperienceView(hobbies, e).(hobbyName := Some(name))
  }

  /** One entry per stored experience; `order` names the key behind each entry. */
  method ListExperiences(db: Database) returns (dtos: seq<ExperienceDto>, ghost order: seq<nat>)
    ensures |dtos| == |db.experiences|
    ensures |order| == |dtos|
    ensures forall k :: k in db.experiences <==> k in order
    ensures forall i, j :: 0 <= i < j < |order| ==> order[i] != order[j]
    ensures forall i :: 0 <= i < |dtos| ==>
      order[i] in db.experiences && dtos[i] == ListedExperience(db.hobbies, db.experiences[order[i]])
  {
    dtos, order := [], [];
    var todo := db.experiences.Keys;
    while todo != {}
      invariant todo <= db.experiences.Keys
      invariant |dtos| == |order|
      invariant forall i :: 0 <= i < |order| ==> order[i] in db.experiences && order[i] !in todo
      invariant forall k :: k in db.experiences ==> k in todo || k in order
      invariant forall i, j :: 0 <= i < j < |order| ==> order[i] != order[j]
      invariant forall i :: 0 <= i < |dtos| ==> dtos[i] == ListedExperience(db.hobbies, db.experiences[order[i]])
      decreases todo
    {
      var k :| k in todo;
      dtos, order := dtos + [ListedExperience(db.hobbies, db.experiences[k])], order + [k];
      todo := todo - {k};
    }
    DistinctKeysCount(order, db.experiences.Keys);
  }

  /**
   * The list and the lookup report an experience alike, except that the list
   * names a missing hobby "No Hobby Associated" where the lookup leaves the name null.
   */
  lemma ListedAgreesWithFound(hobbies: map<nat, Hobby>, e: Experience)
    ensures e.hobbyId in hobbies <==> ListedExperience(hobbies, e) == ExperienceView(hobbies, e)
    ensures ListedExperience(hobbies, e).(hobbyName := ExperienceView(hobbies, e).hobbyName) == ExperienceView(hobbies, e)
  {
  }

  /** Nothing when no experience has that id; otherwise its fields and its hobby's name, if that hobby exists. */
  method FindExperience(db: Database, id: int) returns (r: Option<ExperienceDto>)
    ensures r.None? <==> id !in db.experiences
    ensures r.Some? ==> r.value == ExperienceView(db.hobbies, db.experiences[id])
  {
    if id !in db.experiences {
      return None;
    }
    r := Some(ExperienceView(db.hobbies, db.experiences[id]));
  }

  /** The same query as the hobby service's: exactly the experiences of the hobby, each once. */
  method ListExperiencesForHobby(db: Database, hobbyId: int) returns (dtos: seq<ExperienceDto>, ghost order: seq<nat>)
    ensures |dtos| == NumberOfExperiences(db.experiences, hobbyId)
    ensures |order| == |dtos|
    ensures forall k :: k in HobbyExperienceIds(db.experiences, hobbyId) <==> k in order
    ensures forall i, j :: 0 <= i < j < |order| ==> order[i] != order[j]
    ensures forall i :: 0 <= i < |dtos| ==>
      order[i] in db.experiences && dtos[i] == ExperienceView(db.hobbies, db.experiences[order[i]])
  {
    dtos, order := HobbyService.ListExperiencesForHobby(db, hobbyId);
  }

  /**
   * One entry per experience-mood row of the mood, without removing repeats, so
   * an experience linked twice appears twice; `order` names the row behind each entry.
   */
  method ListExperiencesForMood(db: Database, moodId: int) returns (dtos: seq<ExperienceDto>, ghost order: seq<nat>)
    requires LinksResolve(db.experiences, db.moods, db.experienceMoods)
    ensures |dtos| == MoodExperienceCount(db.experienceMoods, moodId)
    ensures |order| == |dtos|
    ensures forall k :: k in MoodLinkIds(db.experienceMoods, moodId) <==> k in order
    ensures forall i, j :: 0 <= i < j < |order| ==> order[i] != order[j]
    ensures forall i :: 0 <= i < |dtos| ==>
      order[i] in db.experienceMoods
      && dtos[i] == ExperienceView(db.hobbies, db.experiences[db.experienceMoods[order[i]].experienceId])
  {
    dtos, order := [], [];
    var todo := db.experienceMoods.Keys;
    while todo != {}
      invariant todo <= db.experienceMoods.Keys
      invariant |dtos| == |order|
      invariant forall i :: 0 <= i < |order| ==>
        order[i] in db.experienceMoods && order[i] !in todo && db.experienceMoods[order[i]].moodId == moodId
      invariant forall k :: k in db.experienceMoods && db.experienceMoods[k].moodId == moodId ==>
        k in todo || k in order
      invariant forall i, j :: 0 <= i < j < |order| ==> order[i] != order[j]
      invariant forall i :: 0 <= i < |dtos| ==>
        dtos[i] == ExperienceView(db.hobbies, db.experiences[db.experienceMoods[order[i]].experienceId])
      decreases todo
    {
      var k :| k in todo;
      var link := db.experienceMoods[k];
      if link.moodId == moodId {
        dtos, order := dtos + [ExperienceView(db.hobbies, db.experiences[link.experienceId])], order + [k];
      }
      todo := todo - {k};
    }
    DistinctKeysCount(order, MoodLinkIds(db.experienceMoods, moodId));
  }

  /** The row an `ExperienceDto` describes, under `id`, without an image. */
  function NewExperience(id: int, dto: ExperienceDto): Experience
    requires dto.experienceName.Some?
  {
    Experience(id, dto.experienceName.value, dto.hobbyId, dto.experienceCost, dto.durationInHours,
               dto.experienceDate, dto.experienceLocation, None)
  }

  /**
   * An unknown hobby is reported and nothing is stored. A null name makes the
   * insert fail on the `NOT NULL` column; the catch-all answers Error with its own
   * message followed by the database's, `failureMessage`, and nothing is stored.
   * Otherwise one experience is inserted under the next identity key, and its
   * hobby's count and hours grow by it.
   */
  method AddExperience(db: Database, experienceDto: ExperienceDto, failureMessage: string)
    returns (response: ServiceResponse)
    requires db.Valid()
    modifies db
    ensures db.Valid()
    ensures experienceDto.hobbyId !in old(db.hobbies) ==>
      response == Respond(NotFound, ["Hobby not found."]) && unchanged(db)
    ensures experienceDto.hobbyId in old(db.hobbies) && experienceDto.experienceName.None? ==>
      && response == Respond(Error, ["There was an error adding the experience.", failureMessage])
      && unchanged(db)
    ensures experienceDto.hobbyId in old(db.hobbies) && experienceDto.experienceName.Some? ==>
      var id := old(db.nextExperienceId);
      && id !in old(db.experiences)
      && response == ServiceResponse(Created, Some(id), [])
      && db.experiences == old(db.experiences)[id := NewExperience(id, experienceDto)]
      && db.nextExperienceId == id + 1
      && NumberOfExperiences(db.experiences, experienceDto.hobbyId)
         == NumberOfExperiences(old(db.experiences), experienceDto.hobbyId) + 1
      && HoursSpent(db.experiences, experienceDto.hobbyId)
         == HoursSpent(old(db.experiences), experienceDto.hobbyId) + experienceDto.durationInHours
      && db.hobbies == old(db.hobbies) && db.moods == old(db.moods)
      && db.experienceMoods == old(db.experienceMoods)
      && db.nextHobbyId == old(db.nextHobbyId) && db.nextMoodId == old(db.nextMoodId)
      && db.nextExperienceMoodId == old(db.nextExperienceMoodId)
  {
    if experienceDto.hobbyId !in db.hobbies {
      return Respond(NotFound, ["Hobby not found."]);
    }
    if experienceDto.experienceName.None? {
      return Respond(Error, ["There was an error adding the experience.", failureMessage]);
    }
    var id := db.nextExperienceId;
    InsertExperienceTotals(db.experiences, id, NewExperience(id, experienceDto), experienceDto.hobbyId);
    db.experiences := db.experiences[id := NewExperience(id, experienceDto)];
    db.nextExperienceId := id + 1;
    response := ServiceResponse(Created, Some(id), []);
  }

  // ---- Mood intensities sent with an update ----

  /** One entry of the update's mood list: a row that exists gets both intensities, an unknown row id is skipped. */
  function SetIntensities(links: map<nat, ExperienceMood>, u: MoodIntensityUpdate): map<nat, ExperienceMood> {
    if u.experienceMoodId in links then
      links[u.experienceMoodId := links[u.experienceMoodId].(
        moodIntensityBefore := u.moodIntensityBefore, moodIntensityAfter := u.moodIntensityAfter)]
    else links
  }

  /** The update's mood list applied in order; only intensities change, never a row's key or references. */
  function ApplyIntensities(links: map<nat, ExperienceMood>, updates: seq<MoodIntensityUpdate>)
    : (r: map<nat, ExperienceMood>)
    ensures r.Keys == links.Keys
    ensures forall k :: k in links ==>
      && r[k].experienceMoodId == links[k].experienceMoodId
      && r[k].experienceId == links[k].experienceId
      && r[k].moodId == links[k].moodId
    decreases |updates|
  {
    if updates == [] then links
    else SetIntensities(ApplyIntensities(links, updates[..|updates| - 1]), updates[|updates| - 1])
  }

  /** A row that no entry names keeps its intensities. */
  lemma {:induction false} UnnamedRowUntouched(links: map<nat, ExperienceMood>, updates: seq<MoodIntensityUpdate>, k: nat)
    requires k in links
    requires forall i :: 0 <= i < |updates| ==> updates[i].experienceMoodId != k
    ensures ApplyIntensities(links, updates)[k] == links[k]
    decreases |updates|
  {
    if updates != [] {
      UnnamedRowUntouched(links, updates[..|updates| - 1], k);
    }
  }

  /** When several entries name the same row, the last one wins. */
  lemma {:induction false} LastEntryWins(
    links: map<nat, ExperienceMood>, updates: seq<MoodIntensityUpdate>, k: nat, j: nat)
    requires k in links && j < |updates| && updates[j].experienceMoodId == k
    requires forall i :: j < i < |updates| ==> updates[i].experienceMoodId != k
    ensures ApplyIntensities(links, updates)[k]
         == links[k].(moodIntensityBefore := updates[j].moodIntensityBefore,
                      moodIntensityAfter := updates[j].moodIntensityAfter)
    decreases |updates|
  {
    var prefix := updates[..|updates| - 1];
    if j < |updates| - 1 {
      LastEntryWins(links, prefix, k, j);
    }
  }

  /**
   * Checks, in order, the id against the record, that the experience exists and
   * that the new hobby exists; no failure changes anything. Then the update walks
   * the record's mood list, which throws `NullReferenceException` when the list
   * is null, and saves, which throws `DbUpdateException` when the name is null
   * (the column is `NOT NULL` and only `DbUpdateConcurrencyException` is caught);
   * neither writes anything. On success the experience gets the record's name,
   * hobby, cost, duration, date and location (its image path stays), and every
   * mood entry naming an existing experience-mood row overwrites that row's
   * intensities, whichever experience the row belongs to.
   */
  method UpdateExperience(db: Database, id: int, experienceDto: ExperienceDto) returns (outcome: ServiceOutcome)
    requires db.Valid()
    modifies db
    ensures db.Valid()
    ensures id != experienceDto.experienceId ==>
      outcome == Answered(Respond(Error, ["Experience ID mismatch."])) && unchanged(db)
    ensures id == experienceDto.experienceId && id !in old(db.experiences) ==>
      outcome == Answered(Respond(NotFound, ["Experience not found."])) && unchanged(db)
    ensures id == experienceDto.experienceId && id in old(db.experiences) && experienceDto.hobbyId !in old(db.hobbies) ==>
      outcome == Answered(Respond(NotFound, ["Hobby not found."])) && unchanged(db)
    ensures id == experienceDto.experienceId && id in old(db.experiences) && experienceDto.hobbyId in old(db.hobbies) ==>
      experienceDto.experienceMoods.None? ==>
      outcome == Threw("NullReferenceException") && unchanged(db)
    ensures id == experienceDto.experienceId && id in old(db.experiences) && experienceDto.hobbyId in old(db.hobbies) ==>
      experienceDto.experienceMoods.Some? && experienceDto.experienceName.None? ==>
      outcome == Threw("DbUpdateException") && unchanged(db)
    ensures id == experienceDto.experienceId && id in old(db.experiences) && experienceDto.hobbyId in old(db.hobbies) ==>
      experienceDto.experienceMoods.Some? && experienceDto.experienceName.Some? ==>
      && outcome == Answered(Respond(Updated, []))
      && db.experiences == old(db.experiences)[id := NewExperience(id, experienceDto).(
           experienceImagePath := old(db.experiences)[id].experienceImagePath)]
      && db.experienceMoods == ApplyIntensities(old(db.experienceMoods), experienceDto.experienceMoods.value)
      && db.hobbies == old(db.hobbies) && db.moods == old(db.moods)
      && db.nextHobbyId == old(db.nextHobbyId) && db.nextExperienceId == old(db.nextExperienceId)
      && db.nextMoodId == old(db.nextMoodId) && db.nextExperienceMoodId == old(db.nextExperienceMoodId)
  {
    if id != experienceDto.experienceId {
      return Answered(Respond(Error, ["Experience ID mismatch."]));
    }
    if id !in db.experiences {
      return Answered(Respond(NotFound, ["Experience not found."]));
    }
    if experienceDto.hobbyId !in db.hobbies {
      return Answered(Respond(NotFound, ["Hobby not found."]));
    }
    if experienceDto.experienceMoods.None? {
      return Threw("NullReferenceException");
    }
    var moods := experienceDto.experienceMoods.value;
    var links := db.experienceMoods;
    var i := 0;
    while i < |moods|
      invariant 0 <= i <= |moods|
      invariant links == ApplyIntensities(db.experienceMoods, moods[..i])
    {
      var u := moods[i];
      if u.experienceMoodId in links {
        links := links[u.experienceMoodId := links[u.experienceMoodId].(
          moodIntensityBefore := u.moodIntensityBefore, moodIntensityAfter := u.moodIntensityAfter)];
      }
      assert moods[..i + 1] == moods[..i] + [u];
      i := i + 1;
    }
    assert moods[..i] == moods;
    if experienceDto.experienceName.None? {
      return Threw("DbUpdateException");
    }
    var updated := NewExperience(id, experienceDto).(experienceImagePath := db.experiences[id].experienceImagePath);
    db.experiences := db.experiences[id := updated];
    db.experienceMoods := links;
    outcome := Answered(Respond(Updated, []));
  }

  /** A missing experience is reported; otherwise it goes, with every experience-mood row that names it, and no other row. */
  method DeleteExperience(db: Database, id: int) returns (response: ServiceResponse)
    requires db.Valid()
    modifies db
    ensures db.Valid()
    ensures id !in old(db.experiences) ==>
      response == Respond(NotFound, ["Experience cannot be deleted because it does not exist."]) && unchanged(db)
    ensures id in old(db.experiences) ==>
      && response == Respond(Deleted, [])
      && db.experiences == old(db.experiences) - {id}
      && db.experienceMoods == old(db.experienceMoods) - ExperienceLinkIds(old(db.experienceMoods), id)
      && db.hobbies == old(db.hobbies) && db.moods == old(db.moods)
      && db.nextHobbyId == old(db.nextHobbyId) && db.nextExperienceId == old(db.nextExperienceId)
      && db.nextMoodId == old(db.nextMoodId) && db.nextExperienceMoodId == old(db.nextExperienceMoodId)
  {
    if id !in db.experiences {
      return Respond(NotFound, ["Experience cannot be deleted because it does not exist."]);
    }
    var links := set k | k in db.experienceMoods && db.experienceMoods[k].experienceId == id;
    assert links == ExperienceLinkIds(db.experienceMoods, id);
    db.experienceMoods := db.experienceMoods - links;
    db.experiences := db.experiences - {id};
    response := Respond(Deleted, []);
  }

  /** Both ends must exist; then the experience moves to the hobby, and nothing else changes. */
  method LinkExperienceToHobby(db: Database, experienceId: int, hobbyId: int) returns (response: ServiceResponse)
    requires db.Valid()
    modifies db
    ensures db.Valid()
    ensures experienceId !in old(db.experiences) || hobbyId !in old(db.hobbies) ==>
      && response == Respond(NotFound,
           MissingMessages(experienceId in old(db.experiences), "Experience was not found.",
                           hobbyId in old(db.hobbies), "Hobby was not found."))
      && unchanged(db)
    ensures experienceId in old(db.experiences) && hobbyId in old(db.hobbies) ==>
      && response == Respond(Created, [])
      && db.experiences == old(db.experiences)[experienceId := old(db.experiences)[experienceId].(hobbyId := hobbyId)]
      && db.hobbies == old(db.hobbies) && db.moods == old(db.moods)
      && db.experienceMoods == old(db.experienceMoods)
      && db.nextHobbyId == old(db.nextHobbyId) && db.nextExperienceId == old(db.nextExperienceId)
      && db.nextMoodId == old(db.nextMoodId) && db.nextExperienceMoodId == old(db.nextExperienceMoodId)
  {
    if experienceId !in db.experiences || hobbyId !in db.hobbies {
      return Respond(NotFound, MissingMessages(experienceId in db.experiences, "Experience was not found.",
                                               hobbyId in db.hobbies, "Hobby was not found."));
    }
    db.experiences := db.experiences[experienceId := db.experiences[experienceId].(hobbyId := hobbyId)];
    response := Respond(Created, []);
  }

  /** A missing experience is reported; otherwise its hobby reference becomes the unlinked sentinel 0. */
  method UnlinkExperienceFromHobby(db: Database, experienceId: int) returns (response: ServiceResponse)
    requires db.Valid()
    modifies db
    ensures db.Valid()
    ensures experienceId !in old(db.experiences) ==>
      response == Respond(NotFound, ["Experience was not found."]) && unchanged(db)
    ensures experienceId in old(db.experiences) ==>
      && response == Respond(Deleted, [])
      && db.experiences == old(db.experiences)[experienceId := old(db.experiences)[experienceId].(hobbyId := NoHobby)]
      && db.hobbies == old(db.hobbies) && db.moods == old(db.moods)
      && db.experienceMoods == old(db.experienceMoods)
      && db.nextHobbyId == old(db.nextHobbyId) && db.nextExperienceId == old(db.nextExperienceId)
      && db.nextMoodId == old(db.nextMoodId) && db.nextExperienceMoodId == old(db.nextExperienceMoodId)
  {
    if experienceId !in db.experiences {
      return Respond(NotFound, ["Experience was not found."]);
    }
    db.experiences := db.experiences[experienceId := db.experiences[experienceId].(hobbyId := NoHobby)];
    response := Respond(Deleted, []);
  }

  /** After unlinking, the experience no longer counts towards any hobby: every hobby's count and hours lose exactly its share. */
  lemma UnlinkLeavesEveryHobby(experiences: map<nat, Experience>, experienceId: nat, h: int)
    requires experienceId in experiences && h != NoHobby
    ensures var after := experiences[experienceId := experiences[experienceId].(hobbyId := NoHobby)];
      var e := experiences[experienceId];
      && experienceId !in HobbyExperienceIds(after, h)
      && NumberOfExperiences(after, h) == NumberOfExperiences(experiences, h) - (if e.hobbyId == h then 1 else 0)
      && HoursSpent(after, h) == HoursSpent(experiences, h) - (if e.hobbyId == h then e.durationInHours else 0)
  {
    HobbyService.LinkMovesTotals(experiences, experienceId, NoHobby, h);
  }

  // ---- Image upload ----

  /** The part of an uploaded file the service reads: its client-side name and its length in bytes. */
  datatype UploadedFile = UploadedFile(fileName: string, length: nat)

  const AllowedExtensions: seq<string> := [".jpeg", ".jpg", ".png", ".gif"]

  /** The upload's extension, lower-cased. */
  function ImageExtension(image: UploadedFile): (ext: string)
    ensures ext == [] || (|ext| >= 2 && ext[0] == '.')
    ensures forall i :: 0 <= i < |ext| ==> !('A' <= ext[i] <= 'Z')
  {
    ToLowerInvariant(GetExtension(image.fileName))
  }

  /** The stored file name: the experience id followed by the extension. */
  function ImageFileName(experienceId: int, ext: string): string {
    IntToString(experienceId) + ext
  }

  /**
   * The outcome of the checks before any file is touched, in order: the
   * experience must exist, a non-empty file must be sent, and its lower-cased
   * extension must be allowed. `None` means the upload may proceed.
   */
  function ImageRejection(experienceId: int, experienceFound: bool, image: Option<UploadedFile>)
    : (r: Option<ServiceResponse>)
    ensures !experienceFound ==> r == Some(Respond(NotFound, ["Experience " + IntToString(experienceId) + " not found"]))
    ensures experienceFound && (image.None? || image.value.length == 0) ==>
      r == Some(Respond(Error, ["No image provided or file is empty"]))
    ensures experienceFound && image.Some? && image.value.length > 0 && ImageExtension(image.value) !in AllowedExtensions ==>
      r == Some(Respond(Error, [ImageExtension(image.value) + " is not a valid file extension"]))
    ensures r.None? <==>
      experienceFound && image.Some? && image.value.length > 0 && ImageExtension(image.value) in AllowedExtensions
    ensures r.Some? ==> r.value.status in {NotFound, Error} && |r.value.messages| == 1
  {
    if !experienceFound then
      Some(Respond(NotFound, ["Experience " + IntToString(experienceId) + " not found"]))
    else if image.None? || image.value.length == 0 then
      Some(Respond(Error, ["No image provided or file is empty"]))
    else if ImageExtension(image.value) !in AllowedExtensions then
      Some(Respond(Error, [ImageExtension(image.value) + " is not a valid file extension"]))
    else None
  }

  /**
   * Validates the upload, then (when `fileSaved` says the new file exists on
   * disk) records its name `{id}{ext}` as the experience's image path; the
   * answer is Updated either way. Nothing else in the store changes.
   */
  method UpdateExperienceImage(db: Database, experienceId: int, image: Option<UploadedFile>, fileSaved: bool)
    returns (response: ServiceResponse)
    requires db.Valid()
    modifies db
    ensures db.Valid()
    ensures ImageRejection(experienceId, experienceId in old(db.experiences), image).Some? ==>
      response == ImageRejection(experienceId, experienceId in old(db.experiences), image).value && unchanged(db)
    ensures ImageRejection(experienceId, experienceId in old(db.experiences), image).None? ==>
      && response == Respond(Updated, ["Image uploaded successfully"])
      && db.experiences == (if fileSaved then
           old(db.experiences)[experienceId := old(db.experiences)[experienceId].(
             experienceImagePath := Some(ImageFileName(experienceId, ImageExtension(image.value))))]
         else old(db.experiences))
      && db.hobbies == old(db.hobbies) && db.moods == old(db.moods)
      && db.experienceMoods == old(db.experienceMoods)
      && db.nextHobbyId == old(db.nextHobbyId) && db.nextExperienceId == old(db.nextExperienceId)
      && db.nextMoodId == old(db.nextMoodId) && db.nextExperienceMoodId == old(db.nextExperienceMoodId)
  {
    var rejection := ImageRejection(experienceId, experienceId in db.experiences, image);
    if rejection.Some? {
      return rejection.value;
    }
    if fileSaved {
      var fileName := ImageFileName(experienceId, ImageExtension(image.value));
      db.experiences := db.experiences[experienceId := db.experiences[experienceId].(experienceImagePath := Some(fileName))];
    }
    response := Respond(Updated, ["Image uploaded successfully"]);
  }

  /** The scan of `Path.GetExtension` stops at the last '.' and returns the text from there. */
  lemma {:induction false} ExtensionFrom(path: string, dot: nat, i: nat)
    requires dot + 1 < |path| && path[dot] == '.'
    requires forall j :: dot < j < |path| ==> path[j] != '.' && !IsDirectorySeparator(path[j])
    requires dot < i <= |path|
    ensures ExtensionBefore(path, i) == path[dot..]
    decreases i
  {
    if i - 1 != dot {
      ExtensionFrom(path, dot, i - 1);
    }
  }

  /** The stored file name has exactly the validated extension. */
  lemma ImageFileNameKeepsExtension(experienceId: int, ext: string)
    requires ext in AllowedExtensions
    ensures GetExtension(ImageFileName(experienceId, ext)) == ext
  {
    var digits := IntToString(experienceId);
    var path := digits + ext;
    assert path[|digits|..] == ext;
    ExtensionFrom(path, |digits|, |path|);
  }

  /** In a rendered id followed by an extension, the first '.' is where the extension starts. */
  lemma FirstDot(digits: string, ext: string)
    requires forall i :: 0 <= i < |digits| ==> digits[i] == '-' || IsDigit(digits[i])
    requires |ext| > 0 && ext[0] == '.'
    ensures (digits + ext)[|digits|] == '.'
    ensures forall i :: 0 <= i < |digits| ==> (digits + ext)[i] != '.'
  {
  }

  /** Two experiences never share an image file name, whatever allowed extensions they carry. */
  lemma ImageFileNameInjective(a: int, extA: string, b: int, extB: string)
    requires extA in AllowedExtensions && extB in AllowedExtensions
    requires ImageFileName(a, extA) == ImageFileName(b, extB)
    ensures a == b && extA == extB
  {
    var da, db := IntToString(a), IntToString(b);
    var path := da + extA;
    FirstDot(da, extA);
    FirstDot(db, extB);
    assert |da| == |db|;
    assert da == path[..|da|] == db;
    IntToStringInjective(a, b);
  }
}
