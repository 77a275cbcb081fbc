# HobbyMood service and API layer in Dafny

HobbyMood is an ASP.NET Core application for keeping a log of hobbies. It stores
hobbies, the experiences in which one engaged in a hobby, moods, and
experience-mood rows. Each experience-mood row records how strongly one mood was
felt before and after one experience. The application reports per hobby how
many experiences it has and how many hours they took. It reports per mood how
many experience-mood rows name it.

This project models the four services that implement all of this over the
database (`HobbyService`, `MoodService`, `ExperienceService`,
`ExperienceMoodService`) and the four JSON API controllers that expose them
(`api/Hobby`, `api/Mood`, `api/Experience`, `api/ExperienceMood`).

- `models.dfy` (module `Models`): the stored rows, the transfer records (DTOs) and
  `ServiceResponse`.
- `database.dfy` (module `Data`): the database context as a class `Database`
  holding four tables (`map`s from identity key to row) and their identity
  counters. Also the integrity the foreign keys enforce, and the derived values
  the services report (`NumberOfExperiences`, `HoursSpent`, `MoodExperienceCount`),
  with lemmas on how inserting, removing and rewriting a row moves them.
- `text.dfy` (module `Text`): the .NET string routines the services call
  (`string.IsNullOrWhiteSpace`, `ToLowerInvariant`, `Path.GetExtension`, and the
  decimal rendering of an `int`).
- `hobby_service.dfy`, `mood_service.dfy`, `experience_service.dfy`,
  `experience_mood_service.dfy`: one module per service. Every query is a
  method with a loop over a table, proved against a specification function.
  Every mutation is a method on the `Database` that keeps `Valid()`. Each
  mutation states its response and the whole new state of the store for every
  branch.
- `http.dfy` (module `Http`): the ASP.NET Core action results and the
  status-to-result decisions the controllers share.
- `hobby_controller.dfy`, `mood_controller.dfy`, `experience_controller.dfy`,
  `experience_mood_controller.dfy`: one module per API controller. Each action
  states its HTTP result and the new state of the store end to end.

Some behaviour of the code is modelled as written, because the model follows
the code:

- `MoodExperienceCount` counts experience-mood rows, not distinct experiences.
  Linking a pair twice adds a second row and counts it twice
  (`ExperienceMoodService.RelinkingDuplicates`).
- `MoodService.ListExperiencesForMood` returns each experience once.
  `ExperienceService.ListExperiencesForMood` returns one entry per row, so an
  experience can appear twice.
- `ExperienceController.AddExperience` tests only for `Error`. An unknown hobby,
  which the service reports as `NotFound`, still answers 201 Created. Its
  location is `api/Experience/Find/` with no id, and nothing is stored.
- `ExperienceService.UpdateExperience` rewrites the intensities of every
  experience-mood row its mood list names, whichever experience the row belongs to.
- `ExperienceService.UnlinkExperienceFromHobby` sets the experience's `HobbyId` to
  0. No hobby has that key, so the model's integrity predicate allows this
  "unlinked" value.

## Model

| member | source | states |
|---|---|---|
| Data.Database.constructor | HobbyMood/Data/Migrations/20250127114640_experience.cs:18-19 | An empty store whose identity counters start at 1 satisfies the store invariant: keys are positive, below their counter, equal to the row's own id, and every reference resolves |
| Data.InsertExperienceTotals | HobbyMood/Services/HobbyService.cs:41-42 | Inserting an experience adds 1 and its duration to its own hobby's count and hours, and changes no other hobby's |
| Data.RemoveExperienceTotals | HobbyMood/Services/HobbyService.cs:41-42 | Removing an experience takes 1 and its duration from its own hobby's count and hours, and from no other hobby's |
| Data.ReplaceExperienceTotals | HobbyMood/Services/HobbyService.cs:41-42 | Rewriting an experience moves its count and hours from its old hobby to its new one |
| Data.TotalDurationRemove | HobbyMood/Services/HobbyService.cs:42 | The hours sum does not depend on the order in which the experiences are visited |
| Data.InsertLinkCount | HobbyMood/Services/MoodService.cs:38 | A new experience-mood row adds exactly 1 to its mood's count and changes no other mood's count |
| Data.LinkedExperiencesBound | HobbyMood/Services/MoodService.cs:68-97 | The distinct experiences reached through a set of rows never outnumber the rows |
| Data.DuplicateLinkCountsTwice | HobbyMood/Services/MoodService.cs:38 | Two rows linking the same experience to a mood make the mood's count exceed its number of distinct experiences |
| Text.ToLowerInvariant | HobbyMood/Services/ExperienceService.cs:411 | The result has the input's length, lower-cases each ASCII letter, leaves other characters alone, and holds no upper-case ASCII letter |
| Text.GetExtension | HobbyMood/Services/ExperienceService.cs:411 | The extension is empty or a suffix of the path that starts at its last '.' and holds no further '.' and no directory separator |
| Text.IntToString | HobbyMood/Services/ExperienceService.cs:431 | The rendering is non-empty, made of digits and '-', and starts with '-' exactly for negative numbers |
| Text.IntToStringInjective | HobbyMood/Services/ExperienceService.cs:431 | Distinct ids have distinct decimal renderings |
| HobbyService.ExperienceTotals | HobbyMood/Services/HobbyService.cs:41-42 | The loop computes exactly the hobby's experience count and the sum of their durations |
| HobbyService.ListHobbies | HobbyMood/Services/HobbyService.cs:24-46 | One entry per stored hobby, each hobby once, with its name, the number of experiences that reference it and their total hours |
| HobbyService.FindHobby | HobbyMood/Services/HobbyService.cs:49-70 | Nothing exactly when no hobby has the id; otherwise the same summary the list gives |
| HobbyService.ListExperiencesForHobby | HobbyMood/Services/HobbyService.cs:75-103 | Exactly the experiences whose HobbyId is the hobby's, each once, as many as the hobby's reported count |
| HobbyService.AddHobby | HobbyMood/Services/HobbyService.cs:106-140 | A null or blank name answers Error "Hobby name cannot be empty." and stores nothing; otherwise one hobby is inserted under a fresh identity key, which the response carries, and nothing else changes |
| HobbyService.UpdateHobby | HobbyMood/Services/HobbyService.cs:145-192 | An id that differs from the record's answers Error; an unknown hobby answers NotFound; a null name throws `DbUpdateException` out of the service, which catches only concurrency failures, and nothing is written; otherwise only that hobby's name changes and the answer is Updated |
| HobbyService.DeleteHobby | HobbyMood/Services/HobbyService.cs:197-225 | An unknown hobby answers NotFound; otherwise the hobby, its experiences and their experience-mood rows are removed, and nothing else |
| Models.MissingMessages | HobbyMood/Services/HobbyService.cs:243-244 | The NotFound messages of the link operations: one per missing entity, the first entity's before the second's, none exactly when both exist |
| HobbyService.LinkHobbyToExperience | HobbyMood/Services/HobbyService.cs:229-263 | A missing hobby or experience answers NotFound with its messages; otherwise only the experience's HobbyId changes and the answer is Created |
| HobbyService.UnlinkHobbyFromExperienceNotFound | HobbyMood/Services/HobbyService.cs:267-283 | NotFound with one or two messages exactly when the hobby or the experience is missing |
| HobbyService.LinkMovesTotals | HobbyMood/Services/HobbyService.cs:229-263 | Linking moves the experience's count and hours from its former hobby to the new one |
| MoodService.LinkCount | HobbyMood/Services/MoodService.cs:38 | The loop counts exactly the experience-mood rows that name the mood |
| MoodService.ListMoods | HobbyMood/Services/MoodService.cs:23-42 | One entry per stored mood, each mood once, with its name and its number of experience-mood rows |
| MoodService.FindMood | HobbyMood/Services/MoodService.cs:45-64 | Nothing exactly when no mood has the id; otherwise the same summary the list gives |
| MoodService.ListExperiencesForMood | HobbyMood/Services/MoodService.cs:68-97 | Exactly the experiences linked to the mood through some row, each once |
| MoodService.ListMoodsForExperience | HobbyMood/Services/MoodService.cs:100-120 | One mood entry per experience-mood row of the experience, a mood recorded twice appearing twice, with its count left at 0 |
| MoodService.AddMood | HobbyMood/Services/MoodService.cs:123-157 | A null or blank name answers Error "Mood name cannot be empty." and stores nothing; otherwise one mood is inserted under a fresh identity key, which the response carries |
| MoodService.UpdateMood | HobbyMood/Services/MoodService.cs:160-205 | An id that differs from the record's answers Error; an unknown mood answers NotFound; a null name throws `DbUpdateException` out of the service, which catches only concurrency failures, and nothing is written; otherwise only that mood's name changes |
| MoodService.DeleteMood | HobbyMood/Services/MoodService.cs:208-235 | An unknown mood answers NotFound; otherwise the mood and exactly its experience-mood rows are removed |
| MoodService.ExperiencesForMoodWithinCount | HobbyMood/Services/MoodService.cs:38 | A mood's listed experiences never outnumber the count the mood reports |
| ExperienceService.ListExperiences | HobbyMood/Services/ExperienceService.cs:22-58 | One entry per stored experience, each once, naming its hobby or "No Hobby Associated" when the hobby is missing |
| ExperienceService.ListedAgreesWithFound | HobbyMood/Services/ExperienceService.cs:41 | A listed entry equals the found view of the same experience exactly when its hobby exists, and otherwise differs from it only in the hobby name |
| ExperienceService.FindExperience | HobbyMood/Services/ExperienceService.cs:61-94 | Nothing exactly when no experience has the id; otherwise its fields and its hobby's name |
| ExperienceService.ListExperiencesForHobby | HobbyMood/Services/ExperienceService.cs:98-130 | Exactly the experiences of the hobby, each once, as many as the hobby's reported count |
| ExperienceService.ListExperiencesForMood | HobbyMood/Services/ExperienceService.cs:133-151 | One entry per experience-mood row of the mood, as many as the mood's reported count, each showing the row's experience |
| ExperienceService.AddExperience | HobbyMood/Services/ExperienceService.cs:155-195 | An unknown hobby answers NotFound "Hobby not found." and stores nothing; a null name answers Error with "There was an error adding the experience." and the database's message, storing nothing; otherwise one experience is inserted under a fresh key, and its hobby's count grows by 1 and its hours by the duration |
| ExperienceService.ApplyIntensities | HobbyMood/Services/ExperienceService.cs:241-253 | Applying the mood list keeps every row's key, experience and mood; only intensities change |
| ExperienceService.UnnamedRowUntouched | HobbyMood/Services/ExperienceService.cs:241-253 | A row no entry names keeps its intensities |
| ExperienceService.LastEntryWins | HobbyMood/Services/ExperienceService.cs:241-253 | When several entries name one row, the row ends with the last entry's intensities |
| ExperienceService.UpdateExperience | HobbyMood/Services/ExperienceService.cs:200-271 | Mismatched id answers Error, a missing experience or hobby answers NotFound, each changing nothing; a null mood list throws `NullReferenceException` and a null name throws `DbUpdateException`, both escaping with nothing written; otherwise the experience takes the record's fields but keeps its image path, and the loop over the mood list leaves the rows equal to ApplyIntensities of the list |
| ExperienceService.DeleteExperience | HobbyMood/Services/ExperienceService.cs:277-309 | An unknown experience answers NotFound; otherwise it and exactly its experience-mood rows are removed |
| ExperienceService.LinkExperienceToHobby | HobbyMood/Services/ExperienceService.cs:312-343 | A missing experience or hobby answers NotFound with its messages; otherwise only the experience's HobbyId changes and the answer is Created |
| ExperienceService.UnlinkExperienceFromHobby | HobbyMood/Services/ExperienceService.cs:346-376 | An unknown experience answers NotFound; otherwise only its HobbyId changes, to 0, and the answer is Deleted |
| ExperienceService.UnlinkLeavesEveryHobby | HobbyMood/Services/ExperienceService.cs:346-376 | After unlinking, the experience counts towards no hobby: its former hobby loses exactly its count and hours |
| ExperienceService.ImageExtension | HobbyMood/Services/ExperienceService.cs:411 | The upload's extension is empty or starts with '.', and holds no upper-case ASCII letter |
| ExperienceService.ImageRejection | HobbyMood/Services/ExperienceService.cs:393-418 | The checks in order: a missing experience answers NotFound, an absent or empty file answers Error, and a lower-cased extension outside .jpeg/.jpg/.png/.gif answers Error "<extension> is not a valid file extension"; the upload proceeds exactly when all three pass |
| ExperienceService.UpdateExperienceImage | HobbyMood/Services/ExperienceService.cs:388-460 | A rejected upload changes nothing; otherwise the image path becomes "{id}{ext}" when the file was saved, and the answer is Updated "Image uploaded successfully" |
| ExperienceService.ImageFileNameKeepsExtension | HobbyMood/Services/ExperienceService.cs:431 | The stored file name has exactly the validated extension |
| ExperienceService.ImageFileNameInjective | HobbyMood/Services/ExperienceService.cs:431 | Two experiences never share an image file name |
| ExperienceMoodService.ListExperienceMoods | HobbyMood/Services/ExperienceMoodService.cs:22-47 | One joined entry per row, each row once, with its experience's name and date and its mood's name |
| ExperienceMoodService.FindExperienceMood | HobbyMood/Services/ExperienceMoodService.cs:51-77 | Nothing exactly when no row has the id; otherwise the row joined with its experience and mood |
| ExperienceMoodService.ListExperienceMoodsForExperience | HobbyMood/Services/ExperienceMoodService.cs:224-247 | Exactly the rows of the experience, joined, each once |
| ExperienceMoodService.AddExperienceMood | HobbyMood/Services/ExperienceMoodService.cs:80-122 | A missing experience or mood answers NotFound "Invalid ExperienceId or MoodId."; otherwise one row is inserted under a fresh key, which the response carries, and its mood's count grows by 1 |
| ExperienceMoodService.UpdateExperienceMood | HobbyMood/Services/ExperienceMoodService.cs:125-186 | Mismatched id answers Error, a missing row or reference answers NotFound, each changing nothing; otherwise only that row is rewritten from the record |
| ExperienceMoodService.DeleteExperienceMood | HobbyMood/Services/ExperienceMoodService.cs:189-215 | A missing row answers NotFound; otherwise exactly that row is removed |
| ExperienceMoodService.OrZero | HobbyMood/Services/ExperienceMoodService.cs:276-277 | An absent intensity reads as 0, a present one as itself |
| ExperienceMoodService.LinkExperienceToMood | HobbyMood/Services/ExperienceMoodService.cs:251-294 | A missing experience or mood answers NotFound with its messages; otherwise a new row is always inserted, even for a pair already linked, and the answer carries no id |
| ExperienceMoodService.UnlinkExperienceFromMood | HobbyMood/Services/ExperienceMoodService.cs:297-326 | A missing row answers NotFound; otherwise exactly that row is removed |
| ExperienceMoodService.RelinkingDuplicates | HobbyMood/Services/ExperienceMoodService.cs:251-294 | Linking an already linked pair makes the mood's count exceed its number of distinct experiences |
| ExperienceMoodService.LinkThenUnlinkRestores | HobbyMood/Services/ExperienceMoodService.cs:251-326 | Linking a pair and then unlinking the row the link created leaves the link table as it was, moves only the row counter (by one exactly when both ends exist), and the link answers Created exactly when the unlink answers Deleted |
| Http.Found | HobbyMood/Controllers/HobbyController.cs:54-66 | 404 without a body exactly when the service found nothing, otherwise 200 with the value |
| Http.FromStatus | HobbyMood/Controllers/HobbyController.cs:146-165 | NotFound gives 404, with the messages when asked; Error gives 500 with the messages; any other status gives the success result |
| Http.CreatedAt | HobbyMood/Controllers/HobbyController.cs:108-123 | 201 with the value; the location is the route followed by the created id, or the bare route when there is no id |
| Http.FromOutcome | HobbyMood/Controllers/ExperienceController.cs:114-124 | An exception that escapes the service becomes a 500 carrying it; an answered response is mapped as by FromStatus |
| Http.CreatedUnlessError | HobbyMood/Controllers/MoodController.cs:100-110 | Error gives 500 with the messages; every other status, NotFound included, gives 201 |
| HobbyController.ListHobbies | HobbyMood/Controllers/HobbyController.cs:33-37 | 200 with one summary per hobby |
| HobbyController.FindHobby | HobbyMood/Controllers/HobbyController.cs:54-66 | 404 exactly for an unknown hobby, otherwise 200 with its summary |
| HobbyController.ListExperiencesForHobby | HobbyMood/Controllers/HobbyController.cs:81-85 | 200 with exactly the hobby's experiences |
| HobbyController.AddHobby | HobbyMood/Controllers/HobbyController.cs:108-123 | A blank name gives 500 with the message and stores nothing; otherwise 201 at api/Hobby/Find/{new id} with the new hobby stored |
| HobbyController.UpdateHobby | HobbyMood/Controllers/HobbyController.cs:146-165 | 400 on an id mismatch, 404 with the message for an unknown hobby, 500 with nothing written for a null name, otherwise 204 with the name replaced |
| HobbyController.DeleteHobby | HobbyMood/Controllers/HobbyController.cs:184-198 | 404 without a body for an unknown hobby, otherwise 204 after the cascading delete |
| HobbyController.LinkHobbyToExperience | HobbyMood/Controllers/HobbyController.cs:218-232 | 404 without a body when either end is missing, otherwise 204 with the experience moved to the hobby |
| MoodController.ListMoods | HobbyMood/Controllers/MoodController.cs:30-34 | 200 with one summary per mood |
| MoodController.FindMood | HobbyMood/Controllers/MoodController.cs:50-60 | 404 exactly for an unknown mood, otherwise 200 with its summary |
| MoodController.ListExperiencesForMood | HobbyMood/Controllers/MoodController.cs:74-78 | 200 with each experience linked to the mood once |
| MoodController.AddMood | HobbyMood/Controllers/MoodController.cs:100-110 | A blank name gives 500 with the message; otherwise 201 at api/Mood/Find/{new id} with the new mood stored |
| MoodController.UpdateMood | HobbyMood/Controllers/MoodController.cs:132-151 | 400 on an id mismatch, 404 with the message for an unknown mood, 500 with nothing written for a null name, otherwise 204 with the name replaced |
| MoodController.DeleteMood | HobbyMood/Controllers/MoodController.cs:169-183 | 404 without a body for an unknown mood, otherwise 204 with the mood and its rows removed |
| ExperienceController.ListExperiences | HobbyMood/Controllers/ExperienceController.cs:31-35 | 200 with one entry per experience |
| ExperienceController.FindExperience | HobbyMood/Controllers/ExperienceController.cs:53-59 | 404 exactly for an unknown experience, otherwise 200 with it |
| ExperienceController.AddExperience | HobbyMood/Controllers/ExperienceController.cs:82-90 | 201 for an unknown hobby too, with a location that lacks an id and nothing stored; 500 with the service's two messages for a null name; otherwise 201 at a location naming the new experience |
| ExperienceController.UpdateExperience | HobbyMood/Controllers/ExperienceController.cs:114-124 | 400 on an id mismatch, 404 without a body for an unknown experience or hobby, 500 with nothing written for a null mood list or a null name, otherwise 204 with the update applied |
| ExperienceController.DeleteExperience | HobbyMood/Controllers/ExperienceController.cs:143-151 | 404 without a body for an unknown experience, otherwise 204 with it and its rows removed |
| ExperienceController.UpdateExperienceImage | HobbyMood/Controllers/ExperienceController.cs:180-194 | 404 for an unknown experience, 500 with the service's message for a rejected upload, otherwise 200 "Image updated successfully." |
| ExperienceMoodController.ListExperienceMoods | HobbyMood/Controllers/ExperienceMoodController.cs:33-37 | 200 with one joined entry per row |
| ExperienceMoodController.FindExperienceMood | HobbyMood/Controllers/ExperienceMoodController.cs:53-63 | 404 exactly for an unknown row, otherwise 200 with its joined view |
| ExperienceMoodController.ListExperienceMoodsForExperience | HobbyMood/Controllers/ExperienceMoodController.cs:183-187 | 200 with exactly the experience's rows |
| ExperienceMoodController.AddExperienceMood | HobbyMood/Controllers/ExperienceMoodController.cs:84-98 | 404 with the message when a reference is missing, otherwise 201 at api/ExperienceMood/Find/{new id} with the row stored |
| ExperienceMoodController.UpdateExperienceMood | HobbyMood/Controllers/ExperienceMoodController.cs:119-138 | 400 on an id mismatch, 404 with the message for a missing row or reference, otherwise 204 with the row rewritten |
| ExperienceMoodController.DeleteExperienceMood | HobbyMood/Controllers/ExperienceMoodController.cs:155-169 | 404 without a body for a missing row, otherwise 204 with exactly that row removed |

## Left out

- Database failures: every `catch` branch that answers Error after `SaveChangesAsync` throws, including the concurrency re-checks in `UpdateHobby`, `UpdateMood`, `UpdateExperienceMood` and `UpdateExperienceImage`. The store is modelled as always accepting a write that respects its constraints.
- Null names: a null name violates the `NOT NULL` column, so the save fails. `UpdateHobby`, `UpdateMood` and `UpdateExperience` catch only `DbUpdateConcurrencyException`, so the model lets that failure escape as `Threw("DbUpdateException")`, and the controller answers 500. `AddExperience` catches every exception and answers Error with the database's message, which is a parameter of the model. The text of that message is not modelled.
- ExperienceService.AddExperience: identity values that a failed insert may consume are not modelled; the counter is unchanged when nothing is stored.
- Request validation: `[ApiController]` model binding answers 400 before the action runs when a required member is missing, and it is not modelled. Under nullable reference types this covers `ExperienceLocation` (HobbyMood/Models/Experience.cs:73) for ExperienceController.AddExperience and ExperienceController.UpdateExperience, and `ExperienceName` and `MoodName` (HobbyMood/Models/ExperienceMood.cs:44-48) for ExperienceMoodController.AddExperienceMood and ExperienceMoodController.UpdateExperienceMood. ExperienceController.UpdateExperienceImage without a file also answers 400 in the running application; the model reaches the service, which answers Error, giving 500.
- HobbyService.UnlinkHobbyFromExperience: only its NotFound branch is modelled (`UnlinkHobbyFromExperienceNotFound`). The success branch removes the experience from the hobby's loaded collection. The effect of that on a required foreign key depends on Entity Framework's orphan handling, which is not part of this model. `HobbyController.UnlinkHobbyFromExperience` is left out for the same reason.
- ExperienceService.UnlinkExperienceFromHobby: follows the code and stores `HobbyId` 0. The foreign key on `Experiences.HobbyId` (HobbyMood/Data/Migrations/20250218132946_updateproperties.cs:35-41) would reject that write. The model's integrity predicate lets 0 through as the "unlinked" value.
- Entity Framework navigation loading: a hobby or experience reached through a navigation property is read as if it were loaded. Some queries have no `Include`, so in a fresh context they would see null. The hobby name would then be null in `ExperienceService.ListExperiencesForHobby`, `ExperienceService.ListExperiencesForMood` and `MoodService.ListExperiencesForMood`. `ExperienceMoodService.ListExperienceMoodsForExperience` would throw.
- ExperienceMoodService.ListExperienceMoods, FindExperienceMood, ListExperienceMoodsForExperience, MoodService.ListExperiencesForMood, MoodService.ListMoodsForExperience and ExperienceService.ListExperiencesForMood: these require every experience-mood row to name an existing experience and mood. The foreign keys guarantee that, and `Database.Valid()` implies it.
- Image file I/O: deleting the old file, creating the new file and copying the upload are not modelled. The parameter `fileSaved` stands for the `File.Exists` test that follows them.
- Text.ToLowerInvariant: maps only the ASCII letters. Other Unicode case mappings are not modelled; the allowed extensions are ASCII.
- Text.GetExtension: treats '/' and '\\' as directory separators. The Windows volume separator ':' is not treated as one.
- The order of list results: the services return rows in the order the database gives them, which is unspecified. The model returns a ghost `order` naming the key behind each entry.
- ExperienceDto's mood list: the read queries never fill it, so it is `None` (null) in every view. It is declared `List<string>?` (HobbyMood/Models/Experience.cs:77), but the update loop (HobbyMood/Services/ExperienceService.cs:241-249) reads `ExperienceMoodId`, `MoodIntensityBefore` and `MoodIntensityAfter` from each entry. The model follows the loop and holds a list of `MoodIntensityUpdate` triples.
- 32-bit integers: identity counters, counts and intensities are unbounded, so overflow is not modelled. `decimal(18,2)` costs and durations are whole numbers of hundredths, with no precision limit.
- Hobby typical moods and a mood's top hobbies (`HobbyDto.TypicalMoods`) are not computed by the modelled services, so they are not part of this model.
- The page controllers (`HobbyPageController`, `MoodPageController`, `ExperiencePageController`, `ExperienceMoodPageController`) render views over the same services and are not part of this model. Neither is `Program.cs` (hosting, dependency injection, authentication).
- `MoodExperienceCount`: follows the code, which counts experience-mood rows, not distinct experiences. Linking a pair twice counts it twice (`ExperienceMoodService.RelinkingDuplicates`).
