/** Entities, transfer records and the service response of the HobbyMood application. */
module Models {

  datatype Option<+T> = None | Some(value: T)

  /** A date and time. The services only copy it from one record to another, so it stays opaque. */
  datatype DateTime = DateTime(ticks: int)

  /** A `decimal(18,2)` column (a cost in dollars, a duration in hours) counted in hundredths. */
  type Hundredths = int

  /** The `HobbyId` an experience carries once it has been unlinked from its hobby. */
  const NoHobby: int := 0

  // ---- Stored rows ----

  datatype Hobby = Hobby(hobbyId: int, hobbyName: string)

  datatype Experience = Experience(
    experienceId: int,
    experienceName: string,
    hobbyId: int,
    experienceCost: Hundredths,
    durationInHours: Hundredths,
    experienceDate: DateTime,
    experienceLocation: Option<string>,
    experienceImagePath: Option<string>)

  datatype Mood = Mood(moodId: int, moodName: string)

  /** One recorded occurrence of a mood during an experience; the same pair may recur. */
  datatype ExperienceMood = ExperienceMood(
    experienceMoodId: int,
    experienceId: nat,
    moodId: nat,
    moodIntensityBefore: int,
    moodIntensityAfter: int)

  // ---- Transfer records ----

  datatype HobbyDto = HobbyDto(
    hobbyId: int,
    hobbyName: Option<string>,
    numberOfExperiences: int,
    hoursSpent: Hundredths)

  /** An entry of `ExperienceDto.ExperienceMoods`: the three members the experience update reads from it. */
  datatype MoodIntensityUpdate = MoodIntensityUpdate(
    experienceMoodId: int,
    moodIntensityBefore: int,
    moodIntensityAfter: int)

  datatype ExperienceDto = ExperienceDto(
    experienceId: int,
    experienceName: Option<string>,
    hobbyName: Option<string>,
    hobbyId: int,
    experienceCost: Hundredths,
    durationInHours: Hundredths,
    experienceDate: DateTime,
    experienceLocation: Option<string>,
    experienceMoods: Option<seq<MoodIntensityUpdate>>)

  datatype MoodDto = MoodDto(moodId: int, moodName: Option<string>, moodExperienceCount: int)

  datatype ExperienceMoodDto = ExperienceMoodDto(
    experienceMoodId: int,
    experienceId: int,
    moodId: int,
    experienceName: string,
    moodName: string,
    experienceDate: DateTime,
    moodIntensityBefore: int,
    moodIntensityAfter: int)

  // ---- Service results ----

  datatype ServiceStatus = Created | Updated | Deleted | NotFound | Error

  datatype ServiceResponse = ServiceResponse(
    status: ServiceStatus,
    createdId: Option<int>,
    messages: seq<string>)

  /**
   * How a service call ends: with a response, or with an exception the service
   * does not catch, which then reaches the web framework.
   */
  datatype ServiceOutcome = Answered(response: ServiceResponse) | Threw(exception: string)

  /**
   * The messages of a NotFound answer about two looked-up entities: one message
   * per missing entity, the first entity's before the second's.
   */
  function MissingMessages(firstFound: bool, firstMessage: string, secondFound: bool, secondMessage: string)
    : (messages: seq<string>)
    ensures messages == [] <==> firstFound && secondFound
    ensures |messages| == (if firstFound then 0 else 1) + (if secondFound then 0 else 1)
    ensures !firstFound ==> messages[0] == firstMessage
    ensures !secondFound ==> messages[|messages| - 1] == secondMessage
  {
    (if firstFound then [] else [firstMessage]) + (if secondFound then [] else [secondMessage])
  }

  /** A response without a created id. */
  function Respond(status: ServiceStatus, messages: seq<string>): ServiceResponse {
    ServiceResponse(status, None, messages)
  }
}
