/**
 * The application's database context: four tables keyed by identity columns
 * (`IDENTITY(1, 1)`: the first key is 1, each insert takes the next one, and a
 * key is never handed out twice), the referential integrity the foreign keys
 * enforce, and the derived values the services read off the tables.
 */
module Data {
  import opened Models

  class Database {
    var hobbies: map<nat, Hobby>
    var experiences: map<nat, Experience>
    var moods: map<nat, Mood>
    var experienceMoods: map<nat, ExperienceMood>

    // The key each table's identity column hands out next.
    var nextHobbyId: int
    var nextExperienceId: int
    var nextMoodId: int
    var nextExperienceMoodId: int

    /** Every row sits under its own positive key, below the identity counter, and every reference resolves. */
    ghost predicate Valid()
      reads this
    {
      && 0 < nextHobbyId && 0 < nextExperienceId && 0 < nextMoodId && 0 < nextExperienceMoodId
      && (forall k :: k in hobbies ==> 0 < k < nextHobbyId && hobbies[k].hobbyId == k)
      && (forall k :: k in experiences ==> 0 < k < nextExperienceId && experiences[k].experienceId == k)
      && (forall k :: k in moods ==> 0 < k < nextMoodId && moods[k].moodId == k)
      && (forall k :: k in experienceMoods ==>
            0 < k < nextExperienceMoodId && experienceMoods[k].experienceMoodId == k)
      && Integrity(hobbies, experiences, moods, experienceMoods)
    }

    constructor ()
      ensures Valid()
      ensures hobbies == map[] && experiences == map[] && moods == map[] && experienceMoods == map[]
    {
      hobbies, experiences, moods, experienceMoods := map[], map[], map[], map[];
      nextHobbyId, nextExperienceId, nextMoodId, nextExperienceMoodId := 1, 1, 1, 1;
    }
  }

  /** The parts of the store an operation may change: the four tables and their identity counters. */
  datatype Part =
    | HobbyTable | ExperienceTable | MoodTable | LinkTable
    | HobbyCounter | ExperienceCounter | MoodCounter | LinkCounter

  /** Every part of the store outside `parts` is as it was. */
  twostate predicate UnchangedExcept(db: Database, parts: set<Part>)
    reads db
  {
    && (HobbyTable !in parts ==> db.hobbies == old(db.hobbies))
    && (ExperienceTable !in parts ==> db.experiences == old(db.experiences))
    && (MoodTable !in parts ==> db.moods == old(db.moods))
    && (LinkTable !in parts ==> db.experienceMoods == old(db.experienceMoods))
    && (HobbyCounter !in parts ==> db.nextHobbyId == old(db.nextHobbyId))
    && (ExperienceCounter !in parts ==> db.nextExperienceId == old(db.nextExperienceId))
    && (MoodCounter !in parts ==> db.nextMoodId == old(db.nextMoodId))
    && (LinkCounter !in parts ==> db.nextExperienceMoodId == old(db.nextExperienceMoodId))
  }

  /**
   * The foreign keys: an experience belongs to an existing hobby or carries the
   * unlinked sentinel, and every experience-mood row names an existing experience
   * and an existing mood.
   */
  ghost predicate Integrity(
    hobbies: map<nat, Hobby>, experiences: map<nat, Experience>,
    moods: map<nat, Mood>, links: map<nat, ExperienceMood>)
  {
    && (forall k :: k in experiences ==>
          experiences[k].hobbyId == NoHobby || experiences[k].hobbyId in hobbies)
    && LinksResolve(experiences, moods, links)
  }

  /** Every experience-mood row names an existing experience and an existing mood. */
  ghost predicate LinksResolve(
    experiences: map<nat, Experience>, moods: map<nat, Mood>, links: map<nat, ExperienceMood>)
  {
    forall k :: k in links ==> links[k].experienceId in experiences && links[k].moodId in moods
  }

  // ---- Filters over a keyed table ----

  /** The keys among `ids` whose row satisfies `p`. */
  ghost function Where<R>(t: map<nat, R>, ids: set<nat>, p: R -> bool): set<nat> {
    set k | k in ids && k in t && p(t[k])
  }

  /** Looking at one more key adds it to the filter exactly when its row qualifies. */
  lemma WhereStep<R>(t: map<nat, R>, ids: set<nat>, k: nat, p: R -> bool)
    requires k in t && k !in ids
    ensures Where(t, ids + {k}, p) == if p(t[k]) then Where(t, ids, p) + {k} else Where(t, ids, p)
    ensures |Where(t, ids + {k}, p)| == |Where(t, ids, p)| + (if p(t[k]) then 1 else 0)
  {
    if p(t[k]) {
      assert Where(t, ids + {k}, p) == Where(t, ids, p) + {k};
    } else {
      assert Where(t, ids + {k}, p) == Where(t, ids, p);
    }
  }

  /** Moving one key from the keys still to visit to the keys visited keeps the two a partition of `keys`. */
  lemma Visit(keys: set<nat>, todo: set<nat>, done: set<nat>, k: nat)
    requires todo + done == keys && todo !! done && k in todo
    ensures (todo - {k}) + (done + {k}) == keys && (todo - {k}) !! (done + {k})
  {
  }

  /** A list of distinct keys that holds exactly the members of `s` is as long as `s` is large. */
  lemma {:induction false} DistinctKeysCount<K>(order: seq<K>, s: set<K>)
    requires forall i, j :: 0 <= i < j < |order| ==> order[i] != order[j]
    requires forall k :: k in s <==> k in order
    ensures |order| == |s|
    decreases |order|
  {
    if |order| > 0 {
      var last := order[|order| - 1];
      var rest := order[..|order| - 1];
      assert order == rest + [last];
      assert forall k :: k in s - {last} <==> k in rest;
      DistinctKeysCount(rest, s - {last});
    }
  }

  function OfHobby(hobbyId: int): Experience -> bool {
    (e: Experience) => e.hobbyId == hobbyId
  }

  function OfMood(moodId: int): ExperienceMood -> bool {
    (l: ExperienceMood) => l.moodId == moodId
  }

  function OfExperience(experienceId: int): ExperienceMood -> bool {
    (l: ExperienceMood) => l.experienceId == experienceId
  }

  // ---- Derived values ----

  /** The keys of the experiences whose `HobbyId` is `hobbyId`. */
  ghost function HobbyExperienceIds(experiences: map<nat, Experience>, hobbyId: int): set<nat> {
    Where(experiences, experiences.Keys, OfHobby(hobbyId))
  }

  /** The keys of the experience-mood rows of one mood. */
  ghost function MoodLinkIds(links: map<nat, ExperienceMood>, moodId: int): set<nat> {
    Where(links, links.Keys, OfMood(moodId))
  }

  /** The keys of the experience-mood rows of one experience. */
  ghost function ExperienceLinkIds(links: map<nat, ExperienceMood>, experienceId: int): set<nat> {
    Where(links, links.Keys, OfExperience(experienceId))
  }

  /** The experiences the rows `ids` point at, each once. */
  ghost function LinkedExperiences(links: map<nat, ExperienceMood>, ids: set<nat>): set<nat>
    requires ids <= links.Keys
  {
    set k | k in ids :: links[k].experienceId
  }

  /** The sum of `DurationinHours` over the experiences `ids`. */
  ghost function TotalDuration(experiences: map<nat, Experience>, ids: set<nat>): Hundredths
    requires ids <= experiences.Keys
    decreases ids
  {
    if ids == {} then 0
    else
      var k := Pick(ids);
      experiences[k].durationInHours + TotalDuration(experiences, ids - {k})
  }

  /** Some key of a non-empty set. */
  ghost function Pick(ids: set<nat>): (k: nat)
    requires ids != {}
    ensures k in ids
  {
    var k :| k in ids; k
  }

  /** `HobbyDto.NumberofExperiences`. */
  ghost function NumberOfExperiences(experiences: map<nat, Experience>, hobbyId: int): nat {
    |HobbyExperienceIds(experiences, hobbyId)|
  }

  /** `HobbyDto.HoursSpent`. */
  ghost function HoursSpent(experiences: map<nat, Experience>, hobbyId: int): Hundredths {
    TotalDuration(experiences, HobbyExperienceIds(experiences, hobbyId))
  }

  /** `MoodDto.MoodExperienceCount`: the number of rows, so an experience linked twice counts twice. */
  ghost function MoodExperienceCount(links: map<nat, ExperienceMood>, moodId: int): nat {
    |MoodLinkIds(links, moodId)|
  }

  // ---- Lemmas about the derived values ----

  /** The sum does not depend on the order in which it visits the experiences. */
  lemma {:induction false} TotalDurationRemove(experiences: map<nat, Experience>, ids: set<nat>, k: nat)
    requires ids <= experiences.Keys && k in ids
    ensures TotalDuration(experiences, ids)
         == experiences[k].durationInHours + TotalDuration(experiences, ids - {k})
    decreases |ids|
  {
    var j := Pick(ids);
    if j != k {
      TotalDurationRemove(experiences, ids - {j}, k);
      TotalDurationRemove(experiences, ids - {k}, j);
      assert ids - {j} - {k} == ids - {k} - {j};
    }
  }

  /** The sum reads only the durations of the experiences it adds up. */
  lemma {:induction false} TotalDurationAgree(a: map<nat, Experience>, b: map<nat, Experience>, ids: set<nat>)
    requires ids <= a.Keys && ids <= b.Keys
    requires forall k :: k in ids ==> a[k].durationInHours == b[k].durationInHours
    ensures TotalDuration(a, ids) == TotalDuration(b, ids)
    decreases |ids|
  {
    if ids != {} {
      var k := Pick(ids);
      TotalDurationRemove(a, ids, k);
      TotalDurationRemove(b, ids, k);
      TotalDurationAgree(a, b, ids - {k});
    }
  }

  /** Visiting one more experience adds it to a hobby's running count and hours exactly when it belongs to that hobby. */
  lemma HobbyTotalsStep(experiences: map<nat, Experience>, done: set<nat>, k: nat, hobbyId: int)
    requires k in experiences && k !in done
    ensures var before := Where(experiences, done, OfHobby(hobbyId));
      var after := Where(experiences, done + {k}, OfHobby(hobbyId));
      var e := experiences[k];
      && |after| == |before| + (if e.hobbyId == hobbyId then 1 else 0)
      && TotalDuration(experiences, after)
         == TotalDuration(experiences, before) + (if e.hobbyId == hobbyId then e.durationInHours else 0)
  {
    var before := Where(experiences, done, OfHobby(hobbyId));
    var after := Where(experiences, done + {k}, OfHobby(hobbyId));
    WhereStep(experiences, done, k, OfHobby(hobbyId));
    if experiences[k].hobbyId == hobbyId {
      TotalDurationRemove(experiences, after, k);
      assert after - {k} == before;
    }
  }

  /** Inserting an experience under a fresh key adds it to its own hobby's count and hours, and to no other hobby's. */
  lemma InsertExperienceTotals(experiences: map<nat, Experience>, k: nat, e: Experience, hobbyId: int)
    requires k !in experiences
    ensures NumberOfExperiences(experiences[k := e], hobbyId)
         == NumberOfExperiences(experiences, hobbyId) + (if e.hobbyId == hobbyId then 1 else 0)
    ensures HoursSpent(experiences[k := e], hobbyId)
         == HoursSpent(experiences, hobbyId) + (if e.hobbyId == hobbyId then e.durationInHours else 0)
  {
    var after := experiences[k := e];
    var s := HobbyExperienceIds(experiences, hobbyId);
    var s' := HobbyExperienceIds(after, hobbyId);
    if e.hobbyId == hobbyId {
      assert s' == s + {k};
      TotalDurationRemove(after, s', k);
      assert s' - {k} == s;
    } else {
      assert s' == s;
    }
    TotalDurationAgree(after, experiences, s);
  }

  /** Removing an experience takes it out of its own hobby's count and hours, and out of no other hobby's. */
  lemma RemoveExperienceTotals(experiences: map<nat, Experience>, k: nat, hobbyId: int)
    requires k in experiences
    ensures NumberOfExperiences(experiences - {k}, hobbyId)
         == NumberOfExperiences(experiences, hobbyId) - (if experiences[k].hobbyId == hobbyId then 1 else 0)
    ensures HoursSpent(experiences - {k}, hobbyId)
         == HoursSpent(experiences, hobbyId)
            - (if experiences[k].hobbyId == hobbyId then experiences[k].durationInHours else 0)
  {
    var rest := experiences - {k};
    assert rest[k := experiences[k]] == experiences;
    InsertExperienceTotals(rest, k, experiences[k], hobbyId);
  }

  /** Rewriting one experience moves its count and hours from its old hobby to its new one. */
  lemma ReplaceExperienceTotals(experiences: map<nat, Experience>, k: nat, e: Experience, hobbyId: int)
    requires k in experiences
    ensures NumberOfExperiences(experiences[k := e], hobbyId)
         == NumberOfExperiences(experiences, hobbyId)
            - (if experiences[k].hobbyId == hobbyId then 1 else 0) + (if e.hobbyId == hobbyId then 1 else 0)
    ensures HoursSpent(experiences[k := e], hobbyId)
         == HoursSpent(experiences, hobbyId)
            - (if experiences[k].hobbyId == hobbyId then experiences[k].durationInHours else 0)
            + (if e.hobbyId == hobbyId then e.durationInHours else 0)
  {
    var rest := experiences - {k};
    assert rest[k := e] == experiences[k := e];
    RemoveExperienceTotals(experiences, k, hobbyId);
    InsertExperienceTotals(rest, k, e, hobbyId);
  }

  /** A new experience-mood row always adds one to its mood's count, even when the pair is already linked. */
  lemma InsertLinkCount(links: map<nat, ExperienceMood>, k: nat, l: ExperienceMood, moodId: int)
    requires k !in links
    ensures MoodExperienceCount(links[k := l], moodId)
         == MoodExperienceCount(links, moodId) + (if l.moodId == moodId then 1 else 0)
  {
    var s := MoodLinkIds(links, moodId);
    var s' := MoodLinkIds(links[k := l], moodId);
    if l.moodId == moodId {
      assert s' == s + {k};
    } else {
      assert s' == s;
    }
  }

  /** Distinct experiences never outnumber the rows that link them. */
  lemma {:induction false} LinkedExperiencesBound(links: map<nat, ExperienceMood>, ids: set<nat>)
    requires ids <= links.Keys
    ensures |LinkedExperiences(links, ids)| <= |ids|
    decreases |ids|
  {
    if ids != {} {
      var k := Pick(ids);
      LinkedExperiencesBound(links, ids - {k});
      assert LinkedExperiences(links, ids)
          == LinkedExperiences(links, ids - {k}) + {links[k].experienceId};
    }
  }

  /** Two rows linking the same experience to a mood make the row count exceed the number of distinct experiences. */
  lemma DuplicateLinkCountsTwice(links: map<nat, ExperienceMood>, moodId: int, k1: nat, k2: nat)
    requires k1 in links && k2 in links && k1 != k2
    requires links[k1].moodId == moodId && links[k2].moodId == moodId
    requires links[k1].experienceId == links[k2].experienceId
    ensures |LinkedExperiences(links, MoodLinkIds(links, moodId))| < MoodExperienceCount(links, moodId)
  {
    var ids := MoodLinkIds(links, moodId);
    assert k1 in ids && k2 in ids;
    assert LinkedExperiences(links, ids) == LinkedExperiences(links, ids - {k2});
    LinkedExperiencesBound(links, ids - {k2});
  }

  // ---- Projections shared by the services ----

  /** `Hobby?.HobbyName`: the name of the referenced hobby, or null when no hobby has that id. */
  function HobbyNameOf(hobbies: map<nat, Hobby>, hobbyId: int): Option<string> {
    if hobbyId in hobbies then Some(hobbies[hobbyId].hobbyName) else None
  }

  /** The `ExperienceDto` the read queries build from an experience row; its mood list is never set, so it stays null. */
  function ExperienceView(hobbies: map<nat, Hobby>, e: Experience): ExperienceDto {
    ExperienceDto(e.experienceId, Some(e.experienceName), HobbyNameOf(hobbies, e.hobbyId), e.hobbyId,
                  e.experienceCost, e.durationInHours, e.experienceDate, e.experienceLocation, None)
  }

  /** The keys of the experience-mood rows that point at one of the experiences `gone`. */
  ghost function LinksOfExperiences(links: map<nat, ExperienceMood>, gone: set<nat>): set<nat> {
    set k | k in links && links[k].experienceId in gone
  }

  /** The keys of the experience-mood rows that point at the mood `moodId`. */
  ghost function LinksOfMood(links: map<nat, ExperienceMood>, moodId: int): set<nat> {
    set k | k in links && links[k].moodId == moodId
  }
}
