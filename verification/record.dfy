/** The biography record: seven fixed sections of free-text fields, all empty at creation. */
module Record {
  import opened Wrappers

  datatype PersonalInfo = PersonalInfo(
    fullName: string, dateOfBirth: string, birthplace: string, background: string, currentLocation: string)

  datatype ChildhoodMemories = ChildhoodMemories(
    earlyMemories: string, familyDynamics: string, significantEvents: string, favoriteActivities: string)

  datatype EducationJourney = EducationJourney(
    schools: string, favoriteSubjects: string, achievements: string, challenges: string, mentors: string)

  datatype CareerAchievements = CareerAchievements(
    careerPath: string, majorAccomplishments: string, workExperiences: string, skills: string)

  datatype FamilyRelationships = FamilyRelationships(
    family: string, importantPeople: string, relationships: string, legacy: string)

  datatype LifeChallenges = LifeChallenges(
    obstacles: string, lessons: string, pivotalMoments: string, growth: string)

  datatype DreamsBeliefsGoals = DreamsBeliefsGoals(
    beliefs: string, values: string, futureGoals: string, legacy: string, wisdom: string)

  /** An autobiography document; `id` is the document id attached when a list is loaded. */
  datatype Autobiography = Autobiography(
    id: Option<string>,
    userId: string,
    personalInfo: PersonalInfo,
    childhoodMemories: ChildhoodMemories,
    educationJourney: EducationJourney,
    careerAchievements: CareerAchievements,
    familyRelationships: FamilyRelationships,
    lifeChallenges: LifeChallenges,
    dreamsBeliefsGoals: DreamsBeliefsGoals)

  /** The seven sections, in the wizard's order. */
  datatype Section =
    | PersonalInfoSection | ChildhoodSection | EducationSection | CareerSection
    | FamilySection | ChallengesSection | DreamsSection

  /** The 31 fields; the two `legacy` keys are told apart by their section. */
  datatype Field =
    | FullName | DateOfBirth | Birthplace | Background | CurrentLocation
    | EarlyMemories | FamilyDynamics | SignificantEvents | FavoriteActivities
    | Schools | FavoriteSubjects | Achievements | Challenges | Mentors
    | CareerPath | MajorAccomplishments | WorkExperiences | Skills
    | Family | ImportantPeople | Relationships | FamilyLegacy
    | Obstacles | Lessons | PivotalMoments | Growth
    | Beliefs | Values | FutureGoals | DreamsLegacy | Wisdom

  function SectionOf(f: Field): Section {
    match f
    case FullName | DateOfBirth | Birthplace | Background | CurrentLocation => PersonalInfoSection
    case EarlyMemories | FamilyDynamics | SignificantEvents | FavoriteActivities => ChildhoodSection
    case Schools | FavoriteSubjects | Achievements | Challenges | Mentors => EducationSection
    case CareerPath | MajorAccomplishments | WorkExperiences | Skills => CareerSection
    case Family | ImportantPeople | Relationships | FamilyLegacy => FamilySection
    case Obstacles | Lessons | PivotalMoments | Growth => ChallengesSection
    case Beliefs | Values | FutureGoals | DreamsLegacy | Wisdom => DreamsSection
  }

  /** The section's key in the stored document. */
  function SectionKey(s: Section): string {
    match s
    case PersonalInfoSection => "personalInfo"
    case ChildhoodSection => "childhoodMemories"
    case EducationSection => "educationJourney"
    case CareerSection => "careerAchievements"
    case FamilySection => "familyRelationships"
    case ChallengesSection => "lifeChallenges"
    case DreamsSection => "dreamsBeliefsGoals"
  }

  /** The field's key inside its section. */
  function Key(f: Field): string {
    match f
    case FullName => "fullName"
    case DateOfBirth => "dateOfBirth"
    case Birthplace => "birthplace"
    case Background => "background"
    case CurrentLocation => "currentLocation"
    case EarlyMemories => "earlyMemories"
    case FamilyDynamics => "familyDynamics"
    case SignificantEvents => "significantEvents"
    case FavoriteActivities => "favoriteActivities"
    case Schools => "schools"
    case FavoriteSubjects => "favoriteSubjects"
    case Achievements => "achievements"
    case Challenges => "challenges"
    case Mentors => "mentors"
    case CareerPath => "careerPath"
    case MajorAccomplishments => "majorAccomplishments"
    case WorkExperiences => "workExperiences"
    case Skills => "skills"
    case Family => "family"
    case ImportantPeople => "importantPeople"
    case Relationships => "relationships"
    case FamilyLegacy => "legacy"
    case Obstacles => "obstacles"
    case Lessons => "lessons"
    case PivotalMoments => "pivotalMoments"
    case Growth => "growth"
    case Beliefs => "beliefs"
    case Values => "values"
    case FutureGoals => "futureGoals"
    case DreamsLegacy => "legacy"
    case Wisdom => "wisdom"
  }

  /** The value of one field. */
  function Get(r: Autobiography, f: Field): string {
    match f
    case FullName => r.personalInfo.fullName
    case DateOfBirth => r.personalInfo.dateOfBirth
    case Birthplace => r.personalInfo.birthplace
    case Background => r.personalInfo.background
    case CurrentLocation => r.personalInfo.currentLocation
    case EarlyMemories => r.childhoodMemories.earlyMemories
    case FamilyDynamics => r.childhoodMemories.familyDynamics
    case SignificantEvents => r.childhoodMemories.significantEvents
    case FavoriteActivities => r.childhoodMemories.favoriteActivities
    case Schools => r.educationJourney.schools
    case FavoriteSubjects => r.educationJourney.favoriteSubjects
    case Achievements => r.educationJourney.achievements
    case Challenges => r.educationJourney.challenges
    case Mentors => r.educationJourney.mentors
    case CareerPath => r.careerAchievements.careerPath
    case MajorAccomplishments => r.careerAchievements.majorAccomplishments
    case WorkExperiences => r.careerAchievements.workExperiences
    case Skills => r.careerAchievements.skills
    case Family => r.familyRelationships.family
    case ImportantPeople => r.familyRelationships.importantPeople
    case Relationships => r.familyRelationships.relationships
    case FamilyLegacy => r.familyRelationships.legacy
    case Obstacles => r.lifeChallenges.obstacles
    case Lessons => r.lifeChallenges.lessons
    case PivotalMoments => r.lifeChallenges.pivotalMoments
    case Growth => r.lifeChallenges.growth
    case Beliefs => r.dreamsBeliefsGoals.beliefs
    case Values => r.dreamsBeliefsGoals.values
    case FutureGoals => r.dreamsBeliefsGoals.futureGoals
    case DreamsLegacy => r.dreamsBeliefsGoals.legacy
    case Wisdom => r.dreamsBeliefsGoals.wisdom
  }

  /** The record with field `f` replaced by `v`: the copy-with-one-field-replaced of the builder. */
  function UpdateField(r: Autobiography, f: Field, v: string): (r': Autobiography)
    ensures Get(r', f) == v
    ensures forall g :: g != f ==> Get(r', g) == Get(r, g)
    ensures r'.id == r.id && r'.userId == r.userId
  {
    match f
    case FullName => r.(personalInfo := r.personalInfo.(fullName := v))
    case DateOfBirth => r.(personalInfo := r.personalInfo.(dateOfBirth := v))
    case Birthplace => r.(personalInfo := r.personalInfo.(birthplace := v))
    case Background => r.(personalInfo := r.personalInfo.(background := v))
    case CurrentLocation => r.(personalInfo := r.personalInfo.(currentLocation := v))
    case EarlyMemories => r.(childhoodMemories := r.childhoodMemories.(earlyMemories := v))
    case FamilyDynamics => r.(childhoodMemories := r.childhoodMemories.(familyDynamics := v))
    case SignificantEvents => r.(childhoodMemories := r.childhoodMemories.(significantEvents := v))
    case FavoriteActivities => r.(childhoodMemories := r.childhoodMemories.(favoriteActivities := v))
    case Schools => r.(educationJourney := r.educationJourney.(schools := v))
    case FavoriteSubjects => r.(educationJourney := r.educationJourney.(favoriteSubjects := v))
    case Achievements => r.(educationJourney := r.educationJourney.(achievements := v))
    case Challenges => r.(educationJourney := r.educationJourney.(challenges := v))
    case Mentors => r.(educationJourney := r.educationJourney.(mentors := v))
    case CareerPath => r.(careerAchievements := r.careerAchievements.(careerPath := v))
    case MajorAccomplishments => r.(careerAchievements := r.careerAchievements.(majorAccomplishments := v))
    case WorkExperiences => r.(careerAchievements := r.careerAchievements.(workExperiences := v))
    case Skills => r.(careerAchievements := r.careerAchievements.(skills := v))
    case Family => r.(familyRelationships := r.familyRelationships.(family := v))
    case ImportantPeople => r.(familyRelationships := r.familyRelationships.(importantPeople := v))
    case Relationships => r.(familyRelationships := r.familyRelationships.(relationships := v))
    case FamilyLegacy => r.(familyRelationships := r.familyRelationships.(legacy := v))
    case Obstacles => r.(lifeChallenges := r.lifeChallenges.(obstacles := v))
    case Lessons => r.(lifeChallenges := r.lifeChallenges.(lessons := v))
    case PivotalMoments => r.(lifeChallenges := r.lifeChallenges.(pivotalMoments := v))
    case Growth => r.(lifeChallenges := r.lifeChallenges.(growth := v))
    case Beliefs => r.(dreamsBeliefsGoals := r.dreamsBeliefsGoals.(beliefs := v))
    case Values => r.(dreamsBeliefsGoals := r.dreamsBeliefsGoals.(values := v))
    case FutureGoals => r.(dreamsBeliefsGoals := r.dreamsBeliefsGoals.(futureGoals := v))
    case DreamsLegacy => r.(dreamsBeliefsGoals := r.dreamsBeliefsGoals.(legacy := v))
    case Wisdom => r.(dreamsBeliefsGoals := r.dreamsBeliefsGoals.(wisdom := v))
  }

  /** The builder's starting record: no owner yet and every field empty. */
  const EmptyRecord := Autobiography(
    None, "",
    PersonalInfo("", "", "", "", ""),
    ChildhoodMemories("", "", "", ""),
    EducationJourney("", "", "", "", ""),
    CareerAchievements("", "", "", ""),
    FamilyRelationships("", "", "", ""),
    LifeChallenges("", "", "", ""),
    DreamsBeliefsGoals("", "", "", "", ""))

  lemma EmptyRecordIsBlank(f: Field)
    ensures Get(EmptyRecord, f) == "" && EmptyRecord.userId == "" && EmptyRecord.id == None
  {
  }

  /** A record is determined by its id, its owner and its 31 field values. */
  lemma Extensionality(a: Autobiography, b: Autobiography)
    requires a.id == b.id && a.userId == b.userId
    requires forall f :: Get(a, f) == Get(b, f)
    ensures a == b
  {
    PersonalInfoAgrees(a, b);
    ChildhoodMemoriesAgrees(a, b);
    EducationJourneyAgrees(a, b);
    CareerAchievementsAgrees(a, b);
    FamilyRelationshipsAgrees(a, b);
    LifeChallengesAgrees(a, b);
    DreamsBeliefsGoalsAgrees(a, b);
  }

  lemma PersonalInfoAgrees(a: Autobiography, b: Autobiography)
    requires forall f :: Get(a, f) == Get(b, f)
    ensures a.personalInfo == b.personalInfo
  {
    assert Get(a, FullName) == Get(b, FullName);
    assert Get(a, DateOfBirth) == Get(b, DateOfBirth);
    assert Get(a, Birthplace) == Get(b, Birthplace);
    assert Get(a, Background) == Get(b, Background);
    assert Get(a, CurrentLocation) == Get(b, CurrentLocation);
  }

  lemma ChildhoodMemoriesAgrees(a: Autobiography, b: Autobiography)
    requires forall f :: Get(a, f) == Get(b, f)
    ensures a.childhoodMemories == b.childhoodMemories
  {
    assert Get(a, EarlyMemories) == Get(b, EarlyMemories);
    assert Get(a, FamilyDynamics) == Get(b, FamilyDynamics);
    assert Get(a, SignificantEvents) == Get(b, SignificantEvents);
    assert Get(a, FavoriteActivities) == Get(b, FavoriteActivities);
  }

  lemma EducationJourneyAgrees(a: Autobiography, b: Autobiography)
    requires forall f :: Get(a, f) == Get(b, f)
    ensures a.educationJourney == b.educationJourney
  {
    assert Get(a, Schools) == Get(b, Schools);
    assert Get(a, FavoriteSubjects) == Get(b, FavoriteSubjects);
    assert Get(a, Achievements) == Get(b, Achievements);
    assert Get(a, Challenges) == Get(b, Challenges);
    assert Get(a, Mentors) == Get(b, Mentors);
  }

  lemma CareerAchievementsAgrees(a: Autobiography, b: Autobiography)
    requires forall f :: Get(a, f) == Get(b, f)
    ensures a.careerAchievements == b.careerAchievements
  {
    assert Get(a, CareerPath) == Get(b, CareerPath);
    assert Get(a, MajorAccomplishments) == Get(b, MajorAccomplishments);
    assert Get(a, WorkExperiences) == Get(b, WorkExperiences);
    assert Get(a, Skills) == Get(b, Skills);
  }

  lemma FamilyRelationshipsAgrees(a: Autobiography, b: Autobiography)
    requires forall f :: Get(a, f) == Get(b, f)
    ensures a.familyRelationships == b.familyRelationships
  {
    assert Get(a, Family) == Get(b, Family);
    assert Get(a, ImportantPeople) == Get(b, ImportantPeople);
    assert Get(a, Relationships) == Get(b, Relationships);
    assert Get(a, FamilyLegacy) == Get(b, FamilyLegacy);
  }

  lemma LifeChallengesAgrees(a: Autobiography, b: Autobiography)
    requires forall f :: Get(a, f) == Get(b, f)
    ensures a.lifeChallenges == b.lifeChallenges
  {
    assert Get(a, Obstacles) == Get(b, Obstacles);
    assert Get(a, Lessons) == Get(b, Lessons);
    assert Get(a, PivotalMoments) == Get(b, PivotalMoments);
    assert Get(a, Growth) == Get(b, Growth);
  }

  lemma DreamsBeliefsGoalsAgrees(a: Autobiography, b: Autobiography)
    requires forall f :: Get(a, f) == Get(b, f)
    ensures a.dreamsBeliefsGoals == b.dreamsBeliefsGoals
  {
    assert Get(a, Beliefs) == Get(b, Beliefs);
    assert Get(a, Values) == Get(b, Values);
    assert Get(a, FutureGoals) == Get(b, FutureGoals);
    assert Get(a, DreamsLegacy) == Get(b, DreamsLegacy);
    assert Get(a, Wisdom) == Get(b, Wisdom);
  }

  /** Writing back a field's own value changes nothing. */
  lemma UpdateSameValue(r: Autobiography, f: Field)
    ensures UpdateField(r, f, Get(r, f)) == r
  {
    Extensionality(UpdateField(r, f, Get(r, f)), r);
  }

  /** Of two writes to the same field the last one wins. */
  lemma UpdateOverwrites(r: Autobiography, f: Field, v: string, w: string)
    ensures UpdateField(UpdateField(r, f, v), f, w) == UpdateField(r, f, w)
  {
    Extensionality(UpdateField(UpdateField(r, f, v), f, w), UpdateField(r, f, w));
  }

  /** `list.find(a => a.id === id)`: the first record carrying that id, if any. */
  function Find(list: seq<Autobiography>, id: string): (r: Option<Autobiography>)
    ensures r.None? <==> forall i :: 0 <= i < |list| ==> list[i].id != Some(id)
    ensures r.Some? ==> exists i :: 0 <= i < |list| && list[i] == r.value && list[i].id == Some(id)
                                    && forall j :: 0 <= j < i ==> list[j].id != Some(id)
  {
    if list == [] then None
    else if list[0].id == Some(id) then Some(list[0])
    else
      var r := Find(list[1..], id);
      assert forall i :: 1 <= i < |list| ==> list[i] == list[1..][i - 1];
      r
  }

  /** `a.id || ''`: the id offered in a selection box, empty when the record has none. */
  function IdOrEmpty(a: Autobiography): string {
    a.id.GetOr("")
  }
}
