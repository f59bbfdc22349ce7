/**
 * `ParticipantMapper` of the participant-manager service: projections of the participant,
 * study and app entities onto the objects the service returns.
 */
module ParticipantMapper {
  import opened Nullable
  import opened Instants
  import opened JavaStrings

  // ---------------------------------------------------------------- entities

  /** `LocationEntity`: the fields the mapper reads. */
  datatype Location = Location(customId: string, name: string)

  /** `SiteEntity`: the fields the mapper reads. */
  datatype SiteEntity = SiteEntity(id: string, location: Location)

  /** `ParticipantRegistrySiteEntity`: the invited participant's record at a site. */
  datatype ParticipantRegistrySite = ParticipantRegistrySite(email: string, invitationDate: Option<Stamp>)

  /** `ParticipantStudyEntity`: a participant's enrollment in a study. `id` is the row's own key. */
  datatype ParticipantStudy = ParticipantStudy(
    id: string, participantId: string, status: string,
    participantRegistrySite: ParticipantRegistrySite, site: SiteEntity,
    enrolledDate: Option<Stamp>)

  /** `StudyEntity` of the participant manager: the fields the mapper reads. */
  datatype StudyEntity = StudyEntity(id: string, customId: string, name: string, studyType: string)

  /** `AppEntity` of the participant manager: `id` is the row key, `appId` the public app id. */
  datatype AppEntity = AppEntity(id: string, appId: string, appName: string)

  // ---------------------------------------------------------------- results

  /** `ParticipantRequest`: the fields the mapper sets. */
  datatype ParticipantRequest = ParticipantRequest(
    id: string, enrollmentStatus: string, email: string,
    siteId: string, customLocationId: string, locationName: string,
    invitedDate: string, enrollmentDate: string)

  /** `ParticipantRegistryDetail`: the fields the mapper sets. */
  datatype ParticipantRegistryDetail = ParticipantRegistryDetail(
    studyId: string, customStudyId: string, studyName: string, studyType: string,
    appId: string, appName: string, customAppId: string)

  /** `CommonConstants.NOT_APPLICABLE`. */
  const NOT_APPLICABLE: string := "NA"

  /** `DateTimeUtils.format`: it may return null or an empty string. */
  type DateFormatter = Option<Stamp> -> Option<string>

  // ---------------------------------------------------------------- the mappers

  /** A formatted date, or NOT_APPLICABLE when the formatted string is null or empty. */
  function DateOrNotApplicable(formatted: Option<string>): (r: string)
    ensures r != ""
    ensures IsEmpty(formatted) ==> r == NOT_APPLICABLE
    ensures !IsEmpty(formatted) ==> formatted == Some(r)
  {
    DefaultIfEmpty(formatted, NOT_APPLICABLE)
  }

  /** `fromParticipantStudy`. */
  function FromParticipantStudy(participantStudy: ParticipantStudy, format: DateFormatter): (r: ParticipantRequest)
    ensures r.id == participantStudy.participantId
    ensures r.enrollmentStatus == participantStudy.status
    ensures r.email == participantStudy.participantRegistrySite.email
    ensures r.siteId == participantStudy.site.id
    ensures r.customLocationId == participantStudy.site.location.customId
    ensures r.locationName == participantStudy.site.location.name
    ensures r.invitedDate != "" && r.enrollmentDate != ""
    ensures var invited := format(participantStudy.participantRegistrySite.invitationDate);
      (IsEmpty(invited) ==> r.invitedDate == NOT_APPLICABLE) && (!IsEmpty(invited) ==> invited == Some(r.invitedDate))
    ensures var enrolled := format(participantStudy.enrolledDate);
      (IsEmpty(enrolled) ==> r.enrollmentDate == NOT_APPLICABLE) && (!IsEmpty(enrolled) ==> enrolled == Some(r.enrollmentDate))
  {
    var registrySite := participantStudy.participantRegistrySite;
    var site := participantStudy.site;
    ParticipantRequest(
      participantStudy.participantId, participantStudy.status, registrySite.email,
      site.id, site.location.customId, site.location.name,
      DateOrNotApplicable(format(registrySite.invitationDate)),
      DateOrNotApplicable(format(participantStudy.enrolledDate)))
  }

  /** `fromStudyAndApp`: the study's keys, name and type, and the app's two ids and name. */
  function FromStudyAndApp(study: StudyEntity, app: AppEntity): (r: ParticipantRegistryDetail)
    ensures r.studyId == study.id && r.customStudyId == study.customId
    ensures r.studyName == study.name && r.studyType == study.studyType
    ensures r.appId == app.id && r.customAppId == app.appId && r.appName == app.appName
  {
    ParticipantRegistryDetail(study.id, study.customId, study.name, study.studyType, app.id, app.appName, app.appId)
  }

  // ---------------------------------------------------------------- what the projections keep

  /** The part of the inputs `fromStudyAndApp` reads back as entities: its partner. */
  function StudyOf(r: ParticipantRegistryDetail): StudyEntity {
    StudyEntity(r.studyId, r.customStudyId, r.studyName, r.studyType)
  }

  function AppOf(r: ParticipantRegistryDetail): AppEntity {
    AppEntity(r.appId, r.customAppId, r.appName)
  }

  /** `fromStudyAndApp` loses nothing it reads: the entities are recovered from its result. */
  lemma FromStudyAndAppRoundTrip(study: StudyEntity, app: AppEntity)
    ensures StudyOf(FromStudyAndApp(study, app)) == study
    ensures AppOf(FromStudyAndApp(study, app)) == app
  {
  }

  /** Two (study, app) pairs give the same detail exactly when they are the same pair. */
  lemma FromStudyAndAppInjective(s1: StudyEntity, a1: AppEntity, s2: StudyEntity, a2: AppEntity)
    ensures FromStudyAndApp(s1, a1) == FromStudyAndApp(s2, a2) <==> s1 == s2 && a1 == a2
  {
    if FromStudyAndApp(s1, a1) == FromStudyAndApp(s2, a2) {
      FromStudyAndAppRoundTrip(s1, a1);
      FromStudyAndAppRoundTrip(s2, a2);
    }
  }

  /** What `fromParticipantStudy` reads of a participant study, with its dates formatted. */
  datatype ParticipantView = ParticipantView(
    participantId: string, status: string, email: string,
    siteId: string, customLocationId: string, locationName: string,
    invited: Option<string>, enrolled: Option<string>)

  function ViewOf(participantStudy: ParticipantStudy, format: DateFormatter): ParticipantView {
    ParticipantView(
      participantStudy.participantId, participantStudy.status,
      participantStudy.participantRegistrySite.email,
      participantStudy.site.id, participantStudy.site.location.customId, participantStudy.site.location.name,
      format(participantStudy.participantRegistrySite.invitationDate), format(participantStudy.enrolledDate))
  }

  /** Two formatted dates are shown alike exactly when both are empty or both are the same string. */
  predicate SameShownDate(d1: Option<string>, d2: Option<string>) {
    (IsEmpty(d1) && IsEmpty(d2)) || (!IsEmpty(d1) && !IsEmpty(d2) && d1 == d2)
  }

  /**
   * The request depends on nothing but the view: the row's own id, its withdrawal or other
   * fields play no part. Conversely, equal requests come from views that agree on every
   * copied field, with dates equal up to NOT_APPLICABLE standing for an empty date.
   */
  lemma FromParticipantStudyDependsOnlyOnView(p1: ParticipantStudy, p2: ParticipantStudy, format: DateFormatter)
    requires !IsEmpty(format(p1.participantRegistrySite.invitationDate)) ==> format(p1.participantRegistrySite.invitationDate) != Some(NOT_APPLICABLE)
    requires !IsEmpty(format(p2.participantRegistrySite.invitationDate)) ==> format(p2.participantRegistrySite.invitationDate) != Some(NOT_APPLICABLE)
    requires !IsEmpty(format(p1.enrolledDate)) ==> format(p1.enrolledDate) != Some(NOT_APPLICABLE)
    requires !IsEmpty(format(p2.enrolledDate)) ==> format(p2.enrolledDate) != Some(NOT_APPLICABLE)
    ensures var v1, v2 := ViewOf(p1, format), ViewOf(p2, format);
      FromParticipantStudy(p1, format) == FromParticipantStudy(p2, format) <==>
        && v1.(invited := None, enrolled := None) == v2.(invited := None, enrolled := None)
        && SameShownDate(v1.invited, v2.invited) && SameShownDate(v1.enrolled, v2.enrolled)
  {
  }
}
