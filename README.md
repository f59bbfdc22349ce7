# Study metadata upsert and participant mapper, in Dafny

This project models two pieces of the health-study platform.

- **`StudiesDaoImpl.saveStudyMetadata`** is in the user-registration service. The study builder publishes a study's metadata. This method then updates or creates the study in the studies table. Around it, it creates or updates the study's app, gives every super-admin user EDIT permissions, and manages the study's sites. There are two branches:
  - When a study with the bean's custom id exists, the study and its app take the bean's fields. If the new status is "Deactivated" (ignoring case), every site of the study is decommissioned (status 0).
  - When no such study exists, the app is created if missing, along with one EDIT app permission per super admin. Then the study is created, along with one EDIT study permission per super admin. An open study also gets one active site at the default location.
- **`ParticipantMapper`** is in the participant-manager service. It holds pure projections of participant, study and app entities onto response objects. Each date is either formatted or shown as `NOT_APPLICABLE`.

## Layout

- `nullable.dfy` — module `Nullable`: `Option` for Java's nullable references.
- `instants.dfy` — module `Instants`: `Stamp` for instants (`java.sql.Timestamp`).
- `java_strings.dfy` — module `JavaStrings`: `String.equalsIgnoreCase`, `StringUtils.isBlank`, `isEmpty` and `defaultIfEmpty`. It also proves that `equalsIgnoreCase` agrees with comparing lower-case forms.
- `query.dfy` — module `Query`: reads a table either as every matching row (`getResultList`) or as at most one matching row (`uniqueResult`, which throws when two rows match).
- `studies_dao.dfy` — module `StudiesDao`:
  - the rows, as datatypes;
  - `Tables`, a snapshot of all tables;
  - `Save`, the upsert as a function of the snapshot;
  - the class `StudySession`: the Hibernate session, whose fields are the tables. Its method `SaveStudyMetadata`, with its helpers and loops, is proved to leave exactly the tables `Save` describes and to return the same result.
- `studies_dao_properties.dfy` — module `StudiesDaoProperties`: what the upsert promises, proved about `Save`. Because the method is proved equal to `Save`, these properties hold of the method too.
- `participant_mapper.dfy` — module `ParticipantMapper`: the two mappers as functions on values, plus lemmas about what they keep.

How the code is represented:

- **References between rows** are row indices. This covers a study's app, a site's study, and a permission's app, study and admin user. Rows are only appended, never removed, so an index stays valid; `ValidTables` states that every reference is in range.
- **Exceptions** become `Failed(..)` results. A failed save leaves the tables unchanged, which assumes the caller's transaction rolls back.
- **The mappers** are functions on entity values, so they cannot change their inputs, and each result is a newly built value.

## Model

| member | source | states |
|---|---|---|
| `StudiesDao.StudySession.SaveStudyMetadata` | user-registration-server-ws/user-mgmt-module/user-mgmt/src/main/java/com/google/cloud/healthcare/fdamystudies/dao/StudiesDaoImpl.java:46-180 | the result and the new contents of every table are exactly those of the specification `Save`; referential integrity is kept |
| `StudiesDao.StudySession.UpdateStudy` | user-registration-server-ws/user-mgmt-module/user-mgmt/src/main/java/com/google/cloud/healthcare/fdamystudies/dao/StudiesDaoImpl.java:86-109 | when the study exists, the app and the study take the bean's fields, the study is linked to the looked-up app, and the study's sites are decommissioned when the status is "Deactivated" in any case |
| `StudiesDao.StudySession.CreateStudy` | user-registration-server-ws/user-mgmt-module/user-mgmt/src/main/java/com/google/cloud/healthcare/fdamystudies/dao/StudiesDaoImpl.java:110-175 | when the study is absent: an app only if none was found, the new study, the permission rows, and a default site for an open study |
| `StudiesDao.StudySession.AddAppPermissions` | user-registration-server-ws/user-mgmt-module/user-mgmt/src/main/java/com/google/cloud/healthcare/fdamystudies/dao/StudiesDaoImpl.java:122-130 | the loop appends one EDIT app permission per super admin, in table order, created by that admin; no other table changes |
| `StudiesDao.StudySession.AddStudyPermissions` | user-registration-server-ws/user-mgmt-module/user-mgmt/src/main/java/com/google/cloud/healthcare/fdamystudies/dao/StudiesDaoImpl.java:148-157 | the loop appends one EDIT study permission per super admin, in table order, on the new study and its app; no other table changes |
| `StudiesDao.StudySession.DecommissionSitesOfStudy` | user-registration-server-ws/user-mgmt-module/user-mgmt/src/main/java/com/google/cloud/healthcare/fdamystudies/dao/StudiesDaoImpl.java:182-204 | every site of the study gets status 0 and a modified stamp; every other site is unchanged; no other table changes |
| `Query.Hits` | user-registration-server-ws/user-mgmt-module/user-mgmt/src/main/java/com/google/cloud/healthcare/fdamystudies/dao/StudiesDaoImpl.java:78-84 | the result list holds exactly the indices of the matching rows, strictly increasing, so each matching row appears once (the super-admin query) |
| `Query.UniqueResult` | user-registration-server-ws/user-mgmt-module/user-mgmt/src/main/java/com/google/cloud/healthcare/fdamystudies/dao/StudiesDaoImpl.java:64-76 | Absent exactly when no row matches; NonUnique exactly when two rows match; otherwise the one matching row |
| `StudiesDaoProperties.SaveReturnsEc200` | user-registration-server-ws/user-mgmt-module/user-mgmt/src/main/java/com/google/cloud/healthcare/fdamystudies/dao/StudiesDaoImpl.java:177-179 | every path that completes returns the EC_200 bean; the method completes exactly when no key is duplicated, an existing study has its app, and a new open study has a default location; every failure leaves the tables as they were |
| `StudiesDaoProperties.UniqueKeysNeverNonUnique` | user-registration-server-ws/user-mgmt-module/user-mgmt/src/main/java/com/google/cloud/healthcare/fdamystudies/dao/StudiesDaoImpl.java:68-76 | with unique custom ids and app ids, neither lookup raises NonUniqueResultException |
| `StudiesDaoProperties.SaveUpdatesExistingStudy` | user-registration-server-ws/user-mgmt-module/user-mgmt/src/main/java/com/google/cloud/healthcare/fdamystudies/dao/StudiesDaoImpl.java:86-106 | for an existing study: no row is created in any table and no permission changes; the study's name, version, type, status, category, tagline, sponsor and enrolling come from the bean, and its creation fields are kept; it is linked to the app with the bean's app id, which takes the bean's name and description; other studies and apps are unchanged; the method fails exactly on a duplicated key or a missing app |
| `StudiesDaoProperties.SaveDecommissionsSitesOfDeactivatedStudy` | user-registration-server-ws/user-mgmt-module/user-mgmt/src/main/java/com/google/cloud/healthcare/fdamystudies/dao/StudiesDaoImpl.java:107-109 | on the update branch with status "Deactivated" ignoring case, every site of that study ends with status 0, and sites of other studies are unchanged |
| `StudiesDaoProperties.SaveKeepsSitesOfActiveStudy` | user-registration-server-ws/user-mgmt-module/user-mgmt/src/main/java/com/google/cloud/healthcare/fdamystudies/dao/StudiesDaoImpl.java:107 | on the update branch with any other status, the sites table is unchanged |
| `StudiesDaoProperties.DeactivatedIgnoresCase` | user-registration-server-ws/user-mgmt-module/user-mgmt/src/main/java/com/google/cloud/healthcare/fdamystudies/dao/StudiesDaoImpl.java:107 | the status test holds exactly when the status in lower case is "deactivated" |
| `JavaStrings.EqualsIgnoreCaseIsLowerEqual` | user-registration-server-ws/user-mgmt-module/user-mgmt/src/main/java/com/google/cloud/healthcare/fdamystudies/dao/StudiesDaoImpl.java:107 | `equalsIgnoreCase`, defined through per-character upper and lower cases, holds exactly when the two lower-case forms are equal |
| `StudiesDaoProperties.AppPermissionsGrantEachSuperAdmin` | user-registration-server-ws/user-mgmt-module/user-mgmt/src/main/java/com/google/cloud/healthcare/fdamystudies/dao/StudiesDaoImpl.java:122-130 | the app-permission rows give each super admin exactly one EDIT permission on the app, created by that admin, and give no other user any; their number is the number of super admins |
| `StudiesDaoProperties.StudyPermissionsGrantEachSuperAdmin` | user-registration-server-ws/user-mgmt-module/user-mgmt/src/main/java/com/google/cloud/healthcare/fdamystudies/dao/StudiesDaoImpl.java:148-157 | the same for the study-permission rows, each on the new study and its app |
| `StudiesDaoProperties.SaveCreatesMissingApp` | user-registration-server-ws/user-mgmt-module/user-mgmt/src/main/java/com/google/cloud/healthcare/fdamystudies/dao/StudiesDaoImpl.java:112-131 | when neither the study nor the app exists: exactly one app is appended, with the bean's id, name and description and created by "0"; the rows appended to the app permissions give each super admin exactly one EDIT permission on it |
| `StudiesDaoProperties.SaveReusesExistingApp` | user-registration-server-ws/user-mgmt-module/user-mgmt/src/main/java/com/google/cloud/healthcare/fdamystudies/dao/StudiesDaoImpl.java:112 | when the study is absent but its app exists, the apps and app-permission tables are unchanged |
| `StudiesDaoProperties.SaveCreatesStudy` | user-registration-server-ws/user-mgmt-module/user-mgmt/src/main/java/com/google/cloud/healthcare/fdamystudies/dao/StudiesDaoImpl.java:133-157 | when the study is absent: exactly one study is appended, with the bean's study id as custom id and the bean's fields, linked to the app with the bean's app id; the appended study permissions give each super admin exactly one EDIT permission on it |
| `StudiesDaoProperties.SaveCreatesDefaultSiteForOpenStudy` | user-registration-server-ws/user-mgmt-module/user-mgmt/src/main/java/com/google/cloud/healthcare/fdamystudies/dao/StudiesDaoImpl.java:159-174 | a new study of type OPEN gets exactly one site, at the default location, with status 1 and target enrollment 0; a new study of any other type gets no site |
| `StudiesDaoProperties.OpenStudyIsExactlyOpen` | user-registration-server-ws/user-mgmt-module/user-mgmt/src/main/java/com/google/cloud/healthcare/fdamystudies/dao/StudiesDaoImpl.java:159-160 | the open-study test holds exactly when the type equals OPEN_STUDY; the blank test in front of it never decides anything |
| `StudiesDaoProperties.SavePreservesUniqueKeys` | user-registration-server-ws/user-mgmt-module/user-mgmt/src/main/java/com/google/cloud/healthcare/fdamystudies/dao/StudiesDaoImpl.java:86-146 | if study custom ids and app ids were unique before the upsert, they are unique after it |
| `StudiesDaoProperties.SaveAgainCreatesNothing` | user-registration-server-ws/user-mgmt-module/user-mgmt/src/main/java/com/google/cloud/healthcare/fdamystudies/dao/StudiesDaoImpl.java:86-175 | with unique keys, saving the same bean a second time succeeds and creates no app, study, permission or site |
| `JavaStrings.DefaultIfEmpty` | participant-manager-module/participant-manager-service/src/main/java/com/google/cloud/healthcare/fdamystudies/mapper/ParticipantMapper.java:37 | the default is returned exactly when the string is null or empty, and the string itself otherwise |
| `ParticipantMapper.DateOrNotApplicable` | participant-manager-module/participant-manager-service/src/main/java/com/google/cloud/healthcare/fdamystudies/mapper/ParticipantMapper.java:35-40 | the result is never empty: it is NOT_APPLICABLE when the formatted date is null or empty, and the formatted date otherwise |
| `ParticipantMapper.FromParticipantStudy` | participant-manager-module/participant-manager-service/src/main/java/com/google/cloud/healthcare/fdamystudies/mapper/ParticipantMapper.java:26-42 | the id is the participant id, not the row's own id; the enrollment status is the participant-study status; the email comes from the registry-site record; the site id comes from the site, and the location id and name from the site's location; the invited and enrollment dates are each NOT_APPLICABLE when the formatted invitation or enrolled date is null or empty, and that formatted value otherwise, so neither is ever empty |
| `ParticipantMapper.FromParticipantStudyDependsOnlyOnView` | participant-manager-module/participant-manager-service/src/main/java/com/google/cloud/healthcare/fdamystudies/mapper/ParticipantMapper.java:26-42 | whenever the formatter never returns the literal NOT_APPLICABLE, two participant studies map to the same request exactly when they agree on the fields the mapper reads and their formatted dates are shown alike |
| `ParticipantMapper.FromStudyAndApp` | participant-manager-module/participant-manager-service/src/main/java/com/google/cloud/healthcare/fdamystudies/mapper/ParticipantMapper.java:44-54 | study id and custom id go to studyId and customStudyId; the app's row id goes to appId and its public app id to customAppId; the names and the type are copied |
| `ParticipantMapper.FromStudyAndAppRoundTrip` | participant-manager-module/participant-manager-service/src/main/java/com/google/cloud/healthcare/fdamystudies/mapper/ParticipantMapper.java:44-54 | the study and app fields the mapper reads can be recovered from its result |
| `ParticipantMapper.FromStudyAndAppInjective` | participant-manager-module/participant-manager-service/src/main/java/com/google/cloud/healthcare/fdamystudies/mapper/ParticipantMapper.java:44-54 | two (study, app) pairs give the same detail exactly when they are the same pair |

## Left out

- Hibernate criteria queries, HQL, `session.save`, `session.update` and `session.get` are not modelled as such. They become lookups and appends over the session's tables. The study fetched again by its generated id (StudiesDaoImpl.java:146, 165) is the row just appended.
- The default-location query (StudiesDaoImpl.java:161-164) becomes the optional input `defaultLocation`. `None` stands for `getSingleResult` throwing, whether it found no default location or several. The source's null test after it can never fail.
- `StudiesDao.StudySession.CreateStudy`: a missing default location is checked before any row is written, not after. In the source the exception is raised after the app, the study and the permissions are saved. The model assumes the caller's transaction then discards those rows. The transaction boundary is not part of this model.
- `StudiesDao.StudySession.SaveStudyMetadata`: one instant `now` stands for all the `Timestamp.from(Instant.now())` calls in one save. The source may read a different instant at each call.
- `Query.Hits`: the super-admin query (StudiesDaoImpl.java:78-84) has no ORDER BY. The model takes its result list in table order, which fixes the order of the appended permission rows; none of the lemmas about `Save` depends on that order.
- `Float.valueOf(studyVersion)` (StudiesDaoImpl.java:96, 136): the version is kept as the bean's string. The `NumberFormatException` for a non-numeric version is not modelled.
- Null bean fields are not modelled: every bean field is a non-null string. In the source, a null status raises `NullPointerException` at StudiesDaoImpl.java:107.
- `JavaStrings.EqualsIgnoreCase` uses only ASCII case mappings. The JDK also folds some non-ASCII letters; for example, dotless ı (U+0131) matches `i`.
- `AppConstants`, `CommonConstants`, `ErrorCode` and `Permission` are not part of this model, so some values are assumed:
  - `OPEN_STUDY` is taken as "OPEN" and `NOT_APPLICABLE` as "NA"; the properties need only that NOT_APPLICABLE is non-empty and OPEN_STUDY is not blank;
  - of `ErrorBean`, only the code EC_200 is kept, not its message;
  - of `Permission`, only EDIT, the one level the core writes, is kept.
- `DateTimeUtils.format` is not part of this model. It is a function parameter that the mappers call and nothing constrains.
- The mapper dereferences its associations (registry site, site, location). A null association raises `NullPointerException` in the source; the model's entities always have these associations. Fields that the mappers leave unset on their results are not modelled.
- Logging is left out, because it has no effect on the tables or on results.
- The account-deactivation workflow is not part of this model, because its implementation is in services that are not part of this model. That workflow covers credential revocation, withdrawal notifications, anonymisation and audit events, as exercised by `UserProfileControllerTest.java`.
- The test harnesses `UserProfileControllerTest.java` and `BaseMockIT.java` are left out, because they contain test scaffolding and assertions, not product logic.
- `ForgotPasswordActivity.java` is left out, because it is Android UI plus callbacks to a web service.
- `AppPermissionEntity.java` and `EnrolledStudies.java` hold only fields. They informed the row shapes.
- `CommonService.java` and `UserAppDetailsRepository.java` are interfaces without bodies.
