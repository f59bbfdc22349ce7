/**
 * `StudiesDaoImpl` of the user-registration service: the upsert of a study's metadata,
 * published by the study builder, into the studies, apps, permissions and sites tables.
 *
 * The Hibernate session is a `StudySession` object whose fields are the tables it sees.
 * A reference from one row to another (a study's app, a site's study, a permission's
 * admin user) is the index of the referenced row in its table; rows are only ever
 * appended, so an index stays valid.
 */
module StudiesDao {
  import opened Nullable
  import opened Instants
  import opened JavaStrings
  import opened Query

  // ---------------------------------------------------------------- rows

  /** `AppEntity`. */
  datatype App = App(
    appId: string, appName: string, appDescription: string,
    createdBy: Option<string>, created: Option<Stamp>,
    modifiedBy: Option<string>, modified: Option<Stamp>)

  /** `StudyEntity`; `app` is the index of its app. `version` stands for the parsed float. */
  datatype Study = Study(
    customId: string, name: string, version: string, studyType: string, status: string,
    category: string, tagline: string, sponsor: string, enrolling: string,
    app: nat,
    createdBy: Option<string>, created: Option<Stamp>,
    modifiedBy: Option<string>, modified: Option<Stamp>)

  /** `UserRegAdminEntity`: the fields the core reads. */
  datatype AdminUser = AdminUser(id: string, superAdmin: bool)

  /** The permission level the core grants: every row it writes has EDIT. */
  datatype Permission = Edit

  /** `AppPermissionEntity`; `app` and `adminUser` are row indices. */
  datatype AppPermission = AppPermission(
    app: nat, adminUser: nat, edit: Permission, created: Stamp, createdBy: string)

  /** `StudyPermissionEntity`; `app`, `study` and `adminUser` are row indices. */
  datatype StudyPermission = StudyPermission(
    app: nat, study: nat, adminUser: nat, edit: Permission, created: Stamp, createdBy: string)

  /** `SiteEntity`; `study` is a row index, `location` the id of a `LocationEntity`. */
  datatype Site = Site(
    study: nat, location: string, createdBy: Option<string>,
    status: int, targetEnrollment: int,
    modifiedBy: Option<string>, modified: Option<Stamp>)

  /** `StudyMetadataBean`: what the study builder sends. */
  datatype StudyMetadataBean = StudyMetadataBean(
    studyId: string, studyTitle: string, studyVersion: string, studyType: string,
    studyStatus: string, studyCategory: string, studyTagline: string,
    studySponsor: string, studyEnrolling: string,
    appId: string, appName: string, appDescription: string)

  /** `ErrorBean`; the model keeps only its error code. */
  datatype ErrorCode = EC_200
  datatype ErrorBean = ErrorBean(code: ErrorCode)

  /** The exceptions `saveStudyMetadata` can raise, and its normal return. */
  datatype Failure =
    | StudyNotUnique     // uniqueResult() on the studies query found two rows
    | AppNotUnique       // uniqueResult() on the apps query found two rows
    | AppMissing         // the study exists but no app has the bean's appId: NullPointerException
    | NoDefaultLocation  // getSingleResult() found no default location, or several
  datatype SaveResult = Saved(bean: ErrorBean) | Failed(failure: Failure)

  /** `String.valueOf(0)`, the user recorded in the created-by and modified-by columns. */
  const SYSTEM_USER: string := "0"
  /** `AppConstants.OPEN_STUDY`. */
  const OPEN_STUDY: string := "OPEN"
  /** The status that decommissions a study's sites. */
  const DEACTIVATED: string := "Deactivated"
  const SITE_ACTIVE: int := 1
  const SITE_DECOMMISSIONED: int := 0

  // ---------------------------------------------------------------- tables

  /** A snapshot of the tables the session sees. */
  datatype Tables = Tables(
    apps: seq<App>, studies: seq<Study>, admins: seq<AdminUser>,
    appPermissions: seq<AppPermission>, studyPermissions: seq<StudyPermission>,
    sites: seq<Site>)

  /** Referential integrity: every reference names an existing row. */
  predicate ValidTables(t: Tables) {
    && (forall i :: 0 <= i < |t.studies| ==> t.studies[i].app < |t.apps|)
    && (forall k :: 0 <= k < |t.appPermissions| ==>
          t.appPermissions[k].app < |t.apps| && t.appPermissions[k].adminUser < |t.admins|)
    && (forall k :: 0 <= k < |t.studyPermissions| ==>
          && t.studyPermissions[k].app < |t.apps|
          && t.studyPermissions[k].study < |t.studies|
          && t.studyPermissions[k].adminUser < |t.admins|)
    && (forall k :: 0 <= k < |t.sites| ==> t.sites[k].study < |t.studies|)
  }

  /** The keys the lookups go by are unique: at most one study per custom id, one app per app id. */
  predicate KeysUnique(t: Tables) {
    && (forall i, j :: 0 <= i < j < |t.studies| ==> t.studies[i].customId != t.studies[j].customId)
    && (forall i, j :: 0 <= i < j < |t.apps| ==> t.apps[i].appId != t.apps[j].appId)
  }

  // ---------------------------------------------------------------- queries

  /** The study whose `customId` is `customId`. */
  function FindStudy(studies: seq<Study>, customId: string): Lookup {
    UniqueResult(studies, (s: Study) => s.customId == customId)
  }

  /** The app whose `appId` is `appId`. */
  function FindApp(apps: seq<App>, appId: string): Lookup {
    UniqueResult(apps, (a: App) => a.appId == appId)
  }

  /** The indices of the users whose `superAdmin` flag is set, in table order. */
  function SuperAdmins(admins: seq<AdminUser>): seq<nat> {
    Hits(admins, (u: AdminUser) => u.superAdmin)
  }

  /** `!StringUtils.isBlank(type) && type.equals(OPEN_STUDY)`. */
  predicate IsOpenStudy(studyType: string) {
    !IsBlank(Some(studyType)) && studyType == OPEN_STUDY
  }

  /** `status.equalsIgnoreCase("Deactivated")`. */
  predicate IsDeactivated(status: string) {
    EqualsIgnoreCase(status, DEACTIVATED)
  }

  // ---------------------------------------------------------------- row updates

  /** The setters applied to the existing app on the update branch. */
  function UpdatedApp(a: App, bean: StudyMetadataBean, now: Stamp): App {
    a.(appId := bean.appId, appName := bean.appName, appDescription := bean.appDescription,
       modifiedBy := Some(SYSTEM_USER), modified := Some(now))
  }

  /** The setters applied to the existing study on the update branch. */
  function UpdatedStudy(s: Study, bean: StudyMetadataBean, app: nat, now: Stamp): Study {
    s.(customId := bean.studyId, name := bean.studyTitle, version := bean.studyVersion,
       studyType := bean.studyType, status := bean.studyStatus, category := bean.studyCategory,
       tagline := bean.studyTagline, sponsor := bean.studySponsor, enrolling := bean.studyEnrolling,
       app := app, modifiedBy := Some(SYSTEM_USER), modified := Some(now))
  }

  /** The app created on the create branch. */
  function NewApp(bean: StudyMetadataBean, now: Stamp): App {
    App(bean.appId, bean.appName, bean.appDescription, Some(SYSTEM_USER), Some(now), None, None)
  }

  /** The study created on the create branch. */
  function NewStudy(bean: StudyMetadataBean, app: nat, now: Stamp): Study {
    Study(bean.studyId, bean.studyTitle, bean.studyVersion, bean.studyType, bean.studyStatus,
          bean.studyCategory, bean.studyTagline, bean.studySponsor, bean.studyEnrolling,
          app, Some(SYSTEM_USER), Some(now), None, None)
  }

  /** The site an open study gets at the default location. */
  function DefaultSite(study: nat, location: string): Site {
    Site(study, location, Some(SYSTEM_USER), SITE_ACTIVE, 0, None, None)
  }

  /** What `decommisionSiteFromStudy` does to one site. */
  function DecommissionedSite(s: Site, now: Stamp): Site {
    s.(status := SITE_DECOMMISSIONED, modifiedBy := Some(SYSTEM_USER), modified := Some(now))
  }

  /** The sites table after decommissioning every site of `study`. */
  function Decommissioned(sites: seq<Site>, study: nat, now: Stamp): seq<Site> {
    seq(|sites|, k requires 0 <= k < |sites| =>
      if sites[k].study == study then DecommissionedSite(sites[k], now) else sites[k])
  }

  /** One EDIT app permission for the admin user at index `u`. */
  function AppPermissionFor(app: nat, u: nat, admins: seq<AdminUser>, now: Stamp): AppPermission
    requires u < |admins|
  {
    AppPermission(app, u, Edit, now, admins[u].id)
  }

  /** One EDIT app permission per user index in `users`, in order. */
  function AppPermissionsFor(app: nat, users: seq<nat>, admins: seq<AdminUser>, now: Stamp): seq<AppPermission>
    requires forall k :: 0 <= k < |users| ==> users[k] < |admins|
  {
    seq(|users|, k requires 0 <= k < |users| => AppPermissionFor(app, users[k], admins, now))
  }

  /** One EDIT study permission for the admin user at index `u`. */
  function StudyPermissionFor(app: nat, study: nat, u: nat, admins: seq<AdminUser>, now: Stamp): StudyPermission
    requires u < |admins|
  {
    StudyPermission(app, study, u, Edit, now, admins[u].id)
  }

  /** One EDIT study permission per user index in `users`, in order. */
  function StudyPermissionsFor(app: nat, study: nat, users: seq<nat>, admins: seq<AdminUser>, now: Stamp): seq<StudyPermission>
    requires forall k :: 0 <= k < |users| ==> users[k] < |admins|
  {
    seq(|users|, k requires 0 <= k < |users| => StudyPermissionFor(app, study, users[k], admins, now))
  }

  // ---------------------------------------------------------------- specification

  /** The update branch: the study at `i` and the app at `j` take the bean's fields. */
  function UpdateTables(t: Tables, i: nat, j: nat, bean: StudyMetadataBean, now: Stamp): Tables
    requires i < |t.studies| && j < |t.apps|
  {
    t.(apps := t.apps[j := UpdatedApp(t.apps[j], bean, now)],
       studies := t.studies[i := UpdatedStudy(t.studies[i], bean, j, now)],
       sites := if IsDeactivated(bean.studyStatus) then Decommissioned(t.sites, i, now) else t.sites)
  }

  /** The create branch: maybe a new app with its permissions, then the study, its permissions and maybe a site. */
  function CreateTables(t: Tables, appFound: Lookup, bean: StudyMetadataBean, now: Stamp, defaultLocation: Option<string>): Tables
    requires ValidTables(t)
    requires appFound.Unique? ==> appFound.index < |t.apps|
    requires IsOpenStudy(bean.studyType) ==> defaultLocation.Some?
  {
    var supers := SuperAdmins(t.admins);
    var app := if appFound.Unique? then appFound.index else |t.apps|;
    var apps := if appFound.Unique? then t.apps else t.apps + [NewApp(bean, now)];
    var appPermissions :=
      if appFound.Unique? then t.appPermissions
      else t.appPermissions + AppPermissionsFor(app, supers, t.admins, now);
    var study := |t.studies|;
    Tables(
      apps, t.studies + [NewStudy(bean, app, now)], t.admins, appPermissions,
      t.studyPermissions + StudyPermissionsFor(app, study, supers, t.admins, now),
      if IsOpenStudy(bean.studyType) then t.sites + [DefaultSite(study, defaultLocation.value)] else t.sites)
  }

  /**
   * `saveStudyMetadata` as a function of the tables: its result and the tables afterwards.
   * A raised exception leaves the tables as they were.
   */
  function Save(t: Tables, bean: StudyMetadataBean, now: Stamp, defaultLocation: Option<string>): (SaveResult, Tables)
    requires ValidTables(t)
  {
    var studyInfo := FindStudy(t.studies, bean.studyId);
    var appInfo := FindApp(t.apps, bean.appId);
    if studyInfo.NonUnique? then (Failed(StudyNotUnique), t)
    else if appInfo.NonUnique? then (Failed(AppNotUnique), t)
    else if studyInfo.Unique? then
      if appInfo.Absent? then (Failed(AppMissing), t)
      else (Saved(ErrorBean(EC_200)), UpdateTables(t, studyInfo.index, appInfo.index, bean, now))
    else if IsOpenStudy(bean.studyType) && defaultLocation.None? then (Failed(NoDefaultLocation), t)
    else (Saved(ErrorBean(EC_200)), CreateTables(t, appInfo, bean, now, defaultLocation))
  }

  /** The update branch keeps every reference valid. */
  lemma UpdateTablesValid(t: Tables, i: nat, j: nat, bean: StudyMetadataBean, now: Stamp)
    requires ValidTables(t) && i < |t.studies| && j < |t.apps|
    ensures ValidTables(UpdateTables(t, i, j, bean, now))
  {
  }

  /** The create branch keeps every reference valid. */
  lemma CreateTablesValid(t: Tables, appFound: Lookup, bean: StudyMetadataBean, now: Stamp, defaultLocation: Option<string>)
    requires ValidTables(t)
    requires appFound.Unique? ==> appFound.index < |t.apps|
    requires IsOpenStudy(bean.studyType) ==> defaultLocation.Some?
    ensures ValidTables(CreateTables(t, appFound, bean, now, defaultLocation))
  {
    var t' := CreateTables(t, appFound, bean, now, defaultLocation);
    var supers := SuperAdmins(t.admins);
    assert |t'.apps| == |t.apps| + (if appFound.Unique? then 0 else 1);
    assert |t'.studies| == |t.studies| + 1;
    forall k | 0 <= k < |t'.appPermissions|
      ensures t'.appPermissions[k].app < |t'.apps| && t'.appPermissions[k].adminUser < |t'.admins|
    {
      if k >= |t.appPermissions| {
        assert t'.appPermissions[k] == AppPermissionsFor(|t.apps|, supers, t.admins, now)[k - |t.appPermissions|];
      }
    }
    forall k | 0 <= k < |t'.studyPermissions|
      ensures t'.studyPermissions[k].app < |t'.apps| && t'.studyPermissions[k].study < |t'.studies|
      ensures t'.studyPermissions[k].adminUser < |t'.admins|
    {
      if k >= |t.studyPermissions| {
        var app := if appFound.Unique? then appFound.index else |t.apps|;
        assert t'.studyPermissions[k] == StudyPermissionsFor(app, |t.studies|, supers, t.admins, now)[k - |t.studyPermissions|];
      }
    }
  }

  // ---------------------------------------------------------------- the session

  /** The Hibernate session: the tables it reads and writes. */
  class StudySession {
    var apps: seq<App>
    var studies: seq<Study>
    var admins: seq<AdminUser>
    var appPermissions: seq<AppPermission>
    var studyPermissions: seq<StudyPermission>
    var sites: seq<Site>

    function Contents(): Tables
      reads this
    {
      Tables(apps, studies, admins, appPermissions, studyPermissions, sites)
    }

    predicate Valid()
      reads this
    {
      ValidTables(Contents())
    }

    constructor (t: Tables)
      requires ValidTables(t)
      ensures Valid() && Contents() == t
    {
      apps, studies, admins := t.apps, t.studies, t.admins;
      appPermissions, studyPermissions, sites := t.appPermissions, t.studyPermissions, t.sites;
    }

    /** `saveStudyMetadata`: update the study with the bean's `studyId`, or create it. */
    method SaveStudyMetadata(bean: StudyMetadataBean, now: Stamp, defaultLocation: Option<string>)
      returns (r: SaveResult)
      requires Valid()
      modifies this
      ensures Valid()
      ensures (r, Contents()) == Save(old(Contents()), bean, now, defaultLocation)
    {
      var studyInfo := FindStudy(studies, bean.studyId);
      var appInfo := FindApp(apps, bean.appId);
      var superAdminUser := SuperAdmins(admins);
      if studyInfo.NonUnique? {
        return Failed(StudyNotUnique);
      }
      if appInfo.NonUnique? {
        return Failed(AppNotUnique);
      }
      if studyInfo.Unique? {
        if appInfo.Absent? {
          return Failed(AppMissing);
        }
        UpdateStudy(studyInfo.index, appInfo.index, bean, now);
      } else {
        // getSingleResult() would throw after the rows below were saved; the caller's
        // transaction then discards them, so the check is made before any write.
        if IsOpenStudy(bean.studyType) && defaultLocation.None? {
          return Failed(NoDefaultLocation);
        }
        CreateStudy(appInfo, superAdminUser, bean, now, defaultLocation);
      }
      r := Saved(ErrorBean(EC_200));
    }

    /** The update branch of `saveStudyMetadata`. */
    method UpdateStudy(i: nat, j: nat, bean: StudyMetadataBean, now: Stamp)
      requires Valid() && i < |studies| && j < |apps|
      modifies this`apps, this`studies, this`sites
      ensures Valid()
      ensures Contents() == UpdateTables(old(Contents()), i, j, bean, now)
    {
      apps := apps[j := UpdatedApp(apps[j], bean, now)];
      studies := studies[i := UpdatedStudy(studies[i], bean, j, now)];
      if IsDeactivated(studies[i].status) {
        DecommissionSitesOfStudy(i, now);
      }
      UpdateTablesValid(old(Contents()), i, j, bean, now);
    }

    /** The create branch of `saveStudyMetadata`; `superAdminUser` is the result of the super-admin query. */
    method CreateStudy(appInfo: Lookup, superAdminUser: seq<nat>, bean: StudyMetadataBean, now: Stamp, defaultLocation: Option<string>)
      requires Valid()
      requires superAdminUser == SuperAdmins(admins)
      requires appInfo.Unique? ==> appInfo.index < |apps|
      requires IsOpenStudy(bean.studyType) ==> defaultLocation.Some?
      modifies this`apps, this`studies, this`appPermissions, this`studyPermissions, this`sites
      ensures Valid()
      ensures Contents() == CreateTables(old(Contents()), appInfo, bean, now, defaultLocation)
    {
      var app: nat;
      if appInfo.Unique? {
        app := appInfo.index;
      } else {
        app := |apps|;
        apps := apps + [NewApp(bean, now)];
        AddAppPermissions(app, superAdminUser, now);
      }
      var study := |studies|;
      studies := studies + [NewStudy(bean, app, now)];
      AddStudyPermissions(app, study, superAdminUser, now);
      if IsOpenStudy(bean.studyType) {
        sites := sites + [DefaultSite(study, defaultLocation.value)];
      }
      assert Contents() == CreateTables(old(Contents()), appInfo, bean, now, defaultLocation);
      CreateTablesValid(old(Contents()), appInfo, bean, now, defaultLocation);
    }

    /** The loop granting each super admin EDIT on a new app. */
    method AddAppPermissions(app: nat, superAdminUser: seq<nat>, now: Stamp)
      requires forall k :: 0 <= k < |superAdminUser| ==> superAdminUser[k] < |admins|
      modifies this`appPermissions
      ensures appPermissions == old(appPermissions) + AppPermissionsFor(app, superAdminUser, admins, now)
    {
      var k := 0;
      while k < |superAdminUser|
        invariant 0 <= k <= |superAdminUser|
        invariant appPermissions == old(appPermissions) + AppPermissionsFor(app, superAdminUser[..k], admins, now)
      {
        appPermissions := appPermissions + [AppPermissionFor(app, superAdminUser[k], admins, now)];
        assert superAdminUser[..k + 1] == superAdminUser[..k] + [superAdminUser[k]];
        k := k + 1;
      }
      assert superAdminUser[..k] == superAdminUser;
    }

    /** The loop granting each super admin EDIT on a new study. */
    method AddStudyPermissions(app: nat, study: nat, superAdminUser: seq<nat>, now: Stamp)
      requires forall k :: 0 <= k < |superAdminUser| ==> superAdminUser[k] < |admins|
      modifies this`studyPermissions
      ensures studyPermissions == old(studyPermissions) + StudyPermissionsFor(app, study, superAdminUser, admins, now)
    {
      var k := 0;
      while k < |superAdminUser|
        invariant 0 <= k <= |superAdminUser|
        invariant studyPermissions == old(studyPermissions) + StudyPermissionsFor(app, study, superAdminUser[..k], admins, now)
      {
        studyPermissions := studyPermissions + [StudyPermissionFor(app, study, superAdminUser[k], admins, now)];
        assert superAdminUser[..k + 1] == superAdminUser[..k] + [superAdminUser[k]];
        k := k + 1;
      }
      assert superAdminUser[..k] == superAdminUser;
    }

    /** `decommisionSiteFromStudy`: every site of `study` gets status 0. */
    method DecommissionSitesOfStudy(study: nat, now: Stamp)
      modifies this`sites
      ensures sites == Decommissioned(old(sites), study, now)
    {
      var k := 0;
      while k < |sites|
        invariant 0 <= k <= |sites| == |old(sites)|
        invariant forall m :: 0 <= m < k ==> sites[m] == Decommissioned(old(sites), study, now)[m]
        invariant forall m :: k <= m < |sites| ==> sites[m] == old(sites)[m]
      {
        if sites[k].study == study {
          sites := sites[k := DecommissionedSite(sites[k], now)];
        }
        k := k + 1;
      }
    }
  }
}
