/**
 * What `saveStudyMetadata` promises, proved of its specification `StudiesDao.Save`;
 * `StudySession.SaveStudyMetadata` is proved equal to `Save`, so each lemma holds of it.
 */
module StudiesDaoProperties {
  import opened Nullable
  import opened Instants
  import opened JavaStrings
  import opened Query
  import opened StudiesDao

  // ---------------------------------------------------------------- the result

  /** No two rows of `t` share the custom id `id`. */
  predicate AtMostOneStudy(t: Tables, id: string) {
    forall i, j :: 0 <= i < j < |t.studies| && t.studies[i].customId == id ==> t.studies[j].customId != id
  }

  /** No two rows of `t` share the app id `id`. */
  predicate AtMostOneApp(t: Tables, id: string) {
    forall i, j :: 0 <= i < j < |t.apps| && t.apps[i].appId == id ==> t.apps[j].appId != id
  }

  predicate StudyExists(t: Tables, id: string) {
    exists i :: 0 <= i < |t.studies| && t.studies[i].customId == id
  }

  predicate AppExists(t: Tables, id: string) {
    exists j :: 0 <= j < |t.apps| && t.apps[j].appId == id
  }

  /** When `saveStudyMetadata` runs to its end, stated without the lookups. */
  predicate Completes(t: Tables, bean: StudyMetadataBean, defaultLocation: Option<string>) {
    && AtMostOneStudy(t, bean.studyId)
    && AtMostOneApp(t, bean.appId)
    && (StudyExists(t, bean.studyId) ==> AppExists(t, bean.appId))
    && (!StudyExists(t, bean.studyId) && IsOpenStudy(bean.studyType) ==> defaultLocation.Some?)
  }

  /** Every path that completes returns the EC_200 bean; every other path raises and changes nothing. */
  lemma SaveReturnsEc200(t: Tables, bean: StudyMetadataBean, now: Stamp, defaultLocation: Option<string>)
    requires ValidTables(t)
    ensures Save(t, bean, now, defaultLocation).0.Saved? <==> Completes(t, bean, defaultLocation)
    ensures Save(t, bean, now, defaultLocation).0.Saved? ==> Save(t, bean, now, defaultLocation).0 == Saved(ErrorBean(EC_200))
    ensures Save(t, bean, now, defaultLocation).0.Failed? ==> Save(t, bean, now, defaultLocation).1 == t
  {
    var studyInfo := FindStudy(t.studies, bean.studyId);
    var appInfo := FindApp(t.apps, bean.appId);
    if studyInfo.NonUnique? {
      var i, j :| 0 <= i < j < |t.studies| && t.studies[i].customId == bean.studyId && t.studies[j].customId == bean.studyId;
    } else if appInfo.NonUnique? {
      var i, j :| 0 <= i < j < |t.apps| && t.apps[i].appId == bean.appId && t.apps[j].appId == bean.appId;
    } else if studyInfo.Unique? {
      assert t.studies[studyInfo.index].customId == bean.studyId;
      if appInfo.Unique? {
        assert t.apps[appInfo.index].appId == bean.appId;
      }
    }
  }

  /** With unique keys the lookups never raise NonUniqueResultException. */
  lemma UniqueKeysNeverNonUnique(t: Tables, bean: StudyMetadataBean, now: Stamp, defaultLocation: Option<string>)
    requires ValidTables(t) && KeysUnique(t)
    ensures Save(t, bean, now, defaultLocation).0 != Failed(StudyNotUnique)
    ensures Save(t, bean, now, defaultLocation).0 != Failed(AppNotUnique)
  {
  }

  // ---------------------------------------------------------------- the update branch

  /**
   * A study with the bean's custom id exists: nothing is created, the study takes the bean's
   * fields and is linked to the app with the bean's app id, and the other rows stay as they were.
   */
  lemma SaveUpdatesExistingStudy(t: Tables, bean: StudyMetadataBean, now: Stamp, defaultLocation: Option<string>, i: nat)
    requires ValidTables(t)
    requires i < |t.studies| && t.studies[i].customId == bean.studyId
    ensures var (r, t') := Save(t, bean, now, defaultLocation);
      r.Saved? ==>
        && |t'.apps| == |t.apps| && |t'.studies| == |t.studies| && |t'.sites| == |t.sites|
        && t'.admins == t.admins
        && t'.appPermissions == t.appPermissions && t'.studyPermissions == t.studyPermissions
        && var s := t'.studies[i];
        && s.customId == bean.studyId && s.name == bean.studyTitle && s.version == bean.studyVersion
        && s.studyType == bean.studyType && s.status == bean.studyStatus
        && s.category == bean.studyCategory && s.tagline == bean.studyTagline
        && s.sponsor == bean.studySponsor && s.enrolling == bean.studyEnrolling
        && s.modifiedBy == Some(SYSTEM_USER) && s.modified == Some(now)
        && s.createdBy == t.studies[i].createdBy && s.created == t.studies[i].created
        && s.app < |t.apps| && t.apps[s.app].appId == bean.appId
        && t'.apps[s.app].appId == bean.appId && t'.apps[s.app].appName == bean.appName
        && t'.apps[s.app].appDescription == bean.appDescription
        && t'.apps[s.app].modifiedBy == Some(SYSTEM_USER) && t'.apps[s.app].modified == Some(now)
        && (forall k :: 0 <= k < |t.studies| && k != i ==> t'.studies[k] == t.studies[k])
        && (forall a :: 0 <= a < |t.apps| && a != s.app ==> t'.apps[a] == t.apps[a])
    ensures var (r, t') := Save(t, bean, now, defaultLocation);
      r.Failed? <==> !AtMostOneStudy(t, bean.studyId) || !AtMostOneApp(t, bean.appId) || !AppExists(t, bean.appId)
  {
    SaveReturnsEc200(t, bean, now, defaultLocation);
    var studyInfo := FindStudy(t.studies, bean.studyId);
    if studyInfo.Unique? {
      assert studyInfo.index == i;
    }
  }

  /** On the update branch a status equal to "Deactivated" ignoring case decommissions exactly that study's sites. */
  lemma SaveDecommissionsSitesOfDeactivatedStudy(t: Tables, bean: StudyMetadataBean, now: Stamp, defaultLocation: Option<string>, i: nat)
    requires ValidTables(t)
    requires i < |t.studies| && t.studies[i].customId == bean.studyId
    requires IsDeactivated(bean.studyStatus)
    ensures var (r, t') := Save(t, bean, now, defaultLocation);
      r.Saved? ==>
        && |t'.sites| == |t.sites|
        && (forall k :: 0 <= k < |t.sites| && t.sites[k].study == i ==>
              t'.sites[k].status == SITE_DECOMMISSIONED && t'.sites[k] == DecommissionedSite(t.sites[k], now))
        && (forall k :: 0 <= k < |t.sites| && t.sites[k].study != i ==> t'.sites[k] == t.sites[k])
  {
    var studyInfo := FindStudy(t.studies, bean.studyId);
    if studyInfo.Unique? {
      assert studyInfo.index == i;
    }
  }

  /** On the update branch any other status leaves the sites alone. */
  lemma SaveKeepsSitesOfActiveStudy(t: Tables, bean: StudyMetadataBean, now: Stamp, defaultLocation: Option<string>, i: nat)
    requires ValidTables(t)
    requires i < |t.studies| && t.studies[i].customId == bean.studyId
    requires !IsDeactivated(bean.studyStatus)
    ensures Save(t, bean, now, defaultLocation).1.sites == t.sites
  {
    assert FindStudy(t.studies, bean.studyId) != Absent;
  }

  /** The status test is a case-insensitive comparison with "deactivated". */
  lemma DeactivatedIgnoresCase(status: string)
    ensures IsDeactivated(status) <==> ToLowerAscii(status) == "deactivated"
  {
    EqualsIgnoreCaseIsLowerEqual(status, DEACTIVATED);
    assert ToLowerAscii(DEACTIVATED) == "deactivated";
  }

  // ---------------------------------------------------------------- the create branch

  /** `rows` holds exactly one EDIT permission on `app`, created by that admin, for each super admin and no other. */
  predicate AppEditOncePerSuperAdmin(rows: seq<AppPermission>, admins: seq<AdminUser>, app: nat) {
    && (forall k :: 0 <= k < |rows| ==>
          && rows[k].app == app && rows[k].edit == Edit
          && rows[k].adminUser < |admins| && admins[rows[k].adminUser].superAdmin
          && rows[k].createdBy == admins[rows[k].adminUser].id)
    && (forall u :: 0 <= u < |admins| && admins[u].superAdmin ==>
          exists k :: 0 <= k < |rows| && rows[k].adminUser == u)
    && (forall k, l :: 0 <= k < l < |rows| ==> rows[k].adminUser != rows[l].adminUser)
  }

  /** `rows` holds exactly one EDIT permission on `study` of `app`, created by that admin, for each super admin and no other. */
  predicate StudyEditOncePerSuperAdmin(rows: seq<StudyPermission>, admins: seq<AdminUser>, app: nat, study: nat) {
    && (forall k :: 0 <= k < |rows| ==>
          && rows[k].app == app && rows[k].study == study && rows[k].edit == Edit
          && rows[k].adminUser < |admins| && admins[rows[k].adminUser].superAdmin
          && rows[k].createdBy == admins[rows[k].adminUser].id)
    && (forall u :: 0 <= u < |admins| && admins[u].superAdmin ==>
          exists k :: 0 <= k < |rows| && rows[k].adminUser == u)
    && (forall k, l :: 0 <= k < l < |rows| ==> rows[k].adminUser != rows[l].adminUser)
  }

  /** The app-permission loop over the super-admin query grants each super admin EDIT once. */
  lemma AppPermissionsGrantEachSuperAdmin(app: nat, admins: seq<AdminUser>, now: Stamp)
    ensures AppEditOncePerSuperAdmin(AppPermissionsFor(app, SuperAdmins(admins), admins, now), admins, app)
    ensures |AppPermissionsFor(app, SuperAdmins(admins), admins, now)| == |SuperAdmins(admins)|
  {
    var supers := SuperAdmins(admins);
    var rows := AppPermissionsFor(app, supers, admins, now);
    forall u | 0 <= u < |admins| && admins[u].superAdmin
      ensures exists k :: 0 <= k < |rows| && rows[k].adminUser == u
    {
      var k :| 0 <= k < |supers| && supers[k] == u;
      assert rows[k].adminUser == u;
    }
  }

  /** The study-permission loop over the super-admin query grants each super admin EDIT once. */
  lemma StudyPermissionsGrantEachSuperAdmin(app: nat, study: nat, admins: seq<AdminUser>, now: Stamp)
    ensures StudyEditOncePerSuperAdmin(StudyPermissionsFor(app, study, SuperAdmins(admins), admins, now), admins, app, study)
    ensures |StudyPermissionsFor(app, study, SuperAdmins(admins), admins, now)| == |SuperAdmins(admins)|
  {
    var supers := SuperAdmins(admins);
    var rows := StudyPermissionsFor(app, study, supers, admins, now);
    forall u | 0 <= u < |admins| && admins[u].superAdmin
      ensures exists k :: 0 <= k < |rows| && rows[k].adminUser == u
    {
      var k :| 0 <= k < |supers| && supers[k] == u;
      assert rows[k].adminUser == u;
    }
  }

  /**
   * Neither the study nor the app exists: exactly one app is created from the bean and each
   * super admin gets one EDIT permission on it.
   */
  lemma SaveCreatesMissingApp(t: Tables, bean: StudyMetadataBean, now: Stamp, defaultLocation: Option<string>)
    requires ValidTables(t)
    requires !StudyExists(t, bean.studyId) && !AppExists(t, bean.appId)
    ensures var (r, t') := Save(t, bean, now, defaultLocation);
      r.Saved? ==>
        && |t'.apps| == |t.apps| + 1 && t'.apps[..|t.apps|] == t.apps
        && t'.apps[|t.apps|] == App(bean.appId, bean.appName, bean.appDescription, Some(SYSTEM_USER), Some(now), None, None)
        && |t'.appPermissions| >= |t.appPermissions| && t'.appPermissions[..|t.appPermissions|] == t.appPermissions
        && AppEditOncePerSuperAdmin(t'.appPermissions[|t.appPermissions|..], t.admins, |t.apps|)
  {
    var supers := SuperAdmins(t.admins);
    var rows := AppPermissionsFor(|t.apps|, supers, t.admins, now);
    AppPermissionsGrantEachSuperAdmin(|t.apps|, t.admins, now);
    assert FindStudy(t.studies, bean.studyId).Absent?;
    assert FindApp(t.apps, bean.appId).Absent?;
    var t' := Save(t, bean, now, defaultLocation).1;
    if Save(t, bean, now, defaultLocation).0.Saved? {
      assert t'.appPermissions == t.appPermissions + rows;
      assert t'.appPermissions[|t.appPermissions|..] == rows;
    }
  }

  /** The study does not exist but its app does: no app and no app permission is created. */
  lemma SaveReusesExistingApp(t: Tables, bean: StudyMetadataBean, now: Stamp, defaultLocation: Option<string>, j: nat)
    requires ValidTables(t)
    requires !StudyExists(t, bean.studyId)
    requires j < |t.apps| && t.apps[j].appId == bean.appId
    ensures var (r, t') := Save(t, bean, now, defaultLocation);
      r.Saved? ==> t'.apps == t.apps && t'.appPermissions == t.appPermissions
  {
    assert FindStudy(t.studies, bean.studyId).Absent?;
  }

  /**
   * The study does not exist: exactly one study is created from the bean, linked to the app with
   * the bean's app id, and each super admin gets one EDIT permission on it.
   */
  lemma SaveCreatesStudy(t: Tables, bean: StudyMetadataBean, now: Stamp, defaultLocation: Option<string>)
    requires ValidTables(t)
    requires !StudyExists(t, bean.studyId)
    ensures var (r, t') := Save(t, bean, now, defaultLocation);
      r.Saved? ==>
        && |t'.studies| == |t.studies| + 1 && t'.studies[..|t.studies|] == t.studies
        && var s := t'.studies[|t.studies|];
        && s == NewStudy(bean, s.app, now) && s.customId == bean.studyId
        && s.app < |t'.apps| && t'.apps[s.app].appId == bean.appId
        && t'.admins == t.admins
        && |t'.studyPermissions| >= |t.studyPermissions| && t'.studyPermissions[..|t.studyPermissions|] == t.studyPermissions
        && StudyEditOncePerSuperAdmin(t'.studyPermissions[|t.studyPermissions|..], t.admins, s.app, |t.studies|)
  {
    assert FindStudy(t.studies, bean.studyId).Absent?;
    var appInfo := FindApp(t.apps, bean.appId);
    var app := if appInfo.Unique? then appInfo.index else |t.apps|;
    var rows := StudyPermissionsFor(app, |t.studies|, SuperAdmins(t.admins), t.admins, now);
    StudyPermissionsGrantEachSuperAdmin(app, |t.studies|, t.admins, now);
    var t' := Save(t, bean, now, defaultLocation).1;
    if Save(t, bean, now, defaultLocation).0.Saved? {
      assert t'.studies[|t.studies|].app == app;
      assert t'.studyPermissions == t.studyPermissions + rows;
      assert t'.studyPermissions[|t.studyPermissions|..] == rows;
    }
  }

  /** A new open study gets one active site at the default location; any other new study gets none. */
  lemma SaveCreatesDefaultSiteForOpenStudy(t: Tables, bean: StudyMetadataBean, now: Stamp, defaultLocation: Option<string>)
    requires ValidTables(t)
    requires !StudyExists(t, bean.studyId)
    ensures var (r, t') := Save(t, bean, now, defaultLocation);
      r.Saved? ==>
        if bean.studyType == OPEN_STUDY then
          && defaultLocation.Some?
          && t'.sites == t.sites + [Site(|t.studies|, defaultLocation.value, Some(SYSTEM_USER), SITE_ACTIVE, 0, None, None)]
          && t'.studies[|t.studies|].customId == bean.studyId
        else t'.sites == t.sites
  {
    assert FindStudy(t.studies, bean.studyId).Absent?;
    OpenStudyIsExactlyOpen(bean.studyType);
  }

  /** The blank test before `equals(OPEN_STUDY)` never changes the outcome. */
  lemma OpenStudyIsExactlyOpen(studyType: string)
    ensures IsOpenStudy(studyType) <==> studyType == OPEN_STUDY
  {
    if studyType == OPEN_STUDY {
      assert !IsWhitespace(studyType[0]);
    }
  }

  // ---------------------------------------------------------------- across calls

  /** The upsert keeps study custom ids and app ids unique. */
  lemma SavePreservesUniqueKeys(t: Tables, bean: StudyMetadataBean, now: Stamp, defaultLocation: Option<string>)
    requires ValidTables(t) && KeysUnique(t)
    ensures KeysUnique(Save(t, bean, now, defaultLocation).1)
  {
    var t' := Save(t, bean, now, defaultLocation).1;
    var studyInfo := FindStudy(t.studies, bean.studyId);
    var appInfo := FindApp(t.apps, bean.appId);
    if Save(t, bean, now, defaultLocation).0.Saved? {
      if studyInfo.Unique? {
        assert t'.studies[studyInfo.index].customId == t.studies[studyInfo.index].customId;
        assert t'.apps[appInfo.index].appId == t.apps[appInfo.index].appId;
        assert forall k :: 0 <= k < |t.studies| ==> t'.studies[k].customId == t.studies[k].customId;
        assert forall k :: 0 <= k < |t.apps| ==> t'.apps[k].appId == t.apps[k].appId;
      } else {
        assert forall k :: 0 <= k < |t.studies| ==> t'.studies[k].customId != bean.studyId;
        if appInfo.Absent? {
          assert forall k :: 0 <= k < |t.apps| ==> t'.apps[k].appId != bean.appId;
        }
      }
    }
  }

  /** Saving the same bean again, after a save that created the study, creates no row. */
  lemma SaveAgainCreatesNothing(t: Tables, bean: StudyMetadataBean, now: Stamp, later: Stamp, defaultLocation: Option<string>)
    requires ValidTables(t) && KeysUnique(t)
    requires Save(t, bean, now, defaultLocation).0.Saved?
    ensures ValidTables(Save(t, bean, now, defaultLocation).1)
    ensures var t1 := Save(t, bean, now, defaultLocation).1;
      var (r2, t2) := Save(t1, bean, later, defaultLocation);
      && r2.Saved?
      && |t2.apps| == |t1.apps| && |t2.studies| == |t1.studies| && |t2.sites| == |t1.sites|
      && t2.appPermissions == t1.appPermissions && t2.studyPermissions == t1.studyPermissions
  {
    var t1 := Save(t, bean, now, defaultLocation).1;
    var studyInfo := FindStudy(t.studies, bean.studyId);
    var appInfo := FindApp(t.apps, bean.appId);
    if studyInfo.Unique? {
      UpdateTablesValid(t, studyInfo.index, appInfo.index, bean, now);
    } else {
      CreateTablesValid(t, appInfo, bean, now, defaultLocation);
    }
    SavePreservesUniqueKeys(t, bean, now, defaultLocation);
    var i: nat := if studyInfo.Unique? then studyInfo.index else |t.studies|;
    assert t1.studies[i].customId == bean.studyId;
    var s := t1.studies[i];
    assert t1.apps[s.app].appId == bean.appId;
    SaveUpdatesExistingStudy(t1, bean, later, defaultLocation, i);
    SaveReturnsEc200(t1, bean, later, defaultLocation);
    UniqueKeysNeverNonUnique(t1, bean, later, defaultLocation);
  }
}
