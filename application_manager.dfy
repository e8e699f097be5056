/**
 * ApplicationManager: turns a submitted form into an application record,
 * keeps the user's own list of records in memory and in the store, and
 * copies statuses over from the admin mirror.
 */
module Applications {
  import opened Wrappers
  import opened Records
  import opened Forms
  import opened Reconcile
  import opened Storage

  /** The setItem calls a getUserId makes, given what "userId" held before. */
  function UserIdWrites(stored: Option<string>): (keys: seq<string>)
    ensures keys == [] <==> !NeedsUserId(stored)
  {
    if NeedsUserId(stored) then [UserIdKey] else []
  }

  /**
   * An insurance form with a name, an amount and a duration, and no
   * frequency chosen: the terms carry those three values and "months".
   */
  lemma InsuranceFormExample()
    ensures var fields := [Field("text", "ins-name", "", "Alice", false),
                           Field("number", "ins-taka", "", "5000", false),
                           Field("number", "ins-duration", "", "12", false)];
      var t := TermsFor(Collected(fields), Insurance);
      && t.InsuranceTerms?
      && t.name == Some("Alice") && t.amount == Some("5000") && t.duration == Some("12")
      && t.nomineeName == None && t.paymentFrequency == "months"
  {
    var fields := [Field("text", "ins-name", "", "Alice", false),
                   Field("number", "ins-taka", "", "5000", false),
                   Field("number", "ins-duration", "", "12", false)];
    assert fields[..2][..1] == fields[..1] && fields[..1][..0] == [];
    assert Collected(fields[..1]) == map["ins-name" := "Alice"];
    assert Collected(fields[..2]) == map["ins-name" := "Alice", "ins-taka" := "5000"];
    assert Collected(fields) == map["ins-name" := "Alice", "ins-taka" := "5000", "ins-duration" := "12"];
  }

  class ApplicationManager {
    /** The shared local store (the script's global localStorage). */
    const store: Store
    /** this.applications: the user's records, in submission order. */
    var applications: seq<Application>
    /** The records notifyStatusChange was called with, oldest first. */
    var statusNotices: seq<Application>

    /**
     * A user id is stored, and the in-memory list is the stored list of that
     * user. The constructor, submit, update and save establish it; creating a
     * record, getUserId and load preserve it.
     */
    ghost predicate Valid()
      reads this, store
    {
      && store.userId.Some?
      && store.userId.value != ""
      && applications == store.UserApplications(store.userId.value)
    }

    /** `new ApplicationManager()`: loads the user's list, creating the user id if needed. */
    constructor (store: Store, clock: string)
      modifies store
      ensures this.store == store && Valid() && statusNotices == []
      ensures var uid := ResolvedUserId(old(store.userId), clock);
        && applications == old(store.UserApplications(uid))
        && store.Contents() == old(store.Contents()).(userId := Some(uid),
                                                      writes := old(store.writes) + UserIdWrites(old(store.userId)))
    {
      this.store := store;
      applications := [];
      statusNotices := [];
      new;
      applications := LoadApplications(clock);
    }

    /** collectFormData: one pass over the form's controls in document order. */
    method CollectFormData(fields: seq<Field>) returns (data: FormValues)
      ensures data == Collected(fields)
    {
      data := map[];
      var i := 0;
      while i < |fields|
        invariant 0 <= i <= |fields|
        invariant data == Collected(fields[..i])
      {
        var field := fields[i];
        if field.fieldType == "radio" {
          if field.checked {
            data := data[field.name := field.value];
          }
        } else {
          data := data[(if field.id != "" then field.id else field.name) := field.value];
        }
        assert fields[..i + 1][..i] == fields[..i];
        i := i + 1;
      }
      assert fields[..|fields|] == fields;
    }

    /**
     * createApplication: the envelope (a generated id, the type, "pending",
     * the date, the user id) and the type's terms. The clock renderings, the
     * random characters and the ISO date are inputs.
     */
    method CreateApplication(data: FormValues, appType: string, idClock: string, random: string,
                             date: string, userClock: string) returns (app: Application)
      modifies store
      ensures app.id == GenerateApplicationId(idClock, random) && app.id[..3] == "APP"
      ensures app.appType == appType && app.status == Pending && app.date == date
      ensures app.userId == ResolvedUserId(old(store.userId), userClock)
      ensures app.terms == TermsFor(data, appType)
      ensures store.Contents() == old(store.Contents()).(userId := Some(app.userId),
                                                         writes := old(store.writes) + UserIdWrites(old(store.userId)))
      ensures old(Valid()) ==> Valid()
    {
      var id := GenerateApplicationId(idClock, random);
      var uid := GetUserId(userClock);
      app := Application(id, appType, Pending, date, uid, TermsFor(data, appType));
    }

    /**
     * getUserId: the stored id when there is a non-empty one, with no write;
     * otherwise "USER" and the clock, which is stored.
     */
    method GetUserId(clock: string) returns (uid: string)
      modifies store
      ensures uid == ResolvedUserId(old(store.userId), clock)
      ensures store.Contents() == old(store.Contents()).(userId := Some(uid),
                                                         writes := old(store.writes) + UserIdWrites(old(store.userId)))
      ensures old(Valid()) ==> Valid()
    {
      var stored := store.userId;
      if stored.None? || stored.value == "" {
        uid := "USER" + clock;
        store.SetUserId(uid);
      } else {
        uid := stored.value;
      }
    }

    /**
     * submitApplication: appends the record to the global pending list and to
     * the user's own list, and stores both (the remote send is not modelled).
     */
    method SubmitApplication(app: Application, clock: string)
      modifies this, store
      ensures applications == old(applications) + [app]
      ensures statusNotices == old(statusNotices)
      ensures var uid := ResolvedUserId(old(store.userId), clock);
        store.Contents() == old(store.Contents()).(
          userId := Some(uid),
          pendingApplications := old(store.pendingApplications) + [app],
          userApplications := old(store.userApplications)[uid := old(applications) + [app]],
          writes := old(store.writes) + [PendingKey] + UserIdWrites(old(store.userId)) + [UserApplicationsKey(uid)])
      ensures Valid()
    {
      var pendingApps := store.pendingApplications;
      pendingApps := pendingApps + [app];
      store.SetPendingApplications(pendingApps);
      applications := applications + [app];
      SaveApplications(clock);
    }

    /**
     * updateApplicationStatuses, one cycle: every record takes the status of
     * the first mirror record with its id, each change is notified once, and
     * the list is stored.
     */
    method UpdateApplicationStatuses(clock: string)
      modifies this, store
      ensures applications == Reconciled(old(applications), old(store.allApplications))
      ensures statusNotices == old(statusNotices) + StatusChanges(old(applications), old(store.allApplications))
      ensures var uid := ResolvedUserId(old(store.userId), clock);
        store.Contents() == old(store.Contents()).(
          userId := Some(uid),
          userApplications := old(store.userApplications)[uid := applications],
          writes := old(store.writes) + UserIdWrites(old(store.userId)) + [UserApplicationsKey(uid)])
      ensures Valid()
    {
      var userId := GetUserId(clock);
      var allApps := store.allApplications;
      ApplyMirror(allApps);
      SaveApplications(clock);
    }

    /** The `forEach` of updateApplicationStatuses: the in-place pass over this.applications. */
    method ApplyMirror(allApps: seq<Application>)
      modifies this
      ensures applications == Reconciled(old(applications), allApps)
      ensures statusNotices == old(statusNotices) + StatusChanges(old(applications), allApps)
    {
      ghost var before := applications;
      var i := 0;
      while i < |applications|
        invariant 0 <= i <= |applications| == |before|
        invariant forall k :: 0 <= k < i ==> applications[k] == ReconcileOne(before[k], allApps)
        invariant forall k :: i <= k < |before| ==> applications[k] == before[k]
        invariant statusNotices == old(statusNotices) + StatusChanges(before[..i], allApps)
      {
        var userApp := applications[i];
        var adminApp := FindById(allApps, userApp.id);
        if adminApp.Some? && adminApp.value.status != userApp.status {
          applications := applications[i := userApp.(status := adminApp.value.status)];
          statusNotices := statusNotices + [applications[i]];
        }
        assert before[..i + 1][..i] == before[..i];
        i := i + 1;
      }
      assert before[..|before|] == before;
    }

    /** loadApplications: the user's stored list, or the empty list when there is none. */
    method LoadApplications(clock: string) returns (apps: seq<Application>)
      modifies store
      ensures var uid := ResolvedUserId(old(store.userId), clock);
        && apps == old(store.UserApplications(uid))
        && store.Contents() == old(store.Contents()).(userId := Some(uid),
                                                      writes := old(store.writes) + UserIdWrites(old(store.userId)))
      ensures old(Valid()) ==> Valid() && apps == applications
    {
      var uid := GetUserId(clock);
      apps := store.UserApplications(uid);
    }

    /** saveApplications: stores this.applications under the user's key. */
    method SaveApplications(clock: string)
      modifies store
      ensures var uid := ResolvedUserId(old(store.userId), clock);
        store.Contents() == old(store.Contents()).(
          userId := Some(uid),
          userApplications := old(store.userApplications)[uid := applications],
          writes := old(store.writes) + UserIdWrites(old(store.userId)) + [UserApplicationsKey(uid)])
      ensures Valid()
    {
      var uid := GetUserId(clock);
      store.SetUserApplications(uid, applications);
    }

    /** trackApplication: the first of the user's records with the id, or not found. */
    method TrackApplication(applicationId: string) returns (found: Option<Application>)
      ensures found == FindById(applications, applicationId)
      ensures found.Some? ==> found.value in applications && found.value.id == applicationId
      ensures found.None? <==> forall a :: a in applications ==> a.id != applicationId
    {
      found := FindById(applications, applicationId);
    }
  }
}
