/**
 * The records that the dashboard script builds and keeps: application
 * records, their type-specific terms, and notification records; plus the
 * pure pieces of ApplicationManager (the per-type field mapping, the
 * identifier formats, the status colour table and the lookup by id).
 */
module Records {
  import opened Wrappers

  /** A collected form: every field's key mapped to its text. */
  type FormValues = map<string, string>

  /**
   * The type-specific part of an application record. Each field holds the
   * form's text for its source key, or None where the form had no such key
   * (the record then carries `undefined`).
   */
  datatype Terms =
    | NoTerms
    | LoanTerms(name: Option<string>, fatherName: Option<string>, motherName: Option<string>,
                phone: Option<string>, nid: Option<string>,
                guarantorName: Option<string>, guarantorNid: Option<string>,
                amount: Option<string>, duration: Option<string>)
    | InsuranceTerms(name: Option<string>, fatherName: Option<string>, motherName: Option<string>,
                     phone: Option<string>, nid: Option<string>,
                     nomineeName: Option<string>, nomineeNid: Option<string>,
                     duration: Option<string>, amount: Option<string>,
                     paymentFrequency: string)

  /** An application record: the common envelope and the type-specific terms. */
  datatype Application = Application(id: string, appType: string, status: string,
                                     date: string, userId: string, terms: Terms)

  /** A notification written by the admin side for one user. */
  datatype Notification = Notification(userId: string, message: string, read: bool)

  const IslamicLoan: string := "islamic-loan"
  const Loan: string := "loan"
  const Insurance: string := "insurance"
  const Pending: string := "pending"

  /** Property access `formData[key]` on the collected form. */
  function Get(data: FormValues, key: string): (v: Option<string>)
    ensures v.Some? <==> key in data
    ensures v.Some? ==> v.value == data[key]
  {
    if key in data then Some(data[key]) else None
  }

  /** JavaScript's `v + suffix` where `v` may be undefined. */
  function ConcatText(v: Option<string>, suffix: string): string
  {
    match v
    case Some(s) => s + suffix
    case None => "undefined" + suffix
  }

  /** JavaScript's `v || fallback`: undefined and the empty string are falsy. */
  function OrElse(v: Option<string>, fallback: string): string
  {
    if v.Some? && v.value != "" then v.value else fallback
  }

  /** The switch of createApplication: the fields each application type copies. */
  function TermsFor(data: FormValues, appType: string): (t: Terms)
    ensures t.LoanTerms? <==> appType == IslamicLoan || appType == Loan
    ensures t.InsuranceTerms? <==> appType == Insurance
    ensures t.NoTerms? <==> !(appType == IslamicLoan || appType == Loan || appType == Insurance)
  {
    if appType == IslamicLoan then
      LoanTerms(Get(data, "kh-name"), Get(data, "kh-father"), Get(data, "kh-mother"),
                Get(data, "kh-phone"), Get(data, "kh-nid"),
                Get(data, "kh-hostage-name"), Get(data, "kh-hostage-nid"),
                Get(data, "kh-amount"), Some(ConcatText(Get(data, "kh-duration"), " months")))
    else if appType == Loan then
      LoanTerms(Get(data, "loan-name"), Get(data, "loan-father"), Get(data, "loan-mother"),
                Get(data, "loan-phone"), Get(data, "loan-nid"),
                Get(data, "loan-hostage-name"), Get(data, "loan-hostage-nid"),
                Get(data, "loan-amount"), Get(data, "loan-duration"))
    else if appType == Insurance then
      InsuranceTerms(Get(data, "ins-name"), Get(data, "ins-father"), Get(data, "ins-mother"),
                     Get(data, "ins-phone"), Get(data, "ins-nid"),
                     Get(data, "ins-numni-name"), Get(data, "ins-numni-nid"),
                     Get(data, "ins-duration"), Get(data, "ins-taka"),
                     OrElse(Get(data, "frequency"), "months"))
    else
      NoTerms
  }

  /** The key prefix of each form's own fields. */
  function FormPrefix(appType: string): string
  {
    if appType == IslamicLoan then "kh-"
    else if appType == Loan then "loan-"
    else if appType == Insurance then "ins-"
    else ""
  }

  /** Whether the terms of `appType` may depend on the form key `key`. */
  predicate ReadsKey(appType: string, key: string)
  {
    if appType == IslamicLoan || appType == Loan then FormPrefix(appType) <= key
    else if appType == Insurance then FormPrefix(appType) <= key || key == "frequency"
    else false
  }

  /**
   * Both loan forms fill the same nine fields from keys spelled
   * prefix + suffix; only the Islamic-loan duration gets " months" appended.
   */
  lemma LoanFormKeys(data: FormValues, appType: string)
    requires appType == IslamicLoan || appType == Loan
    ensures var p := FormPrefix(appType);
      var t := TermsFor(data, appType);
      && t.LoanTerms?
      && t.name == Get(data, p + "name")
      && t.fatherName == Get(data, p + "father")
      && t.motherName == Get(data, p + "mother")
      && t.phone == Get(data, p + "phone")
      && t.nid == Get(data, p + "nid")
      && t.guarantorName == Get(data, p + "hostage-name")
      && t.guarantorNid == Get(data, p + "hostage-nid")
      && t.amount == Get(data, p + "amount")
      && t.duration == (if appType == IslamicLoan then Some(ConcatText(Get(data, p + "duration"), " months"))
                        else Get(data, p + "duration"))
  {
    if appType == IslamicLoan {
      assert "kh-" + "name" == "kh-name" && "kh-" + "father" == "kh-father" && "kh-" + "mother" == "kh-mother";
      assert "kh-" + "phone" == "kh-phone" && "kh-" + "nid" == "kh-nid" && "kh-" + "amount" == "kh-amount";
      assert "kh-" + "hostage-name" == "kh-hostage-name" && "kh-" + "hostage-nid" == "kh-hostage-nid";
      assert "kh-" + "duration" == "kh-duration";
    } else {
      assert "loan-" + "name" == "loan-name" && "loan-" + "father" == "loan-father" && "loan-" + "mother" == "loan-mother";
      assert "loan-" + "phone" == "loan-phone" && "loan-" + "nid" == "loan-nid" && "loan-" + "amount" == "loan-amount";
      assert "loan-" + "hostage-name" == "loan-hostage-name" && "loan-" + "hostage-nid" == "loan-hostage-nid";
      assert "loan-" + "duration" == "loan-duration";
    }
  }

  /**
   * The insurance form: nominee from the "numni" keys, amount from
   * "ins-taka", and a payment frequency that is the "frequency" value when
   * that is present and non-empty, and "months" otherwise.
   */
  lemma InsuranceFormKeys(data: FormValues)
    ensures var t := TermsFor(data, Insurance);
      && t.InsuranceTerms?
      && t.name == Get(data, "ins-" + "name")
      && t.fatherName == Get(data, "ins-" + "father")
      && t.motherName == Get(data, "ins-" + "mother")
      && t.phone == Get(data, "ins-" + "phone")
      && t.nid == Get(data, "ins-" + "nid")
      && t.nomineeName == Get(data, "ins-" + "numni-name")
      && t.nomineeNid == Get(data, "ins-" + "numni-nid")
      && t.duration == Get(data, "ins-" + "duration")
      && t.amount == Get(data, "ins-" + "taka")
      && t.paymentFrequency != ""
      && ("frequency" in data && data["frequency"] != "" ==> t.paymentFrequency == data["frequency"])
      && (("frequency" !in data || data["frequency"] == "") ==> t.paymentFrequency == "months")
  {
    assert "ins-" + "name" == "ins-name" && "ins-" + "father" == "ins-father" && "ins-" + "mother" == "ins-mother";
    assert "ins-" + "phone" == "ins-phone" && "ins-" + "nid" == "ins-nid" && "ins-" + "taka" == "ins-taka";
    assert "ins-" + "numni-name" == "ins-numni-name" && "ins-" + "numni-nid" == "ins-numni-nid";
    assert "ins-" + "duration" == "ins-duration";
  }

  /** An Islamic-loan duration always ends in " months", even with no duration field. */
  lemma IslamicDurationHasUnit(data: FormValues)
    ensures var d := TermsFor(data, IslamicLoan).duration;
      && d.Some?
      && |d.value| >= 7
      && d.value[|d.value| - 7..] == " months"
      && ("kh-duration" !in data ==> d.value == "undefined months")
  {
  }

  /**
   * The terms of a type depend only on that form's own keys, so an
   * unrecognised type yields no terms at all, whatever the form holds.
   */
  lemma TermsReadOwnForm(d1: FormValues, d2: FormValues, appType: string)
    requires forall k :: ReadsKey(appType, k) ==> Get(d1, k) == Get(d2, k)
    ensures TermsFor(d1, appType) == TermsFor(d2, appType)
    ensures !(appType == IslamicLoan || appType == Loan || appType == Insurance) ==> TermsFor(d1, appType) == NoTerms
  {
    var p := FormPrefix(appType);
    if appType == IslamicLoan || appType == Loan {
      LoanFormKeys(d1, appType);
      LoanFormKeys(d2, appType);
      assert ReadsKey(appType, p + "name") && ReadsKey(appType, p + "father") && ReadsKey(appType, p + "mother");
      assert ReadsKey(appType, p + "phone") && ReadsKey(appType, p + "nid") && ReadsKey(appType, p + "amount");
      assert ReadsKey(appType, p + "hostage-name") && ReadsKey(appType, p + "hostage-nid");
      assert ReadsKey(appType, p + "duration");
    } else if appType == Insurance {
      InsuranceFormKeys(d1);
      InsuranceFormKeys(d2);
      assert ReadsKey(appType, p + "name") && ReadsKey(appType, p + "father") && ReadsKey(appType, p + "mother");
      assert ReadsKey(appType, p + "phone") && ReadsKey(appType, p + "nid") && ReadsKey(appType, p + "taka");
      assert ReadsKey(appType, p + "numni-name") && ReadsKey(appType, p + "numni-nid");
      assert ReadsKey(appType, p + "duration") && ReadsKey(appType, "frequency");
    }
  }

  /**
   * generateApplicationId: "APP", the rendered clock, the rendered random
   * characters. Both renderings are inputs here.
   */
  function GenerateApplicationId(clock: string, random: string): (id: string)
    ensures |id| == 3 + |clock| + |random|
    ensures id[..3] == "APP"
    ensures id[3..] == clock + random
  {
    "APP" + clock + random
  }

  /** Ids rendered from equally long clocks differ when the clock or the random part differs. */
  lemma DistinctIds(clock1: string, random1: string, clock2: string, random2: string)
    requires |clock1| == |clock2|
    requires clock1 != clock2 || random1 != random2
    ensures GenerateApplicationId(clock1, random1) != GenerateApplicationId(clock2, random2)
  {
    var id1, id2 := GenerateApplicationId(clock1, random1), GenerateApplicationId(clock2, random2);
    var n := |clock1|;
    assert id1[3..3 + n] == clock1 && id2[3..3 + n] == clock2;
    assert id1[3 + n..] == random1 && id2[3 + n..] == random2;
  }

  /** Whether getUserId must create an id: nothing stored, or the empty string (falsy). */
  predicate NeedsUserId(stored: Option<string>)
  {
    stored.None? || stored.value == ""
  }

  /** The id getUserId returns, given what the store holds and the rendered clock. */
  function ResolvedUserId(stored: Option<string>, clock: string): (uid: string)
    ensures uid != ""
    ensures NeedsUserId(stored) ==> |uid| == 4 + |clock| && uid[..4] == "USER" && uid[4..] == clock
    ensures !NeedsUserId(stored) ==> Some(uid) == stored
  {
    if NeedsUserId(stored) then "USER" + clock else stored.value
  }

  /** Once the resolved id is stored, every later call returns it, whatever the clock says. */
  lemma UserIdIsStable(stored: Option<string>, clock: string, later: string)
    ensures !NeedsUserId(Some(ResolvedUserId(stored, clock)))
    ensures ResolvedUserId(Some(ResolvedUserId(stored, clock)), later) == ResolvedUserId(stored, clock)
  {
  }

  const DefaultColor: string := "#6c757d"

  /** The colour of each known status. */
  const StatusColors: map<string, string> :=
    map["pending" := "#ffc107", "reviewing" := "#17a2b8", "approved" := "#28a745", "rejected" := "#dc3545"]

  /** getStatusColor: the table colour of a known status, the grey default otherwise. */
  function StatusColor(status: string): (color: string)
    ensures color == DefaultColor <==> status !in StatusColors
    ensures status in StatusColors ==> color == StatusColors[status]
  {
    if status in StatusColors then StatusColors[status] else DefaultColor
  }

  /** `apps.find(app => app.id === id)`: the first record with the id, if any. */
  function FindById(apps: seq<Application>, id: string): (r: Option<Application>)
    ensures r.None? <==> forall i :: 0 <= i < |apps| ==> apps[i].id != id
    ensures r.Some? ==> exists i :: 0 <= i < |apps| && apps[i] == r.value && r.value.id == id
                                    && forall j :: 0 <= j < i ==> apps[j].id != id
    decreases |apps|
  {
    if |apps| == 0 then None
    else if apps[0].id == id then Some(apps[0])
    else FindById(apps[1..], id)
  }
}
