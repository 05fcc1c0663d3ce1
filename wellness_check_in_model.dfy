/** The `WellnessCheckIn` collection's schema: required paths and the unique `(userId, date)` index. */
module WellnessCheckInModel {
  import opened Wrappers
  import Calendar

  /** `date` is the stored instant (milliseconds), not a calendar day. */
  datatype CheckInDoc = CheckInDoc(id: nat, userId: string, date: int, responses: map<string, string>)

  const RequiredError: string := "Validation failed: path is required"
  const DuplicateKeyError: string := "E11000 duplicate key error"

  /** The `required` validators: a non-empty `userId`, a `date` and a `responses` map (possibly empty).
      `None` stands for a missing value or one that does not cast to the path's type. */
  function NewCheckIn(id: nat, userId: string, date: Option<int>, responses: Option<map<string, string>>)
    : (r: Result<CheckInDoc, string>)
    ensures r.Success? <==> userId != "" && date.Some? && responses.Some?
    ensures r.Success? ==> r.value == CheckInDoc(id, userId, date.value, responses.value)
    ensures r.Failure? ==> r.error == RequiredError
  {
    if userId == "" || date.None? || responses.None? then Failure(RequiredError)
    else Success(CheckInDoc(id, userId, date.value, responses.value))
  }

  /** The unique compound index: no two documents share `(userId, date)`. */
  ghost predicate UniqueUserDate(docs: seq<CheckInDoc>) {
    forall i, j :: 0 <= i < j < |docs| ==> docs[i].userId != docs[j].userId || docs[i].date != docs[j].date
  }

  predicate Conflicts(docs: seq<CheckInDoc>, d: CheckInDoc) {
    exists k :: 0 <= k < |docs| && docs[k].userId == d.userId && docs[k].date == d.date
  }

  /** An insert under the unique index: rejected exactly when the pair is already stored. */
  function Insert(docs: seq<CheckInDoc>, d: CheckInDoc): (r: Result<seq<CheckInDoc>, string>)
    ensures r.Success? <==> forall k :: 0 <= k < |docs| ==> docs[k].userId != d.userId || docs[k].date != d.date
    ensures r.Success? ==> r.value == docs + [d]
    ensures r.Failure? ==> r.error == DuplicateKeyError
    ensures r.Success? && UniqueUserDate(docs) ==> UniqueUserDate(r.value)
  {
    if Conflicts(docs, d) then Failure(DuplicateKeyError) else Success(docs + [d])
  }

  /** The index is on the stored instant: two check-ins of one user on the same calendar day, at different
      times, are both accepted. So are two users' check-ins at the same instant. */
  lemma {:induction false} SameDayDifferentInstantsAccepted(docs: seq<CheckInDoc>, a: CheckInDoc, b: CheckInDoc)
    requires !Conflicts(docs, a) && !Conflicts(docs, b)
    requires a.userId != b.userId || a.date != b.date
    ensures Insert(docs, a).Success?
    ensures Insert(Insert(docs, a).value, b).Success?
  {
    var after := docs + [a];
    forall k | 0 <= k < |after| ensures after[k].userId != b.userId || after[k].date != b.date {
      if k < |docs| {
        assert docs[k] == after[k];
      }
    }
  }

  /** Example of the above: the same user, the same calendar day, one second apart. */
  lemma SameDayTwiceExample(userId: string, day: int)
    requires userId != ""
    ensures var a := CheckInDoc(0, userId, day * Calendar.MillisPerDay, map[]);
            var b := CheckInDoc(1, userId, day * Calendar.MillisPerDay + 1000, map[]);
            Calendar.DayOf(a.date) == Calendar.DayOf(b.date)
            && Insert([], a).Success? && Insert(Insert([], a).value, b).Success?
  {
    var a := CheckInDoc(0, userId, day * Calendar.MillisPerDay, map[]);
    var b := CheckInDoc(1, userId, day * Calendar.MillisPerDay + 1000, map[]);
    SameDayDifferentInstantsAccepted([], a, b);
  }

  /** A second insert of an already stored pair is rejected and leaves the collection as it was. */
  lemma SecondInsertRejected(docs: seq<CheckInDoc>, a: CheckInDoc, b: CheckInDoc)
    requires Insert(docs, a).Success?
    requires b.userId == a.userId && b.date == a.date
    ensures Insert(Insert(docs, a).value, b) == Failure(DuplicateKeyError)
  {
    var after := docs + [a];
    assert after[|docs|] == a;
  }

  function OwnedBy(userId: string): CheckInDoc -> bool {
    (d: CheckInDoc) => d.userId == userId
  }

  function Date(): CheckInDoc -> int {
    (d: CheckInDoc) => d.date
  }
}
