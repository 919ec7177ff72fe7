/**
 * The create/edit form shared by `pages/HoldingForm.tsx` and the legacy `pages/EventForm.tsx`:
 * a name, the owning record's id (an event, or in the older schema a template), a date, a
 * channel and a mention.  `validate` fills an error dictionary one check at a time; submitting
 * sends the fields with the date as `YYYY-MM-DD` and names the page to go to afterwards.  The
 * two pages differ only in their error keys and messages, which a `Labels` value carries.
 */
module EntryForm {
  import opened Wrappers
  import opened Seqs
  import opened Strings
  import opened Dates

  datatype Labels = Labels(
    nameKey: string, nameMessage: string, ownerKey: string, ownerMessage: string,
    channelKey: string, channelMessage: string, mentionKey: string, mentionMessage: string)

  predicate DistinctKeys(l: Labels)
  {
    l.nameKey != l.ownerKey && l.nameKey != l.channelKey && l.nameKey != l.mentionKey
    && l.ownerKey != l.channelKey && l.ownerKey != l.mentionKey && l.channelKey != l.mentionKey
  }

  /** `date` is `None` for JavaScript's invalid date. */
  datatype FormData = FormData(name: string, ownerId: string, date: Option<Date>, channelId: string, mention: string)

  /** What is sent to the store: the form's fields with the date written as `YYYY-MM-DD`. */
  datatype Payload = Payload(name: string, ownerId: string, date: string, channelId: string, mention: string)

  datatype Save = Create(payload: Payload) | Update(id: string, payload: Payload)

  /** A submission: the store call, and the page to open once it succeeds. */
  datatype Submission = Submission(save: Save, navigateTo: string)

  /** The error dictionary `validate` builds, one entry per failing check. */
  function FormErrors(l: Labels, f: FormData): map<string, string>
  {
    var e0: map<string, string> := map[];
    var e1 := if Trim(f.name) == "" then e0[l.nameKey := l.nameMessage] else e0;
    var e2 := if f.ownerId == "" then e1[l.ownerKey := l.ownerMessage] else e1;
    var e3 := if f.channelId == "" then e2[l.channelKey := l.channelMessage] else e2;
    if Trim(f.mention) == "" then e3[l.mentionKey := l.mentionMessage] else e3
  }

  /**
   * Each check records its own error independently of the others: a key is present exactly
   * when its field fails (a blank name or mention, an empty owner or channel), with its message;
   * the form is valid exactly when no error is recorded.
   */
  lemma FormErrorsSpec(l: Labels, f: FormData)
    requires DistinctKeys(l)
    ensures var e := FormErrors(l, f);
      && (l.nameKey in e <==> IsBlank(f.name)) && (l.nameKey in e ==> e[l.nameKey] == l.nameMessage)
      && (l.ownerKey in e <==> f.ownerId == "") && (l.ownerKey in e ==> e[l.ownerKey] == l.ownerMessage)
      && (l.channelKey in e <==> f.channelId == "") && (l.channelKey in e ==> e[l.channelKey] == l.channelMessage)
      && (l.mentionKey in e <==> IsBlank(f.mention)) && (l.mentionKey in e ==> e[l.mentionKey] == l.mentionMessage)
      && e.Keys <= {l.nameKey, l.ownerKey, l.channelKey, l.mentionKey}
      && (|e| == 0 <==> !IsBlank(f.name) && f.ownerId != "" && f.channelId != "" && !IsBlank(f.mention))
  {
    TrimEmptyIffBlank(f.name);
    TrimEmptyIffBlank(f.mention);
    var e := FormErrors(l, f);
    if |e| == 0 {
      assert e == map[];
    } else {
      var k :| k in e.Keys;
    }
  }

  /** `{ ...formData, date: date.toISOString().split('T')[0] }`; an invalid date has no ISO string. */
  function PayloadOf(f: FormData): Option<Payload>
  {
    if f.date.None? then None else Some(Payload(f.name, f.ownerId, FormatDate(f.date.value), f.channelId, f.mention))
  }

  /** The dates a page can sort by: an unparsable date string sorts before every real date. */
  function DateKey(date: string): int
  {
    match ParseDate(date)
    case Some(d) => DayNumber(d)
    case None => -1
  }

  /** The first entry once the list is sorted latest date first (`sort` by descending time, stable). */
  function LatestOf<T>(date: T -> string, xs: seq<T>): Option<T>
  {
    var sorted := SortBy((x: T) => -DateKey(date(x)), xs);
    if |sorted| == 0 then None else Some(sorted[0])
  }

  /** The latest entry is one of the entries, and none of them is dated later; there is one whenever the list is not empty. */
  lemma LatestOfIsLatest<T>(date: T -> string, xs: seq<T>)
    ensures LatestOf(date, xs).None? <==> xs == []
    ensures LatestOf(date, xs).Some? ==> LatestOf(date, xs).value in xs
    ensures LatestOf(date, xs).Some? ==>
      forall i :: 0 <= i < |xs| ==> DateKey(date(xs[i])) <= DateKey(date(LatestOf(date, xs).value))
  {
    var key := (x: T) => -DateKey(date(x));
    var sorted := SortBy(key, xs);
    SortBySortsAndPermutes(key, xs);
    if xs != [] {
      assert sorted[0] in multiset(xs);
      forall i | 0 <= i < |xs| ensures DateKey(date(xs[i])) <= DateKey(date(sorted[0])) {
        assert xs[i] in multiset(sorted);
        var j :| 0 <= j < |sorted| && sorted[j] == xs[i];
        assert key(sorted[0]) <= key(sorted[j]);
      }
    }
  }

  /**
   * The record a new form copies its channel and mention from: only when nothing is being
   * edited, an owner is chosen and the loaded list is not empty, the latest of that owner's records.
   */
  function PrefillSource<T>(editId: string, ownerId: string, owner: T -> string, date: T -> string, xs: seq<T>): Option<T>
  {
    if editId == "" && ownerId != "" && |xs| > 0 then LatestOf(date, Filter((x: T) => owner(x) == ownerId, xs))
    else None
  }

  /**
   * A source exists exactly when a new record is being entered for an owner that has records;
   * it is one of that owner's records, and none of them is dated later.
   */
  lemma PrefillSourceSpec<T>(editId: string, ownerId: string, owner: T -> string, date: T -> string, xs: seq<T>)
    ensures var r := PrefillSource(editId, ownerId, owner, date, xs);
      r.Some? <==> editId == "" && ownerId != "" && exists i :: 0 <= i < |xs| && owner(xs[i]) == ownerId
    ensures var r := PrefillSource(editId, ownerId, owner, date, xs);
      r.Some? ==> r.value in xs && owner(r.value) == ownerId
    ensures var r := PrefillSource(editId, ownerId, owner, date, xs);
      r.Some? ==> forall i :: 0 <= i < |xs| && owner(xs[i]) == ownerId ==> DateKey(date(xs[i])) <= DateKey(date(r.value))
  {
    var mine := Filter((x: T) => owner(x) == ownerId, xs);
    LatestOfIsLatest(date, mine);
    if editId == "" && ownerId != "" {
      if exists i :: 0 <= i < |xs| && owner(xs[i]) == ownerId {
        var i :| 0 <= i < |xs| && owner(xs[i]) == ownerId;
        assert xs[i] in mine;
      }
      var r := PrefillSource(editId, ownerId, owner, date, xs);
      if r.Some? {
        forall i | 0 <= i < |xs| && owner(xs[i]) == ownerId ensures DateKey(date(xs[i])) <= DateKey(date(r.value)) {
          assert xs[i] in mine;
          var j :| 0 <= j < |mine| && mine[j] == xs[i];
        }
      }
    }
  }

  /** A form's state: its fields and the errors of the last validation. */
  class Form {
    const labels: Labels
    var formData: FormData
    var errors: map<string, string>

    /** The initial state: empty fields, the route's owner id, and the current date. */
    constructor (labels: Labels, routeOwnerId: string, now: Date)
      ensures this.labels == labels
      ensures formData == FormData("", routeOwnerId, Some(now), "", "") && errors == map[]
    {
      this.labels := labels;
      formData := FormData("", routeOwnerId, Some(now), "", "");
      errors := map[];
    }

    /** `setFormData(prev => ({ ...prev, channelId, mention }))`. */
    method SetContact(channelId: string, mention: string)
      modifies this
      ensures formData == old(formData).(channelId := channelId, mention := mention) && errors == old(errors)
    {
      formData := formData.(channelId := channelId, mention := mention);
    }

    /** `setFormData(prev => ({ ...prev, eventId }))`. */
    method SetOwner(ownerId: string)
      modifies this
      ensures formData == old(formData).(ownerId := ownerId) && errors == old(errors)
    {
      formData := formData.(ownerId := ownerId);
    }

    /** `setFormData({...})` with a whole new set of fields. */
    method SetAll(f: FormData)
      modifies this
      ensures formData == f && errors == old(errors)
    {
      formData := f;
    }

    /** `validate()`: records one error per failing check and reports whether there were none. */
    method Validate() returns (ok: bool)
      modifies this
      ensures formData == old(formData) && errors == FormErrors(labels, formData)
      ensures ok <==> |errors| == 0
    {
      var newErrors: map<string, string> := map[];
      if Trim(formData.name) == "" {
        newErrors := newErrors[labels.nameKey := labels.nameMessage];
      }
      if formData.ownerId == "" {
        newErrors := newErrors[labels.ownerKey := labels.ownerMessage];
      }
      if formData.channelId == "" {
        newErrors := newErrors[labels.channelKey := labels.channelMessage];
      }
      if Trim(formData.mention) == "" {
        newErrors := newErrors[labels.mentionKey := labels.mentionMessage];
      }
      errors := newErrors;
      ok := |newErrors| == 0;
    }

    /**
     * `handleSubmit`: validates, then updates the record `editId` if there is one and creates
     * a record otherwise; afterwards the page goes to `listPath` followed by the owner id.  An
     * invalid form submits nothing; so does an invalid date, whose `toISOString` throws.
     */
    method Submit(editId: string, listPath: string) returns (s: Option<Submission>)
      modifies this
      ensures formData == old(formData) && errors == FormErrors(labels, formData)
      ensures s.Some? <==> |errors| == 0 && PayloadOf(formData).Some?
      ensures s.Some? ==> s.value.navigateTo == listPath + formData.ownerId
      ensures s.Some? && editId != "" ==> s.value.save == Update(editId, PayloadOf(formData).value)
      ensures s.Some? && editId == "" ==> s.value.save == Create(PayloadOf(formData).value)
    {
      var ok := Validate();
      if !ok {
        return None;
      }
      var payload := PayloadOf(formData);
      if payload.None? {
        return None;
      }
      var save := if editId != "" then Update(editId, payload.value) else Create(payload.value);
      s := Some(Submission(save, listPath + formData.ownerId));
    }
  }
}
