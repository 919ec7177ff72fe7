/**
 * `pages/HoldingForm.tsx`: the form that creates a holding of an event, or edits one.  A new
 * holding starts with the channel and mention of the event's latest holding; an edited one
 * starts with its stored fields.  Submitting goes back to the event's page.
 */
module HoldingForm {
  import opened Wrappers
  import opened Strings
  import opened Dates
  import opened Entities
  import opened EntryForm
  import HoldingList

  const Words := Labels(
    "holding_name", "開催名は必須です", "source_event_id", "イベントを選択してください",
    "slack_channel_id", "通知先チャンネルを選択してください", "slack_mention", "メンション先は必須です")

  const ListPath := "/events/"

  /** The event a loaded holding belongs to, `""` when it has none. */
  function HoldingEventId(h: HoldingWithEvent): string
  {
    h.holding.eventId.GetOr("")
  }

  /** The holding a new form copies its channel and mention from. */
  function ContactSource(holdingId: string, eventId: string, holdings: seq<HoldingWithEvent>): Option<HoldingWithEvent>
  {
    PrefillSource(holdingId, eventId, HoldingEventId, HoldingList.HoldingDate, holdings)
  }

  /**
   * A new holding of an event takes its contact from a holding of that same event, the one
   * with the latest date; there is one exactly when the event has a loaded holding.
   */
  lemma ContactFromLatestOfEvent(holdingId: string, eventId: string, holdings: seq<HoldingWithEvent>)
    ensures var r := ContactSource(holdingId, eventId, holdings);
      r.Some? <==> holdingId == "" && eventId != "" && exists i :: 0 <= i < |holdings| && holdings[i].holding.eventId == Some(eventId)
    ensures var r := ContactSource(holdingId, eventId, holdings);
      r.Some? ==> r.value in holdings && r.value.holding.eventId == Some(eventId)
    ensures var r := ContactSource(holdingId, eventId, holdings);
      r.Some? ==> forall i :: 0 <= i < |holdings| && holdings[i].holding.eventId == Some(eventId) ==>
        DateKey(holdings[i].holding.date) <= DateKey(r.value.holding.date)
  {
    PrefillSourceSpec(holdingId, eventId, HoldingEventId, HoldingList.HoldingDate, holdings);
    if eventId != "" {
      forall i | 0 <= i < |holdings| ensures HoldingEventId(holdings[i]) == eventId <==> holdings[i].holding.eventId == Some(eventId) {
      }
    }
  }

  /** The fields an edited holding fills the form with, once the loaded holding is the one in the route. */
  function EditFields(holdingId: string, routeEventId: string, current: Option<HoldingWithTasks>): Option<FormData>
  {
    if holdingId != "" && current.Some? && current.value.holding.id == holdingId then
      var h := current.value.holding;
      var eventId := if h.eventId.Some? && h.eventId.value != "" then h.eventId.value else routeEventId;
      Some(FormData(h.name, eventId, ParseDate(h.date), h.channelId, h.mention))
    else None
  }

  /**
   * The form is filled only from the holding the route names, never from a stale one; it keeps
   * the holding's own event when it has one and falls back to the route's event otherwise.
   */
  lemma EditFieldsOnlyFromRouteHolding(holdingId: string, routeEventId: string, current: Option<HoldingWithTasks>)
    ensures var r := EditFields(holdingId, routeEventId, current);
      r.Some? <==> holdingId != "" && current.Some? && current.value.holding.id == holdingId
    ensures var r := EditFields(holdingId, routeEventId, current);
      r.Some? ==> (r.value.name == current.value.holding.name && r.value.channelId == current.value.holding.channelId
                   && r.value.mention == current.value.holding.mention)
    ensures var r := EditFields(holdingId, routeEventId, current);
      r.Some? ==> (r.value.ownerId == routeEventId || Some(r.value.ownerId) == current.value.holding.eventId)
    ensures var r := EditFields(holdingId, routeEventId, current);
      r.Some? && current.value.holding.eventId.Some? && current.value.holding.eventId.value != "" ==>
        r.value.ownerId == current.value.holding.eventId.value
  {
  }

  /**
   * Editing a holding whose stored date is a valid `YYYY-MM-DD` and saving it unchanged sends
   * back its stored fields, the date string included; with a stored date JavaScript cannot
   * read, saving sends nothing.
   */
  lemma UnchangedEditSendsStoredFields(holdingId: string, routeEventId: string, h: HoldingWithTasks)
    requires holdingId != "" && h.holding.id == holdingId
    ensures var f := EditFields(holdingId, routeEventId, Some(h));
      f.Some? && (PayloadOf(f.value).Some? <==> ParseDate(h.holding.date).Some?)
    ensures var f := EditFields(holdingId, routeEventId, Some(h));
      f.Some? && PayloadOf(f.value).Some? ==>
        PayloadOf(f.value).value == Payload(h.holding.name, f.value.ownerId, h.holding.date, h.holding.channelId, h.holding.mention)
  {
    if ParseDate(h.holding.date).Some? {
      FormatParseDate(h.holding.date);
    }
  }

  /** Mount: the event in the route becomes the form's event. */
  method FollowRoute(form: Form, eventId: string)
    modifies form
    ensures form.formData == (if eventId != "" then old(form.formData).(ownerId := eventId) else old(form.formData))
    ensures form.errors == old(form.errors)
  {
    if eventId != "" {
      form.SetOwner(eventId);
    }
  }

  /** The holdings effect: copy the channel and mention of the event's latest holding, if any. */
  method Prefill(form: Form, holdingId: string, eventId: string, holdings: seq<HoldingWithEvent>)
    modifies form
    ensures var src := ContactSource(holdingId, eventId, holdings);
      form.formData == (if src.Some? then old(form.formData).(channelId := src.value.holding.channelId, mention := src.value.holding.mention)
                        else old(form.formData))
    ensures form.errors == old(form.errors)
  {
    var src := ContactSource(holdingId, eventId, holdings);
    if src.Some? {
      form.SetContact(src.value.holding.channelId, src.value.holding.mention);
    }
  }

  /** The `currentHolding` effect: fill the form from the holding being edited. */
  method FillFromCurrent(form: Form, holdingId: string, routeEventId: string, current: Option<HoldingWithTasks>)
    modifies form
    ensures var f := EditFields(holdingId, routeEventId, current);
      form.formData == (if f.Some? then f.value else old(form.formData))
    ensures form.errors == old(form.errors)
  {
    var f := EditFields(holdingId, routeEventId, current);
    if f.Some? {
      form.SetAll(f.value);
    }
  }

  /**
   * `handleSubmit`: a holding is saved exactly when it has a name, an event, a channel, a
   * mention and a readable date; it updates the routed holding when there is one and creates
   * a holding otherwise, then the event's page opens.
   */
  method Submit(form: Form, holdingId: string) returns (s: Option<Submission>)
    requires form.labels == Words
    modifies form
    ensures form.formData == old(form.formData) && form.errors == FormErrors(Words, form.formData)
    ensures s.Some? <==> (!IsBlank(form.formData.name) && form.formData.ownerId != "" && form.formData.channelId != ""
                          && !IsBlank(form.formData.mention) && form.formData.date.Some?)
    ensures s.Some? ==> s.value.navigateTo == ListPath + form.formData.ownerId
    ensures s.Some? ==> s.value.save == (if holdingId != "" then Update(holdingId, PayloadOf(form.formData).value)
                                         else Create(PayloadOf(form.formData).value))
  {
    s := form.Submit(holdingId, ListPath);
    FormErrorsSpec(Words, form.formData);
  }
}
