/**
 * `pages/EventForm.tsx`, the older schema's form for an event of a template.  A new event
 * starts with the Slack channel and mention of the template's latest event.  Loading an
 * existing event into the form is not implemented on this page, so an edit starts empty.
 * Submitting goes back to the template's page.
 */
module EventForm {
  import opened Wrappers
  import opened Strings
  import opened EntryForm
  import opened EventList

  const Words := Labels(
    "event_name", "イベント名は必須です", "template_id", "テンプレートを選択してください",
    "slack_channel_id", "通知先チャンネルを選択してください", "slack_mention", "メンション先は必須です")

  const ListPath := "/templates/"

  function TemplateId(e: LegacyEvent): string
  {
    e.templateId
  }

  /** The event a new form copies its Slack channel and mention from. */
  function ContactSource(eventId: string, templateId: string, events: seq<LegacyEvent>): Option<LegacyEvent>
  {
    PrefillSource(eventId, templateId, TemplateId, EventDate, events)
  }

  /**
   * A new event takes its contact from the latest-dated event of the same template; there is
   * one exactly when the template has a loaded event, and never while an event is edited.
   */
  lemma ContactFromLatestOfTemplate(eventId: string, templateId: string, events: seq<LegacyEvent>)
    ensures var r := ContactSource(eventId, templateId, events);
      r.Some? <==> eventId == "" && templateId != "" && exists i :: 0 <= i < |events| && events[i].templateId == templateId
    ensures var r := ContactSource(eventId, templateId, events);
      r.Some? ==> r.value in events && r.value.templateId == templateId
    ensures var r := ContactSource(eventId, templateId, events);
      r.Some? ==> forall i :: 0 <= i < |events| && events[i].templateId == templateId ==>
        DateKey(events[i].eventDate) <= DateKey(r.value.eventDate)
  {
    PrefillSourceSpec(eventId, templateId, TemplateId, EventDate, events);
  }

  /** The events effect: copy the Slack channel and mention of the template's latest event, if any. */
  method Prefill(form: Form, eventId: string, templateId: string, events: seq<LegacyEvent>)
    modifies form
    ensures var src := ContactSource(eventId, templateId, events);
      form.formData == (if src.Some? then old(form.formData).(channelId := src.value.slackChannelId, mention := src.value.slackMention)
                        else old(form.formData))
    ensures form.errors == old(form.errors)
  {
    var src := ContactSource(eventId, templateId, events);
    if src.Some? {
      form.SetContact(src.value.slackChannelId, src.value.slackMention);
    }
  }

  /**
   * `handleSubmit`: an event is saved exactly when it has a name, a template, a channel, a
   * mention and a readable date; it updates the routed event when there is one and creates an
   * event otherwise, then the template's page opens.
   */
  method Submit(form: Form, eventId: string) returns (s: Option<Submission>)
    requires form.labels == Words
    modifies form
    ensures form.formData == old(form.formData) && form.errors == FormErrors(Words, form.formData)
    ensures s.Some? <==> (!IsBlank(form.formData.name) && form.formData.ownerId != "" && form.formData.channelId != ""
                          && !IsBlank(form.formData.mention) && form.formData.date.Some?)
    ensures s.Some? ==> s.value.navigateTo == ListPath + form.formData.ownerId
    ensures s.Some? ==> s.value.save == (if eventId != "" then Update(eventId, PayloadOf(form.formData).value)
                                         else Create(PayloadOf(form.formData).value))
  {
    s := form.Submit(eventId, ListPath);
    FormErrorsSpec(Words, form.formData);
  }
}
