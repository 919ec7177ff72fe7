/**
 * `handler/holding.go`: the holdings endpoints of the Go backend.  A stored holding carries a
 * calendar date; requests carry it as a `YYYY-MM-DD` string read with Go's `2006-01-02`
 * layout.  Service calls are parameters: the rows a query returns, the row found for an id,
 * the id a new row receives, whether a write succeeds.
 */
module HoldingHandler {
  import opened Wrappers
  import opened Decimal
  import opened Dates
  import opened HttpWriter

  /** `models.Holding`. */
  datatype HoldingRow = HoldingRow(id: int, eventId: int, name: string, date: Date, channelId: string, mention: string)

  datatype CreateHoldingRequest = CreateHoldingRequest(name: string, date: string, channelId: string, mention: string, eventId: string)

  /** A PATCH body: a nil pointer is an absent field.  The event of a holding cannot be changed. */
  datatype UpdateHoldingRequest = UpdateHoldingRequest(name: Option<string>, date: Option<string>, channelId: Option<string>, mention: Option<string>)

  /** The JSON answer: ids as decimal strings, the date as `YYYY-MM-DD`. */
  datatype HoldingResponse = HoldingResponse(id: string, name: string, date: string, channelId: string, mention: string, eventId: string)

  /** The zero `time.Time`, which `time.Parse` returns together with an error. */
  const ZeroDate: Date := Date(1, 1, 1)

  const InvalidHoldingId: string := "invalid holding_id"
  const InvalidDateFormat: string := "invalid format of holding date"

  // ---------------------------------------------------------------------------------------
  // Creating

  /** `CreateHoldingRequest.Validate`: the first failing check, or `None`. */
  function Validate(req: CreateHoldingRequest): Option<string>
  {
    if req.name == "" then Some("holding name is required")
    else if req.date == "" then Some("holding date is required")
    else if ParseDate(req.date).None? then Some("holding date must be in YYYY-MM-DD format")
    else if req.channelId == "" then Some("channel_id is required")
    else if req.mention == "" then Some("mention is required")
    else if req.eventId == "" then Some("event id is required")
    else None
  }

  /** A request passes exactly when every field is present and the date parses; otherwise the earliest failing check is reported. */
  lemma ValidateChecksInOrder(req: CreateHoldingRequest)
    ensures Validate(req).None? <==>
      req.name != "" && ParseDate(req.date).Some? && req.channelId != "" && req.mention != "" && req.eventId != ""
    ensures req.name == "" ==> Validate(req) == Some("holding name is required")
    ensures req.name != "" && req.date == "" ==> Validate(req) == Some("holding date is required")
    ensures req.name != "" && req.date != "" && ParseDate(req.date).None? ==>
      Validate(req) == Some("holding date must be in YYYY-MM-DD format")
    ensures req.name != "" && ParseDate(req.date).Some? && req.channelId == "" ==> Validate(req) == Some("channel_id is required")
    ensures req.name != "" && ParseDate(req.date).Some? && req.channelId != "" && req.mention == "" ==>
      Validate(req) == Some("mention is required")
    ensures req.name != "" && ParseDate(req.date).Some? && req.channelId != "" && req.mention != "" && req.eventId == "" ==>
      Validate(req) == Some("event id is required")
  {
  }

  /** The row handed to the service: both parse errors are discarded, so each yields its zero value. */
  function NewHolding(req: CreateHoldingRequest): HoldingRow
  {
    HoldingRow(0, Atoi(req.eventId).value, req.name, ParseDate(req.date).GetOr(ZeroDate), req.channelId, req.mention)
  }

  /** An event id without a single digit, such as "abc", passes validation and is stored as event 0. */
  lemma NonNumericEventIdStoredAsZero(req: CreateHoldingRequest)
    requires Validate(req).None?
    requires forall i :: 0 <= i < |req.eventId| ==> !IsDigit(req.eventId[i])
    ensures NewHolding(req).eventId == 0
  {
    var s := req.eventId;
    var body := if |s| > 0 && (s[0] == '+' || s[0] == '-') then s[1..] else s;
    if body != [] {
      assert !IsDigit(body[0]);
    }
  }

  function ToResponse(h: HoldingRow): HoldingResponse
  {
    HoldingResponse(IntToString(h.id), h.name, FormatDate(h.date), h.channelId, h.mention, IntToString(h.eventId))
  }

  /**
   * The answer to a valid create echoes the request's name, date, channel and mention exactly,
   * and its event id reads back as the stored event id.
   */
  lemma CreateResponseEchoesRequest(req: CreateHoldingRequest, id: int)
    requires Validate(req).None?
    ensures var r := ToResponse(NewHolding(req).(id := id));
      && r.name == req.name && r.date == req.date && r.channelId == req.channelId && r.mention == req.mention
      && ParseDate(r.date) == Some(NewHolding(req).date)
      && Atoi(r.eventId) == Parsed(NewHolding(req).eventId, true)
  {
    FormatParseDate(req.date);
    AtoiItoa(Atoi(req.eventId).value);
  }

  /** `POST /holdings`: `body` is the decoded request, `newId` the id the service assigns (`None` for a failure). */
  method CreateHolding(body: Option<CreateHoldingRequest>, newId: Option<int>)
    returns (w: Writer<HoldingResponse>, sent: Option<HoldingRow>)
    ensures body.None? ==> w == Error(Fresh(), "invalid request body", StatusBadRequest) && sent.None?
    ensures body.Some? && Validate(body.value).Some? ==>
      w == Error(Fresh(), Validate(body.value).value, StatusBadRequest) && sent.None?
    ensures body.Some? && Validate(body.value).None? ==> sent == Some(NewHolding(body.value))
    ensures sent.Some? && newId.None? ==> w == Error(Fresh(), "failed to create holding", StatusInternalServerError)
    ensures sent.Some? && newId.Some? ==> w == Reply(Fresh(), StatusCreated, ToResponse(sent.value.(id := newId.value)))
  {
    if body.None? {
      return Error(Fresh(), "invalid request body", StatusBadRequest), None;
    }
    var req := body.value;
    var invalid := Validate(req);
    if invalid.Some? {
      return Error(Fresh(), invalid.value, StatusBadRequest), None;
    }
    var holdingDate := ParseDate(req.date).GetOr(ZeroDate);
    var eventId := Atoi(req.eventId).value;
    var holding := HoldingRow(0, eventId, req.name, holdingDate, req.channelId, req.mention);
    sent := Some(holding);
    if newId.None? {
      return Error(Fresh(), "failed to create holding", StatusInternalServerError), sent;
    }
    holding := holding.(id := newId.value);
    w := Reply(Fresh(), StatusCreated, ToResponse(holding));
  }

  // ---------------------------------------------------------------------------------------
  // Reading

  /** Which service query `GetHoldings` makes. */
  datatype Query = AllHoldings | ByEvent(eventId: int)

  /** The list handler's loop: `response[i]` is the conversion of `rows[i]`. */
  method BuildResponses(rows: seq<HoldingRow>) returns (response: seq<HoldingResponse>)
    ensures |response| == |rows|
    ensures forall i :: 0 <= i < |rows| ==> response[i] == ToResponse(rows[i])
  {
    response := [];
    for i := 0 to |rows|
      invariant |response| == i
      invariant forall j :: 0 <= j < i ==> response[j] == ToResponse(rows[j])
    {
      var converted := ToResponse(rows[i]);
      response := response + [converted];
    }
  }

  /**
   * `GET /holdings?source_event_id=...`: `fetch(q)` is the service's answer to query `q`
   * (`None` for a failure).  Also returns the query made, if any.
   */
  method GetHoldings(sourceEventId: string, fetch: Query -> Option<seq<HoldingRow>>)
    returns (w: Writer<seq<HoldingResponse>>, query: Option<Query>)
    ensures sourceEventId == "" ==> query == Some(AllHoldings)
    ensures sourceEventId != "" && !Atoi(sourceEventId).ok ==>
      w == Error(Fresh(), "invalid source_event_id", StatusBadRequest) && query.None?
    ensures sourceEventId != "" && Atoi(sourceEventId).ok ==> query == Some(ByEvent(Atoi(sourceEventId).value))
    ensures query.Some? && fetch(query.value).None? ==> w == Error(Fresh(), "failed to get holdings", StatusInternalServerError)
    ensures query.Some? && fetch(query.value).Some? ==>
      var rows := fetch(query.value).value;
      && w.header == Some(StatusOK) && |w.body| == 1 && w.body[0].Json? && |w.body[0].value| == |rows|
      && forall i :: 0 <= i < |rows| ==> w.body[0].value[i] == ToResponse(rows[i])
  {
    if sourceEventId != "" {
      var eventId := Atoi(sourceEventId);
      if !eventId.ok {
        return Error(Fresh(), "invalid source_event_id", StatusBadRequest), None;
      }
      query := Some(ByEvent(eventId.value));
    } else {
      query := Some(AllHoldings);
    }
    var holdings := fetch(query.value);
    if holdings.None? {
      return Error(Fresh(), "failed to get holdings", StatusInternalServerError), query;
    }
    var response := BuildResponses(holdings.value);
    w := Reply(Fresh(), StatusOK, response);
  }

  /** `GET /holdings/{holdingId}`: `find(id)` is the service's row for a parsed id. */
  method GetHolding(holdingIdText: string, find: int -> Option<HoldingRow>) returns (w: Writer<HoldingResponse>)
    ensures !Atoi(holdingIdText).ok ==> w == Error(Fresh(), InvalidHoldingId, StatusBadRequest)
    ensures Atoi(holdingIdText).ok && find(Atoi(holdingIdText).value).None? ==>
      w == Error(Fresh(), "holding not found", StatusNotFound)
    ensures Atoi(holdingIdText).ok && find(Atoi(holdingIdText).value).Some? ==>
      w == Reply(Fresh(), StatusOK, ToResponse(find(Atoi(holdingIdText).value).value))
  {
    var holdingId := Atoi(holdingIdText);
    if !holdingId.ok {
      return Error(Fresh(), InvalidHoldingId, StatusBadRequest);
    }
    var holding := find(holdingId.value);
    if holding.None? {
      return Error(Fresh(), "holding not found", StatusNotFound);
    }
    w := Reply(Fresh(), StatusOK, ToResponse(holding.value));
  }

  // ---------------------------------------------------------------------------------------
  // Updating

  /** A PATCH whose date is present but does not parse. */
  predicate DateRejected(req: UpdateHoldingRequest)
  {
    req.date.Some? && ParseDate(req.date.value).None?
  }

  /**
   * The row the handler as written hands to the service: a rejected date still overwrites the
   * stored one, with the zero date `time.Parse` returns alongside its error.
   */
  function MergeAsWritten(existing: HoldingRow, req: UpdateHoldingRequest): HoldingRow
  {
    HoldingRow(existing.id, existing.eventId, req.name.GetOr(existing.name),
      if req.date.Some? then ParseDate(req.date.value).GetOr(ZeroDate) else existing.date,
      req.channelId.GetOr(existing.channelId), req.mention.GetOr(existing.mention))
  }

  /** The intended merge: a rejected date refuses the whole update. */
  function Merged(existing: HoldingRow, req: UpdateHoldingRequest): Option<HoldingRow>
  {
    if DateRejected(req) then None
    else Some(HoldingRow(existing.id, existing.eventId, req.name.GetOr(existing.name),
      if req.date.Some? then ParseDate(req.date.value).value else existing.date,
      req.channelId.GetOr(existing.channelId), req.mention.GetOr(existing.mention)))
  }

  /**
   * The intended merge refuses exactly a rejected date.  Otherwise id and event always come from
   * the stored row, each supplied field overwrites and each absent one is kept; the saved date
   * is always a real date the client sent or the stored one.
   */
  lemma MergedOverwritesOnlySupplied(existing: HoldingRow, req: UpdateHoldingRequest)
    ensures Merged(existing, req).None? <==> DateRejected(req)
    ensures Merged(existing, req).Some? ==>
      var r := Merged(existing, req).value;
      && r.id == existing.id && r.eventId == existing.eventId
      && r.name == req.name.GetOr(existing.name)
      && r.channelId == req.channelId.GetOr(existing.channelId)
      && r.mention == req.mention.GetOr(existing.mention)
      && (req.date.None? ==> r.date == existing.date)
      && (req.date.Some? ==> Some(r.date) == ParseDate(req.date.value) && FormatDate(r.date) == req.date.value)
  {
    if req.date.Some? && ParseDate(req.date.value).Some? {
      FormatParseDate(req.date.value);
    }
  }

  /** Both merges agree whenever the date is absent or parses. */
  lemma MergesAgreeOnGoodDates(existing: HoldingRow, req: UpdateHoldingRequest)
    requires !DateRejected(req)
    ensures Merged(existing, req) == Some(MergeAsWritten(existing, req))
  {
  }

  /**
   * With a rejected date the handler as written still saves a row, and that row's date is
   * 0001-01-01 whatever the stored date was.
   */
  lemma MergeAsWrittenZeroesDate(existing: HoldingRow, req: UpdateHoldingRequest)
    requires DateRejected(req)
    ensures MergeAsWritten(existing, req).date == ZeroDate
    ensures FormatDate(MergeAsWritten(existing, req).date) == "0001-01-01"
    ensures Merged(existing, req).None?
  {
    assert FixedDigits(1, 4) == "0001" && FixedDigits(1, 2) == "01";
  }

  /** A holding on 2026-04-18 patched with the date "2026/04/18" is saved as 0001-01-01. */
  lemma BadPatchDateExample()
    ensures var existing := HoldingRow(7, 3, "LT", Date(2026, 4, 18), "C1", "@all");
      var req := UpdateHoldingRequest(None, Some("2026/04/18"), None, None);
      && DateRejected(req)
      && MergeAsWritten(existing, req) == existing.(date := Date(1, 1, 1))
      && Merged(existing, req).None?
  {
    var req := UpdateHoldingRequest(None, Some("2026/04/18"), None, None);
    assert "2026/04/18"[4] == '/';
    assert DateRejected(req);
  }

  /**
   * `PATCH /holdings/{holdingId}` as written.  An unparsable date writes a 400 with its message
   * but does not return: the row with the zero date is saved anyway, and the 200 answer that
   * follows cannot change the status already sent, so its JSON lands after the error text.
   */
  method UpdateHolding(holdingIdText: string, body: Option<UpdateHoldingRequest>, find: int -> Option<HoldingRow>, saved: bool)
    returns (w: Writer<HoldingResponse>, sent: Option<HoldingRow>)
    ensures !Atoi(holdingIdText).ok ==> w == Error(Fresh(), InvalidHoldingId, StatusBadRequest) && sent.None?
    ensures Atoi(holdingIdText).ok && body.None? ==> w == Error(Fresh(), "invalid request body", StatusBadRequest) && sent.None?
    ensures Atoi(holdingIdText).ok && body.Some? && find(Atoi(holdingIdText).value).None? ==>
      w == Error(Fresh(), "holding not found", StatusNotFound) && sent.None?
    ensures Atoi(holdingIdText).ok && body.Some? && find(Atoi(holdingIdText).value).Some? ==>
      sent == Some(MergeAsWritten(find(Atoi(holdingIdText).value).value, body.value))
    ensures sent.Some? && !DateRejected(body.value) && saved ==> w == Reply(Fresh(), StatusOK, ToResponse(sent.value))
    ensures sent.Some? && !DateRejected(body.value) && !saved ==>
      w == Error(Fresh(), "failed to update holding", StatusInternalServerError)
    ensures sent.Some? && DateRejected(body.value) ==>
      && sent.value.date == ZeroDate && Status(w) == StatusBadRequest
      && (saved ==> w.body == [Text(InvalidDateFormat), Json(ToResponse(sent.value))])
      && (!saved ==> w.body == [Text(InvalidDateFormat), Text("failed to update holding")])
  {
    var holdingId := Atoi(holdingIdText);
    if !holdingId.ok {
      return Error(Fresh(), InvalidHoldingId, StatusBadRequest), None;
    }
    if body.None? {
      return Error(Fresh(), "invalid request body", StatusBadRequest), None;
    }
    var req := body.value;
    var existing := find(holdingId.value);
    if existing.None? {
      return Error(Fresh(), "holding not found", StatusNotFound), None;
    }
    w := Fresh();
    var updated := existing.value;
    if req.name.Some? {
      updated := updated.(name := req.name.value);
    }
    if req.date.Some? {
      var parsed := ParseDate(req.date.value);
      updated := updated.(date := parsed.GetOr(ZeroDate));
      if parsed.None? {
        w := Error(w, InvalidDateFormat, StatusBadRequest);
      }
    }
    if req.channelId.Some? {
      updated := updated.(channelId := req.channelId.value);
    }
    if req.mention.Some? {
      updated := updated.(mention := req.mention.value);
    }
    sent := Some(updated);
    if !saved {
      return Error(w, "failed to update holding", StatusInternalServerError), sent;
    }
    w := Reply(w, StatusOK, ToResponse(updated));
  }

  /** `PATCH /holdings/{holdingId}` with a `return` after the date error: a rejected date saves nothing. */
  method UpdateHoldingFixed(holdingIdText: string, body: Option<UpdateHoldingRequest>, find: int -> Option<HoldingRow>, saved: bool)
    returns (w: Writer<HoldingResponse>, sent: Option<HoldingRow>)
    ensures !Atoi(holdingIdText).ok ==> w == Error(Fresh(), InvalidHoldingId, StatusBadRequest) && sent.None?
    ensures Atoi(holdingIdText).ok && body.None? ==> w == Error(Fresh(), "invalid request body", StatusBadRequest) && sent.None?
    ensures Atoi(holdingIdText).ok && body.Some? && find(Atoi(holdingIdText).value).None? ==>
      w == Error(Fresh(), "holding not found", StatusNotFound) && sent.None?
    ensures Atoi(holdingIdText).ok && body.Some? && find(Atoi(holdingIdText).value).Some? ==>
      sent == Merged(find(Atoi(holdingIdText).value).value, body.value)
    ensures Atoi(holdingIdText).ok && body.Some? && find(Atoi(holdingIdText).value).Some? && DateRejected(body.value) ==>
      w == Error(Fresh(), InvalidDateFormat, StatusBadRequest) && sent.None?
    ensures sent.Some? && saved ==> w == Reply(Fresh(), StatusOK, ToResponse(sent.value))
    ensures sent.Some? && !saved ==> w == Error(Fresh(), "failed to update holding", StatusInternalServerError)
  {
    var holdingId := Atoi(holdingIdText);
    if !holdingId.ok {
      return Error(Fresh(), InvalidHoldingId, StatusBadRequest), None;
    }
    if body.None? {
      return Error(Fresh(), "invalid request body", StatusBadRequest), None;
    }
    var req := body.value;
    var existing := find(holdingId.value);
    if existing.None? {
      return Error(Fresh(), "holding not found", StatusNotFound), None;
    }
    var updated := existing.value;
    if req.name.Some? {
      updated := updated.(name := req.name.value);
    }
    if req.date.Some? {
      var parsed := ParseDate(req.date.value);
      if parsed.None? {
        return Error(Fresh(), InvalidDateFormat, StatusBadRequest), None;
      }
      updated := updated.(date := parsed.value);
    }
    if req.channelId.Some? {
      updated := updated.(channelId := req.channelId.value);
    }
    if req.mention.Some? {
      updated := updated.(mention := req.mention.value);
    }
    sent := Some(updated);
    if !saved {
      return Error(Fresh(), "failed to update holding", StatusInternalServerError), sent;
    }
    w := Reply(Fresh(), StatusOK, ToResponse(updated));
  }

  // ---------------------------------------------------------------------------------------
  // Deleting

  /** `DELETE /holdings/{holdingId}`: the id handed to the service, if the path parses. */
  method DeleteHolding(holdingIdText: string, deleted: bool) returns (w: Writer<()>, sent: Option<int>)
    ensures !Atoi(holdingIdText).ok ==> w == Error(Fresh(), InvalidHoldingId, StatusBadRequest) && sent.None?
    ensures Atoi(holdingIdText).ok ==> sent == Some(Atoi(holdingIdText).value)
    ensures Atoi(holdingIdText).ok && !deleted ==> w == Error(Fresh(), "failed to delete holding", StatusInternalServerError)
    ensures Atoi(holdingIdText).ok && deleted ==> w == WriteHeader(Fresh(), StatusNoContent) && w.body == []
  {
    var holdingId := Atoi(holdingIdText);
    if !holdingId.ok {
      return Error(Fresh(), InvalidHoldingId, StatusBadRequest), None;
    }
    sent := Some(holdingId.value);
    if !deleted {
      return Error(Fresh(), "failed to delete holding", StatusInternalServerError), sent;
    }
    w := WriteHeader(Fresh(), StatusNoContent);
  }
}
