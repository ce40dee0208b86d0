/** The request gateway: the six route handlers, each a fixed sequence of checks
    (API key, required body fields, guild scope, id prefix) followed by at most one
    statement against the table the id selects; `/fetchall` selects no table and
    reads both. */
module Routes {
  import opened Records
  import opened Auth
  import opened Tables

  // The in-band error strings; POST and GET routes word the scope error differently.
  const InvalidToken: string := "Invalid token."
  const MissingFields: string := "Required body parameters were not given."
  const SubmitForbidden: string := "You cannot submit information for that guild."
  const FetchForbidden: string := "You cannot fetch information for that guild."
  const InvalidId: string := "ID parameter was invalid."

  /** The rows a fetch returns, from whichever table the id selected. */
  datatype Rows = SuggestionRows(suggestions: seq<Suggestion>) | ReportRows(reports: seq<Report>)

  /** What a handler leaves in the response. */
  datatype Response =
    | Err(error: string)                                        // `{success: false, error}`
    | Ok                                                        // `{success: true}`
    | OkData(data: Rows)                                        // `{success: true, data}`
    | OkAll(suggestions: seq<Suggestion>, reports: seq<Report>) // `{success: true, suggestions, reports}`
    | NoBody  // the handler returned without assigning a body
    | Crash   // the handler threw before answering

  /** The table an id prefix selects. */
  datatype Table = SuggestionTable | ReportTable

  predicate StartsWith(s: string, prefix: string) {
    |prefix| <= |s| && s[..|prefix|] == prefix
  }

  /** The id-prefix dispatch: `s_` selects suggestions, `r_` reports, anything else nothing.
      The two prefixes exclude each other, so the order of the tests does not matter. */
  function Classify(id: string): (t: Option<Table>)
    ensures t == Some(SuggestionTable) <==> StartsWith(id, "s_")
    ensures t == Some(ReportTable) <==> StartsWith(id, "r_")
    ensures t == None <==> !StartsWith(id, "s_") && !StartsWith(id, "r_")
  {
    if StartsWith(id, "s_") then Some(SuggestionTable)
    else if StartsWith(id, "r_") then Some(ReportTable)
    else None
  }

  /** The table a possibly absent dispatch id selects; nothing when it is absent. */
  function Target(dispatchId: Option<string>): Option<Table> {
    if dispatchId.None? then None else Classify(dispatchId.value)
  }

  /** A request passes the key check, the required-field check and the guild-scope check. */
  predicate Admitted(tokens: Tokens, apiKey: Option<string>, complete: bool, guild: Option<string>) {
    KnownKey(tokens, apiKey) && complete && guild.Some? && MayAccess(PolicyOf(tokens, apiKey), guild.value)
  }

  // The WHERE conditions and SET clauses of the handlers' statements.
  function SuggestionAt(guild: string, id: string): Suggestion -> bool {
    (s: Suggestion) => s.guild == guild && s.id == id
  }
  function ReportAt(guild: string, id: string): Report -> bool {
    (p: Report) => p.guild == guild && p.id == id
  }
  function SuggestionIn(guild: string): Suggestion -> bool {
    (s: Suggestion) => s.guild == guild
  }
  function ReportIn(guild: string): Report -> bool {
    (p: Report) => p.guild == guild
  }
  function SuggestionStatus(status: string): Suggestion -> Suggestion {
    (s: Suggestion) => s.(status := status)
  }
  function ReportStatus(status: string): Report -> Report {
    (p: Report) => p.(status := status)
  }

  /** The service: the token table it loads at start-up and the two database tables. */
  class Store {
    const authTokens: Tokens
    var suggestions: seq<Suggestion>
    var reports: seq<Report>

    constructor (tokens: Tokens, initialSuggestions: seq<Suggestion>, initialReports: seq<Report>)
      ensures authTokens == tokens
      ensures suggestions == initialSuggestions && reports == initialReports
    {
      authTokens := tokens;
      suggestions := initialSuggestions;
      reports := initialReports;
    }

    /** The `/submit` handler. `dispatchId` is the path parameter `id` the handler
        dispatches on; the row written takes its id from the body. */
    method Submit(apiKey: Option<string>, dispatchId: Option<string>, body: SubmitBody) returns (r: Response)
      modifies this
      ensures !KnownKey(authTokens, apiKey) ==> r == Err(InvalidToken)
      ensures KnownKey(authTokens, apiKey) && !body.Complete() ==> r == Err(MissingFields)
      ensures KnownKey(authTokens, apiKey) && body.Complete() && !MayAccess(PolicyOf(authTokens, apiKey), body.guild.value) ==>
          r == Err(SubmitForbidden)
      ensures Admitted(authTokens, apiKey, body.Complete(), body.guild) && dispatchId.None? ==> r == Crash
      ensures Admitted(authTokens, apiKey, body.Complete(), body.guild) && dispatchId.Some? ==>
          r == if Target(dispatchId).Some? then Ok else Err(InvalidId)
      ensures suggestions == if r == Ok && Target(dispatchId) == Some(SuggestionTable)
                             then old(suggestions) + [NewSuggestion(body)] else old(suggestions)
      ensures reports == if r == Ok && Target(dispatchId) == Some(ReportTable)
                         then old(reports) + [NewReport(body)] else old(reports)
    {
      if !KnownKey(authTokens, apiKey) {
        return Err(InvalidToken);
      }
      if !body.Complete() {
        return Err(MissingFields);
      }
      if !MayAccess(PolicyOf(authTokens, apiKey), body.guild.value) {
        return Err(SubmitForbidden);
      }
      if dispatchId.None? {
        // `startsWith` is called on an undefined path parameter
        return Crash;
      }
      match Classify(dispatchId.value)
      case Some(SuggestionTable) =>
        suggestions := suggestions + [NewSuggestion(body)];
        r := Ok;
      case Some(ReportTable) =>
        reports := reports + [NewReport(body)];
        r := Ok;
      case None =>
        r := Err(InvalidId);
    }

    /** The `/setstatus` handler: sets `status` on the rows of the selected table whose
        guild and id equal the body's, and succeeds whether or not any row matched. */
    method SetStatus(apiKey: Option<string>, dispatchId: Option<string>, body: StatusBody) returns (r: Response)
      modifies this
      ensures !KnownKey(authTokens, apiKey) ==> r == Err(InvalidToken)
      ensures KnownKey(authTokens, apiKey) && !body.Complete() ==> r == Err(MissingFields)
      ensures KnownKey(authTokens, apiKey) && body.Complete() && !MayAccess(PolicyOf(authTokens, apiKey), body.guild.value) ==>
          r == Err(SubmitForbidden)
      ensures Admitted(authTokens, apiKey, body.Complete(), body.guild) && dispatchId.None? ==> r == Crash
      ensures Admitted(authTokens, apiKey, body.Complete(), body.guild) && dispatchId.Some? ==>
          r == if Target(dispatchId).Some? then Ok else Err(InvalidId)
      ensures suggestions == if r == Ok && Target(dispatchId) == Some(SuggestionTable)
                             then UpdateWhere(old(suggestions), SuggestionAt(body.guild.value, body.id.value),
                                              SuggestionStatus(body.status.value))
                             else old(suggestions)
      ensures reports == if r == Ok && Target(dispatchId) == Some(ReportTable)
                         then UpdateWhere(old(reports), ReportAt(body.guild.value, body.id.value),
                                          ReportStatus(body.status.value))
                         else old(reports)
    {
      if !KnownKey(authTokens, apiKey) {
        return Err(InvalidToken);
      }
      if !body.Complete() {
        return Err(MissingFields);
      }
      if !MayAccess(PolicyOf(authTokens, apiKey), body.guild.value) {
        return Err(SubmitForbidden);
      }
      if dispatchId.None? {
        return Crash;
      }
      match Classify(dispatchId.value)
      case Some(SuggestionTable) =>
        suggestions := UpdateWhere(suggestions, SuggestionAt(body.guild.value, body.id.value),
                                   SuggestionStatus(body.status.value));
        r := Ok;
      case Some(ReportTable) =>
        reports := UpdateWhere(reports, ReportAt(body.guild.value, body.id.value),
                               ReportStatus(body.status.value));
        r := Ok;
      case None =>
        r := Err(InvalidId);
    }

    /** The `/suggestions/upvote` handler: the checks only; past them it logs and
        answers nothing. Having no `modifies` clause, it cannot change either table. */
    method Upvote(apiKey: Option<string>, body: VoteBody) returns (r: Response)
      ensures !KnownKey(authTokens, apiKey) ==> r == Err(InvalidToken)
      ensures KnownKey(authTokens, apiKey) && !body.Complete() ==> r == Err(MissingFields)
      ensures KnownKey(authTokens, apiKey) && body.Complete() && !MayAccess(PolicyOf(authTokens, apiKey), body.guild.value) ==>
          r == Err(SubmitForbidden)
      ensures Admitted(authTokens, apiKey, body.Complete(), body.guild) <==> r == NoBody
    {
      if !KnownKey(authTokens, apiKey) {
        return Err(InvalidToken);
      }
      if !body.Complete() {
        return Err(MissingFields);
      }
      if !MayAccess(PolicyOf(authTokens, apiKey), body.guild.value) {
        return Err(SubmitForbidden);
      }
      r := NoBody;
    }

    /** The `/suggestions/downvote` handler; it tests the body fields in another order,
        which does not change the outcome. It cannot change either table. */
    method Downvote(apiKey: Option<string>, body: VoteBody) returns (r: Response)
      ensures !KnownKey(authTokens, apiKey) ==> r == Err(InvalidToken)
      ensures KnownKey(authTokens, apiKey) && !body.Complete() ==> r == Err(MissingFields)
      ensures KnownKey(authTokens, apiKey) && body.Complete() && !MayAccess(PolicyOf(authTokens, apiKey), body.guild.value) ==>
          r == Err(SubmitForbidden)
      ensures Admitted(authTokens, apiKey, body.Complete(), body.guild) <==> r == NoBody
    {
      if !KnownKey(authTokens, apiKey) {
        return Err(InvalidToken);
      }
      if body.guild.None? || body.id.None? || body.userId.None? {
        return Err(MissingFields);
      }
      if !MayAccess(PolicyOf(authTokens, apiKey), body.guild.value) {
        return Err(SubmitForbidden);
      }
      r := NoBody;
    }

    /** The `/fetch/:guild_id/:id` handler: the rows of the table the id selects whose
        guild and id match, possibly none. It cannot change either table. */
    method Fetch(apiKey: Option<string>, guildId: string, id: string) returns (r: Response)
      ensures !KnownKey(authTokens, apiKey) ==> r == Err(InvalidToken)
      ensures KnownKey(authTokens, apiKey) && !MayAccess(PolicyOf(authTokens, apiKey), guildId) ==>
          r == Err(FetchForbidden)
      ensures Admitted(authTokens, apiKey, true, Some(guildId)) && Classify(id).None? ==> r == Err(InvalidId)
      ensures Admitted(authTokens, apiKey, true, Some(guildId)) && Classify(id) == Some(SuggestionTable) ==>
          r == OkData(SuggestionRows(Filter(suggestions, SuggestionAt(guildId, id))))
      ensures Admitted(authTokens, apiKey, true, Some(guildId)) && Classify(id) == Some(ReportTable) ==>
          r == OkData(ReportRows(Filter(reports, ReportAt(guildId, id))))
      ensures r.OkData? && r.data.SuggestionRows? ==>
          forall s :: s in r.data.suggestions <==> s in suggestions && s.guild == guildId && s.id == id
      ensures r.OkData? && r.data.ReportRows? ==>
          forall p :: p in r.data.reports <==> p in reports && p.guild == guildId && p.id == id
    {
      if !KnownKey(authTokens, apiKey) {
        return Err(InvalidToken);
      }
      if !MayAccess(PolicyOf(authTokens, apiKey), guildId) {
        return Err(FetchForbidden);
      }
      match Classify(id)
      case Some(SuggestionTable) =>
        r := OkData(SuggestionRows(Filter(suggestions, SuggestionAt(guildId, id))));
      case Some(ReportTable) =>
        r := OkData(ReportRows(Filter(reports, ReportAt(guildId, id))));
      case None =>
        r := Err(InvalidId);
    }

    /** The `/fetchall/:guild_id` handler: every suggestion and every report of the
        guild, a success even when both are empty. It cannot change either table. */
    method FetchAll(apiKey: Option<string>, guildId: string) returns (r: Response)
      ensures !KnownKey(authTokens, apiKey) ==> r == Err(InvalidToken)
      ensures KnownKey(authTokens, apiKey) && !MayAccess(PolicyOf(authTokens, apiKey), guildId) ==>
          r == Err(FetchForbidden)
      ensures Admitted(authTokens, apiKey, true, Some(guildId)) ==>
          r == OkAll(Filter(suggestions, SuggestionIn(guildId)), Filter(reports, ReportIn(guildId)))
      ensures r.OkAll? ==> forall s :: s in r.suggestions <==> s in suggestions && s.guild == guildId
      ensures r.OkAll? ==> forall p :: p in r.reports <==> p in reports && p.guild == guildId
    {
      if !KnownKey(authTokens, apiKey) {
        return Err(InvalidToken);
      }
      if !MayAccess(PolicyOf(authTokens, apiKey), guildId) {
        return Err(FetchForbidden);
      }
      r := OkAll(Filter(suggestions, SuggestionIn(guildId)), Filter(reports, ReportIn(guildId)));
    }

    /** `POST /submit` as the router registers it: the path declares no `id`
        parameter, so the handler always dispatches on an absent id. No request,
        however valid, writes a row. */
    method PostSubmit(apiKey: Option<string>, body: SubmitBody) returns (r: Response)
      modifies this
      ensures r != Ok
      ensures Admitted(authTokens, apiKey, body.Complete(), body.guild) <==> r == Crash
      ensures suggestions == old(suggestions) && reports == old(reports)
    {
      r := Submit(apiKey, None, body);
    }

    /** `POST /setstatus` as the router registers it: as for `/submit`, no status is
        ever written. */
    method PostSetStatus(apiKey: Option<string>, body: StatusBody) returns (r: Response)
      modifies this
      ensures r != Ok
      ensures Admitted(authTokens, apiKey, body.Complete(), body.guild) <==> r == Crash
      ensures suggestions == old(suggestions) && reports == old(reports)
    {
      r := SetStatus(apiKey, None, body);
    }

    /** `/submit` dispatching on the body's id, as the handler evidently intends: an
        admitted request with a well-prefixed id succeeds, and a later fetch with the
        same guild and id returns what it returned before followed by the new row. */
    method SubmitByBodyId(apiKey: Option<string>, body: SubmitBody) returns (r: Response)
      modifies this
      ensures r == Ok ==> Admitted(authTokens, apiKey, body.Complete(), body.guild)
      ensures Admitted(authTokens, apiKey, body.Complete(), body.guild) ==>
          (r == Ok <==> Classify(body.id.value).Some?)
      ensures r == Ok && Classify(body.id.value) == Some(SuggestionTable) ==>
          && Filter(suggestions, SuggestionAt(body.guild.value, body.id.value))
             == Filter(old(suggestions), SuggestionAt(body.guild.value, body.id.value)) + [NewSuggestion(body)]
          && reports == old(reports)
      ensures r == Ok && Classify(body.id.value) == Some(ReportTable) ==>
          && Filter(reports, ReportAt(body.guild.value, body.id.value))
             == Filter(old(reports), ReportAt(body.guild.value, body.id.value)) + [NewReport(body)]
          && suggestions == old(suggestions)
      ensures r == Ok && Classify(body.id.value) == Some(SuggestionTable) ==>
          suggestions == old(suggestions) + [NewSuggestion(body)]
      ensures r == Ok && Classify(body.id.value) == Some(ReportTable) ==>
          reports == old(reports) + [NewReport(body)]
      ensures r != Ok ==> suggestions == old(suggestions) && reports == old(reports)
    {
      r := Submit(apiKey, body.id, body);
      if r == Ok {
        if Classify(body.id.value) == Some(SuggestionTable) {
          FilterAppend(old(suggestions), NewSuggestion(body), SuggestionAt(body.guild.value, body.id.value));
        } else {
          FilterAppend(old(reports), NewReport(body), ReportAt(body.guild.value, body.id.value));
        }
      }
    }

    /** `/setstatus` dispatching on the body's id, as the handler evidently intends: a
        later fetch with the same guild and id returns the same rows, in the same order,
        each carrying the new status. */
    method SetStatusByBodyId(apiKey: Option<string>, body: StatusBody) returns (r: Response)
      modifies this
      ensures r == Ok ==> Admitted(authTokens, apiKey, body.Complete(), body.guild)
      ensures Admitted(authTokens, apiKey, body.Complete(), body.guild) ==>
          (r == Ok <==> Classify(body.id.value).Some?)
      ensures r == Ok && Classify(body.id.value) == Some(SuggestionTable) ==>
          && |Filter(suggestions, SuggestionAt(body.guild.value, body.id.value))|
             == |Filter(old(suggestions), SuggestionAt(body.guild.value, body.id.value))|
          && (forall i :: 0 <= i < |Filter(suggestions, SuggestionAt(body.guild.value, body.id.value))| ==>
              Filter(suggestions, SuggestionAt(body.guild.value, body.id.value))[i]
              == Filter(old(suggestions), SuggestionAt(body.guild.value, body.id.value))[i].(status := body.status.value))
          && reports == old(reports)
      ensures r == Ok && Classify(body.id.value) == Some(ReportTable) ==>
          && |Filter(reports, ReportAt(body.guild.value, body.id.value))|
             == |Filter(old(reports), ReportAt(body.guild.value, body.id.value))|
          && (forall i :: 0 <= i < |Filter(reports, ReportAt(body.guild.value, body.id.value))| ==>
              Filter(reports, ReportAt(body.guild.value, body.id.value))[i]
              == Filter(old(reports), ReportAt(body.guild.value, body.id.value))[i].(status := body.status.value))
          && suggestions == old(suggestions)
      ensures r == Ok && Classify(body.id.value) == Some(SuggestionTable) ==>
          suggestions == UpdateWhere(old(suggestions), SuggestionAt(body.guild.value, body.id.value),
                                     SuggestionStatus(body.status.value))
      ensures r == Ok && Classify(body.id.value) == Some(ReportTable) ==>
          reports == UpdateWhere(old(reports), ReportAt(body.guild.value, body.id.value),
                                 ReportStatus(body.status.value))
      ensures r != Ok ==> suggestions == old(suggestions) && reports == old(reports)
    {
      r := SetStatus(apiKey, body.id, body);
      if r == Ok {
        if Classify(body.id.value) == Some(SuggestionTable) {
          FilterAfterUpdate(old(suggestions), SuggestionAt(body.guild.value, body.id.value),
                            SuggestionStatus(body.status.value));
        } else {
          FilterAfterUpdate(old(reports), ReportAt(body.guild.value, body.id.value),
                            ReportStatus(body.status.value));
        }
      }
    }
  }
}
