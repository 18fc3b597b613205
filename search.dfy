/** The gate inside `search` (stored refresh token, then token validation,
    then one `files.list` call) and the `drive search title=… contains=…`
    handler built on it. The auth library and the Drive client are not
    modelled: their answers are inputs, and each run records which of them
    it called. */
module DriveSearch {
  import opened Wrappers
  import opened DriveQuery
  import opened DriveResponse
  import opened DriveFormat

  /** A truthy error value handed to a callback by the auth library or the
      Drive client. */
  datatype ErrorValue = ErrorValue(description: string)

  /** What the `files.list` callback receives: an error, or a reply object. */
  datatype ListReply = ListFailed(err: ErrorValue) | Listed(resp: ListResponse)

  /** The calls `search` issues that depend on earlier answers: token
      validation and the file listing. (`getTokens` and `generateAuthUrl`
      run on every search and are not recorded.) */
  datatype ExternalCall = ValidateToken | ListFiles(q: string)

  /** What `search` hands its callback: an error object `{err, msg}`, or
      null and the list of files. */
  datatype Outcome = Rejected(err: Option<ErrorValue>, msg: string) | Found(files: seq<DriveFile>)

  /** The calls issued, in order, and the outcome delivered. */
  datatype SearchRun = SearchRun(calls: seq<ExternalCall>, outcome: Outcome)

  // Long literals are written in two parts: the verifier reads characters
  // of short literals only.
  const ApiErrorMessage := "Drive Api Error: " + "encountered an error while fetching file list"

  const AuthMessageHead := "Authorize this app by visiting this url :\n "
  const AuthMessageTail := "\nThen use @hubot drive set code <code>"

  /** The instructions sent when the bot is not authorised. */
  function AuthMessage(authUrl: string): string
  {
    AuthMessageHead + authUrl + AuthMessageTail
  }

  /** `search(query, cb)`. refreshToken is the stored refresh token,
      authUrl what the library's generateAuthUrl returns, validation the
      error validateToken reports (None when it succeeds) and listing what
      the Drive client answers; each is consulted only if the call that
      produces it is issued. */
  function Search(query: string, refreshToken: Option<string>, authUrl: string,
                  validation: Option<ErrorValue>, listing: ListReply): (run: SearchRun)
    ensures !Truthy(refreshToken) ==> run == SearchRun([], Rejected(None, AuthMessage(authUrl)))
    ensures Truthy(refreshToken) && validation.Some? ==>
      run == SearchRun([ValidateToken], Rejected(validation, AuthMessage(authUrl)))
    ensures Truthy(refreshToken) && validation.None? ==> run.calls == [ValidateToken, ListFiles(query)]
    ensures Truthy(refreshToken) && validation.None? && listing.ListFailed? ==>
      run.outcome == Rejected(Some(listing.err), ApiErrorMessage)
    ensures Truthy(refreshToken) && validation.None? && listing.Listed? ==>
      run.outcome == match NormaliseResponse(listing.resp)
                     case Success(files) => Found(files)
                     case Failure(msg) => Rejected(None, msg)
  {
    var authMsg := AuthMessage(authUrl);
    if !Truthy(refreshToken) then SearchRun([], Rejected(None, authMsg))
    else if validation.Some? then SearchRun([ValidateToken], Rejected(validation, authMsg))
    else
      var calls := [ValidateToken, ListFiles(query)];
      match listing
      case ListFailed(err) => SearchRun(calls, Rejected(Some(err), ApiErrorMessage))
      case Listed(resp) =>
        match NormaliseResponse(resp)
        case Failure(msg) => SearchRun(calls, Rejected(None, msg))
        case Success(files) => SearchRun(calls, Found(files))
  }

  /** The files are delivered only after both calls, and never empty. */
  lemma FoundOnlyAfterListing(query: string, refreshToken: Option<string>, authUrl: string,
                              validation: Option<ErrorValue>, listing: ListReply)
    requires Search(query, refreshToken, authUrl, validation, listing).outcome.Found?
    ensures var run := Search(query, refreshToken, authUrl, validation, listing);
      && run.calls == [ValidateToken, ListFiles(query)]
      && listing.Listed?
      && NormaliseResponse(listing.resp) == Success(run.outcome.files)
      && |run.outcome.files| > 0
  {
  }

  /** The user sees the authorisation instructions exactly when there is no
      refresh token or validating the token failed. */
  lemma AuthMessageIffUnauthorised(query: string, refreshToken: Option<string>, authUrl: string,
                                   validation: Option<ErrorValue>, listing: ListReply)
    ensures var run := Search(query, refreshToken, authUrl, validation, listing);
      (run.outcome.Rejected? && run.outcome.msg == AuthMessage(authUrl))
        <==> !Truthy(refreshToken) || validation.Some?
  {
    var auth := AuthMessage(authUrl);
    assert auth == AuthMessageHead + (authUrl + AuthMessageTail);
    assert auth[0] == AuthMessageHead[0] == 'A';
    assert auth != ApiErrorMessage by { assert ApiErrorMessage[0] == 'D'; }
    assert auth != NoResultsMessage by { assert NoResultsMessage[0] == 'D'; }
  }

  // ---------------------------------------------------------------------
  // The `drive search title=<t> contains=<c>` handler.

  /** The calls the handler caused and the text it sent back. */
  datatype CommandRun = CommandRun(calls: seq<ExternalCall>, reply: string)

  /** The text the handler sends for an outcome: the error's message, or
      the formatted files. */
  function Reply(outcome: Outcome): (text: string)
    ensures outcome.Rejected? ==> text == outcome.msg
    ensures outcome.Found? ==> text == Formatted(outcome.files)
    ensures outcome.Found? && outcome.files != [] ==> text != ""
  {
    match outcome
    case Rejected(_, msg) => msg
    case Found(files) =>
      FormattedEmptyIff(files);
      Formatted(files)
  }

  /** The handler: build the query from the two match groups, then search
      with it and send the reply. */
  function SearchTitleContains(title: Option<string>, contains: Option<string>,
                               refreshToken: Option<string>, authUrl: string,
                               validation: Option<ErrorValue>, listing: ListReply): (run: CommandRun)
    ensures !Truthy(title) && !Truthy(contains) ==> run == CommandRun([], MissingTermsMessage)
    ensures |run.calls| == 2 <==>
      (Truthy(title) || Truthy(contains)) && Truthy(refreshToken) && validation.None?
    ensures |run.calls| == 2 ==>
      run.calls == [ValidateToken, ListFiles(BuildQuery(title, contains).value)]
    // the calls made once a term is present: none without a token, only the
    // validation when it fails
    ensures (Truthy(title) || Truthy(contains)) && !Truthy(refreshToken) ==> run.calls == []
    ensures (Truthy(title) || Truthy(contains)) && Truthy(refreshToken) && validation.Some? ==>
      run.calls == [ValidateToken]
    // the text sent once a term is present
    ensures (Truthy(title) || Truthy(contains)) && (!Truthy(refreshToken) || validation.Some?) ==>
      run.reply == AuthMessage(authUrl)
    ensures |run.calls| == 2 && listing.ListFailed? ==> run.reply == ApiErrorMessage
    ensures |run.calls| == 2 && listing.Listed? && NormaliseResponse(listing.resp).Failure? ==>
      run.reply == NoResultsMessage
    ensures |run.calls| == 2 && listing.Listed? && NormaliseResponse(listing.resp).Success? ==>
      run.reply == Formatted(NormaliseResponse(listing.resp).value) && run.reply != ""
  {
    match BuildQuery(title, contains)
    case Failure(msg) => CommandRun([], msg)
    case Success(q) =>
      var searched := Search(q, refreshToken, authUrl, validation, listing);
      CommandRun(searched.calls, Reply(searched.outcome))
  }

  /** The query the handler sends to Drive reads back as the terms the user
      gave, when they hold no single quote. */
  lemma SentQueryReadsBack(title: Option<string>, contains: Option<string>,
                           refreshToken: Option<string>, authUrl: string,
                           validation: Option<ErrorValue>, listing: ListReply)
    requires Truthy(title) ==> QuoteFree(title.value)
    requires Truthy(contains) ==> QuoteFree(contains.value)
    requires |SearchTitleContains(title, contains, refreshToken, authUrl, validation, listing).calls| == 2
    ensures var run := SearchTitleContains(title, contains, refreshToken, authUrl, validation, listing);
      run.calls[1].ListFiles? && ParseQuery(run.calls[1].q) == Some((Present(title), Present(contains)))
  {
    ParseBuiltQuery(title, contains);
  }

  /** With no refresh token stored the user gets the instructions and
      neither validation nor listing happens, whatever the terms. */
  lemma UnauthorisedSearchCallsNothing(title: Option<string>, contains: Option<string>,
                                       authUrl: string, validation: Option<ErrorValue>, listing: ListReply)
    requires Truthy(title) || Truthy(contains)
    ensures SearchTitleContains(title, contains, None, authUrl, validation, listing)
         == CommandRun([], AuthMessage(authUrl))
  {
  }

  lemma BudgetQuery()
    ensures BuildQuery(Some("Budget"), Some("2024")) == Success("title contains 'Budget'" + " and fullText contains '2024'")
  {
    var title, contains := TitleClause("Budget"), ContainsClause("2024");
    assert title == "title contains 'Budget'";
    assert Conjunction + contains == " and fullText contains '2024'";
    assert title + Conjunction + contains == title + (Conjunction + contains);
  }

  /** `drive search title=Budget contains=2024` with a valid token lists
      files with exactly this query. */
  lemma BudgetQueryScenario(authUrl: string, listing: ListReply)
    ensures SearchTitleContains(Some("Budget"), Some("2024"), Some("refresh"), authUrl, None, listing).calls
         == [ValidateToken, ListFiles("title contains 'Budget'" + " and fullText contains '2024'")]
  {
    BudgetQuery();

  }
}
