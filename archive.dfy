/**
 * The archive endpoint: `handler` accepts a POST carrying stock-take records,
 * obtains a Microsoft Graph client, finds the SharePoint site, serialises the
 * records to CSV and uploads the file.
 *
 * The identity provider and Graph are not modelled; what each call did is an
 * input (`World`): the response of the token request, the list the site query
 * returned, and whether the upload succeeded, each possibly a thrown error with
 * its message. The handler returns the response and the trace of the network
 * calls it attempted, in order.
 */
module Archive {
  import opened Wrappers
  import opened Csv
  import opened Naming

  const SiteName: string := "Operations Stock Count"
  const LibraryName: string := "Documents"

  /** One entry of the `value` list returned by the site query. */
  datatype Site = Site(id: string)

  /** What `acquireTokenByClientCredential` did: threw, or returned a response whose token may be missing. */
  datatype TokenOutcome = TokenThrew(message: string) | TokenReturned(accessToken: Option<string>)

  /** What the site query did: threw, or returned its `value` list. */
  datatype LookupOutcome = LookupThrew(message: string) | LookupReturned(value: seq<Site>)

  /** What the `put` of the file did. */
  datatype UploadOutcome = UploadThrew(message: string) | Uploaded

  /** The parts of the request the handler reads: its method and `req.body.data`, absent or present. */
  datatype Request = Request(httpMethod: string, data: Option<seq<Record>>)

  /** Everything outside the request: the three remote calls, the clock and the random generator. */
  datatype World = World(
    token: TokenOutcome,
    lookup: LookupOutcome,
    upload: UploadOutcome,
    isoNow: string,
    randomText: string)

  /** A network call the handler attempted, with the bearer token it carried. */
  datatype Step =
    | AcquireToken
    | LookupSite(bearer: string, siteName: string)
    | UploadFile(bearer: string, path: string, content: string)

  /** The status code and the JSON body: `message`, and `error` on a 500. */
  datatype Response = Response(status: int, message: string, error: Option<string>)

  const TokenErrorMessage: string := "Failed to acquire access token."
  const NotAllowedMessage: string := "Method Not Allowed"
  const NoDataMessage: string := "No data received to archive."
  const ServerErrorMessage: string := "An error occurred."

  function ServerError(message: string): (r: Response)
    ensures r.status == 500 && r.error == Some(message)
  {
    Response(500, ServerErrorMessage, Some(message))
  }

  /**
   * `getAuthenticatedGraphClient`: the client exists exactly when the token
   * response has an access token that is present and non-empty (a JavaScript
   * truthy string); otherwise the promise rejects.
   */
  function AuthenticatedClient(outcome: TokenOutcome): (r: Result<string>)
    ensures r.Ok? <==> outcome.TokenReturned? && outcome.accessToken.Some? && outcome.accessToken.value != ""
    ensures r.Ok? ==> r.value == outcome.accessToken.value
    ensures outcome.TokenThrew? ==> r == Err(outcome.message)
    ensures outcome.TokenReturned? && r.Err? ==> r.error == TokenErrorMessage
  {
    match outcome
    case TokenThrew(message) => Err(message)
    case TokenReturned(accessToken) =>
      if accessToken.None? || accessToken.value == "" then Err(TokenErrorMessage) else Ok(accessToken.value)
  }

  /**
   * The selection rule of `getSharePointSiteId`: no match is an error naming
   * the site; otherwise the first match's id, whatever follows it.
   */
  function SiteIdFromLookup(siteName: string, sites: seq<Site>): (r: Result<string>)
    ensures r.Ok? <==> |sites| > 0
    ensures r.Ok? ==> r.value == sites[0].id
    ensures r.Err? ==> r.error == "SharePoint site '" + siteName + "' not found."
    ensures r.Err? ==> |r.error| > 17 + |siteName| && r.error[17..17 + |siteName|] == siteName
  {
    if |sites| == 0 then Err("SharePoint site '" + siteName + "' not found.") else Ok(sites[0].id)
  }

  /** `getSharePointSiteId` with the query's own failure passed through. */
  function ResolveSite(siteName: string, lookup: LookupOutcome): (r: Result<string>)
    ensures lookup.LookupThrew? ==> r == Err(lookup.message)
    ensures lookup.LookupReturned? ==> r == SiteIdFromLookup(siteName, lookup.value)
  {
    match lookup
    case LookupThrew(message) => Err(message)
    case LookupReturned(value) => SiteIdFromLookup(siteName, value)
  }

  /** `req.method === 'POST'`. */
  predicate IsPost(httpMethod: string)
  {
    httpMethod == "POST"
  }

  /** `!stockTakeData || stockTakeData.length === 0` fails. */
  predicate HasData(req: Request)
  {
    req.data.Some? && |req.data.value| > 0
  }

  /**
   * The upload `handler` makes once it has a site: the CSV of the records, put
   * under a fresh file name into the site's document library.
   */
  function Upload(bearer: string, siteId: string, records: seq<Record>, world: World): (step: Step)
    ensures step.UploadFile? && step.bearer == bearer && step.content == GenerateCsv(records)
    ensures step.path == UploadPath(siteId, LibraryName, CreateFileName(world.isoNow, world.randomText))
  {
    var fileName := CreateFileName(world.isoNow, world.randomText);
    UploadFile(bearer, UploadPath(siteId, LibraryName, fileName), GenerateCsv(records))
  }

  /** The 200 message: the file name follows "Successfully archived " and the text ends with " to SharePoint.". */
  function SuccessMessage(fileName: string): (message: string)
    ensures |message| == 22 + |fileName| + 15
    ensures message[..22] == "Successfully archived "
    ensures message[22..22 + |fileName|] == fileName
    ensures message[22 + |fileName|..] == " to SharePoint."
  {
    "Successfully archived " + fileName + " to SharePoint."
  }

  /**
   * The upload step determines what was archived: its path reads back as the
   * site, the "Documents" library and the new file name, and its content reads
   * back as the records, in order, when the site id holds no '/' and no
   * `itemId` or `status` holds a comma or a newline.
   */
  lemma UploadRoundTrip(bearer: string, siteId: string, records: seq<Record>, world: World)
    requires '/' !in siteId
    requires forall i :: 0 <= i < |records| ==> Splittable(records[i])
    ensures var step := Upload(bearer, siteId, records, world);
      && ParseUploadPath(step.path)
         == Some(UploadTarget(siteId, LibraryName, CreateFileName(world.isoNow, world.randomText)))
      && DecodeCsv(step.content) == Some(records)
  {
    assert '/' !in LibraryName;
    UploadPathRoundTrip(siteId, LibraryName, CreateFileName(world.isoNow, world.randomText));
    CsvRoundTrip(records);
  }

  /** `handler(req, res)`. */
  method Handler(req: Request, world: World) returns (res: Response, trace: seq<Step>)
    // Only POST is served; nothing is attempted for any other method.
    ensures !IsPost(req.httpMethod) ==> res == Response(405, NotAllowedMessage, None) && trace == []
    // Authentication runs first, before the data is looked at.
    ensures IsPost(req.httpMethod) ==> |trace| >= 1 && trace[0] == AcquireToken
    ensures IsPost(req.httpMethod) && AuthenticatedClient(world.token).Err? ==>
      res == ServerError(AuthenticatedClient(world.token).error) && trace == [AcquireToken]
    // Missing or empty data is rejected only once a token has been obtained.
    ensures IsPost(req.httpMethod) && !HasData(req) ==>
      res.status == (if AuthenticatedClient(world.token).Ok? then 400 else 500) && trace == [AcquireToken]
    ensures res.status == 400 <==> IsPost(req.httpMethod) && AuthenticatedClient(world.token).Ok? && !HasData(req)
    ensures res.status == 400 ==> res == Response(400, NoDataMessage, None)
    // With a token and data: the site lookup carries the token; a failed lookup stops before the upload.
    ensures IsPost(req.httpMethod) && AuthenticatedClient(world.token).Ok? && HasData(req) ==>
      var bearer := AuthenticatedClient(world.token).value;
      |trace| >= 2 && trace[..2] == [AcquireToken, LookupSite(bearer, SiteName)] &&
      (ResolveSite(SiteName, world.lookup).Err? ==>
        res == ServerError(ResolveSite(SiteName, world.lookup).error) && |trace| == 2)
    // With a site as well: exactly one upload, of the CSV of the data, to the site's library, under the new name.
    ensures (IsPost(req.httpMethod) && AuthenticatedClient(world.token).Ok? && HasData(req)
      && ResolveSite(SiteName, world.lookup).Ok?) ==>
      var bearer := AuthenticatedClient(world.token).value;
      trace == [AcquireToken, LookupSite(bearer, SiteName),
                Upload(bearer, ResolveSite(SiteName, world.lookup).value, req.data.value, world)] &&
      res == (match world.upload
              case UploadThrew(message) => ServerError(message)
              case Uploaded => Response(200, SuccessMessage(CreateFileName(world.isoNow, world.randomText)), None))
    // Success means every step succeeded.
    ensures res.status == 200 <==>
      IsPost(req.httpMethod) && AuthenticatedClient(world.token).Ok? && HasData(req)
      && ResolveSite(SiteName, world.lookup).Ok? && world.upload.Uploaded?
    ensures res.status == 200 || res.status == 400 || res.status == 405 || res.status == 500
    ensures res.status == 500 ==> res.message == ServerErrorMessage && res.error.Some?
  {
    trace := [];
    if !IsPost(req.httpMethod) {
      res := Response(405, NotAllowedMessage, None);
      return;
    }
    trace := trace + [AcquireToken];
    var client := AuthenticatedClient(world.token);
    if client.Err? {
      res := ServerError(client.error);
      return;
    }
    var bearer := client.value;
    if req.data.None? || |req.data.value| == 0 {
      res := Response(400, NoDataMessage, None);
      return;
    }
    var steps;
    res, steps := ArchiveRecords(bearer, req.data.value, world);
    trace := trace + steps;
  }

  /**
   * The rest of `handler`'s `try` block once the data is accepted: look the
   * site up, then upload the CSV of the records under a fresh name.
   */
  method ArchiveRecords(bearer: string, records: seq<Record>, world: World) returns (res: Response, steps: seq<Step>)
    ensures |steps| >= 1 && steps[0] == LookupSite(bearer, SiteName)
    ensures ResolveSite(SiteName, world.lookup).Err? ==>
      res == ServerError(ResolveSite(SiteName, world.lookup).error) && steps == [LookupSite(bearer, SiteName)]
    ensures ResolveSite(SiteName, world.lookup).Ok? ==>
      steps == [LookupSite(bearer, SiteName), Upload(bearer, ResolveSite(SiteName, world.lookup).value, records, world)] &&
      res == (match world.upload
              case UploadThrew(message) => ServerError(message)
              case Uploaded => Response(200, SuccessMessage(CreateFileName(world.isoNow, world.randomText)), None))
    ensures res.status == 200 <==> ResolveSite(SiteName, world.lookup).Ok? && world.upload.Uploaded?
    ensures res.status == 200 || res.status == 500
    ensures res.status == 500 ==> res.message == ServerErrorMessage && res.error.Some?
  {
    steps := [LookupSite(bearer, SiteName)];
    var site := ResolveSite(SiteName, world.lookup);
    if site.Err? {
      res := ServerError(site.error);
      return;
    }
    var fileName := CreateFileName(world.isoNow, world.randomText);
    steps := steps + [Upload(bearer, site.value, records, world)];
    if world.upload.UploadThrew? {
      res := ServerError(world.upload.message);
      return;
    }
    res := Response(200, SuccessMessage(fileName), None);
  }

  /** The success message names the archived file, which has the fixed prefix and the ".csv" extension. */
  lemma SuccessNamesFile(isoNow: string, randomText: string)
    ensures var fileName := CreateFileName(isoNow, randomText);
      var message := SuccessMessage(fileName);
      message[22..22 + |fileName|] == fileName
      && fileName[..|FilePrefix|] == FilePrefix
      && fileName[|fileName| - |FileExtension|..] == FileExtension
  {
  }
}
