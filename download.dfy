/** The `/api/dl` POST handler: resolves a torrent id to its hash on yggapi,
    uploads the magnet to AllDebrid, and when the magnet is ready lists its
    files, flattens their links and saves them. The two observed variants
    differ only in where the AllDebrid API key comes from: the request body
    (server.ts) or the `ALLDEBRID_API_KEY` environment variable
    (app/api/dl/route.ts). */
module Download {
  import opened Types
  import opened Forms
  import LinkExtractor

  const ParseFailed := "Failed to parse yggapi response"
  const UploadFailed := "Failed to upload to AllDebrid"
  const UploadMagnetFailed := "Failed to upload magnet to AllDebrid"
  const ListingFailed := "Failed to fetch magnet details from AllDebrid"
  const SaveFailed := "Failed to save links to AllDebrid"
  const KeyMissing := "ALLDEBRID_API_KEY env is missing"

  type UploadReply = AllDebridResponse<MagnetsResponse<Magnet>>
  type ListingReply = AllDebridResponse<MagnetsResponse<MagnetFile>>
  type SaveReply = AllDebridResponse<SaveMessage>

  /** The `details` of an error reply: the upstream's `data`, or what was caught. */
  datatype Details =
    | UploadData(upload: MagnetsResponse<Magnet>)
    | ListingData(listing: MagnetsResponse<MagnetFile>)
    | SaveData(save: SaveMessage)
    | Caught(error: Exception)

  /** The JSON bodies the handler replies with. */
  datatype DlBody =
    | StatusSuccess
    | StatusPending(magnetId: int)
    | ErrorBody(error: string, details: Details)

  /** One upstream request, with what it carries. */
  datatype Call =
    | GetTorrent(torrentId: int)
    | UploadMagnet(apiKey: string, hash: string)
    | ListFiles(apiKey: string, magnetId: int)
    | SaveLinks(apiKey: string, form: seq<FormEntry>)

  /** What each upstream endpoint answers to a given request. */
  datatype Upstream = Upstream(
    torrent: int -> Fetched<TorrentDetail>,
    upload: (string, string) -> Fetched<UploadReply>,
    listing: (string, int) -> Fetched<ListingReply>,
    save: (string, seq<FormEntry>) -> Fetched<SaveReply>)

  /** The reply of one request, and the upstream calls made, in order. */
  datatype Run = Run(reply: Response<DlBody>, calls: seq<Call>)

  /** `sendError(msg, details)`. */
  function SendError(msg: string, details: Details): Response<DlBody> {
    Response(500, ErrorBody(msg, details))
  }

  /** The decision chain of the handler, for a given torrent id and key.
      The outer `try` covers the torrent-detail fetch; the inner one covers
      everything after it, including the TypeError raised by reading
      `.ready` or `.files` of `magnets[0]` when `magnets` is empty. */
  function Unrestrict(torrentId: int, apiKey: string, up: Upstream): Run {
    var c1 := [GetTorrent(torrentId)];
    match up.torrent(torrentId)
    case Threw(e) => Run(SendError(ParseFailed, Caught(e)), c1)
    case Got(detail) =>
      var c2 := c1 + [UploadMagnet(apiKey, detail.hash)];
      match up.upload(apiKey, detail.hash)
      case Threw(e) => Run(SendError(UploadFailed, Caught(e)), c2)
      case Got(uploaded) =>
        if IsError(uploaded.status) then
          Run(SendError(UploadMagnetFailed, UploadData(uploaded.data)), c2)
        else if |uploaded.data.magnets| == 0 then
          Run(SendError(UploadFailed, Caught(TypeError("ready"))), c2)
        else
          var magnet := uploaded.data.magnets[0];
          if !magnet.ready then
            Run(Json(StatusPending(magnet.id)), c2)
          else
            var c3 := c2 + [ListFiles(apiKey, magnet.id)];
            match up.listing(apiKey, magnet.id)
            case Threw(e) => Run(SendError(UploadFailed, Caught(e)), c3)
            case Got(listed) =>
              if IsError(listed.status) then
                Run(SendError(ListingFailed, ListingData(listed.data)), c3)
              else if |listed.data.magnets| == 0 then
                Run(SendError(UploadFailed, Caught(TypeError("files"))), c3)
              else
                var form := LinksForm(LinkExtractor.FlattenAll(listed.data.magnets[0].files));
                var c4 := c3 + [SaveLinks(apiKey, form)];
                match up.save(apiKey, form)
                case Threw(e) => Run(SendError(UploadFailed, Caught(e)), c4)
                case Got(saved) =>
                  if IsError(saved.status) then
                    Run(SendError(SaveFailed, SaveData(saved.data)), c4)
                  else
                    Run(Json(StatusSuccess), c4)
  }

  /** The handler as it runs: the links are collected by folding
      `searchAndAppend` over the files into a shared array, and the save form
      is filled by appending one entry per link. */
  method HandleDownload(torrentId: int, apiKey: string, up: Upstream)
    returns (reply: Response<DlBody>, calls: seq<Call>)
    ensures Run(reply, calls) == Unrestrict(torrentId, apiKey, up)
  {
    calls := [GetTorrent(torrentId)];
    var detail := up.torrent(torrentId);
    if detail.Threw? {
      return SendError(ParseFailed, Caught(detail.error)), calls;
    }
    var hash := detail.value.hash;
    calls := calls + [UploadMagnet(apiKey, hash)];
    var response := up.upload(apiKey, hash);
    if response.Threw? {
      return SendError(UploadFailed, Caught(response.error)), calls;
    }
    if IsError(response.value.status) {
      return SendError(UploadMagnetFailed, UploadData(response.value.data)), calls;
    }
    if |response.value.data.magnets| == 0 {
      return SendError(UploadFailed, Caught(TypeError("ready"))), calls;
    }
    var uploadedMagnet := response.value.data.magnets[0];
    if !uploadedMagnet.ready {
      return Json(StatusPending(uploadedMagnet.id)), calls;
    }
    calls := calls + [ListFiles(apiKey, uploadedMagnet.id)];
    var linkData := up.listing(apiKey, uploadedMagnet.id);
    if linkData.Threw? {
      return SendError(UploadFailed, Caught(linkData.error)), calls;
    }
    if IsError(linkData.value.status) {
      return SendError(ListingFailed, ListingData(linkData.value.data)), calls;
    }
    if |linkData.value.data.magnets| == 0 {
      return SendError(UploadFailed, Caught(TypeError("files"))), calls;
    }
    var links := LinkExtractor.CollectLinks(linkData.value.data.magnets[0].files);
    var f := BuildLinksForm(links);
    calls := calls + [SaveLinks(apiKey, f)];
    var saveLinksData := up.save(apiKey, f);
    if saveLinksData.Threw? {
      return SendError(UploadFailed, Caught(saveLinksData.error)), calls;
    }
    if IsError(saveLinksData.value.status) {
      return SendError(SaveFailed, SaveData(saveLinksData.value.data)), calls;
    }
    return Json(StatusSuccess), calls;
  }

  // ---------------------------------------------------------------------
  // The two ways of obtaining the API key

  /** The JSON body of a download request (`alldebridApiKey` is only read by
      the variant that takes the key from the client). */
  datatype DlRequest = DlRequest(torrentId: int, alldebridApiKey: string)

  /** What happens to one request: the module never loaded, `req.json()`
      threw (outside every `try`), or the handler replied. */
  datatype Handled =
    | ModuleThrew(message: string)
    | RequestThrew(error: Exception)
    | Replied(run: Run)

  /** server.ts: the key travels in the request body. */
  function ServerDlPost(body: Fetched<DlRequest>, up: Upstream): Handled {
    match body
    case Threw(e) => RequestThrew(e)
    case Got(req) => Replied(Unrestrict(req.torrentId, req.alldebridApiKey, up))
  }

  /** Loading app/api/dl/route.ts: a missing or empty `ALLDEBRID_API_KEY`
      makes the module throw, otherwise the module holds that key. */
  datatype RouteModule = Loaded(apiKey: string) | LoadFailed(message: string)

  function LoadDlRoute(env: Option<string>): (m: RouteModule)
    ensures m.Loaded? <==> env.Some? && env.value != ""
    ensures m.Loaded? ==> m.apiKey == env.value
    ensures m.LoadFailed? ==> m.message == KeyMissing
  {
    match env
    case Some(key) => if key != "" then Loaded(key) else LoadFailed(KeyMissing)
    case None => LoadFailed(KeyMissing)
  }

  /** app/api/dl/route.ts: the key comes from the environment; the body's
      `alldebridApiKey`, if any, is ignored. */
  function RouteDlPost(env: Option<string>, body: Fetched<DlRequest>, up: Upstream): Handled {
    match LoadDlRoute(env)
    case LoadFailed(msg) => ModuleThrew(msg)
    case Loaded(key) =>
      match body
      case Threw(e) => RequestThrew(e)
      case Got(req) => Replied(Unrestrict(req.torrentId, key, up))
  }

  // ---------------------------------------------------------------------
  // Properties of the decision chain

  /** The stages the chain passes on its way to success. */
  predicate UploadAccepted(torrentId: int, apiKey: string, up: Upstream) {
    && up.torrent(torrentId).Got?
    && up.upload(apiKey, up.torrent(torrentId).value.hash).Got?
    && !IsError(up.upload(apiKey, up.torrent(torrentId).value.hash).value.status)
    && |up.upload(apiKey, up.torrent(torrentId).value.hash).value.data.magnets| > 0
  }

  function FirstMagnet(torrentId: int, apiKey: string, up: Upstream): Magnet
    requires UploadAccepted(torrentId, apiKey, up)
  {
    up.upload(apiKey, up.torrent(torrentId).value.hash).value.data.magnets[0]
  }

  predicate ListingAccepted(torrentId: int, apiKey: string, up: Upstream) {
    && UploadAccepted(torrentId, apiKey, up)
    && FirstMagnet(torrentId, apiKey, up).ready
    && var listed := up.listing(apiKey, FirstMagnet(torrentId, apiKey, up).id);
    && listed.Got?
    && !IsError(listed.value.status)
    && |listed.value.data.magnets| > 0
  }

  /** The links of the first listed magnet, in pre-order, file after file. */
  function ListedLinks(torrentId: int, apiKey: string, up: Upstream): seq<string>
    requires ListingAccepted(torrentId, apiKey, up)
  {
    var listed := up.listing(apiKey, FirstMagnet(torrentId, apiKey, up).id);
    LinkExtractor.FlattenAll(listed.value.data.magnets[0].files)
  }

  /** Every error reply has status 500 and an `error`/`details` body; every
      other reply is a JSON reply with status 200. */
  lemma ErrorRepliesAre500(torrentId: int, apiKey: string, up: Upstream)
    ensures var r := Unrestrict(torrentId, apiKey, up).reply;
            (r.status == 500 <==> r.body.ErrorBody?) && (r.status == 500 || r.status == 200)
  {
  }

  /** The upstream calls are made one stage at a time, in the fixed order
      detail, upload, listing, save, stopping at the first stage that ends
      the request; every AllDebrid call carries the given key. */
  lemma StagesInOrder(torrentId: int, apiKey: string, up: Upstream)
    ensures var calls := Unrestrict(torrentId, apiKey, up).calls;
            && 1 <= |calls| <= 4
            && calls[0] == GetTorrent(torrentId)
            && (|calls| > 1 ==> up.torrent(torrentId).Got? &&
                                calls[1] == UploadMagnet(apiKey, up.torrent(torrentId).value.hash))
            && (|calls| > 2 ==> calls[2].ListFiles?)
            && (|calls| > 3 ==> calls[3].SaveLinks?)
            && (forall i :: 1 <= i < |calls| ==> calls[i].apiKey == apiKey)
  {
  }

  /** The first stage's failure, and only it, is reported as a parse
      failure; nothing else is called. */
  lemma DetailThrowIsParseFailure(torrentId: int, apiKey: string, up: Upstream)
    ensures var run := Unrestrict(torrentId, apiKey, up);
            (run.reply.body.ErrorBody? && run.reply.body.error == ParseFailed) <==> up.torrent(torrentId).Threw?
    ensures up.torrent(torrentId).Threw? ==>
            Unrestrict(torrentId, apiKey, up) ==
            Run(SendError(ParseFailed, Caught(up.torrent(torrentId).error)), [GetTorrent(torrentId)])
  {
  }

  /** A caught exception is reported by stage: during the detail lookup as a
      parse failure, after it as an upload failure; and an upload failure is
      always an exception. Conversely, a throw at the upload, listing or save
      call, and the TypeError of reading `.files` of an empty listing, each
      end the request there with that upload failure and the caught error. */
  lemma ThrowsReportedByStage(torrentId: int, apiKey: string, up: Upstream)
    ensures var body := Unrestrict(torrentId, apiKey, up).reply.body;
            body.ErrorBody? && body.details.Caught? ==>
              body.error == (if up.torrent(torrentId).Threw? then ParseFailed else UploadFailed)
    ensures var body := Unrestrict(torrentId, apiKey, up).reply.body;
            body.ErrorBody? && body.error == UploadFailed ==> body.details.Caught?
    ensures up.torrent(torrentId).Got? ==>
            var hash := up.torrent(torrentId).value.hash;
            up.upload(apiKey, hash).Threw? ==>
              Unrestrict(torrentId, apiKey, up) ==
              Run(SendError(UploadFailed, Caught(up.upload(apiKey, hash).error)),
                  [GetTorrent(torrentId), UploadMagnet(apiKey, hash)])
    ensures UploadAccepted(torrentId, apiKey, up) && FirstMagnet(torrentId, apiKey, up).ready ==>
            var id := FirstMagnet(torrentId, apiKey, up).id;
            var run := Unrestrict(torrentId, apiKey, up);
            && (up.listing(apiKey, id).Threw? ==>
                  run.reply == SendError(UploadFailed, Caught(up.listing(apiKey, id).error)) && |run.calls| == 3)
            && (up.listing(apiKey, id).Got? && !IsError(up.listing(apiKey, id).value.status)
                && up.listing(apiKey, id).value.data.magnets == [] ==>
                  run.reply == SendError(UploadFailed, Caught(TypeError("files"))) && |run.calls| == 3)
    ensures ListingAccepted(torrentId, apiKey, up) ==>
            var form := LinksForm(ListedLinks(torrentId, apiKey, up));
            var run := Unrestrict(torrentId, apiKey, up);
            up.save(apiKey, form).Threw? ==>
              run.reply == SendError(UploadFailed, Caught(up.save(apiKey, form).error)) && |run.calls| == 4
  {
  }

  /** An upload reply with status "error" ends the request with the upstream
      data; neither the listing nor the save endpoint is called. */
  lemma UploadErrorStops(torrentId: int, apiKey: string, up: Upstream, detail: TorrentDetail, uploaded: UploadReply)
    requires up.torrent(torrentId) == Got(detail)
    requires up.upload(apiKey, detail.hash) == Got(uploaded)
    requires IsError(uploaded.status)
    ensures Unrestrict(torrentId, apiKey, up) ==
            Run(SendError(UploadMagnetFailed, UploadData(uploaded.data)),
                [GetTorrent(torrentId), UploadMagnet(apiKey, detail.hash)])
  {
  }

  /** An accepted upload whose magnet list is empty throws on `.ready`, which
      the inner `catch` reports as an upload failure. */
  lemma EmptyUploadIsUploadFailure(torrentId: int, apiKey: string, up: Upstream, detail: TorrentDetail, uploaded: UploadReply)
    requires up.torrent(torrentId) == Got(detail)
    requires up.upload(apiKey, detail.hash) == Got(uploaded)
    requires !IsError(uploaded.status) && uploaded.data.magnets == []
    ensures Unrestrict(torrentId, apiKey, up) ==
            Run(SendError(UploadFailed, Caught(TypeError("ready"))),
                [GetTorrent(torrentId), UploadMagnet(apiKey, detail.hash)])
  {
  }

  /** A first magnet that is not ready yields `pending` with its id; neither
      the listing nor the save endpoint is called. */
  lemma NotReadyIsPending(torrentId: int, apiKey: string, up: Upstream)
    requires UploadAccepted(torrentId, apiKey, up)
    requires !FirstMagnet(torrentId, apiKey, up).ready
    ensures var run := Unrestrict(torrentId, apiKey, up);
            && run.reply == Response(200, StatusPending(FirstMagnet(torrentId, apiKey, up).id))
            && |run.calls| == 2
  {
  }

  /** The file listing is requested only for an accepted upload whose first
      magnet is ready, and always for that magnet's id. */
  lemma ListingOnlyWhenReady(torrentId: int, apiKey: string, up: Upstream)
    ensures var calls := Unrestrict(torrentId, apiKey, up).calls;
            |calls| > 2 <==> UploadAccepted(torrentId, apiKey, up) && FirstMagnet(torrentId, apiKey, up).ready
    ensures var calls := Unrestrict(torrentId, apiKey, up).calls;
            |calls| > 2 ==> calls[2] == ListFiles(apiKey, FirstMagnet(torrentId, apiKey, up).id)
  {
  }

  /** On the ready path, a listing reply with status "error" ends the request
      with the upstream data, before any save. */
  lemma ListingErrorStops(torrentId: int, apiKey: string, up: Upstream, listed: ListingReply)
    requires UploadAccepted(torrentId, apiKey, up) && FirstMagnet(torrentId, apiKey, up).ready
    requires up.listing(apiKey, FirstMagnet(torrentId, apiKey, up).id) == Got(listed)
    requires IsError(listed.status)
    ensures var run := Unrestrict(torrentId, apiKey, up);
            run.reply == SendError(ListingFailed, ListingData(listed.data)) && |run.calls| == 3
  {
  }

  /** The save endpoint is called only after an accepted listing, exactly
      once, and its form carries one "links[]" entry per extracted link: the
      pre-order links of the first listed magnet's files, in order. */
  lemma SaveCarriesFlattenedLinks(torrentId: int, apiKey: string, up: Upstream)
    ensures var calls := Unrestrict(torrentId, apiKey, up).calls;
            |calls| == 4 <==> ListingAccepted(torrentId, apiKey, up)
    ensures var calls := Unrestrict(torrentId, apiKey, up).calls;
            |calls| == 4 ==>
              && calls[3] == SaveLinks(apiKey, LinksForm(ListedLinks(torrentId, apiKey, up)))
              && GetAll(calls[3].form, "links[]") == ListedLinks(torrentId, apiKey, up)
  {
    if ListingAccepted(torrentId, apiKey, up) {
      LinksFormRoundTrip(ListedLinks(torrentId, apiKey, up));
    }
  }

  /** The ready path ends in the first of: listing error, save error,
      success; and success is reported exactly when every stage passed, where
      only the literal status "error" counts as a failure. */
  lemma SuccessIffEveryStagePasses(torrentId: int, apiKey: string, up: Upstream)
    ensures Unrestrict(torrentId, apiKey, up).reply.body == StatusSuccess <==>
            && ListingAccepted(torrentId, apiKey, up)
            && var saved := up.save(apiKey, LinksForm(ListedLinks(torrentId, apiKey, up)));
            && saved.Got?
            && !IsError(saved.value.status)
  {
  }

  /** A save reply with status "error" ends the request with the upstream data. */
  lemma SaveErrorReported(torrentId: int, apiKey: string, up: Upstream, saved: SaveReply)
    requires ListingAccepted(torrentId, apiKey, up)
    requires up.save(apiKey, LinksForm(ListedLinks(torrentId, apiKey, up))) == Got(saved)
    requires IsError(saved.status)
    ensures Unrestrict(torrentId, apiKey, up).reply == SendError(SaveFailed, SaveData(saved.data))
  {
  }

  /** Torrent 42 with hash "abc123", whose uploaded magnet 7 is not ready,
      is reported as pending magnet 7 after two calls. */
  lemma PendingExample(apiKey: string, up: Upstream, m: string, n: string)
    requires up.torrent(42) == Got(TorrentDetail(42, "abc123"))
    requires up.upload(apiKey, "abc123") ==
             Got(AllDebridResponse("success", MagnetsResponse([Magnet(7, m, n, false)])))
    ensures Unrestrict(42, apiKey, up) ==
            Run(Response(200, StatusPending(7)), [GetTorrent(42), UploadMagnet(apiKey, "abc123")])
  {
  }

  /** A ready magnet whose files hold "link1" at the top and "link2" in a
      folder is saved with exactly those two links, and succeeds when the
      save is accepted. */
  lemma SuccessExample(apiKey: string, up: Upstream, m: string, n: string, saved: SaveMessage)
    requires up.torrent(42) == Got(TorrentDetail(42, "abc123"))
    requires up.upload(apiKey, "abc123") ==
             Got(AllDebridResponse("success", MagnetsResponse([Magnet(7, m, n, true)])))
    requires up.listing(apiKey, 7) ==
             Got(AllDebridResponse("success", MagnetsResponse([MagnetFile("7",
               [File("a", Absent, Some("link1")),
                File("folder", Present([File("b", Absent, Some("link2"))]), None)])])))
    requires up.save(apiKey, [FormEntry("links[]", "link1"), FormEntry("links[]", "link2")]) ==
             Got(AllDebridResponse("success", saved))
    ensures Unrestrict(42, apiKey, up) ==
            Run(Response(200, StatusSuccess),
                [GetTorrent(42), UploadMagnet(apiKey, "abc123"), ListFiles(apiKey, 7),
                 SaveLinks(apiKey, [FormEntry("links[]", "link1"), FormEntry("links[]", "link2")])])
  {
    LinkExtractor.TwoLinkExample();
    assert LinksForm(["link2"]) == [FormEntry("links[]", "link2")];
    assert LinksForm(["link1", "link2"]) == [FormEntry("links[]", "link1"), FormEntry("links[]", "link2")];
  }

  /** With the key taken from the client, every AllDebrid call uses the key
      from the request body; a body that does not parse makes no call. */
  lemma ServerUsesClientKey(body: Fetched<DlRequest>, up: Upstream)
    ensures body.Threw? <==> ServerDlPost(body, up).RequestThrew?
    ensures body.Got? ==>
            var calls := ServerDlPost(body, up).run.calls;
            forall i :: 1 <= i < |calls| ==> calls[i].apiKey == body.value.alldebridApiKey
  {
  }

  /** With the key taken from the environment, a missing or empty key stops
      every request before any upstream call; otherwise every AllDebrid call
      uses the environment's key, whatever the body says. */
  lemma RouteUsesEnvironmentKey(env: Option<string>, body: Fetched<DlRequest>, up: Upstream)
    ensures RouteDlPost(env, body, up).ModuleThrew? <==> env == None || env == Some("")
    ensures RouteDlPost(env, body, up).ModuleThrew? ==> RouteDlPost(env, body, up).message == KeyMissing
    ensures RouteDlPost(env, body, up).Replied? ==>
            var calls := RouteDlPost(env, body, up).run.calls;
            forall i :: 1 <= i < |calls| ==> calls[i].apiKey == env.value
  {
  }
}
