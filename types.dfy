/** The JSON shapes exchanged with the torrent index (yggapi) and the debrid
    service (AllDebrid), and the framework values the handlers produce. */
module Types {

  datatype Option<+T> = None | Some(value: T)

  /** Why an awaited `fetch(...)` / `res.json()` rejected, or which property
      access on `undefined` raised a TypeError. */
  datatype Exception =
    | Rejected(reason: string)
    | TypeError(property: string)

  /** The outcome of one upstream round trip (request plus JSON parsing):
      either it threw, or it produced a parsed value. */
  datatype Fetched<+T> = Threw(error: Exception) | Got(value: T)

  datatype TorrentDetail = TorrentDetail(id: int, hash: string)

  datatype Magnet = Magnet(id: int, magnet: string, name: string, ready: bool)

  datatype MagnetsResponse<+T> = MagnetsResponse(magnets: seq<T>)

  /** A node of the file tree AllDebrid returns: name `n`, optional children
      `e`, optional direct link `l`. */
  datatype File = File(n: string, e: SubFiles, l: Option<string>)

  /** The optional `e` field of a `File`: absent, or an (ordered) array. */
  datatype SubFiles = Absent | Present(files: seq<File>)

  datatype MagnetFile = MagnetFile(id: string, files: seq<File>)

  /** `status` is typed as "success" | "error" but arrives as arbitrary JSON,
      so any string is possible. */
  datatype AllDebridResponse<+T> = AllDebridResponse(status: string, data: T)

  datatype SaveMessage = SaveMessage(message: string)

  datatype OrderBy = UploadedAt | Seeders | Downloads

  /** Only the literal "error" status is treated as a failure (`=== "error"`). */
  predicate IsError(status: string) {
    status == "error"
  }

  /** An HTTP reply: its status code and its JSON body. */
  datatype Response<+B> = Response(status: nat, body: B)

  /** `Response.json(body)`: status 200. */
  function Json<B>(body: B): Response<B> {
    Response(200, body)
  }
}
