/**
 * The part of an Express response the render routes use: a status code, headers, the
 * chunks written in order, and how often the response was ended.
 */
module Http {
  const WaitingMessage := "Waiting for compilation... Refresh in a moment."
  const InternalErrorBody := "500 | Internal Server Error"

  class Response {
    var statusCode: int
    var headers: map<string, string>
    var chunks: seq<string>
    var endCount: nat

    /** A fresh response: status 200, nothing written, not ended. */
    constructor()
      ensures statusCode == 200 && headers == map[] && chunks == [] && endCount == 0
    {
      statusCode := 200;
      headers := map[];
      chunks := [];
      endCount := 0;
    }

    /** `res.status(code)`. */
    method Status(code: int)
      modifies this
      ensures statusCode == code
      ensures headers == old(headers) && chunks == old(chunks) && endCount == old(endCount)
    {
      statusCode := code;
    }

    /** `res.setHeader(name, value)`. */
    method SetHeader(name: string, value: string)
      modifies this
      ensures headers == old(headers)[name := value]
      ensures statusCode == old(statusCode) && chunks == old(chunks) && endCount == old(endCount)
    {
      headers := headers[name := value];
    }

    /** `res.write(chunk)`. */
    method Write(chunk: string)
      modifies this
      ensures chunks == old(chunks) + [chunk]
      ensures statusCode == old(statusCode) && headers == old(headers) && endCount == old(endCount)
    {
      chunks := chunks + [chunk];
    }

    /** `res.end()`. */
    method End()
      modifies this
      ensures endCount == old(endCount) + 1
      ensures statusCode == old(statusCode) && headers == old(headers) && chunks == old(chunks)
    {
      endCount := endCount + 1;
    }

    /** `res.end(data)`: the data is the last chunk. */
    method EndWith(data: string)
      modifies this
      ensures chunks == old(chunks) + [data] && endCount == old(endCount) + 1
      ensures statusCode == old(statusCode) && headers == old(headers)
    {
      chunks := chunks + [data];
      endCount := endCount + 1;
    }
  }
}
