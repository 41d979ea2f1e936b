/**
 * The store's operation protocol as the client scripts use it: JSON values, the operation
 * requests posted to the single endpoint, and what a response looks like to the
 * `requests` library (transport error, status code, body that may or may not parse).
 */
module Protocol {
  import opened Wrappers

  datatype Json =
    | JNull
    | JBool(b: bool)
    | JNum(x: real)
    | JStr(s: string)
    | JArray(items: seq<Json>)
    | JObject(members: map<string, Json>)

  /** A record as it travels in a request or a search result: a JSON object. */
  type Row = map<string, Json>

  const SCHEMA := "test_schema"
  const TABLE := "test_table"

  /** One operation request, discriminated by its `operation` member. */
  datatype Request =
    | CreateSchema(schema: string)
    | CreateTable(schema: string, table: string, hashAttribute: string)
    | DescribeSchema(schema: string)
    | DescribeTable(schema: string, table: string)
    | Delete(schema: string, table: string, hashValues: seq<string>)
    | Insert(schema: string, table: string, records: seq<Row>)
    | Update(schema: string, table: string, records: seq<Row>)
    | SearchByValue(schema: string, table: string, searchAttribute: string, searchValue: string,
                    getAttributes: seq<string>)

  /** An HTTP call: a GET of a path under the base URL, or a POST of an operation request to it. */
  datatype Call = Get(path: string) | Post(request: Request)

  /** The wildcard search on `id` that the scripts use to read the whole table. */
  function SearchAll(getAttributes: seq<string>): Request {
    SearchByValue(SCHEMA, TABLE, "id", "*", getAttributes)
  }

  /**
   * What a call yields: a transport-level `RequestException` (refused connection, timeout),
   * or a reply with a status code and a body that parses as JSON of shape T (`Some`) or
   * does not (`None`).
   */
  datatype Response<T> = TransportError | Reply(status: int, body: Option<T>)

  /** `raise_for_status()` raises for client (4xx) and server (5xx) errors only. */
  predicate RaisesForStatus(status: int)
    ensures 200 <= status < 400 ==> !RaisesForStatus(status)
    ensures status == 400 ==> RaisesForStatus(status)
  {
    400 <= status < 600
  }

  /** The call and its `raise_for_status()` complete without a `RequestException`. */
  predicate Succeeds<T>(r: Response<T>) {
    r.Reply? && !RaisesForStatus(r.status)
  }

  /**
   * As `Succeeds`, and the following `response.json()` parses too (an unparsable body raises
   * `JSONDecodeError`, itself a `RequestException`).
   */
  predicate SucceedsWithJson<T>(r: Response<T>) {
    Succeeds(r) && r.body.Some?
  }
}
