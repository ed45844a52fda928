/**
 * The decision inside `get_customer_data`: which customer URN an account-info reply yields.
 * The reply's JSON shapes are a tagged union; the network call itself is an input.
 */
module CustomerResolution {
  import opened Wrappers
  import opened Text

  /** The first element of a `results` array. Field texts are Python's `str()` of the JSON value. */
  datatype ResultEntry =
    | EntryNotObject
    | EntryObject(urn: Option<string>, uuid: Option<string>)

  datatype ResultsField =
    | ResultsAbsent
    | ResultsNotArray               // present, but not an array (null, a string, an object, ...)
    | ResultsArray(entries: seq<ResultEntry>)

  /** The parsed body of a 200 reply. `uuid` is None when the key is absent; a null `uuid` has text "None". */
  datatype CustomerBody =
    | BodyNotJson
    | BodyNotObject
    | BodyObject(uuid: Option<string>, results: ResultsField)

  /** What the account-info request returns. */
  datatype CustomerReply =
    | CustomerNetworkError
    | CustomerReply(status: int, body: CustomerBody)

  /** How `get_customer_data` ends. */
  datatype Resolution =
    | Resolved(urn: string)
    | UnexpectedFormat   // "Unexpected customer data format"
    | HttpStatus(status: int)
    | ResolveError       // an exception, reported as its message

  const UrnPrefix: string := "urn:opower:customer:uuid:"

  /** `f"urn:opower:customer:uuid:{uuid}"`; an absent uuid prints as "None". */
  function UrnFromUuid(uuid: Option<string>): string {
    UrnPrefix + (if uuid.Some? then uuid.value else "None")
  }

  /** The URN a reply yields, or why it yields none. */
  function ResolveUrn(reply: CustomerReply): (r: Resolution)
    ensures r.Resolved? ==> reply.CustomerReply? && reply.status == 200 && r.urn != ""
    ensures reply.CustomerReply? && reply.status != 200 ==> r == HttpStatus(reply.status)
    ensures reply.CustomerReply? && reply.status == 200 && reply.body.BodyObject? && reply.body.uuid.Some? ==>
              r == Resolved(UrnPrefix + reply.body.uuid.value)
  {
    match reply
    case CustomerNetworkError => ResolveError
    case CustomerReply(status, body) =>
      if status != 200 then HttpStatus(status)
      else
        match body
        case BodyNotJson => ResolveError
        case BodyNotObject => UnexpectedFormat
        case BodyObject(uuid, results) =>
          if uuid.Some? then Resolved(UrnFromUuid(uuid))
          else
            match results
            case ResultsAbsent => UnexpectedFormat
            case ResultsNotArray => ResolveError
            case ResultsArray(entries) =>
              if |entries| == 0 then UnexpectedFormat
              else
                match entries[0]
                case EntryNotObject => ResolveError
                case EntryObject(urn, entryUuid) =>
                  Resolved(if Truthy(urn) then urn.value else UrnFromUuid(entryUuid))
  }

  /** The inverse of the synthesis: the uuid text after the fixed prefix. */
  function UuidOfUrn(urn: string): Option<string> {
    if StartsWith(urn, UrnPrefix) then Some(urn[|UrnPrefix|..]) else None
  }

  /** A synthesised URN gives back the uuid it was made from. */
  lemma UuidOfSynthesisedUrn(uuid: string)
    ensures UuidOfUrn(UrnFromUuid(Some(uuid))) == Some(uuid)
  {
    var urn := UrnFromUuid(Some(uuid));
    assert urn[..|UrnPrefix|] == UrnPrefix;
    assert urn[|UrnPrefix|..] == uuid;
  }

  /**
   * A 200 reply resolves exactly when it is an object with `uuid`, or an object whose non-empty
   * `results` array starts with an object; the `results` entry's own `urn` wins over its `uuid`.
   */
  lemma ResolvedShapes(reply: CustomerReply)
    ensures ResolveUrn(reply).Resolved? <==>
      && reply.CustomerReply? && reply.status == 200 && reply.body.BodyObject?
      && (|| reply.body.uuid.Some?
          || (reply.body.results.ResultsArray? && |reply.body.results.entries| > 0
              && reply.body.results.entries[0].EntryObject?))
    ensures reply.CustomerReply? && reply.status == 200 && reply.body.BodyObject? && reply.body.uuid.None?
            && reply.body.results.ResultsArray? && |reply.body.results.entries| > 0
            && reply.body.results.entries[0].EntryObject? ==>
              var e := reply.body.results.entries[0];
              ResolveUrn(reply) == Resolved(if Truthy(e.urn) then e.urn.value else UrnFromUuid(e.uuid))
  {
  }

  /** The reply `{"uuid": "abc-123"}` yields "urn:opower:customer:uuid:abc-123". */
  lemma UuidReplyExample()
    ensures ResolveUrn(CustomerReply(200, BodyObject(Some("abc-123"), ResultsAbsent)))
         == Resolved("urn:opower:customer:uuid:abc-123")
  {
  }

  /** A `results` entry with neither `urn` nor `uuid` yields the literal "urn:opower:customer:uuid:None". */
  lemma EntryWithoutIdsExample()
    ensures ResolveUrn(CustomerReply(200, BodyObject(None, ResultsArray([EntryObject(None, None)]))))
         == Resolved("urn:opower:customer:uuid:None")
  {
  }
}
