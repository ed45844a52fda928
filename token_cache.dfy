/**
 * The token cache file of `save_tokens` / `load_tokens` as a small state machine over the
 * file's presence and contents: absent, present and fresh, present and expired or unreadable
 * (removed on load), and present without an access token (kept).
 */
module TokenCache {
  import opened Wrappers
  import opened TokenExpiry

  /** The cache file's contents as `load_tokens` sees them. */
  datatype CacheFile =
    | Unreadable  // cannot be read or parsed as JSON, or is not shaped as a cache record
    | Record(accessToken: Option<string>, customerUrn: Option<string>)

  /** Where a `save_tokens` call fails, if it does (every failure is caught and logged). */
  datatype WriteFault =
    | NoFault
    | DirectoryFault  // creating the cache directory fails: nothing is written
    | OpenFault       // opening the file for writing fails: nothing is written
    | DumpFault       // writing the JSON fails part-way: the file is left truncated
    | ChmodFault      // the record is written but restricting its permissions fails

  /** The file left behind by `save_tokens` writing `token` and the client's current `urn`. */
  function AfterSave(disk: Option<CacheFile>, token: string, urn: Option<string>, fault: WriteFault): (after: Option<CacheFile>)
    ensures fault == NoFault ==> after == Some(Record(Some(token), urn))
    ensures fault == DirectoryFault || fault == OpenFault ==> after == disk
  {
    match fault
    case NoFault => Some(Record(Some(token), urn))
    case ChmodFault => Some(Record(Some(token), urn))
    case DumpFault => Some(Unreadable)
    case DirectoryFault => disk
    case OpenFault => disk
  }

  /** How `load_tokens` ends. */
  datatype LoadOutcome =
    | NoFile                                   // returns None, nothing happens
    | NoAccessToken                            // returns None, the file is kept
    | Discarded                                // returns None, the file is removed
    | Restored(token: string, urn: Option<string>)  // restores the client's state, source 'cache'

  /** The outcome of `load_tokens` on the file `disk` at epoch second `now`. */
  function ClassifyCache(disk: Option<CacheFile>, now: int, decode: ClaimsDecoder): (outcome: LoadOutcome)
    ensures outcome == NoFile <==> disk == None
    ensures outcome == NoAccessToken <==> disk.Some? && disk.value.Record? && !Truthy(disk.value.accessToken)
    ensures outcome == Discarded <==>
      || disk == Some(Unreadable)
      || (disk.Some? && disk.value.Record? && Truthy(disk.value.accessToken)
          && IsTokenExpired(disk.value.accessToken.value, now, decode))
    ensures outcome.Restored? ==>
      && disk == Some(Record(Some(outcome.token), outcome.urn))
      && outcome.token != ""
      && !IsTokenExpired(outcome.token, now, decode)
  {
    match disk
    case None => NoFile
    case Some(Unreadable) => Discarded
    case Some(Record(token, urn)) =>
      if !Truthy(token) then NoAccessToken
      else if IsTokenExpired(token.value, now, decode) then Discarded
      else Restored(token.value, urn)
  }

  /** The file after `load_tokens`: removed exactly when the load discarded it. */
  function AfterLoad(disk: Option<CacheFile>, outcome: LoadOutcome): (r: Option<CacheFile>)
    ensures r.None? <==> disk.None? || outcome == Discarded
    ensures r.Some? ==> r == disk
  {
    if outcome == Discarded then None else disk
  }

  /** A record that was written completely is restored, token and URN alike, while its token is fresh. */
  lemma SaveThenLoad(disk: Option<CacheFile>, token: string, urn: Option<string>, fault: WriteFault,
                     now: int, decode: ClaimsDecoder)
    requires fault == NoFault || fault == ChmodFault
    requires token != "" && !IsTokenExpired(token, now, decode)
    ensures ClassifyCache(AfterSave(disk, token, urn, fault), now, decode) == Restored(token, urn)
  {
  }

  /** A write that fails part-way leaves a file that the next load removes. */
  lemma TruncatedWriteIsDiscarded(disk: Option<CacheFile>, token: string, urn: Option<string>,
                                  now: int, decode: ClaimsDecoder)
    ensures ClassifyCache(AfterSave(disk, token, urn, DumpFault), now, decode) == Discarded
    ensures AfterLoad(AfterSave(disk, token, urn, DumpFault), Discarded) == None
  {
  }

  /** A load never leaves a file that a second load at the same moment would remove. */
  lemma LoadIsStable(disk: Option<CacheFile>, now: int, decode: ClaimsDecoder)
    ensures var after := AfterLoad(disk, ClassifyCache(disk, now, decode));
      ClassifyCache(after, now, decode) != Discarded
      && (ClassifyCache(disk, now, decode) != Discarded ==> ClassifyCache(after, now, decode) == ClassifyCache(disk, now, decode))
  {
  }
}
