/**
 * The part of `login_and_get_tokens` that runs after the browser has signed in: the local and
 * session storage are merged into one insertion-ordered dictionary, the entries are scanned in
 * that order for an access token, and when none is found a truncated debug sample is built.
 */
module StorageExtraction {
  import opened Wrappers
  import opened Text

  /** One key/value pair of browser storage or of the merged dictionary. */
  datatype Item = Item(key: string, value: string)

  /** `json.loads(value)` as far as the scan looks at it; the parser itself is kept abstract. */
  datatype StoredJson =
    | JsonNotObject                                            // valid JSON, but not an object
    | JsonObject(secret: Option<string>, accessToken: Option<string>)  // the `secret` and `access_token` members

  /** None stands for a value that is not valid JSON. */
  type JsonParser = string -> Option<StoredJson>

  predicate KeysDistinct(items: seq<Item>) {
    forall i, j :: 0 <= i < j < |items| ==> items[i].key != items[j].key
  }

  /** The position of key `k`, or -1 when absent. */
  function IndexOf(items: seq<Item>, k: string): (i: int)
    ensures -1 <= i < |items|
    ensures i >= 0 ==> items[i].key == k && forall j :: 0 <= j < i ==> items[j].key != k
    ensures i < 0 ==> forall j :: 0 <= j < |items| ==> items[j].key != k
  {
    if items == [] then -1
    else if items[0].key == k then 0
    else
      var i := IndexOf(items[1..], k);
      if i < 0 then -1 else i + 1
  }

  /** `d.get(k)` */
  function Lookup(items: seq<Item>, k: string): Option<string> {
    var i := IndexOf(items, k);
    if i < 0 then None else Some(items[i].value)
  }

  /**
   * `d[k] = v` on Python's insertion-ordered dict: a present key keeps its position and takes the
   * new value, a new key goes to the end.
   */
  function Put(items: seq<Item>, k: string, v: string): (r: seq<Item>)
    ensures |r| >= |items| && forall i :: 0 <= i < |items| ==> r[i].key == items[i].key
    ensures IndexOf(items, k) < 0 ==> r == items + [Item(k, v)]
    ensures Lookup(r, k) == Some(v)
  {
    var i := IndexOf(items, k);
    if i < 0 then
      var r := items + [Item(k, v)];
      assert r[|items|].key == k;
      assert IndexOf(r, k) == |items|;
      r
    else items[i := Item(k, v)]
  }

  lemma PutKeepsOthers(items: seq<Item>, k: string, v: string, k': string)
    requires k' != k
    ensures Lookup(Put(items, k, v), k') == Lookup(items, k')
  {
    var r := Put(items, k, v);
    var i := IndexOf(items, k');
    var i' := IndexOf(r, k');
    if i >= 0 {
      assert r[i].key == k';
      assert i' == i;
    } else {
      assert i' < 0;
    }
  }

  lemma PutKeepsDistinct(items: seq<Item>, k: string, v: string)
    requires KeysDistinct(items)
    ensures KeysDistinct(Put(items, k, v))
  {
  }

  /** Puts the items of `kvs` into `items` in order, each key preceded by `prefix`. */
  function PutAll(items: seq<Item>, kvs: seq<Item>, prefix: string): (r: seq<Item>)
    ensures |r| >= |items| && forall i :: 0 <= i < |items| ==> r[i].key == items[i].key
    ensures KeysDistinct(items) ==> KeysDistinct(r)
    decreases |kvs|
  {
    if kvs == [] then items
    else
      var n := |kvs| - 1;
      var inner := PutAll(items, kvs[..n], prefix);
      var r := Put(inner, prefix + kvs[n].key, kvs[n].value);
      assert KeysDistinct(items) ==> KeysDistinct(r) by {
        if KeysDistinct(items) {
          PutKeepsDistinct(inner, prefix + kvs[n].key, kvs[n].value);
        }
      }
      r
  }

  /** The merged dictionary: local storage as-is, then session storage under `session_<key>`. */
  function Combined(local: seq<Item>, session: seq<Item>): seq<Item> {
    PutAll(PutAll([], local, ""), session, "session_")
  }

  /** The two loops that fill `msal_data`. */
  method CombineStorage(local: seq<Item>, session: seq<Item>) returns (items: seq<Item>)
    ensures items == Combined(local, session)
  {
    items := [];
    for i := 0 to |local|
      invariant items == PutAll([], local[..i], "")
    {
      assert local[..i + 1][..i] == local[..i];
      assert "" + local[i].key == local[i].key;
      items := Put(items, local[i].key, local[i].value);
    }
    assert local[..|local|] == local;
    ghost var base := items;
    for i := 0 to |session|
      invariant items == PutAll(base, session[..i], "session_")
    {
      assert session[..i + 1][..i] == session[..i];
      items := Put(items, "session_" + session[i].key, session[i].value);
    }
    assert session[..|session|] == session;
  }

  lemma {:induction false} PutAllLookup(items: seq<Item>, kvs: seq<Item>, prefix: string, i: int)
    requires KeysDistinct(kvs) && 0 <= i < |kvs|
    ensures Lookup(PutAll(items, kvs, prefix), prefix + kvs[i].key) == Some(kvs[i].value)
    decreases |kvs|
  {
    var n := |kvs| - 1;
    var inner := PutAll(items, kvs[..n], prefix);
    assert PutAll(items, kvs, prefix) == Put(inner, prefix + kvs[n].key, kvs[n].value);
    if i < n {
      assert kvs[n].key != kvs[i].key;
      assert prefix + kvs[n].key != prefix + kvs[i].key by {
        assert (prefix + kvs[n].key)[|prefix|..] == kvs[n].key;
        assert (prefix + kvs[i].key)[|prefix|..] == kvs[i].key;
      }
      assert kvs[..n][i] == kvs[i];
      PutAllLookup(items, kvs[..n], prefix, i);
      PutKeepsOthers(inner, prefix + kvs[n].key, kvs[n].value, prefix + kvs[i].key);
    }
  }

  lemma {:induction false} PutAllKeeps(items: seq<Item>, kvs: seq<Item>, prefix: string, k: string)
    requires forall j :: 0 <= j < |kvs| ==> prefix + kvs[j].key != k
    ensures Lookup(PutAll(items, kvs, prefix), k) == Lookup(items, k)
    decreases |kvs|
  {
    if kvs != [] {
      var n := |kvs| - 1;
      PutAllKeeps(items, kvs[..n], prefix, k);
      PutKeepsOthers(PutAll(items, kvs[..n], prefix), prefix + kvs[n].key, kvs[n].value, k);
    }
  }

  /** Without its last entry a dictionary with distinct keys still has them, and lacks the last key. */
  lemma DistinctFront(kvs: seq<Item>)
    requires KeysDistinct(kvs) && kvs != []
    ensures KeysDistinct(kvs[..|kvs| - 1]) && IndexOf(kvs[..|kvs| - 1], kvs[|kvs| - 1].key) < 0
  {
    var front := kvs[..|kvs| - 1];
    assert forall j :: 0 <= j < |front| ==> front[j] == kvs[j];
  }

  lemma {:induction false} PutAllFresh(kvs: seq<Item>)
    requires KeysDistinct(kvs)
    ensures PutAll([], kvs, "") == kvs
    decreases |kvs|
  {
    if kvs != [] {
      var n := |kvs| - 1;
      var front := kvs[..n];
      DistinctFront(kvs);
      PutAllFresh(front);
      assert "" + kvs[n].key == kvs[n].key;
      assert PutAll([], kvs, "") == Put(front, kvs[n].key, kvs[n].value);
      assert front + [kvs[n]] == kvs;
    }
  }

  /** The merged dictionary has distinct keys and starts with the local keys, in their order. */
  lemma CombinedOrder(local: seq<Item>, session: seq<Item>)
    requires KeysDistinct(local) && KeysDistinct(session)
    ensures var merged := Combined(local, session);
      && KeysDistinct(merged)
      && |merged| >= |local|
      && (forall i :: 0 <= i < |local| ==> merged[i].key == local[i].key)
  {
    PutAllFresh(local);
  }

  /** Every session entry is present under its "session_" key with its own value. */
  lemma CombinedSessionWins(local: seq<Item>, session: seq<Item>)
    requires KeysDistinct(local) && KeysDistinct(session)
    ensures forall i :: 0 <= i < |session| ==>
      Lookup(Combined(local, session), "session_" + session[i].key) == Some(session[i].value)
  {
    PutAllFresh(local);
    forall i | 0 <= i < |session|
      ensures Lookup(Combined(local, session), "session_" + session[i].key) == Some(session[i].value)
    {
      PutAllLookup(local, session, "session_", i);
    }
  }

  /** No session key, once prefixed with `session_`, equals `key`. */
  predicate Unshadowed(session: seq<Item>, key: string) {
    forall j :: 0 <= j < |session| ==> "session_" + session[j].key != key
  }

  /** A local entry keeps its value unless a session key, once prefixed, equals its key. */
  lemma CombinedLocalKept(local: seq<Item>, session: seq<Item>)
    requires KeysDistinct(local) && KeysDistinct(session)
    ensures forall i :: 0 <= i < |local| && Unshadowed(session, local[i].key) ==>
      Lookup(Combined(local, session), local[i].key) == Some(local[i].value)
  {
    PutAllFresh(local);
    forall i | 0 <= i < |local| && Unshadowed(session, local[i].key)
      ensures Lookup(Combined(local, session), local[i].key) == Some(local[i].value)
    {
      PutAllKeeps(local, session, "session_", local[i].key);
      assert "" + local[i].key == local[i].key;
      PutAllLookup([], local, "", i);
    }
  }

  // ---------------------------------------------------------------- the token scan

  /** The four key rules of the scan, in the order the loop body tries them. */
  predicate SessionAccessTokenKey(key: string) {
    Contains(key, "session_") && Contains(Lower(key), "accesstoken")
  }

  predicate MsalAccessTokenKey(key: string) {
    Contains(Lower(key), "accesstoken") && (Contains(Lower(key), "opower") || Contains(Lower(key), "nationalgrid"))
  }

  predicate DirectAccessTokenKey(key: string) {
    Contains(Lower(key), "access_token")
  }

  /** The last resort: any value that looks like a JWT. */
  predicate LooksLikeJwt(value: string) {
    StartsWith(value, "ey") && |value| > 100
  }

  /** What one rule does with an entry: `continue` to the next entry, `break` with a token, or fall through. */
  datatype RuleStep = Skip | Found(token: string) | NoMatch

  /** `json.loads(value).get('secret')` inside `try ... except: continue`. */
  function SecretRule(value: string, parse: JsonParser): RuleStep {
    match parse(value)
    case None => Skip
    case Some(JsonNotObject) => Skip
    case Some(JsonObject(secret, _)) => if Truthy(secret) then Found(secret.value) else NoMatch
  }

  /** A bare value, or `access_token` (else `secret`) of a JSON object value. */
  function DirectRule(value: string, parse: JsonParser): RuleStep
    requires value != ""
  {
    if StartsWith(value, "{") then
      match parse(value)
      case None => Skip
      case Some(JsonNotObject) => Skip
      case Some(JsonObject(secret, accessToken)) =>
        var t := if Truthy(accessToken) then accessToken else secret;
        if Truthy(t) then Found(t.value) else NoMatch
    else Found(value)
  }

  /** The token one entry yields, if any, when the scan reaches it. */
  function EntryToken(item: Item, parse: JsonParser): (t: Option<string>)
    ensures t.Some? ==> t.value != ""
  {
    if item.value == "" then None
    else
      var s1 := if SessionAccessTokenKey(item.key) then SecretRule(item.value, parse) else NoMatch;
      if s1.Skip? then None else if s1.Found? then Some(s1.token)
      else
        var s2 := if MsalAccessTokenKey(item.key) then SecretRule(item.value, parse) else NoMatch;
        if s2.Skip? then None else if s2.Found? then Some(s2.token)
        else
          var s3 := if DirectAccessTokenKey(item.key) then DirectRule(item.value, parse) else NoMatch;
          if s3.Skip? then None else if s3.Found? then Some(s3.token)
          else if LooksLikeJwt(item.value) then Some(item.value)
          else None
  }

  /** The token the scan ends with: that of the first entry, in iteration order, that yields one. */
  function ScanToken(items: seq<Item>, parse: JsonParser): (t: Option<string>)
    ensures t.Some? <==> exists i :: 0 <= i < |items| && EntryToken(items[i], parse).Some?
    ensures t.Some? ==> t.value != ""
  {
    if items == [] then None
    else if EntryToken(items[0], parse).Some? then EntryToken(items[0], parse)
    else
      var t := ScanToken(items[1..], parse);
      assert forall i :: 1 <= i < |items| ==> items[1..][i - 1] == items[i];
      t
  }

  /** The scan's token is the one of the first entry that yields a token. */
  lemma {:induction false} ScanTokenIsFirst(items: seq<Item>, parse: JsonParser, i: int)
    requires 0 <= i < |items| && EntryToken(items[i], parse).Some?
    requires forall j :: 0 <= j < i ==> EntryToken(items[j], parse).None?
    ensures ScanToken(items, parse) == EntryToken(items[i], parse)
  {
    if i > 0 {
      assert forall j :: 0 <= j < i - 1 ==> items[1..][j] == items[j + 1];
      ScanTokenIsFirst(items[1..], parse, i - 1);
    }
  }

  /** A truthy token taken from the first entry that yields one is the scan's token. */
  lemma ScanTokenOfFirst(items: seq<Item>, parse: JsonParser, accessToken: Option<string>)
    requires Truthy(accessToken) <==> exists i :: 0 <= i < |items| && EntryToken(items[i], parse).Some?
    requires Truthy(accessToken) ==>
      exists i :: 0 <= i < |items| && EntryToken(items[i], parse) == accessToken
        && forall j :: 0 <= j < i ==> EntryToken(items[j], parse).None?
    ensures Truthy(accessToken) ==> accessToken == ScanToken(items, parse)
    ensures !Truthy(accessToken) ==> ScanToken(items, parse).None?
  {
    if Truthy(accessToken) {
      var i :| (0 <= i < |items| && EntryToken(items[i], parse) == accessToken
                && forall j :: 0 <= j < i ==> EntryToken(items[j], parse).None?);
      ScanTokenIsFirst(items, parse, i);
    }
  }

  /**
   * The scan loop. It stops at the first entry, in iteration order, that yields a token; the
   * variable it assigns stays falsy when no entry does.
   */
  method ExtractAccessToken(items: seq<Item>, parse: JsonParser) returns (accessToken: Option<string>)
    ensures Truthy(accessToken) <==> exists i :: 0 <= i < |items| && EntryToken(items[i], parse).Some?
    ensures Truthy(accessToken) ==>
      exists i :: 0 <= i < |items| && EntryToken(items[i], parse) == accessToken
        && forall j :: 0 <= j < i ==> EntryToken(items[j], parse).None?
    ensures Truthy(accessToken) ==> accessToken == ScanToken(items, parse)
    ensures !Truthy(accessToken) ==> ScanToken(items, parse).None?
  {
    accessToken := None;
    for i := 0 to |items|
      invariant !Truthy(accessToken)
      invariant forall j :: 0 <= j < i ==> EntryToken(items[j], parse).None?
    {
      var key, value := items[i].key, items[i].value;
      if value == "" {
        continue;
      }
      if SessionAccessTokenKey(key) {
        var parsed := parse(value);
        if parsed.None? || parsed.value.JsonNotObject? {
          continue;
        }
        accessToken := parsed.value.secret;
        if Truthy(accessToken) {
          break;
        }
      }
      if MsalAccessTokenKey(key) {
        var parsed := parse(value);
        if parsed.None? || parsed.value.JsonNotObject? {
          continue;
        }
        accessToken := parsed.value.secret;
        if Truthy(accessToken) {
          break;
        }
      }
      if DirectAccessTokenKey(key) {
        if StartsWith(value, "{") {
          var parsed := parse(value);
          if parsed.None? || parsed.value.JsonNotObject? {
            continue;
          }
          accessToken := if Truthy(parsed.value.accessToken) then parsed.value.accessToken else parsed.value.secret;
        } else {
          accessToken := Some(value);
        }
        if Truthy(accessToken) {
          break;
        }
      }
      if LooksLikeJwt(value) {
        accessToken := Some(value);
        break;
      }
    }
    ScanTokenOfFirst(items, parse, accessToken);
  }

  /** Entries with an empty value never yield a token. */
  lemma EmptyValueSkipped(key: string, parse: JsonParser)
    ensures EntryToken(Item(key, ""), parse) == None
  {
  }

  /** An entry that no key rule matches is taken verbatim exactly when it looks like a JWT. */
  lemma UnmatchedKeyFallback(item: Item, parse: JsonParser)
    requires item.value != ""
    requires !SessionAccessTokenKey(item.key) && !MsalAccessTokenKey(item.key) && !DirectAccessTokenKey(item.key)
    ensures EntryToken(item, parse) == if LooksLikeJwt(item.value) then Some(item.value) else None
  {
  }

  /** A JSON failure on a session access-token entry skips its remaining rules, the JWT fallback included. */
  lemma ParseFailureSkipsEntry(item: Item, parse: JsonParser)
    requires item.value != "" && SessionAccessTokenKey(item.key) && parse(item.value).None?
    ensures EntryToken(item, parse) == None
  {
  }

  // ---------------------------------------------------------------- the debug sample

  /** Keys whose entries the debug sample reports. */
  predicate DebugKey(key: string) {
    Contains(Lower(key), "token") || Contains(Lower(key), "auth") || Contains(Lower(key), "msal")
  }

  /** `str(value)[:100] + "..." if len(str(value)) > 100 else str(value)` */
  function Truncated(value: string): string {
    if |value| > 100 then value[..100] + "..." else value
  }

  /** The debug map, in the merged dictionary's order. */
  function DebugEntries(items: seq<Item>): seq<Item> {
    if items == [] then []
    else
      var n := |items| - 1;
      var rest := DebugEntries(items[..n]);
      if items[n].value != "" && DebugKey(items[n].key) then rest + [Item(items[n].key, Truncated(items[n].value))]
      else rest
  }

  /** The loop that fills `debug_info`. */
  method DebugSample(items: seq<Item>) returns (debug: seq<Item>)
    ensures debug == DebugEntries(items)
  {
    debug := [];
    for i := 0 to |items|
      invariant debug == DebugEntries(items[..i])
    {
      assert items[..i + 1][..i] == items[..i];
      if items[i].value != "" && DebugKey(items[i].key) {
        debug := debug + [Item(items[i].key, Truncated(items[i].value))];
      }
    }
    assert items[..|items|] == items;
  }

  /**
   * The debug sample holds exactly the non-empty entries whose lowercased key contains
   * "token", "auth" or "msal", each cut to its first 100 characters plus "..." when longer.
   */
  lemma {:induction false} DebugEntriesExactly(items: seq<Item>)
    ensures var d := DebugEntries(items);
      && (forall j :: 0 <= j < |d| ==>
            exists i :: 0 <= i < |items| && items[i].value != "" && DebugKey(items[i].key)
              && d[j] == Item(items[i].key, Truncated(items[i].value)))
      && (forall i :: 0 <= i < |items| && items[i].value != "" && DebugKey(items[i].key) ==>
            Item(items[i].key, Truncated(items[i].value)) in d)
      && (forall j :: 0 <= j < |d| ==> |d[j].value| <= 103)
  {
    if items != [] {
      var n := |items| - 1;
      DebugEntriesExactly(items[..n]);
      var rest := DebugEntries(items[..n]);
      var d := DebugEntries(items);
      forall j | 0 <= j < |d|
        ensures exists i :: (0 <= i < |items| && items[i].value != "" && DebugKey(items[i].key)
                               && d[j] == Item(items[i].key, Truncated(items[i].value)))
      {
        if j < |rest| {
          assert d[j] == rest[j];
          var i :| 0 <= i < n && items[..n][i].value != "" && DebugKey(items[..n][i].key)
              && rest[j] == Item(items[..n][i].key, Truncated(items[..n][i].value));
          assert items[i] == items[..n][i];
        } else {
          assert d[j] == Item(items[n].key, Truncated(items[n].value));
        }
      }
      forall i | 0 <= i < |items| && items[i].value != "" && DebugKey(items[i].key)
        ensures Item(items[i].key, Truncated(items[i].value)) in d
      {
        if i < n {
          assert items[..n][i] == items[i];
          assert Item(items[i].key, Truncated(items[i].value)) in rest;
        }
      }
    }
  }

  /** Values of at most 100 characters are kept whole; longer ones keep their first 100 characters. */
  lemma TruncatedShape(value: string)
    ensures |value| <= 100 ==> Truncated(value) == value
    ensures |value| > 100 ==>
              |Truncated(value)| == 103 && Truncated(value)[..100] == value[..100] && Truncated(value)[100..] == "..."
  {
  }
}
