/**
  The save endpoint (src/pages/api/messages/save.ts): a POST with the
  message's fields stores one row and answers with it.
*/
module SaveApi {
  import opened Wrappers
  import opened JsStrings
  import opened Store

  /** The JSON body; a field the client left out is `None`. */
  datatype SaveBody = SaveBody(
    messageId: Option<string>,
    fromUserId: Option<string>,
    toUserId: Option<string>,
    username: Option<string>,
    avatarUrl: Option<string>,
    text: Option<string>,
    timestamp: Option<string>)

  datatype SaveResponse =
    | MethodNotAllowed              // 405
    | MissingFields                 // 400
    | Created(saved: StoredMessage) // 201
    | SaveFailed                    // 500

  /** The required-field guard; `username` and `avatarUrl` are not checked. */
  predicate HasRequiredFields(body: SaveBody): (r: bool)
    ensures r <==> forall f :: f in [body.messageId, body.fromUserId, body.toUserId, body.text, body.timestamp] ==> Truthy(f)
  {
    Truthy(body.messageId) && Truthy(body.fromUserId) && Truthy(body.toUserId) &&
    Truthy(body.text) && Truthy(body.timestamp)
  }

  /** The row a valid body becomes; `at` is `new Date(timestamp)`. */
  function Record(body: SaveBody, at: int): (row: StoredMessage)
    requires HasRequiredFields(body)
    ensures row.fromUserId == body.fromUserId.value && row.toUserId == body.toUserId.value
    ensures row.username == body.username && row.avatarUrl == body.avatarUrl
    ensures row.text == body.text.value && row.timestamp == at
  {
    StoredMessage(body.fromUserId.value, body.toUserId.value, body.username, body.avatarUrl, body.text.value, at)
  }

  /**
    The handler, on the store before and after. `parsedTimestamp` is
    `new Date(timestamp)` (`None` for an invalid date, which the store
    rejects); `createOk` is false when the store fails for another reason.
  */
  function SaveMessage(httpMethod: string, body: SaveBody, parsedTimestamp: Option<int>, createOk: bool,
                       store: seq<StoredMessage>): (r: (SaveResponse, seq<StoredMessage>))
    ensures httpMethod != "POST" ==> r.0 == MethodNotAllowed
    ensures httpMethod == "POST" && !HasRequiredFields(body) ==> r.0 == MissingFields
    ensures httpMethod == "POST" && HasRequiredFields(body) && !(parsedTimestamp.Some? && createOk) ==> r.0 == SaveFailed
    ensures r.0.Created? <==> httpMethod == "POST" && HasRequiredFields(body) && parsedTimestamp.Some? && createOk
    ensures r.0.Created? ==> r.0.saved == Record(body, parsedTimestamp.value) && r.1 == store + [r.0.saved]
    ensures !r.0.Created? ==> r.1 == store
  {
    if httpMethod != "POST" then (MethodNotAllowed, store)
    else if !HasRequiredFields(body) then (MissingFields, store)
    else if parsedTimestamp.None? || !createOk then (SaveFailed, store)
    else
      var saved := Record(body, parsedTimestamp.value);
      (Created(saved), store + [saved])
  }

  /**
    The message id is checked but not stored: saving the same message twice,
    as a retry would, stores two identical rows.
  */
  lemma SavingTwiceStoresTwice(body: SaveBody, at: int, store: seq<StoredMessage>)
    requires HasRequiredFields(body)
    ensures var once := SaveMessage("POST", body, Some(at), true, store).1;
            var twice := SaveMessage("POST", body, Some(at), true, once).1;
            |twice| == |store| + 2 && twice[|store|] == twice[|store| + 1]
  {
  }

  /** Bodies that differ only in their message id store the same row. */
  lemma MessageIdNotStored(body: SaveBody, otherId: string, at: int)
    requires HasRequiredFields(body) && otherId != ""
    ensures Record(body, at) == Record(body.(messageId := Some(otherId)), at)
  {
  }
}
