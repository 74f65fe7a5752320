/**
 The raw-message store. The store is one JSON file; here it is a single
 abstract value that is either absent or holds the JSON the file contains.
 Every write replaces the whole content, so the store never accumulates
 history. `save_messages_api` turns the API result (sender to list of
 messages) into sender to that sender's last message and saves it.
 */
module StorageManager {
  import opened Results
  import opened JsonValues

  /** The storage file: missing, or present with its parsed JSON content. */
  datatype Store = NoFile | File(content: Json)

  /** Why reading the store failed: opening a missing file for reading raises. */
  datatype StorageError = FileNotFound

  /** Creates the store holding an empty dict unless one already exists. */
  function InitStorage(s: Store): (r: Store)
    ensures s.File? ==> r == s
    ensures s.NoFile? ==> GetAllMessages(r) == Success(JObject(map[]))
  {
    if s.NoFile? then File(JObject(map[])) else s
  }

  /** Overwrites the store with `messages`, whatever it held before. */
  function SaveMessage(s: Store, messages: Dict): (r: Store)
    ensures GetAllMessages(r) == Success(JObject(messages))
  {
    File(JObject(messages))
  }

  /** Everything the store holds; reading a store that was never created fails. */
  function GetAllMessages(s: Store): (r: Result<Json, StorageError>)
    ensures r.Failure? <==> s.NoFile?
    ensures r.Success? ==> File(r.value) == s
  {
    match s
    case NoFile => Failure(FileNotFound)
    case File(content) => Success(content)
  }

  /** A sender's entry that holds at least one message. */
  predicate HasMessages(v: Json) {
    v.JArray? && |v.items| > 0
  }

  /** The final message of a non-empty message list. */
  function LastMessage(v: Json): (last: Json)
    requires HasMessages(v)
  {
    v.items[|v.items| - 1]
  }

  /**
   Reference definition of the flattening: each sender whose entry is a
   non-empty list is mapped to its last message; no other key appears.
   */
  function Flatten(api: Dict): (flat: Dict) {
    map number | number in api && HasMessages(api[number]) :: LastMessage(api[number])
  }

  /**
   The flattening loop itself: for each sender, in whatever order the API
   result lists them, skip a value that is not a list and otherwise assign
   every message of the list in turn to the sender's entry, so the last one
   remains.
   */
  method FlattenApiMessages(api: Dict) returns (flat: Dict)
    ensures forall number :: number in flat <==> number in api && HasMessages(api[number])
    ensures forall number :: number in flat ==> flat[number] == LastMessage(api[number])
    ensures flat == Flatten(api)
  {
    flat := map[];
    var pending := api.Keys;
    while pending != {}
      invariant pending <= api.Keys
      invariant forall number :: number in flat <==>
        number in api && number !in pending && HasMessages(api[number])
      invariant forall number :: number in flat ==> flat[number] == LastMessage(api[number])
      decreases pending
    {
      var number :| number in pending;
      var msgList := api[number];
      if msgList.JArray? {
        ghost var before := flat;
        var i := 0;
        while i < |msgList.items|
          invariant 0 <= i <= |msgList.items|
          invariant i == 0 ==> flat == before
          invariant i > 0 ==> flat == before[number := msgList.items[i - 1]]
        {
          flat := flat[number := msgList.items[i]];
          i := i + 1;
        }
      }
      pending := pending - {number};
    }
    assert flat.Keys == Flatten(api).Keys;
  }

  /**
   What `read_messages` hands back: the decoded body on status 200, and an
   empty list on any other status.
   */
  function ReadMessages(status: int, body: Json): (r: Json)
    ensures status == 200 ==> r == body
    ensures status != 200 ==> r == JArray([])
    ensures status != 200 ==> !r.JObject?
  {
    if status == 200 then body else JArray([])
  }

  /**
   One run of `save_messages_api` on the API result `apiMessages`: a result
   that is not a dict, or one whose flattening is empty, leaves the store as
   it was; otherwise the store is replaced by the flattening.
   */
  function SaveMessagesApi(s: Store, apiMessages: Json): (r: Store)
    ensures !apiMessages.JObject? ==> r == s
    ensures apiMessages.JObject? && Flatten(apiMessages.fields) == map[] ==> r == s
    ensures apiMessages.JObject? && Flatten(apiMessages.fields) != map[] ==>
      GetAllMessages(r) == Success(JObject(Flatten(apiMessages.fields)))
  {
    if apiMessages.JObject? then
      var flat := Flatten(apiMessages.fields);
      if flat != map[] then SaveMessage(s, flat) else s
    else
      s
  }

  /**
   Senders are flattened independently of each other: splitting an API
   result into two parts and flattening each gives the same entries, the
   second part's senders taking precedence.
   */
  lemma FlattenSplit(a: Dict, b: Dict)
    ensures Flatten(a + b) == Flatten(a - b.Keys) + Flatten(b)
  {
    assert Flatten(a + b).Keys == (Flatten(a - b.Keys) + Flatten(b)).Keys;
  }

  /** A sender with no list, or an empty one, has no effect on the flattening. */
  lemma SilentSenderIgnored(api: Dict, number: string)
    requires number in api && !HasMessages(api[number])
    ensures number !in Flatten(api)
    ensures Flatten(api) == Flatten(api - {number})
  {
    assert Flatten(api).Keys == Flatten(api - {number}).Keys;
  }

  /** The flattening is empty exactly when no sender has a non-empty list. */
  lemma FlattenEmptyIff(api: Dict)
    ensures Flatten(api) == map[] <==> forall number :: number in api ==> !HasMessages(api[number])
  {
    if Flatten(api) == map[] {
      forall number | number in api
        ensures !HasMessages(api[number])
      {
        assert number !in Flatten(api);
      }
    }
  }

  /** Initialising twice is the same as initialising once. */
  lemma InitStorageIdempotent(s: Store)
    ensures InitStorage(InitStorage(s)) == InitStorage(s)
  {
  }

  /** Initialising after a save keeps what was saved. */
  lemma InitAfterSaveKeepsMessages(s: Store, messages: Dict)
    ensures GetAllMessages(InitStorage(SaveMessage(s, messages))) == Success(JObject(messages))
  {
  }

  /** A save replaces the store: its result does not depend on the earlier content. */
  lemma SaveReplaces(s: Store, s': Store, messages: Dict)
    ensures SaveMessage(s, messages) == SaveMessage(s', messages)
  {
  }

  /** Saving back what was just read leaves the store unchanged. */
  lemma SaveOfLoadIsNoop(s: Store)
    requires GetAllMessages(s).Success? && GetAllMessages(s).value.JObject?
    ensures SaveMessage(s, GetAllMessages(s).value.fields) == s
  {
  }

  /** A failed fetch never touches the store. */
  lemma FailedFetchLeavesStore(s: Store, status: int, body: Json)
    requires status != 200
    ensures SaveMessagesApi(s, ReadMessages(status, body)) == s
  {
  }

  /** Running the same poll twice stores the same thing as running it once. */
  lemma SaveMessagesApiIdempotent(s: Store, apiMessages: Json)
    ensures SaveMessagesApi(SaveMessagesApi(s, apiMessages), apiMessages)
         == SaveMessagesApi(s, apiMessages)
  {
  }

  /**
   After a poll whose result names at least one sender with a message, the
   store holds, for each sender with messages, that sender's last message,
   and nothing for any other sender.
   */
  lemma ReadBackAfterPoll(s: Store, api: Dict, sender: string)
    requires sender in api && HasMessages(api[sender])
    ensures GetAllMessages(SaveMessagesApi(s, JObject(api))).Success?
    ensures var stored := GetAllMessages(SaveMessagesApi(s, JObject(api))).value;
      && stored.JObject?
      && (forall number :: number in stored.fields <==> number in api && HasMessages(api[number]))
      && stored.fields[sender] == LastMessage(api[sender])
  {
    assert sender in Flatten(api);
  }

  /** A later successful poll overwrites an earlier one entirely. */
  lemma LaterPollWins(s: Store, first: Dict, second: Dict, sender: string)
    requires sender in second && HasMessages(second[sender])
    ensures SaveMessagesApi(SaveMessagesApi(s, JObject(first)), JObject(second))
         == SaveMessagesApi(s, JObject(second))
  {
    assert sender in Flatten(second);
  }
}
