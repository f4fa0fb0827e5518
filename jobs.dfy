/**
 * `process_request`: the dispatch of one job, by its function name, to one of
 * the two registered handlers. The handlers themselves are opaque: each
 * iteration of the worker supplies whether the handler it invokes returns or
 * raises. What the model keeps of each branch is the order of its effects:
 * the arguments are looked up in the parsed body first (a missing one raises
 * before the handler is reached), then the handler runs.
 */
module Jobs {
  import opened Wrappers
  import opened Json

  const CachingFacebookImagesName: string := "caching_facebook_images_for_retrieve_process"
  const VoterCacheFacebookImagesName: string := "voter_cache_facebook_images_process"

  /** The keys the first branch reads from the body, in the order it reads them. */
  const CachingFacebookImagesKeys: seq<string> := [
    "repair_facebook_related_voter_caching_now",
    "facebook_auth_response",
    "voter_we_vote_id_attached_to_facebook",
    "voter_we_vote_id_attached_to_facebook_email",
    "voter_we_vote_id"
  ]

  /** The keys the second branch reads from the body, in the order it reads them. */
  const VoterCacheFacebookImagesKeys: seq<string> := ["voter", "facebook_auth_response"]

  datatype Handler = CachingFacebookImages | VoterCacheFacebookImages

  /** What an opaque handler does when it is called. */
  datatype HandlerOutcome = Returns | Raises

  /** `process_request` either returns a value or raises. */
  datatype CallResult = Returned(value: bool) | Raised

  /** The result of one call, with the handler it invoked, if any. */
  datatype Call = Call(invoked: Option<Handler>, result: CallResult)

  /** The registered name of each handler; every other name is unknown. */
  function HandlerFor(name: string): (h: Option<Handler>)
    ensures h == Some(CachingFacebookImages) <==> name == CachingFacebookImagesName
    ensures h == Some(VoterCacheFacebookImages) <==> name == VoterCacheFacebookImagesName
  {
    if name == CachingFacebookImagesName then Some(CachingFacebookImages)
    else if name == VoterCacheFacebookImagesName then Some(VoterCacheFacebookImages)
    else None
  }

  function Arguments(h: Handler): seq<string>
  {
    match h
    case CachingFacebookImages => CachingFacebookImagesKeys
    case VoterCacheFacebookImages => VoterCacheFacebookImagesKeys
  }

  /**
   * Look up the handler's arguments, then call it. The handler's own return
   * value is discarded: once it returns, `process_request` returns True.
   */
  function Invoke(h: Handler, body: Json, outcome: HandlerOutcome): Call
  {
    if !HasFields(body, Arguments(h)) then Call(None, Raised)
    else if outcome == Returns then Call(Some(h), Returned(true))
    else Call(Some(h), Raised)
  }

  /**
   * `process_request` with its logging fixed so that it cannot fail: the
   * evidently intended dispatch (see ProcessRequestAsWritten).
   */
  function ProcessRequest(name: string, body: Json, outcome: HandlerOutcome): (c: Call)
    // whenever it does not raise, it returns True
    ensures c.result.Returned? ==> c.result.value
    // an unknown name is consumed: no handler, no exception
    ensures HandlerFor(name).None? ==> c == Call(None, Returned(true))
    // a known name reaches its own handler exactly when the body holds its arguments
    ensures HandlerFor(name).Some? ==>
      (c.invoked.Some? <==> HasFields(body, Arguments(HandlerFor(name).value)))
    ensures c.invoked.Some? ==> c.invoked == HandlerFor(name)
    // a known name whose arguments are missing raises before any handler runs
    ensures HandlerFor(name).Some? && c.invoked.None? ==> c.result == Raised
    // an invoked handler's exception propagates; its normal return yields True
    ensures c.invoked.Some? ==> (c.result == Returned(true) <==> outcome == Returns)
  {
    if name == CachingFacebookImagesName then Invoke(CachingFacebookImages, body, outcome)
    else if name == VoterCacheFacebookImagesName then Invoke(VoterCacheFacebookImages, body, outcome)
    else Call(None, Returned(true))
  }

  /**
   * `process_request` as written. Its second branch logs `voter.we_vote_id`
   * and `facebook_auth_response.facebook_first_name` before calling the
   * handler; the body comes from `json.loads`, whose values (dicts, lists,
   * strings, numbers, booleans, None) have no such attributes, so the log
   * statement raises AttributeError every time and the handler is never
   * reached.
   */
  function ProcessRequestAsWritten(name: string, body: Json, outcome: HandlerOutcome): (c: Call)
    ensures name == VoterCacheFacebookImagesName ==> c.invoked.None? && c.result == Raised
    ensures name != VoterCacheFacebookImagesName ==> c == ProcessRequest(name, body, outcome)
  {
    if name == CachingFacebookImagesName then Invoke(CachingFacebookImages, body, outcome)
    else if name == VoterCacheFacebookImagesName then Call(None, Raised)
    else Call(None, Returned(true))
  }

  /** The `process_request` a worker calls: the code as written, or its corrected dispatch. */
  datatype Dispatch = AsWritten | Corrected

  function ProcessRequestBy(d: Dispatch, name: string, body: Json, outcome: HandlerOutcome): Call
  {
    match d
    case AsWritten => ProcessRequestAsWritten(name, body, outcome)
    case Corrected => ProcessRequest(name, body, outcome)
  }

  /** A body that holds every argument of the second handler. */
  const VoterJobBody: Json := JObject(map["voter" := JObject(map["we_vote_id" := JString("wv01voter1")]),
                                          "facebook_auth_response" := JObject(map[])])

  /**
   * The discrepancy: for a well-formed voter job whose handler would succeed,
   * the code as written raises without invoking the handler, while the
   * evidently intended dispatch invokes it and returns True.
   */
  lemma VoterJobNeverReachesHandler()
    ensures ProcessRequestAsWritten(VoterCacheFacebookImagesName, VoterJobBody, Returns) == Call(None, Raised)
    ensures ProcessRequest(VoterCacheFacebookImagesName, VoterJobBody, Returns)
            == Call(Some(VoterCacheFacebookImages), Returned(true))
  {
  }
}
