/** The messages between server and browser. Their JSON text is not modelled: two
    messages have the same text exactly when they are the same value. */
module Wire {
  import opened Domain

  datatype InfoPayload = InfoPayload(
    song: Song, albumTitle: string, albumArtist: string, playbackType: int, sourceApp: string, albumArt: string)

  /** Every envelope carries the time it was made, in milliseconds. */
  datatype Msg =
    | Hello(ts: int)
    | Info(ts: int, payload: InfoPayload)
    | Progress(ts: int, progress: ProgressData)
    | Sessions(ts: int, sessions: seq<SessionInfo>)
    | Reload(ts: int)
    | Ping(ts: int)

  /** The newest info message of a sequence. */
  function LastInfoMsg(msgs: seq<Msg>): (r: Option<Msg>)
    ensures r.Some? ==> r.value.Info? && r.value in msgs
    ensures r.None? ==> forall m | m in msgs :: !m.Info?
  {
    if msgs == [] then None
    else
      var m := msgs[|msgs| - 1];
      if m.Info? then Some(m) else LastInfoMsg(msgs[..|msgs| - 1])
  }

  lemma LastInfoMsgAppend(msgs: seq<Msg>, m: Msg)
    ensures LastInfoMsg(msgs + [m]) == if m.Info? then Some(m) else LastInfoMsg(msgs)
  {
    assert (msgs + [m])[..|msgs|] == msgs;
  }
}
