/** Reconnecting over SSE, end to end: the position a client sends back, and the history it gets. */
module Reconnect {
  import opened Basics
  import opened StreamLog
  import opened ServerSentEvents
  import H = StreamHistory

  // A client last received the message at offset k of a stream, and reconnects later. Its last
  // event id is parsed to that position, and what it then gets from the stream's history is
  // exactly what was sent after that message, if and only if no sweep in between came more than
  // ten TTLs after the stream's last message.
  lemma ReconnectGetsTheRestIff(
      before: seq<H.Op>, after: seq<H.Op>, conf: H.Conf, k: nat, epoch: string, stream: string,
      c: Client, earlier: seq<Message>, m: Message, later: seq<Message>)
    requires conf.limit >= 1 && conf.ttl >= 0 && H.Chronological(before + after) && |before| + |after| < U64
    requires 1 <= k <= H.Last(H.Run(H.FRESH, before, conf)) && k < U64
    requires H.HistoryFrom(H.Run(H.FRESH, before + after, conf), k).Ok?
    requires Idle(c) && Tidy(c) && AllClean(earlier) && AllClean(later) && OneLine(m.kind)
    requires epoch != "" && stream != "" && '/' !in epoch && GoodId(epoch) && GoodId(stream)
    requires m.id == IdFor(k, epoch, stream) && forall i :: 0 <= i < |later| ==> later[i].id.None?
    ensures var position := ParseLastId(Parse(c, StreamText(earlier + [m] + later)).lastId);
            var was, now := H.Run(H.FRESH, before, conf), H.Run(H.FRESH, before + after, conf);
            && position == At(k, epoch, stream)
            && was.start + k <= |now.sent|
            && (H.Texts(H.HistoryFrom(now, position.offset).value) == now.sent[was.start + k..] <==>
                 H.NeverIdle(before + after, |before|, conf.ttl))
  {
    hide H.Run, H.NeverIdle, H.Chronological, H.Texts, H.HistoryFrom, Parse, StreamText, ParseLastId, Tidy, AllClean;
    ReconnectResumes(c, earlier, m, later, k, epoch, stream);
    H.ResumeIffNeverIdle(before, after, conf, k);
  }
}
