/** The filter `handle_message` applies to each Slack message event: drop
    every event with a subtype (edits, deletions, joins, ...) or a bot id, and
    of the rest process only those whose channel is monitored. */
module Intake {
  import opened Values

  /** The fields of a Slack message event the agent reads; `None` is a
      missing key. */
  datatype Event = Event(
    subtype: Option<string>,
    botId: Option<string>,
    channel: Option<string>,
    user: Option<string>,
    text: Option<string>,
    ts: Option<string>)

  /** `event.get('subtype') or event.get('bot_id')`: the event carries a
      non-empty subtype or a non-empty bot id. */
  predicate IsNoise(e: Event): (noise: bool)
    ensures noise <==> (e.subtype.Some? && |e.subtype.value| > 0) || (e.botId.Some? && |e.botId.value| > 0)
  {
    TruthyStr(e.subtype) || TruthyStr(e.botId)
  }

  /** `event.get('text', '')`: the message text, empty when there is none. */
  function TextOf(e: Event): (text: string)
    ensures e.text.Some? ==> text == e.text.value
    ensures e.text.None? ==> text == ""
  {
    GetOr(e.text, "")
  }

  datatype Admission = Ignored | NotMonitored(name: string) | Admitted(name: string)

  /** The handler's decision for event `e`, given the name the channel lookup
      returns for it (only consulted for events that are not noise). */
  function Admit(e: Event, channelName: string, monitored: seq<string>): (r: Admission)
    ensures r == Ignored <==> IsNoise(e)
    ensures r == Admitted(channelName) <==> !IsNoise(e) && channelName in monitored
    ensures r.NotMonitored? ==> r.name == channelName && channelName !in monitored
    ensures r.Admitted? ==> r.name == channelName
  {
    if IsNoise(e) then Ignored
    else if channelName !in monitored then NotMonitored(channelName)
    else Admitted(channelName)
  }

  /** Whether an event is dropped as noise does not depend on its channel:
      the decision is taken before the channel is looked up. */
  lemma NoiseIndependentOfChannel(e: Event, name1: string, name2: string, m1: seq<string>, m2: seq<string>)
    ensures Admit(e, name1, m1) == Ignored <==> Admit(e, name2, m2) == Ignored
  {
  }

  /** Only membership in the monitored list matters: duplicates and order in
      it make no difference. */
  lemma MonitoredListAsSet(e: Event, name: string, m1: seq<string>, m2: seq<string>)
    requires forall c :: c in m1 <==> c in m2
    ensures Admit(e, name, m1) == Admit(e, name, m2)
  {
  }
}
