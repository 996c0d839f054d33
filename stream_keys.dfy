/** The stream key a heartbeat carries: `call:<id>:1`, naming a call the user is in when one
    can be found and the quest otherwise. */
module StreamKeys {
  import opened JsValues

  /** A guild as the guild channel store lists it: `vocal` holds the channel ids of its `VOCAL`
      group, `None` when the guild entry or that group is missing. */
  datatype Guild = Guild(vocal: Option<seq<string>>)

  /** What the heartbeat step reads from the channel stores. `privateChannels` holds the ids of
      the sorted private channels, `None` when the channel store was not found; `guilds` is
      `None` when the guild channel store was not found. An empty id stands for a missing one:
      both are falsy. */
  datatype ChannelView = ChannelView(privateChannels: Option<seq<string>>,
                                     guilds: Option<seq<Guild>>)

  /** `g?.VOCAL?.length > 0` */
  predicate HasVoice(g: Guild) {
    g.vocal.Some? && |g.vocal.value| > 0
  }

  /** The position of the first guild with a voice channel, `|guilds|` when there is none. */
  function FirstVoiceGuild(guilds: seq<Guild>): (k: nat)
    ensures k <= |guilds|
    ensures k < |guilds| ==> HasVoice(guilds[k])
    ensures forall j :: 0 <= j < k ==> !HasVoice(guilds[j])
  {
    if guilds == [] then 0
    else if HasVoice(guilds[0]) then 0
    else
      var k := FirstVoiceGuild(guilds[1..]);
      assert forall j :: 1 <= j < |guilds| ==> guilds[j] == guilds[1..][j - 1];
      1 + k
  }

  /** `ChannelStore?.getSortedPrivateChannels()[0]?.id`, `""` when missing. */
  function FirstPrivateId(view: ChannelView): string {
    if view.privateChannels.Some? && |view.privateChannels.value| > 0
    then view.privateChannels.value[0]
    else ""
  }

  /** The id of the first channel of the first guild with a voice channel, `""` when none. */
  function VoiceChannelId(guilds: seq<Guild>): string {
    var k := FirstVoiceGuild(guilds);
    if k < |guilds| then guilds[k].vocal.value[0] else ""
  }

  /** The channel id the heartbeat step resolves, `""` when it resolves none: the private
      channel's id when it is non-empty; otherwise, when the guild channel store is present,
      the first voice channel's id. */
  function ChannelId(view: ChannelView): string {
    var first := FirstPrivateId(view);
    if first != "" then first
    else if view.guilds.Some? then VoiceChannelId(view.guilds.value)
    else first
  }

  function CallKey(id: string): string {
    "call:" + id + ":1"
  }

  /** Reads the id back out of a key of the shape `call:<id>:1`. */
  function ParseCallKey(key: string): Option<string> {
    if |key| >= 7 && key[..5] == "call:" && key[|key| - 2..] == ":1"
    then Some(key[5..|key| - 2])
    else None
  }

  lemma {:induction false} CallKeyRoundTrip(id: string)
    ensures ParseCallKey(CallKey(id)) == Some(id)
  {
    var key := CallKey(id);
    assert key[..5] == "call:";
    assert key[|key| - 2..] == ":1";
    assert key[5..|key| - 2] == id;
  }

  lemma {:induction false} ParsedKeyIsCallKey(key: string)
    ensures ParseCallKey(key).Some? ==> CallKey(ParseCallKey(key).value) == key
  {
    if ParseCallKey(key).Some? {
      assert key == key[..5] + key[5..|key| - 2] + key[|key| - 2..];
    }
  }

  /** Different ids give different keys. */
  lemma {:induction false} CallKeyInjective(a: string, b: string)
    ensures CallKey(a) == CallKey(b) ==> a == b
  {
    CallKeyRoundTrip(a);
    CallKeyRoundTrip(b);
  }

  /** `processHeartbeatStep`'s stream key. */
  function StreamKey(view: ChannelView, questId: string): string {
    var id := ChannelId(view);
    CallKey(if id != "" then id else questId)
  }

  /** The stream key names the first private channel when there is one, else the first voice
      channel of the first guild that has one, else the quest itself. */
  lemma {:induction false} StreamKeyChoice(view: ChannelView, questId: string)
    ensures FirstPrivateId(view) != "" ==> StreamKey(view, questId) == CallKey(FirstPrivateId(view))
    ensures FirstPrivateId(view) == "" && view.guilds.Some? && VoiceChannelId(view.guilds.value) != "" ==>
              StreamKey(view, questId) == CallKey(VoiceChannelId(view.guilds.value))
    ensures FirstPrivateId(view) == "" && (view.guilds.None? || VoiceChannelId(view.guilds.value) == "") ==>
              StreamKey(view, questId) == CallKey(questId)
  {
  }

  /** The id a stream key names is the resolved channel, or the quest when none resolved. */
  lemma {:induction false} StreamKeyNamesItsId(view: ChannelView, questId: string)
    ensures ParseCallKey(StreamKey(view, questId)) ==
            Some(if ChannelId(view) != "" then ChannelId(view) else questId)
  {
    var id := ChannelId(view);
    CallKeyRoundTrip(if id != "" then id else questId);
  }
}
