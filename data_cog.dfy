/** The `DataCog` commands of cogs/data.py over an abstract Discord: the
    text channels of each guild, the message history of each channel, the
    embed messages that exist, and the `data_report_meta` table as a map from
    guild to the stored reference of its report message.

    Sending a message allocates the next message id; fetching a message that
    is not in the store is `NotFound`. The clock is the `now` parameter, the
    text `_now_paris_str` would return. The admin check and the presence of
    a guild on the interaction are parameters too. */
module Ledger {
  import opened Text
  import opened Decimal
  import opened Journal
  import opened Report

  const DATA_LOG_CHANNEL_ID: nat := 1422520352138858506
  const DATA_REPORT_CHANNEL_ID: nat := 1420820345891590316

  /** A message: the channel it lives in and its id. */
  datatype MsgRef = MsgRef(channel: nat, id: nat)

  /** A row of `data_report_meta`. */
  datatype Meta = Meta(channelId: nat, msgId: nat, updatedAt: string)

  /** What the command answers the user (ephemerally); `Silent` when there is
      no guild and the command returns without an answer. */
  datatype Reply = NotAdmin | Silent | InvalidInput | NoLogChannel | NoReportChannel
                 | Recorded | Reset | Rebuilt

  /** The embed `_ensure_report_up_to_date` builds from a journal history. */
  function ReportEmbed(history: seq<Message>, now: string): Embed {
    var t := TablesOf(Entries(history));
    MakeEmbed(t.secAchats, t.secVentes, t.footer, now)
  }

  /** Read the journal, build the tables and lay out the embed. */
  method BuildReport(history: seq<Message>, now: string) returns (e: Embed)
    ensures e == ReportEmbed(history, now)
  {
    var lines := ReadJournal(history);
    var t := BuildTables(lines);
    e := MakeEmbed(t.secAchats, t.secVentes, t.footer, now);
  }

  /** The embed of `/data_ini`. */
  function EmptyEmbed(now: string): Embed {
    MakeEmbed(EMPTY_ACHATS, EMPTY_VENTES, EMPTY_FOOTER, now)
  }

  /** `/data` accepts the two inputs when both parse and both are positive. */
  predicate ValidAmounts(montant: string, taux: string) {
    ParseDecimal(montant).Some? && ParseDecimal(taux).Some?
    && Value(ParseDecimal(montant).value) > 0.0 && Value(ParseDecimal(taux).value) > 0.0
  }

  class DataCog {
    /** The text channels of each guild (`guild.get_channel` finds only these). */
    var channels: map<nat, set<nat>>
    /** The messages of each channel, oldest first. */
    var history: map<nat, seq<Message>>
    /** The report embeds that exist. */
    var reports: map<MsgRef, Embed>
    /** `data_report_meta`. */
    var meta: map<nat, Meta>
    /** The id the next sent message gets. */
    var nextId: nat

    /** Every existing message has an id below the next one, and ids are
        never zero. */
    ghost predicate Valid()
      reads this
    {
      nextId >= 1 && forall r :: r in reports ==> r.id < nextId
    }

    constructor (channels: map<nat, set<nat>>, history: map<nat, seq<Message>>)
      ensures Valid()
      ensures this.channels == channels && this.history == history
      ensures reports == map[] && meta == map[]
    {
      this.channels := channels;
      this.history := history;
      reports := map[];
      meta := map[];
      nextId := 1;
    }

    function TextChannels(guild: nat): set<nat>
      reads this`channels
    {
      if guild in channels then channels[guild] else {}
    }

    function History(channel: nat): seq<Message>
      reads this`history
    {
      if channel in history then history[channel] else []
    }

    /** `ch_id and msg_id` after `_select_report_meta`: a stored reference
        with both ids set (a missing row reads as none). */
    function StoredRef(guild: nat): (r: Option<MsgRef>)
      reads this`meta
      ensures r.Some? <==> guild in meta && meta[guild].channelId != 0 && meta[guild].msgId != 0
      ensures r.Some? ==> r.value == MsgRef(meta[guild].channelId, meta[guild].msgId)
    {
      if guild in meta && meta[guild].channelId != 0 && meta[guild].msgId != 0 then
        Some(MsgRef(meta[guild].channelId, meta[guild].msgId))
      else None
    }

    /** The message the publish step edits: the stored reference, unless a
        new message is forced, its channel is not a text channel of the
        guild, or fetching it is `NotFound`. */
    function Resolve(guild: nat, force: bool): (r: Option<MsgRef>)
      reads this`meta, this`channels, this`reports
      ensures r.Some? <==> !force && StoredRef(guild).Some? && StoredRef(guild).value.channel in TextChannels(guild)
                           && StoredRef(guild).value in reports
      ensures r.Some? ==> r == StoredRef(guild)
    {
      if force then None
      else
        var stored :- StoredRef(guild);
        if stored.channel in TextChannels(guild) && stored in reports then Some(stored) else None
    }

    /** The guild's report message resolves and shows `e`. */
    ghost predicate Shows(guild: nat, e: Embed)
      reads this`meta, this`channels, this`reports
    {
      Resolve(guild, false).Some? && reports[Resolve(guild, false).value] == e
    }

    /** The edit-or-create rule of the publish step, from the state before it
        to the state after: the message that resolved is edited to show `e`
        and nothing else changes; when none resolved, `e` is sent as the next
        message of the report channel and becomes the guild's meta row. */
    twostate predicate Republished(guild: nat, e: Embed, force: bool, now: string)
      reads this
    {
      && (old(Resolve(guild, force)).Some? ==>
            reports == old(reports)[old(Resolve(guild, force)).value := e]
            && meta == old(meta) && nextId == old(nextId))
      && (old(Resolve(guild, force)).None? ==>
            reports == old(reports)[MsgRef(DATA_REPORT_CHANNEL_ID, old(nextId)) := e]
            && MsgRef(DATA_REPORT_CHANNEL_ID, old(nextId)) !in old(reports)
            && meta == old(meta)[guild := Meta(DATA_REPORT_CHANNEL_ID, old(nextId), now)]
            && nextId == old(nextId) + 1)
    }

    /** `_upsert_report_meta`: the guild's single row becomes the new
        reference; the other guilds' rows are unchanged. */
    method UpsertReportMeta(guild: nat, channelId: nat, msgId: nat, now: string)
      modifies this
      ensures meta == old(meta)[guild := Meta(channelId, msgId, now)]
      ensures channels == old(channels) && history == old(history)
      ensures reports == old(reports) && nextId == old(nextId)
    {
      meta := meta[guild := Meta(channelId, msgId, now)];
    }

    /** Sends a new embed message to `channel`. */
    method SendEmbed(channel: nat, e: Embed) returns (r: MsgRef)
      requires Valid()
      modifies this
      ensures Valid()
      ensures r == MsgRef(channel, old(nextId)) && r !in old(reports)
      ensures reports == old(reports)[r := e] && nextId == old(nextId) + 1
      ensures channels == old(channels) && history == old(history) && meta == old(meta)
    {
      r := MsgRef(channel, nextId);
      reports := reports[r := e];
      nextId := nextId + 1;
    }

    /** The create-or-edit step shared by `_ensure_report_up_to_date` and
        `/data_ini`: edit the resolved message, or else send a new one to the
        report channel and overwrite the guild's reference. Either way the
        guild's reference then shows the embed. */
    method Publish(guild: nat, e: Embed, force: bool, now: string)
      requires Valid()
      requires DATA_REPORT_CHANNEL_ID in TextChannels(guild)
      modifies this
      ensures Valid()
      ensures Shows(guild, e)
      ensures channels == old(channels) && history == old(history)
      ensures Republished(guild, e, force, now)
    {
      var msg := Resolve(guild, force);
      if msg.Some? {
        reports := reports[msg.value := e];
        assert StoredRef(guild) == msg;
      } else {
        var r := SendEmbed(DATA_REPORT_CHANNEL_ID, e);
        UpsertReportMeta(guild, DATA_REPORT_CHANNEL_ID, r.id, now);
        assert StoredRef(guild) == Some(r);
      }
    }

    /** `_ensure_report_up_to_date`: rebuild the report from the whole journal
        and publish it; nothing happens when the journal or the report channel
        is missing. */
    method EnsureReportUpToDate(guild: nat, force: bool, now: string)
      requires Valid()
      modifies this
      ensures Valid()
      ensures channels == old(channels) && history == old(history)
      ensures DATA_LOG_CHANNEL_ID !in TextChannels(guild) || DATA_REPORT_CHANNEL_ID !in TextChannels(guild)
              ==> reports == old(reports) && meta == old(meta) && nextId == old(nextId)
      ensures DATA_LOG_CHANNEL_ID in TextChannels(guild) && DATA_REPORT_CHANNEL_ID in TextChannels(guild)
              ==> Shows(guild, ReportEmbed(History(DATA_LOG_CHANNEL_ID), now))
                  && Republished(guild, ReportEmbed(History(DATA_LOG_CHANNEL_ID), now), force, now)
    {
      if DATA_LOG_CHANNEL_ID !in TextChannels(guild) {
        return;
      }
      var e := BuildReport(History(DATA_LOG_CHANNEL_ID), now);
      if DATA_REPORT_CHANNEL_ID !in TextChannels(guild) {
        return;
      }
      Publish(guild, e, force, now);
    }

    /** `/data`: validate, post the human line and the tag to the journal,
        then bring the report up to date. Nothing is posted or changed when
        the user is not an admin, there is no guild, an input is invalid or
        the journal channel is missing. */
    method Data(guild: Option<nat>, isAdmin: bool, kind: Kind, montant: string, taux: string,
                userId: nat, display: string, now: string) returns (reply: Reply)
      requires Valid()
      modifies this
      ensures Valid()
      ensures !isAdmin ==> reply == NotAdmin && unchanged(this)
      ensures isAdmin && guild.None? ==> reply == Silent && unchanged(this)
      ensures isAdmin && guild.Some? && !ValidAmounts(montant, taux) ==> reply == InvalidInput && unchanged(this)
      ensures isAdmin && guild.Some? && ValidAmounts(montant, taux)
              && DATA_LOG_CHANNEL_ID !in old(TextChannels(guild.value))
              ==> reply == NoLogChannel && unchanged(this)
      ensures reply == Recorded <==>
                isAdmin && guild.Some? && ValidAmounts(montant, taux)
                && DATA_LOG_CHANNEL_ID in old(TextChannels(guild.value))
      ensures reply == Recorded ==>
                var m, r := ParseDecimal(montant).value, ParseDecimal(taux).value;
                history == old(history)[DATA_LOG_CHANNEL_ID :=
                  old(History(DATA_LOG_CHANNEL_ID)) + [Message(true, PostText(kind, display, m, r, userId))]]
                && channels == old(channels)
                && (DATA_REPORT_CHANNEL_ID in TextChannels(guild.value)
                    ==> Shows(guild.value, ReportEmbed(History(DATA_LOG_CHANNEL_ID), now))
                        && Republished(guild.value, ReportEmbed(History(DATA_LOG_CHANNEL_ID), now), false, now))
                && (DATA_REPORT_CHANNEL_ID !in TextChannels(guild.value)
                    ==> reports == old(reports) && meta == old(meta) && nextId == old(nextId))
    {
      if !isAdmin {
        return NotAdmin;
      }
      if guild.None? {
        return Silent;
      }
      var g := guild.value;
      var mParsed := ParseDecimal(montant);
      var rParsed := ParseDecimal(taux);
      if mParsed.None? || rParsed.None? || Value(mParsed.value) <= 0.0 || Value(rParsed.value) <= 0.0 {
        return InvalidInput;
      }
      if DATA_LOG_CHANNEL_ID !in TextChannels(g) {
        return NoLogChannel;
      }
      var post := PostText(kind, display, mParsed.value, rParsed.value, userId);
      PostAndRefresh(g, post, now);
      reply := Recorded;
    }

    /** The recording step of `/data`: the message goes to the end of the
        journal, then the report is brought up to date from it. */
    method PostAndRefresh(guild: nat, post: string, now: string)
      requires Valid() && DATA_LOG_CHANNEL_ID in TextChannels(guild)
      modifies this
      ensures Valid()
      ensures history == old(history)[DATA_LOG_CHANNEL_ID := old(History(DATA_LOG_CHANNEL_ID)) + [Message(true, post)]]
      ensures channels == old(channels)
      ensures DATA_REPORT_CHANNEL_ID in TextChannels(guild) ==>
                Shows(guild, ReportEmbed(History(DATA_LOG_CHANNEL_ID), now))
                && Republished(guild, ReportEmbed(History(DATA_LOG_CHANNEL_ID), now), false, now)
      ensures DATA_REPORT_CHANNEL_ID !in TextChannels(guild) ==>
                reports == old(reports) && meta == old(meta) && nextId == old(nextId)
    {
      history := history[DATA_LOG_CHANNEL_ID := History(DATA_LOG_CHANNEL_ID) + [Message(true, post)]];
      EnsureReportUpToDate(guild, false, now);
    }

    /** `/data_ini`: publish the empty report without reading the journal. */
    method DataIni(guild: Option<nat>, isAdmin: bool, now: string) returns (reply: Reply)
      requires Valid()
      modifies this
      ensures Valid()
      ensures channels == old(channels) && history == old(history)
      ensures !isAdmin ==> reply == NotAdmin && unchanged(this)
      ensures isAdmin && guild.None? ==> reply == Silent && unchanged(this)
      ensures isAdmin && guild.Some? && DATA_REPORT_CHANNEL_ID !in TextChannels(guild.value)
              ==> reply == NoReportChannel && unchanged(this)
      ensures reply == Reset <==>
                isAdmin && guild.Some? && DATA_REPORT_CHANNEL_ID in TextChannels(guild.value)
      ensures reply == Reset ==>
                Shows(guild.value, EmptyEmbed(now)) && Republished(guild.value, EmptyEmbed(now), false, now)
    {
      if !isAdmin {
        return NotAdmin;
      }
      if guild.None? {
        return Silent;
      }
      var g := guild.value;
      var e := EmptyEmbed(now);
      if DATA_REPORT_CHANNEL_ID !in TextChannels(g) {
        return NoReportChannel;
      }
      Publish(g, e, false, now);
      reply := Reset;
    }

    /** `/data_rebuild`: re-read the journal and publish, editing the stored
        message when it resolves. */
    method DataRebuild(guild: Option<nat>, isAdmin: bool, now: string) returns (reply: Reply)
      requires Valid()
      modifies this
      ensures Valid()
      ensures channels == old(channels) && history == old(history)
      ensures !isAdmin ==> reply == NotAdmin && unchanged(this)
      ensures isAdmin && guild.None? ==> reply == Silent && unchanged(this)
      ensures reply == Rebuilt <==> isAdmin && guild.Some?
      ensures reply == Rebuilt && DATA_LOG_CHANNEL_ID in TextChannels(guild.value)
              && DATA_REPORT_CHANNEL_ID in TextChannels(guild.value)
              ==> Shows(guild.value, ReportEmbed(History(DATA_LOG_CHANNEL_ID), now))
                  && Republished(guild.value, ReportEmbed(History(DATA_LOG_CHANNEL_ID), now), false, now)
      ensures reply == Rebuilt && (DATA_LOG_CHANNEL_ID !in TextChannels(guild.value)
                                   || DATA_REPORT_CHANNEL_ID !in TextChannels(guild.value))
              ==> reports == old(reports) && meta == old(meta) && nextId == old(nextId)
    {
      if !isAdmin {
        return NotAdmin;
      }
      if guild.None? {
        return Silent;
      }
      EnsureReportUpToDate(guild.value, false, now);
      reply := Rebuilt;
    }
  }

  /** The report of an empty journal is the `/data_ini` embed. */
  lemma {:induction false} EmptyJournalReport(now: string)
    ensures ReportEmbed([], now) == EmptyEmbed(now)
  {
    EmptyReportIsRendered();
  }

  /** The post of `/data` adds exactly one entry to the journal: the line of
      the command's kind, numbers and user id, or, when the human sentence
      already carries a tag, the line of that tag. */
  lemma {:induction false} PostAppendsEntry(h: seq<Message>, k: Kind, display: string, m: Dec, rate: Dec,
                                            userId: nat)
    requires userId >= 10000
    ensures var post := PostText(k, display, m, rate, userId);
            var first := FirstTag(SplitLines(HumanText(k, display, Value(m), Value(rate))));
            && (first.None? ==>
                  Entries(h + [Message(true, post)])
                  == Entries(h) + [MakeLine(k, TagName(MatchHuman(post), userId), Some(userId), Value(m), Value(rate))])
            && (first.Some? ==>
                  Entries(h + [Message(true, post)]) == Entries(h) + [TaggedEntry(first.value, MatchHuman(post))])
  {
    var post := PostText(k, display, m, rate, userId);
    EntriesAppend(h, [Message(true, post)]);
    PostEntry(k, display, m, rate, userId);
    assert [Message(true, post)][..0] == [];
    assert Entries([Message(true, post)]) == Entries([]) + EntryList(Message(true, post));
  }
}
