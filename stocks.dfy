/** The `Stocks` cog of cogs/stocks.py: per-admin stock balances in kamas, a
    per-guild global row that is always recomputed as the sum of the admins,
    an append-only log of movements, and the fixed embed messages that show
    the balances.

    The three SQLite tables are maps and a sequence; Discord is the channels
    of each guild and the embed messages that exist, with sending allocating
    the next message id and a fetch of a missing message being `NotFound`.
    The clock is the `now` parameter; the admin-role checks are parameters. */
module Stocks {
  import opened Text

  const GLOBAL_CHANNEL_ID: nat := 1420819402198356082
  const ADMINS_CHANNEL_ID: nat := 1420820345891590316

  /** A row of `stock_admin` (without its key). */
  datatype AdminRow = AdminRow(amount: int, msgChannelId: Option<nat>, msgId: Option<nat>, updatedAt: Option<string>)

  /** A row of `stock_global` (without its key). */
  datatype GlobalRow = GlobalRow(amount: int, msgChannelId: Option<nat>, msgId: Option<nat>, updatedAt: Option<string>)

  /** A row of `stock_movements`; `kind` is `achat`, `vente` or `manual`. */
  datatype Movement = Movement(guild: nat, adminId: Option<nat>, kind: string, amount: nat, createdAt: string)

  datatype ChannelKind = TextChannel | Thread | OtherChannel

  datatype MsgRef = MsgRef(channel: nat, id: nat)

  /** What an embed shows: the amount and the update time (title, colour,
      thumbnail and the thousands formatting are presentation). */
  datatype StockView = GlobalView(amount: int, updatedAt: string)
                     | AdminView(adminId: nat, amount: int, updatedAt: string)

  datatype StockReply = NotAdmin | TargetNotAdmin | Silent | NoChannel | Done | Disabled

  const NO_ADMIN_ROW: AdminRow := AdminRow(0, None, None, None)
  const NO_GLOBAL_ROW: GlobalRow := GlobalRow(0, None, None, None)

  /** Python truthiness of an optional id: present and not zero. */
  predicate Truthy(o: Option<nat>) { o.Some? && o.value != 0 }

  /** `updated_at or _now_paris_str()`. */
  function OrNow(updatedAt: Option<string>, now: string): (s: string)
    ensures updatedAt.Some? && updatedAt.value != "" ==> s == updatedAt.value
    ensures updatedAt.None? || updatedAt.value == "" ==> s == now
  {
    if updatedAt.Some? && updatedAt.value != "" then updatedAt.value else now
  }

  /** The new admin amount of a transaction, floored at zero. */
  function NewAmount(kind: string, current: int, amount: int): (n: int)
    ensures n >= 0
    ensures kind == "achat" ==> n == if current + amount > 0 then current + amount else 0
    ensures kind != "achat" ==> n == if current - amount > 0 then current - amount else 0
  {
    var delta := if kind == "achat" then amount else -amount;
    if current + delta > 0 then current + delta else 0
  }

  function AbsInt(x: int): (a: nat)
    ensures a == x || a == -x
  {
    if x < 0 then -x else x
  }

  /** Replaces the message `r` (when there is one) by `v`. */
  function EditAt(m: map<MsgRef, StockView>, r: Option<MsgRef>, v: StockView): map<MsgRef, StockView> {
    if r.Some? then m[r.value := v] else m
  }

  // ---------------------------------------------------------------------------
  // SUM(amount) over a set of keys
  // ---------------------------------------------------------------------------

  ghost function SumAmounts(rows: map<(nat, nat), AdminRow>, keys: set<(nat, nat)>): int
    requires keys <= rows.Keys
    decreases keys
  {
    if keys == {} then 0
    else
      var k :| k in keys;
      rows[k].amount + SumAmounts(rows, keys - {k})
  }

  /** The sum does not depend on which key is taken first. */
  lemma {:induction false} SumRemove(rows: map<(nat, nat), AdminRow>, keys: set<(nat, nat)>, k: (nat, nat))
    requires keys <= rows.Keys && k in keys
    ensures SumAmounts(rows, keys) == rows[k].amount + SumAmounts(rows, keys - {k})
    decreases keys
  {
    var j :| j in keys && SumAmounts(rows, keys) == rows[j].amount + SumAmounts(rows, keys - {j});
    if j != k {
      SumRemove(rows, keys - {j}, k);
      SumRemove(rows, keys - {k}, j);
      assert keys - {j} - {k} == keys - {k} - {j};
    }
  }

  /** Two tables that agree on the keys have the same sum over them. */
  lemma {:induction false} SumFrame(a: map<(nat, nat), AdminRow>, b: map<(nat, nat), AdminRow>,
                                    keys: set<(nat, nat)>)
    requires keys <= a.Keys && keys <= b.Keys
    requires forall k :: k in keys ==> a[k].amount == b[k].amount
    ensures SumAmounts(a, keys) == SumAmounts(b, keys)
    decreases keys
  {
    if keys != {} {
      var k :| k in keys && SumAmounts(a, keys) == a[k].amount + SumAmounts(a, keys - {k});
      SumRemove(b, keys, k);
      SumFrame(a, b, keys - {k});
    }
  }

  /** Amounts that are never negative sum to a non-negative total. */
  lemma {:induction false} SumNonNegative(rows: map<(nat, nat), AdminRow>, keys: set<(nat, nat)>)
    requires keys <= rows.Keys
    requires forall k :: k in keys ==> rows[k].amount >= 0
    ensures SumAmounts(rows, keys) >= 0
    decreases keys
  {
    if keys != {} {
      var k :| k in keys && SumAmounts(rows, keys) == rows[k].amount + SumAmounts(rows, keys - {k});
      SumNonNegative(rows, keys - {k});
    }
  }

  function KeysOf(rows: map<(nat, nat), AdminRow>, guild: nat): (ks: set<(nat, nat)>)
    ensures ks <= rows.Keys
    ensures forall k :: k in ks <==> k in rows && k.0 == guild
  {
    set k | k in rows.Keys && k.0 == guild
  }

  /** The sum of one guild's admin amounts; a guild without rows sums to 0. */
  ghost function GuildSum(rows: map<(nat, nat), AdminRow>, guild: nat): int {
    SumAmounts(rows, KeysOf(rows, guild))
  }

  /** Setting one admin's amount changes that guild's sum by the difference
      (a missing row counts as 0) and leaves every other guild's sum alone. */
  lemma {:induction false} GuildSumUpdate(rows: map<(nat, nat), AdminRow>, k: (nat, nat), row: AdminRow, guild: nat)
    ensures var before := if k in rows then rows[k].amount else 0;
            GuildSum(rows[k := row], guild)
            == GuildSum(rows, guild) + (if guild == k.0 then row.amount - before else 0)
  {
    var rows' := rows[k := row];
    var ks, ks' := KeysOf(rows, guild), KeysOf(rows', guild);
    if guild != k.0 {
      assert ks == ks';
      SumFrame(rows, rows', ks);
    } else {
      var rest := ks - {k};
      assert ks' - {k} == rest;
      SumRemove(rows', ks', k);
      SumFrame(rows, rows', rest);
      if k in rows {
        SumRemove(rows, ks, k);
      } else {
        assert ks == rest;
      }
    }
  }

  /** After one admin row is replaced, only that guild's sum moves, by the
      change of that row. */
  lemma {:induction false} AdminSums(rows: map<(nat, nat), AdminRow>, guild: nat, admin: nat, row: AdminRow)
    ensures forall g :: g != guild ==> GuildSum(rows[(guild, admin) := row], g) == GuildSum(rows, g)
    ensures GuildSum(rows[(guild, admin) := row], guild)
            == GuildSum(rows, guild) + row.amount - (if (guild, admin) in rows then rows[(guild, admin)].amount else 0)
  {
    forall g | g != guild ensures GuildSum(rows[(guild, admin) := row], g) == GuildSum(rows, g) {
      GuildSumUpdate(rows, (guild, admin), row, g);
    }
    GuildSumUpdate(rows, (guild, admin), row, guild);
  }

  class StockDb {
    /** `stock_admin`, keyed by `(guild_id, admin_id)`. */
    var admins: map<(nat, nat), AdminRow>
    /** `stock_global`, keyed by `guild_id`. */
    var globals: map<nat, GlobalRow>
    /** `stock_movements`, in insertion order. */
    var movements: seq<Movement>
    /** The channels of each guild. */
    var channels: map<nat, map<nat, ChannelKind>>
    /** The embed messages that exist. */
    var embeds: map<MsgRef, StockView>
    /** The id the next sent message gets. */
    var nextId: nat

    /** The global amount of every guild is the sum of its admins, amounts
        are never negative, and message ids are fresh and non-zero. */
    ghost predicate Valid()
      reads this
    {
      && (forall g :: GlobalOf(g).amount == GuildSum(admins, g))
      && (forall k :: k in admins ==> admins[k].amount >= 0)
      && nextId >= 1 && (forall r :: r in embeds ==> r.id < nextId)
    }

    constructor (channels: map<nat, map<nat, ChannelKind>>)
      ensures Valid()
      ensures this.channels == channels
      ensures admins == map[] && globals == map[] && movements == [] && embeds == map[]
    {
      this.channels := channels;
      admins := map[];
      globals := map[];
      movements := [];
      embeds := map[];
      nextId := 1;
      new;
      assert forall g :: KeysOf(admins, g) == {};
    }

    // -------------------------------------------------------------------------
    // Table reads
    // -------------------------------------------------------------------------

    /** `_select_admin`: a missing row reads as amount 0 and no ids. */
    function AdminOf(guild: nat, admin: nat): (row: AdminRow)
      reads this`admins
      ensures (guild, admin) in admins ==> row == admins[(guild, admin)]
      ensures (guild, admin) !in admins ==> row == NO_ADMIN_ROW
    {
      if (guild, admin) in admins then admins[(guild, admin)] else NO_ADMIN_ROW
    }

    /** `_select_global`: a missing row reads as amount 0 and no ids. */
    function GlobalOf(guild: nat): (row: GlobalRow)
      reads this`globals
      ensures guild in globals ==> row == globals[guild]
      ensures guild !in globals ==> row == NO_GLOBAL_ROW
    {
      if guild in globals then globals[guild] else NO_GLOBAL_ROW
    }

    function ChannelKindOf(guild: nat, channel: nat): Option<ChannelKind>
      reads this`channels
    {
      if guild in channels && channel in channels[guild] then Some(channels[guild][channel]) else None
    }

    /** The message a refresh edits: both ids stored, the channel a text
        channel or thread of the guild, and the message still there. */
    function ResolveRef(guild: nat, channelId: Option<nat>, msgId: Option<nat>): (r: Option<MsgRef>)
      reads this`channels, this`embeds
      ensures r.Some? <==> Truthy(channelId) && Truthy(msgId)
                           && ChannelKindOf(guild, channelId.value) in {Some(TextChannel), Some(Thread)}
                           && MsgRef(channelId.value, msgId.value) in embeds
      ensures r.Some? ==> r.value == MsgRef(channelId.value, msgId.value)
    {
      if Truthy(channelId) && Truthy(msgId)
         && ChannelKindOf(guild, channelId.value) in {Some(TextChannel), Some(Thread)}
         && MsgRef(channelId.value, msgId.value) in embeds
      then Some(MsgRef(channelId.value, msgId.value))
      else None
    }

    /** `_sum_admins`: `SUM(amount)` over the guild's rows, 0 when there are
        none. */
    method SumAdmins(guild: nat) returns (total: int)
      ensures total == GuildSum(admins, guild)
    {
      var keys := KeysOf(admins, guild);
      var rest := keys;
      total := 0;
      while rest != {}
        invariant rest <= keys
        invariant total + SumAmounts(admins, rest) == SumAmounts(admins, keys)
        decreases rest
      {
        var k :| k in rest;
        SumRemove(admins, rest, k);
        total := total + admins[k].amount;
        rest := rest - {k};
      }
    }

    // -------------------------------------------------------------------------
    // Table writes
    // -------------------------------------------------------------------------

    /** `_update_admin_amount`: only the amount and the time change; the
        message ids are kept (none for a new row). */
    method UpdateAdminAmount(guild: nat, admin: nat, amount: int, now: string)
      modifies this
      ensures admins == old(admins)[(guild, admin) :=
                AdminRow(amount, old(AdminOf(guild, admin)).msgChannelId, old(AdminOf(guild, admin)).msgId, Some(now))]
      ensures globals == old(globals) && movements == old(movements)
      ensures channels == old(channels) && embeds == old(embeds) && nextId == old(nextId)
    {
      var row := AdminOf(guild, admin);
      admins := admins[(guild, admin) := AdminRow(amount, row.msgChannelId, row.msgId, Some(now))];
    }

    /** `_upsert_admin`: the amount and the time are replaced, an id given as
        none keeps the stored one (`COALESCE`). */
    method UpsertAdmin(guild: nat, admin: nat, amount: int, channelId: Option<nat>, msgId: Option<nat>, now: string)
      modifies this
      ensures admins == old(admins)[(guild, admin) :=
                AdminRow(amount, Coalesce(channelId, old(AdminOf(guild, admin)).msgChannelId),
                         Coalesce(msgId, old(AdminOf(guild, admin)).msgId), Some(now))]
      ensures globals == old(globals) && movements == old(movements)
      ensures channels == old(channels) && embeds == old(embeds) && nextId == old(nextId)
    {
      var row := AdminOf(guild, admin);
      admins := admins[(guild, admin) :=
        AdminRow(amount, Coalesce(channelId, row.msgChannelId), Coalesce(msgId, row.msgId), Some(now))];
    }

    /** `_update_global_amount`. */
    method UpdateGlobalAmount(guild: nat, amount: int, now: string)
      modifies this
      ensures globals == old(globals)[guild :=
                GlobalRow(amount, old(GlobalOf(guild)).msgChannelId, old(GlobalOf(guild)).msgId, Some(now))]
      ensures admins == old(admins) && movements == old(movements)
      ensures channels == old(channels) && embeds == old(embeds) && nextId == old(nextId)
    {
      var row := GlobalOf(guild);
      globals := globals[guild := GlobalRow(amount, row.msgChannelId, row.msgId, Some(now))];
    }

    /** `_upsert_global_meta`. */
    method UpsertGlobalMeta(guild: nat, amount: int, channelId: Option<nat>, msgId: Option<nat>, now: string)
      modifies this
      ensures globals == old(globals)[guild :=
                GlobalRow(amount, Coalesce(channelId, old(GlobalOf(guild)).msgChannelId),
                          Coalesce(msgId, old(GlobalOf(guild)).msgId), Some(now))]
      ensures admins == old(admins) && movements == old(movements)
      ensures channels == old(channels) && embeds == old(embeds) && nextId == old(nextId)
    {
      var row := GlobalOf(guild);
      globals := globals[guild :=
        GlobalRow(amount, Coalesce(channelId, row.msgChannelId), Coalesce(msgId, row.msgId), Some(now))];
    }

    /** `_insert_movement`: one row, holding the absolute amount. */
    method InsertMovement(guild: nat, kind: string, amount: int, admin: Option<nat>, now: string)
      modifies this
      ensures movements == old(movements) + [Movement(guild, admin, kind, AbsInt(amount), now)]
      ensures admins == old(admins) && globals == old(globals)
      ensures channels == old(channels) && embeds == old(embeds) && nextId == old(nextId)
    {
      movements := movements + [Movement(guild, admin, kind, AbsInt(amount), now)];
    }

    method SendEmbed(channel: nat, v: StockView) returns (r: MsgRef)
      requires nextId >= 1 && forall r :: r in embeds ==> r.id < nextId
      modifies this
      ensures r == MsgRef(channel, old(nextId)) && r !in old(embeds)
      ensures embeds == old(embeds)[r := v] && nextId == old(nextId) + 1
      ensures admins == old(admins) && globals == old(globals) && movements == old(movements)
      ensures channels == old(channels)
    {
      r := MsgRef(channel, nextId);
      embeds := embeds[r := v];
      nextId := nextId + 1;
    }

    // -------------------------------------------------------------------------
    // Refreshing the embeds
    // -------------------------------------------------------------------------

    /** Edits the admin's embed when its reference resolves; `NotFound` and a
        missing reference change nothing. */
    method RefreshAdmin(guild: nat, admin: nat, now: string)
      modifies this
      ensures embeds == EditAt(old(embeds), old(ResolveRef(guild, AdminOf(guild, admin).msgChannelId, AdminOf(guild, admin).msgId)),
                               AdminView(admin, old(AdminOf(guild, admin)).amount, OrNow(old(AdminOf(guild, admin)).updatedAt, now)))
      ensures embeds.Keys == old(embeds).Keys
      ensures admins == old(admins) && globals == old(globals) && movements == old(movements)
      ensures channels == old(channels) && nextId == old(nextId)
    {
      var row := AdminOf(guild, admin);
      var r := ResolveRef(guild, row.msgChannelId, row.msgId);
      if r.Some? {
        embeds := embeds[r.value := AdminView(admin, row.amount, OrNow(row.updatedAt, now))];
      }
    }

    /** Edits the global embed when its reference resolves. */
    method RefreshGlobal(guild: nat, now: string)
      modifies this
      ensures embeds == EditAt(old(embeds), old(ResolveRef(guild, GlobalOf(guild).msgChannelId, GlobalOf(guild).msgId)),
                               GlobalView(old(GlobalOf(guild)).amount, OrNow(old(GlobalOf(guild)).updatedAt, now)))
      ensures embeds.Keys == old(embeds).Keys
      ensures admins == old(admins) && globals == old(globals) && movements == old(movements)
      ensures channels == old(channels) && nextId == old(nextId)
    {
      var row := GlobalOf(guild);
      var r := ResolveRef(guild, row.msgChannelId, row.msgId);
      if r.Some? {
        embeds := embeds[r.value := GlobalView(row.amount, OrNow(row.updatedAt, now))];
      }
    }

    /** `_recompute_and_refresh_global`: the guild's global row becomes the
        sum of its admins, then its embed is refreshed. */
    method RecomputeAndRefreshGlobal(guild: nat, now: string)
      requires forall k :: k in admins ==> admins[k].amount >= 0
      requires forall g :: g != guild ==> GlobalOf(g).amount == GuildSum(admins, g)
      requires nextId >= 1 && (forall r :: r in embeds ==> r.id < nextId)
      modifies this
      ensures Valid()
      ensures globals == old(globals)[guild :=
                GlobalRow(GuildSum(admins, guild), old(GlobalOf(guild)).msgChannelId, old(GlobalOf(guild)).msgId, Some(now))]
      ensures embeds == EditAt(old(embeds), old(ResolveRef(guild, GlobalOf(guild).msgChannelId, GlobalOf(guild).msgId)),
                               GlobalView(GuildSum(admins, guild), now))
      ensures admins == old(admins) && movements == old(movements)
      ensures channels == old(channels) && nextId == old(nextId)
    {
      var total := SumAdmins(guild);
      UpdateGlobalAmount(guild, total, now);
      RefreshGlobal(guild, now);
    }

    // -------------------------------------------------------------------------
    // Operations
    // -------------------------------------------------------------------------

    /** The effect of one admin mutation, from the state before it to the
        state after: the admin's row gets the new amount and time with its
        message ids kept, one movement of `|moved|` is logged, the guild's
        global row moves by the admin's difference (no other guild's row
        changes), and the admin embed then the global embed are edited where
        their references resolve. No message is sent. */
    twostate predicate AdminChanged(guild: nat, admin: nat, newAmount: int, kind: string, moved: int, now: string)
      reads this
    {
      var before := old(AdminOf(guild, admin));
      && admins == old(admins)[(guild, admin) := AdminRow(newAmount, before.msgChannelId, before.msgId, Some(now))]
      && movements == old(movements) + [Movement(guild, Some(admin), kind, AbsInt(moved), now)]
      && globals == old(globals)[guild := GlobalRow(GuildSum(admins, guild), old(GlobalOf(guild)).msgChannelId,
                                                    old(GlobalOf(guild)).msgId, Some(now))]
      && GlobalOf(guild).amount == old(GlobalOf(guild)).amount - before.amount + newAmount
      && embeds == EditAt(EditAt(old(embeds), old(ResolveRef(guild, before.msgChannelId, before.msgId)),
                                 AdminView(admin, newAmount, now)),
                          old(ResolveRef(guild, GlobalOf(guild).msgChannelId, GlobalOf(guild).msgId)),
                          GlobalView(GlobalOf(guild).amount, now))
      && channels == old(channels) && embeds.Keys == old(embeds).Keys && nextId == old(nextId)
    }

    /** The common tail of the three admin mutations: write the new amount,
        log one movement of `|moved|`, refresh the admin's embed, then
        recompute and refresh the global. */
    method ChangeAdmin(guild: nat, admin: nat, newAmount: int, kind: string, moved: int, now: string)
      requires Valid()
      requires newAmount >= 0
      modifies this
      ensures Valid()
      ensures AdminChanged(guild, admin, newAmount, kind, moved, now)
    {
      ghost var oldAdmins := admins;
      UpdateAdminAmount(guild, admin, newAmount, now);
      InsertMovement(guild, kind, moved, Some(admin), now);
      RefreshAdmin(guild, admin, now);
      AdminSums(oldAdmins, guild, admin, admins[(guild, admin)]);
      RecomputeAndRefreshGlobal(guild, now);
    }

    /** `apply_transaction`, called by the tickets cog: an `achat` adds to the
        admin's stock, a `vente` removes from it, floored at 0; one movement
        is logged with the amount as given; then the embeds are refreshed and
        the global recomputed. Any other kind or a non-positive amount changes
        nothing. */
    method ApplyTransaction(guild: nat, admin: nat, kind: string, amount: int, now: string)
      requires Valid()
      modifies this
      ensures Valid()
      ensures !(kind == "achat" || kind == "vente") || amount <= 0 ==> unchanged(this)
      ensures (kind == "achat" || kind == "vente") && amount > 0 ==>
                AdminChanged(guild, admin, NewAmount(kind, old(AdminOf(guild, admin)).amount, amount), kind, amount, now)
                && movements == old(movements) + [Movement(guild, Some(admin), kind, amount, now)]
      ensures channels == old(channels) && embeds.Keys == old(embeds).Keys && nextId == old(nextId)
    {
      if !(kind == "achat" || kind == "vente") || amount <= 0 {
        return;
      }
      var current := AdminOf(guild, admin).amount;
      var delta := if kind == "achat" then amount else -amount;
      var newAdmin := if current + delta > 0 then current + delta else 0;
      ChangeAdmin(guild, admin, newAdmin, kind, amount, now);
    }

    /** `_adjust_admin` (behind `/stock_add_admin` and `/stock_remove_admin`):
        the admin's stock moves by `delta`, floored at 0, and the movement
        logged is `manual` with `|delta|`. */
    method AdjustAdmin(userIsAdmin: bool, targetIsAdmin: bool, guild: Option<nat>, admin: nat, delta: int, now: string)
      returns (reply: StockReply)
      requires Valid()
      modifies this
      ensures Valid()
      ensures !userIsAdmin ==> reply == NotAdmin && unchanged(this)
      ensures userIsAdmin && !targetIsAdmin ==> reply == TargetNotAdmin && unchanged(this)
      ensures userIsAdmin && targetIsAdmin && guild.None? ==> reply == Silent && unchanged(this)
      ensures reply == Done <==> userIsAdmin && targetIsAdmin && guild.Some?
      ensures reply == Done ==>
                var before := old(AdminOf(guild.value, admin)).amount;
                AdminChanged(guild.value, admin, if before + delta > 0 then before + delta else 0, "manual", delta, now)
      ensures channels == old(channels) && embeds.Keys == old(embeds).Keys && nextId == old(nextId)
    {
      if !userIsAdmin {
        return NotAdmin;
      }
      if !targetIsAdmin {
        return TargetNotAdmin;
      }
      if guild.None? {
        return Silent;
      }
      var current := AdminOf(guild.value, admin).amount;
      var newAmount := if current + delta > 0 then current + delta else 0;
      ChangeAdmin(guild.value, admin, newAmount, "manual", delta, now);
      reply := Done;
    }

    /** `/stock_add_admin`: `montant` is at least 1. */
    method StockAddAdmin(userIsAdmin: bool, targetIsAdmin: bool, guild: Option<nat>, admin: nat, montant: int,
                         now: string) returns (reply: StockReply)
      requires Valid()
      requires montant >= 1
      modifies this
      ensures Valid()
      ensures reply == Done <==> userIsAdmin && targetIsAdmin && guild.Some?
      ensures reply == Done ==> guild.Some?
                                && AdminOf(guild.value, admin).amount == old(AdminOf(guild.value, admin)).amount + montant
                                && movements == old(movements) + [Movement(guild.value, Some(admin), "manual", montant, now)]
                                && AdminChanged(guild.value, admin, old(AdminOf(guild.value, admin)).amount + montant,
                                                "manual", montant, now)
      ensures reply != Done ==> unchanged(this)
    {
      reply := AdjustAdmin(userIsAdmin, targetIsAdmin, guild, admin, montant, now);
    }

    /** `/stock_remove_admin`: `montant` is at least 1; the stock does not go
        below 0. */
    method StockRemoveAdmin(userIsAdmin: bool, targetIsAdmin: bool, guild: Option<nat>, admin: nat, montant: int,
                            now: string) returns (reply: StockReply)
      requires Valid()
      requires montant >= 1
      modifies this
      ensures Valid()
      ensures reply == Done <==> userIsAdmin && targetIsAdmin && guild.Some?
      ensures reply == Done ==>
                guild.Some? &&
                var before := old(AdminOf(guild.value, admin)).amount;
                AdminOf(guild.value, admin).amount == (if before - montant > 0 then before - montant else 0)
                && movements == old(movements) + [Movement(guild.value, Some(admin), "manual", montant, now)]
                && AdminChanged(guild.value, admin, if before - montant > 0 then before - montant else 0,
                                "manual", -montant, now)
      ensures reply != Done ==> unchanged(this)
    {
      reply := AdjustAdmin(userIsAdmin, targetIsAdmin, guild, admin, -montant, now);
    }

    /** `/stock_set_admin`: the stock becomes exactly `montant`; the movement
        logged is `manual` with the size of the change. */
    method StockSetAdmin(userIsAdmin: bool, targetIsAdmin: bool, guild: Option<nat>, admin: nat, montant: nat,
                         now: string) returns (reply: StockReply)
      requires Valid()
      modifies this
      ensures Valid()
      ensures !userIsAdmin ==> reply == NotAdmin && unchanged(this)
      ensures userIsAdmin && !targetIsAdmin ==> reply == TargetNotAdmin && unchanged(this)
      ensures userIsAdmin && targetIsAdmin && guild.None? ==> reply == Silent && unchanged(this)
      ensures reply == Done <==> userIsAdmin && targetIsAdmin && guild.Some?
      ensures reply == Done ==>
                AdminChanged(guild.value, admin, montant, "manual", montant - old(AdminOf(guild.value, admin)).amount, now)
      ensures channels == old(channels) && embeds.Keys == old(embeds).Keys && nextId == old(nextId)
    {
      if !userIsAdmin {
        return NotAdmin;
      }
      if !targetIsAdmin {
        return TargetNotAdmin;
      }
      if guild.None? {
        return Silent;
      }
      var current := AdminOf(guild.value, admin).amount;
      ChangeAdmin(guild.value, admin, montant, "manual", montant - current, now);
      reply := Done;
    }

    /** `/stock_refresh`: recompute the global and refresh its embed. */
    method StockRefresh(userIsAdmin: bool, guild: Option<nat>, now: string) returns (reply: StockReply)
      requires Valid()
      modifies this
      ensures Valid()
      ensures !userIsAdmin || guild.None? ==> unchanged(this)
      ensures reply == Done <==> userIsAdmin && guild.Some?
      ensures reply == Done ==>
                admins == old(admins) && movements == old(movements)
                && globals == old(globals)[guild.value := GlobalRow(GuildSum(admins, guild.value),
                     old(GlobalOf(guild.value)).msgChannelId, old(GlobalOf(guild.value)).msgId, Some(now))]
                && embeds == EditAt(old(embeds), old(ResolveRef(guild.value, GlobalOf(guild.value).msgChannelId,
                                                                GlobalOf(guild.value).msgId)),
                                    GlobalView(GuildSum(admins, guild.value), now))
      ensures channels == old(channels) && nextId == old(nextId)
    {
      if !userIsAdmin {
        return NotAdmin;
      }
      if guild.None? {
        return Silent;
      }
      RecomputeAndRefreshGlobal(guild.value, now);
      reply := Done;
    }

    /** `/stock_publish_global`: post a new global embed with the sum of the
        admins and store its reference. */
    method StockPublishGlobal(userIsAdmin: bool, guild: Option<nat>, now: string) returns (reply: StockReply)
      requires Valid()
      modifies this
      ensures Valid()
      ensures reply != Done ==> unchanged(this)
      ensures reply == Done <==> userIsAdmin && guild.Some? && ChannelKindOf(guild.value, GLOBAL_CHANNEL_ID) == Some(TextChannel)
      ensures reply == Done ==>
                var r := MsgRef(GLOBAL_CHANNEL_ID, old(nextId));
                r !in old(embeds) && embeds == old(embeds)[r := GlobalView(GuildSum(admins, guild.value), now)]
                && GlobalOf(guild.value) == GlobalRow(GuildSum(admins, guild.value), Some(GLOBAL_CHANNEL_ID), Some(r.id), Some(now))
                && ResolveRef(guild.value, GlobalOf(guild.value).msgChannelId, GlobalOf(guild.value).msgId) == Some(r)
                && globals == old(globals)[guild.value := GlobalOf(guild.value)]
                && nextId == old(nextId) + 1
      ensures admins == old(admins) && movements == old(movements) && channels == old(channels)
    {
      if !userIsAdmin {
        return NotAdmin;
      }
      if guild.None? {
        return Silent;
      }
      if ChannelKindOf(guild.value, GLOBAL_CHANNEL_ID) != Some(TextChannel) {
        return NoChannel;
      }
      var total := SumAdmins(guild.value);
      var r := SendEmbed(GLOBAL_CHANNEL_ID, GlobalView(total, now));
      UpsertGlobalMeta(guild.value, total, Some(GLOBAL_CHANNEL_ID), Some(r.id), now);
      reply := Done;
    }

    /** `/stock_publish_admin`: post a new embed of the admin's stock and store
        its reference; the amount is kept as it is. */
    method StockPublishAdmin(userIsAdmin: bool, targetIsAdmin: bool, guild: Option<nat>, admin: nat, now: string)
      returns (reply: StockReply)
      requires Valid()
      modifies this
      ensures Valid()
      ensures reply != Done ==> unchanged(this)
      ensures reply == Done <==> userIsAdmin && guild.Some? && targetIsAdmin
                                 && ChannelKindOf(guild.value, ADMINS_CHANNEL_ID) == Some(TextChannel)
      ensures reply == Done ==>
                var r := MsgRef(ADMINS_CHANNEL_ID, old(nextId));
                var before := old(AdminOf(guild.value, admin));
                r !in old(embeds)
                && embeds == old(embeds)[r := AdminView(admin, before.amount, OrNow(before.updatedAt, now))]
                && admins == old(admins)[(guild.value, admin) :=
                     AdminRow(before.amount, Some(ADMINS_CHANNEL_ID), Some(r.id), Some(now))]
                && nextId == old(nextId) + 1
      ensures globals == old(globals) && movements == old(movements) && channels == old(channels)
    {
      if !userIsAdmin {
        return NotAdmin;
      }
      if guild.None? {
        return Silent;
      }
      if !targetIsAdmin {
        return TargetNotAdmin;
      }
      if ChannelKindOf(guild.value, ADMINS_CHANNEL_ID) != Some(TextChannel) {
        return NoChannel;
      }
      var row := AdminOf(guild.value, admin);
      var r := SendEmbed(ADMINS_CHANNEL_ID, AdminView(admin, row.amount, OrNow(row.updatedAt, now)));
      ghost var oldAdmins := admins;
      UpsertAdmin(guild.value, admin, row.amount, Some(ADMINS_CHANNEL_ID), Some(r.id), now);
      AdminSums(oldAdmins, guild.value, admin, admins[(guild.value, admin)]);
      reply := Done;
    }

    /** `/stock_set`, `/stock_add` and `/stock_remove` are disabled: they
        only answer, and the global is only ever the sum of the admins. */
    method DisabledGlobalCommand(montant: int) returns (reply: StockReply)
      ensures reply == Disabled
    {
      reply := Disabled;
    }
  }
}
