/**
 * Accounts: `connect` turns an `sandbox:private:appID:secret` token into a
 * bot configuration and, once the platform has said who the bot is,
 * registers an account under that id in the shared `Bot` object and in
 * `Bot.uin`, the list of every connected id. The `#QQ频道设置` command
 * toggles a token in the configured list: a known token is removed, a new
 * one is connected first and kept only if that succeeds.
 */
module Accounts {
  import opened Wrappers
  import opened Strings
  import opened Objects
  import opened Registry

  // ---- token parsing ----

  /** The intents every bot subscribes to. */
  const BaseIntents: seq<string> :=
    ["GUILDS", "GUILD_MEMBERS", "GUILD_MESSAGE_REACTIONS", "DIRECT_MESSAGE", "INTERACTION", "MESSAGE_AUDIT"]

  /**
   * `Number(v)` is truthy, for the values a token part takes: a string of
   * decimal digits with at least one that is not `0`. A missing part is
   * `Number(undefined)`, which is `NaN`.
   */
  predicate NumberTruthy(v: Option<string>) {
    && v.Some?
    && (forall i :: 0 <= i < |v.value| ==> '0' <= v.value[i] <= '9')
    && (exists i :: 0 <= i < |v.value| && v.value[i] != '0')
  }

  /** The intents of a private bot (all guild messages) or a public one (only those that mention it). */
  function Intents(isPrivate: bool): (r: seq<string>)
    ensures |r| == 8 && r[..6] == BaseIntents
    ensures "GUILD_MESSAGES" in r <==> isPrivate
    ensures "PUBLIC_GUILD_MESSAGES" in r <==> !isPrivate
    ensures "FORUMS_EVENT" in r <==> isPrivate
    ensures "OPEN_FORUMS_EVENT" in r <==> !isPrivate
  {
    BaseIntents + if isPrivate then ["GUILD_MESSAGES", "FORUMS_EVENT"] else ["PUBLIC_GUILD_MESSAGES", "OPEN_FORUMS_EVENT"]
  }

  /** What `connect` hands to the platform library. */
  datatype BotConfig = BotConfig(appId: Option<string>, secret: Option<string>, intents: seq<string>, sandbox: bool)

  /** `parts[i]`, `undefined` past the end. */
  function Part(parts: seq<string>, i: nat): Option<string> {
    if i < |parts| then Some(parts[i]) else None
  }

  /** `token.split(":")`, read by position. */
  function ParseToken(token: string): BotConfig {
    var parts := Split(token, ':');
    BotConfig(Part(parts, 2), Part(parts, 3), Intents(NumberTruthy(Part(parts, 1))), NumberTruthy(Part(parts, 0)))
  }

  /** A token whose four parts hold no `:` gives back each part in its place. */
  lemma {:induction false} TokenRoundTrip(sandbox: string, isPrivate: string, appId: string, secret: string)
    requires ':' !in sandbox && ':' !in isPrivate && ':' !in appId && ':' !in secret
    ensures ParseToken(Join([sandbox, isPrivate, appId, secret], ':'))
            == BotConfig(Some(appId), Some(secret), Intents(NumberTruthy(Some(isPrivate))), NumberTruthy(Some(sandbox)))
  {
    var parts := [sandbox, isPrivate, appId, secret];
    SplitJoin(parts, ':');
  }

  /** A secret that itself holds `:` is cut at its first one. */
  lemma {:induction false} SecretWithColonTruncated(sandbox: string, isPrivate: string, appId: string, secret: string, more: seq<string>)
    requires ':' !in sandbox && ':' !in isPrivate && ':' !in appId && ':' !in secret
    requires forall k :: 0 <= k < |more| ==> ':' !in more[k]
    ensures ParseToken(Join([sandbox, isPrivate, appId, secret] + more, ':')).secret == Some(secret)
  {
    var parts := [sandbox, isPrivate, appId, secret] + more;
    assert forall k :: 0 <= k < |parts| ==> ':' !in parts[k] by {
      forall k | 0 <= k < |parts| ensures ':' !in parts[k] {
        if k >= 4 { assert parts[k] == more[k - 4]; }
      }
    }
    SplitJoin(parts, ':');
  }

  // ---- connecting ----

  /**
   * `bot.info`: the `READY` event's `msg.user` (absent when the event has
   * none) overlaid with the `me` endpoint's data.
   */
  function BotInfo(readyUser: Option<Fields>, me: Fields): (info: Fields)
    ensures forall k :: Get(info, k) == if k in me then Some(me[k]) else if readyUser.Some? then Get(readyUser.value, k) else None
  {
    Overlay(readyUser.GetOr(map[]), me)
  }

  /** `bot.info.id` when it is truthy; `connect` gives up otherwise. */
  function ConnectedId(info: Fields): (r: Option<string>)
    ensures r.Some? <==> Truthy(Get(info, "id"))
    ensures r.Some? ==> r == Get(info, "id") && r.value != ""
  {
    if Truthy(Get(info, "id")) then Get(info, "id") else None
  }

  predicate NoDuplicates(s: seq<string>) {
    forall i, j :: 0 <= i < j < |s| ==> s[i] != s[j]
  }

  /** `Bot.uin` after a connection: the id is appended unless it is already listed. */
  function AddUin(us: seq<string>, id: string): (r: seq<string>)
    ensures forall x :: x in r <==> x in us || x == id
    ensures |us| <= |r| <= |us| + 1 && r[..|us|] == us
    ensures id in us ==> r == us
    ensures NoDuplicates(us) ==> NoDuplicates(r)
  {
    if id in us then us else us + [id]
  }

  /** The shared `Bot` object: the connected ids and the account under each. */
  class Hub {
    var uin: seq<string>
    var bots: map<string, Account>

    /** No id is listed twice, and each account is listed under its own id. */
    predicate Valid()
      reads this
    {
      && NoDuplicates(uin)
      && forall id :: id in bots ==> id in uin && bots[id].uin == id
    }

    constructor(uin: seq<string>)
      requires NoDuplicates(uin)
      ensures Valid() && this.uin == uin && bots == map[]
    {
      this.uin := uin;
      bots := map[];
    }

    /**
     * `connect(token)`, given what the platform answers: the `READY` user,
     * the `me` data, the bot's guilds and the channel lists `getGroupArray`
     * fetches.
     */
    method Connect(token: string, readyUser: Option<Fields>, me: Fields,
                   guilds: seq<Fields>, channels: Option<string> -> Option<seq<Fields>>)
      returns (ok: bool, config: BotConfig, events: seq<string>)
      requires Valid()
      modifies this
      ensures Valid()
      ensures config == ParseToken(token)
      ensures ok <==> ConnectedId(BotInfo(readyUser, me)).Some?
      ensures !ok ==> uin == old(uin) && bots == old(bots) && events == []
      ensures ok ==> events == ["connect." + ConnectedId(BotInfo(readyUser, me)).value, "connect"]
      ensures ok ==>
        var info := BotInfo(readyUser, me);
        var id := ConnectedId(info).value;
        && uin == AddUin(old(uin), id)
        && id in bots && bots == old(bots)[id := bots[id]] && fresh(bots[id])
        && bots[id].uin == id
        && bots[id].nickname == Get(info, "username") && bots[id].avatar == Get(info, "avatar")
        && bots[id].fl == map[] && bots[id].gl == GroupMap(GroupArray(guilds, channels))
    {
      config := ParseToken(token);
      var info := BotInfo(readyUser, me);
      var connected := ConnectedId(info);
      if connected.None? {
        return false, config, [];
      }
      var id := connected.value;
      var gl := GetGroupMap(guilds, channels);
      var account := new Account(id, info, gl);
      bots := bots[id := account];
      uin := AddUin(uin, id);
      ok := true;
      events := ["connect." + id, "connect"];
    }
  }

  // ---- the token command ----

  /** The token list with every copy of `t` filtered out. */
  function Without(ts: seq<string>, t: string): (r: seq<string>)
    ensures forall x :: x in r <==> x in ts && x != t
    ensures |r| <= |ts|
    decreases |ts|
  {
    if ts == [] then [] else (if ts[0] == t then [] else [ts[0]]) + Without(ts[1..], t)
  }

  lemma {:induction false} WithoutAppend(a: seq<string>, b: seq<string>, t: string)
    ensures Without(a + b, t) == Without(a, t) + Without(b, t)
    decreases |a|
  {
    if a == [] {
      assert a + b == b;
    } else {
      assert (a + b)[0] == a[0] && (a + b)[1..] == a[1..] + b;
      WithoutAppend(a[1..], b, t);
    }
  }

  /** Filtering out a token that is not there changes nothing. */
  lemma {:induction false} WithoutAbsent(ts: seq<string>, t: string)
    requires t !in ts
    ensures Without(ts, t) == ts
    decreases |ts|
  {
    if ts != [] {
      assert ts[0] in ts;
      assert forall x :: x in ts[1..] ==> x in ts;
      WithoutAbsent(ts[1..], t);
    }
  }

  /** The configured tokens after the command for `t`, given whether connecting with it succeeds. */
  function Toggled(ts: seq<string>, t: string, connects: bool): (r: seq<string>)
    ensures t in r <==> t !in ts && connects
    ensures forall x :: x != t ==> (x in r <==> x in ts)
  {
    if t in ts then Without(ts, t) else if connects then ts + [t] else ts
  }

  /** Adding a token and then giving the command again restores the list exactly. */
  lemma {:induction false} ToggleTwice(ts: seq<string>, t: string, connects: bool)
    requires t !in ts
    ensures Toggled(Toggled(ts, t, true), t, connects) == ts
  {
    WithoutAppend(ts, [t], t);
    WithoutAbsent(ts, t);
    assert Without([t], t) == [] by {
      assert [t][0] == t && [t][1..] == [];
    }
  }

  /** The configured token list. */
  class Config {
    var tokens: seq<string>

    constructor(tokens: seq<string>)
      ensures this.tokens == tokens
    {
      this.tokens := tokens;
    }
  }

  /**
   * The `#QQ频道设置<token>` command: `saved` says whether the configuration
   * is written back (everything but a failed connection).
   */
  method Token(config: Config, hub: Hub, token: string, readyUser: Option<Fields>, me: Fields,
               guilds: seq<Fields>, channels: Option<string> -> Option<seq<Fields>>)
    returns (saved: bool)
    requires hub.Valid()
    modifies config, hub
    ensures hub.Valid()
    ensures config.tokens == Toggled(old(config.tokens), token, ConnectedId(BotInfo(readyUser, me)).Some?)
    ensures saved <==> token in old(config.tokens) || ConnectedId(BotInfo(readyUser, me)).Some?
    ensures token in old(config.tokens) ==> hub.uin == old(hub.uin) && hub.bots == old(hub.bots)
    ensures token !in old(config.tokens) && ConnectedId(BotInfo(readyUser, me)).None? ==>
              hub.uin == old(hub.uin) && hub.bots == old(hub.bots)
    ensures token !in old(config.tokens) && ConnectedId(BotInfo(readyUser, me)).Some? ==>
              var info := BotInfo(readyUser, me);
              var id := ConnectedId(info).value;
              && hub.uin == AddUin(old(hub.uin), id)
              && id in hub.bots && hub.bots == old(hub.bots)[id := hub.bots[id]] && fresh(hub.bots[id])
              && hub.bots[id].uin == id
              && hub.bots[id].nickname == Get(info, "username") && hub.bots[id].avatar == Get(info, "avatar")
              && hub.bots[id].fl == map[] && hub.bots[id].gl == GroupMap(GroupArray(guilds, channels))
  {
    if token in config.tokens {
      config.tokens := Without(config.tokens, token);
      return true;
    }
    var ok, _, _ := hub.Connect(token, readyUser, me, guilds, channels);
    if ok {
      config.tokens := config.tokens + [token];
      return true;
    }
    return false;
  }
}
