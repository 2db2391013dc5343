/**
 * The outbound composer: `sendMsg` walks a message's segments once, keeping
 * one text accumulator; every image goes out at once as its own call; a
 * `reply` rewrites the shared context's `message_id`; a `node` sends each of
 * its messages through `sendMsg` again; whatever text was accumulated goes
 * out in one final call. Also `sendImage`, `sendForwardMsg`, `recallMsg`,
 * `sendGroupMsg` and the guard of `sendFriendMsg`.
 *
 * The platform's REST calls are a `Platform` object that logs each call and
 * answers it with `respond(history, call)`; the shared `data` object is a
 * `Context` whose fields the composer rewrites in place.
 */
module Outbound {
  import opened Wrappers
  import opened Strings
  import opened Objects

  /**
   * A segment, after `sendMsg` has put it into its `{type, data}` form. A
   * segment written flat, with its fields beside `type`, gives the same
   * segment for every type but `node`, whose flat form is not iterable.
   * `Unrecognised` is every other type, carried as its `JSON.stringify` text.
   */
  datatype Seg =
    | Text(text: Option<string>)
    | Image(file: string)
    | Face(id: Option<string>)
    | Reply(replyTo: Option<string>)
    | At(qq: Option<string>)
    | Node(messages: seq<OutMsg>)
    | Unrecognised(json: string)

  /** An element of a message: a non-object (a string, or a number as its text) or a segment object. */
  datatype Item = Scalar(value: string) | Segment(seg: Seg)

  /** What `sendMsg` is given: one element, or an array of them. */
  datatype OutMsg = Single(item: Item) | Batch(items: seq<Item>)

  /** The elements `sendMsg` iterates over: a lone element stands for a one-element array. */
  function Items(m: OutMsg): seq<Item> {
    match m
    case Single(x) => [x]
    case Batch(xs) => xs
  }

  /** The body of a platform post. */
  datatype Body =
    | Content(content: string, msgId: Option<string>)
    | ImageRef(image: string, msgId: Option<string>)
    | Multipart(msgId: Option<string>, fileImage: string)

  /** Where a post goes: a guild channel, or a direct-message session's guild. */
  datatype Target = ToChannel(channelId: Option<string>) | ToDirect(guildId: Option<string>)

  /** A platform REST call. */
  datatype Call =
    | Post(target: Target, body: Body)
    | DeleteMessage(channelId: Option<string>, messageId: string, hidden: Option<bool>)
    | OpenDirect(sourceGuildId: Option<string>, recipientId: Option<string>)

  /** A platform response; `data.id` is the id of a posted message. */
  datatype Response = Response(data: Fields)

  /** What `sendMsg` returns: `{data, message_id}`. */
  datatype Outcome = Outcome(data: seq<Response>, messageIds: seq<string>)

  /** `sendGroupMsg` posts to the context's channel, `sendFriendMsg` to its direct-message guild. */
  datatype Route = GroupRoute | DirectRoute

  function TargetOf(route: Route, f: Fields): Target {
    match route
    case GroupRoute => ToChannel(Get(f, "channel_id"))
    case DirectRoute => ToDirect(Get(f, "guild_id"))
  }

  /** The platform's answer to a call, given every call made before it. */
  type Responder = (seq<Call>, Call) -> Response

  /** The ids of the responses whose data carries a truthy id, in order. */
  function IdsOf(rs: seq<Response>): (ids: seq<string>)
    ensures |ids| <= |rs|
    decreases |rs|
  {
    if rs == [] then []
    else
      var last := rs[|rs| - 1];
      IdsOf(rs[..|rs| - 1]) + (if Truthy(Get(last.data, "id")) then [last.data["id"]] else [])
  }

  /** The text a segment adds to the accumulator. */
  function Rendered(s: Seg): string {
    match s
    case Text(t) => Interpolate(t)
    case Image(_) => ""
    case Face(id) => "<emoji:" + Interpolate(id) + ">"
    case Reply(_) => ""
    case At(qq) => if qq == Some("all") then "@everyone" else "<@" + Interpolate(qq) + ">"
    case Node(_) => ""
    case Unrecognised(json) => json
  }

  /** `sendImage`'s body: multipart for a `base64://` payload, a structured reference otherwise. */
  function ImageBody(f: Fields, file: string): Body {
    if HasPrefix("base64://", file) then
      Multipart(if Truthy(Get(f, "message_id")) then Get(f, "message_id") else None, file[9..])
    else
      ImageRef(file, Get(f, "message_id"))
  }

  // ---- the composer as a function of the call history and the context ----

  /** The platform's call log and the shared context's fields. */
  datatype State = State(calls: seq<Call>, fields: Fields)

  /** `sendMsg`'s locals during its loop: `message`, `msgs`, `message_id`, `ret`. */
  datatype Acc = Acc(st: State, message: string, msgs: seq<Response>, ids: seq<string>, ret: seq<Response>)

  /** The state after one call, and the platform's answer. */
  datatype Posted = Posted(st: State, response: Response)

  /** The state after `sendMsg`, and what it returns. */
  datatype Sent = Sent(st: State, outcome: Outcome)

  /** The state after `sendForwardMsg`, and the result of each message. */
  datatype Forwarded = Forwarded(st: State, outcomes: seq<Outcome>)

  /** Make one call. */
  function Send(respond: Responder, st: State, c: Call): Posted {
    Posted(State(st.calls + [c], st.fields), respond(st.calls, c))
  }

  /** What `sendMsg` does with the first `n` elements of `m`. */
  function RunItems(respond: Responder, route: Route, st: State, m: OutMsg, n: nat): Acc
    requires n <= |Items(m)|
    decreases m, 1, n
  {
    if n == 0 then Acc(st, "", [], [], [])
    else Step(respond, route, RunItems(respond, route, st, m, n - 1), Items(m)[n - 1])
  }

  /** One turn of `sendMsg`'s loop. */
  function Step(respond: Responder, route: Route, acc: Acc, x: Item): Acc
    decreases x, 4
  {
    match x
    case Scalar(v) => acc.(message := acc.message + v)
    case Segment(s) => StepSeg(respond, route, acc, s)
  }

  function StepSeg(respond: Responder, route: Route, acc: Acc, s: Seg): Acc
    decreases s, 3
  {
    var f := acc.st.fields;
    match s
    case Image(file) =>
      var sent := Send(respond, acc.st, Post(TargetOf(route, f), ImageBody(f, file)));
      acc.(st := sent.st, ret := acc.ret + [sent.response])
    case Reply(id) => acc.(st := State(acc.st.calls, Assign(f, "message_id", id)))
    case Node(ms) =>
      var fw := RunForward(respond, route, acc.st, s, |ms|);
      acc.(st := fw.st, msgs := acc.msgs + AllData(fw.outcomes), ids := acc.ids + AllIds(fw.outcomes))
    case _ => acc.(message := acc.message + Rendered(s))
  }

  /** `sendForwardMsg` over the first `n` messages of a node, each sent with `sendMsg`. */
  function RunForward(respond: Responder, route: Route, st: State, node: Seg, n: nat): Forwarded
    requires node.Node? && n <= |node.messages|
    decreases node, 0, n
  {
    if n == 0 then Forwarded(st, [])
    else
      var prev := RunForward(respond, route, st, node, n - 1);
      var sent := RunMsg(respond, route, prev.st, node.messages[n - 1]);
      Forwarded(sent.st, prev.outcomes + [sent.outcome])
  }

  /** `sendMsg`: the loop, then the final content call if any text was accumulated. */
  function RunMsg(respond: Responder, route: Route, st: State, m: OutMsg): Sent
    decreases m, 2
  {
    Finish(respond, route, RunItems(respond, route, st, m, |Items(m)|))
  }

  /** After the loop: the accumulated text goes out, and the answers are collected. */
  function Finish(respond: Responder, route: Route, acc: Acc): Sent {
    var f := acc.st.fields;
    if acc.message != "" then
      var last := Send(respond, acc.st, Post(TargetOf(route, f), Content(acc.message, Get(f, "message_id"))));
      var ret := acc.ret + [last.response];
      Sent(last.st, Outcome(acc.msgs + ret, acc.ids + IdsOf(ret)))
    else
      Sent(acc.st, Outcome(acc.msgs + acc.ret, acc.ids + IdsOf(acc.ret)))
  }

  /** The data of the node's results, in order. */
  function AllData(outs: seq<Outcome>): seq<Response>
    decreases |outs|
  {
    if outs == [] then [] else AllData(outs[..|outs| - 1]) + outs[|outs| - 1].data
  }

  /** The message ids of the node's results, in order. */
  function AllIds(outs: seq<Outcome>): seq<string>
    decreases |outs|
  {
    if outs == [] then [] else AllIds(outs[..|outs| - 1]) + outs[|outs| - 1].messageIds
  }

  // ---- the platform and the shared context ----

  /** The platform's REST interface: every call is logged and answered by `respond`. */
  class Platform {
    var calls: seq<Call>
    const respond: Responder

    constructor(respond: Responder)
      ensures this.respond == respond && calls == []
    {
      this.respond := respond;
      calls := [];
    }

    method Request(c: Call) returns (r: Response)
      modifies this
      ensures calls == old(calls) + [c]
      ensures r == respond(old(calls), c)
    {
      r := respond(calls, c);
      calls := calls + [c];
    }
  }

  /** The `data` object a send works on; `reply` segments rewrite its `message_id`. */
  class Context {
    var fields: Fields

    constructor(fields: Fields)
      ensures this.fields == fields
    {
      this.fields := fields;
    }
  }

  /** `sendImage`: one call, with the body `ImageBody` gives for the context as it is now. */
  method SendImage(ctx: Context, p: Platform, route: Route, file: string) returns (r: Response)
    modifies p
    ensures Posted(State(p.calls, ctx.fields), r) ==
            Send(p.respond, State(old(p.calls), ctx.fields), Post(TargetOf(route, ctx.fields), ImageBody(ctx.fields, file)))
  {
    if HasPrefix("base64://", file) {
      var msgId := if Truthy(Get(ctx.fields, "message_id")) then Get(ctx.fields, "message_id") else None;
      r := p.Request(Post(TargetOf(route, ctx.fields), Multipart(msgId, file[9..])));
    } else {
      r := p.Request(Post(TargetOf(route, ctx.fields), ImageRef(file, Get(ctx.fields, "message_id"))));
    }
  }

  /** `sendMsg`. */
  method SendMsg(ctx: Context, p: Platform, route: Route, m: OutMsg) returns (out: Outcome)
    modifies ctx, p
    ensures Sent(State(p.calls, ctx.fields), out) == RunMsg(p.respond, route, State(old(p.calls), old(ctx.fields)), m)
    decreases m, 2
  {
    var items := Items(m);
    var message := "";
    var msgs: seq<Response> := [];
    var ids: seq<string> := [];
    var ret: seq<Response> := [];
    var k := 0;
    while k < |items|
      invariant 0 <= k <= |items|
      invariant Acc(State(p.calls, ctx.fields), message, msgs, ids, ret) ==
                RunItems(p.respond, route, State(old(p.calls), old(ctx.fields)), m, k)
    {
      message, msgs, ids, ret := SendElement(ctx, p, route, items[k], message, msgs, ids, ret);
      k := k + 1;
    }
    if message != "" {
      var r := p.Request(Post(TargetOf(route, ctx.fields), Content(message, Get(ctx.fields, "message_id"))));
      ret := ret + [r];
    }
    out := Collect(msgs, ids, ret);
  }

  /** One turn of `sendMsg`'s loop: a non-object goes into the text, an object is a segment. */
  method SendElement(ctx: Context, p: Platform, route: Route, x: Item,
                     message0: string, msgs0: seq<Response>, ids0: seq<string>, ret0: seq<Response>)
    returns (message: string, msgs: seq<Response>, ids: seq<string>, ret: seq<Response>)
    modifies ctx, p
    ensures Acc(State(p.calls, ctx.fields), message, msgs, ids, ret) ==
            Step(p.respond, route, Acc(State(old(p.calls), old(ctx.fields)), message0, msgs0, ids0, ret0), x)
    decreases x, 4
  {
    match x {
      case Scalar(v) =>
        message, msgs, ids, ret := message0 + v, msgs0, ids0, ret0;
      case Segment(s) =>
        message, msgs, ids, ret := SendSegment(ctx, p, route, s, message0, msgs0, ids0, ret0);
    }
  }

  /** The `switch` on a segment's type. */
  method SendSegment(ctx: Context, p: Platform, route: Route, s: Seg,
                     message0: string, msgs0: seq<Response>, ids0: seq<string>, ret0: seq<Response>)
    returns (message: string, msgs: seq<Response>, ids: seq<string>, ret: seq<Response>)
    modifies ctx, p
    ensures Acc(State(p.calls, ctx.fields), message, msgs, ids, ret) ==
            StepSeg(p.respond, route, Acc(State(old(p.calls), old(ctx.fields)), message0, msgs0, ids0, ret0), s)
    decreases s, 3
  {
    message, msgs, ids, ret := message0, msgs0, ids0, ret0;
    match s {
      case Text(t) =>
        message := message + Interpolate(t);
      case Image(file) =>
        var r := SendImage(ctx, p, route, file);
        ret := ret + [r];
      case Face(id) =>
        message := message + ("<emoji:" + Interpolate(id) + ">");
      case Reply(id) =>
        ctx.fields := Assign(ctx.fields, "message_id", id);
      case At(qq) =>
        if qq == Some("all") {
          message := message + "@everyone";
        } else {
          message := message + ("<@" + Interpolate(qq) + ">");
        }
      case Node(ms) =>
        var outs := SendForward(ctx, p, route, s);
        msgs, ids := Gather(msgs0, ids0, outs);
      case Unrecognised(json) =>
        message := message + json;
    }
  }

  /** Over a node's results: each one's data and then its ids are appended to the running lists. */
  method Gather(msgs0: seq<Response>, ids0: seq<string>, outs: seq<Outcome>) returns (msgs: seq<Response>, ids: seq<string>)
    ensures msgs == msgs0 + AllData(outs) && ids == ids0 + AllIds(outs)
  {
    msgs, ids := msgs0, ids0;
    var j := 0;
    while j < |outs|
      invariant 0 <= j <= |outs|
      invariant msgs == msgs0 + AllData(outs[..j]) && ids == ids0 + AllIds(outs[..j])
    {
      var o := outs[j];
      assert outs[..j + 1][..j] == outs[..j] && outs[..j + 1][j] == o;
      assert AllData(outs[..j + 1]) == AllData(outs[..j]) + o.data;
      assert AllIds(outs[..j + 1]) == AllIds(outs[..j]) + o.messageIds;
      ConcatAssoc(msgs0, AllData(outs[..j]), o.data);
      ConcatAssoc(ids0, AllIds(outs[..j]), o.messageIds);
      msgs := msgs + o.data;
      ids := ids + o.messageIds;
      j := j + 1;
    }
    assert outs[..j] == outs;
  }

  /** The closing loop of `sendMsg`: every response after the node results, and the ids of those that have one. */
  method Collect(msgs0: seq<Response>, ids0: seq<string>, ret: seq<Response>) returns (out: Outcome)
    ensures out == Outcome(msgs0 + ret, ids0 + IdsOf(ret))
  {
    var msgs, ids := msgs0, ids0;
    var j := 0;
    while j < |ret|
      invariant 0 <= j <= |ret|
      invariant msgs == msgs0 + ret[..j] && ids == ids0 + IdsOf(ret[..j])
    {
      var r := ret[j];
      var found: seq<string> := if Truthy(Get(r.data, "id")) then [r.data["id"]] else [];
      assert ret[..j + 1] == ret[..j] + [r];
      assert IdsOf(ret[..j + 1]) == IdsOf(ret[..j]) + found;
      ConcatAssoc(msgs0, ret[..j], [r]);
      ConcatAssoc(ids0, IdsOf(ret[..j]), found);
      msgs := msgs + [r];
      if Truthy(Get(r.data, "id")) {
        ids := ids + [r.data["id"]];
      }
      j := j + 1;
    }
    assert ret[..j] == ret;
    out := Outcome(msgs, ids);
  }

  /** `sendForwardMsg` as a node uses it: each message in turn goes through `sendMsg` on the same context. */
  method SendForward(ctx: Context, p: Platform, route: Route, node: Seg) returns (outs: seq<Outcome>)
    requires node.Node?
    modifies ctx, p
    ensures Forwarded(State(p.calls, ctx.fields), outs) ==
            RunForward(p.respond, route, State(old(p.calls), old(ctx.fields)), node, |node.messages|)
    decreases node, 0
  {
    outs := [];
    var j := 0;
    while j < |node.messages|
      invariant 0 <= j <= |node.messages|
      invariant Forwarded(State(p.calls, ctx.fields), outs) ==
                RunForward(p.respond, route, State(old(p.calls), old(ctx.fields)), node, j)
    {
      var out := SendMsg(ctx, p, route, node.messages[j]);
      outs := outs + [out];
      j := j + 1;
    }
  }

  /** `sendGroupMsg`: `sendMsg` posting to the context's channel. */
  method SendGroupMsg(ctx: Context, p: Platform, m: OutMsg) returns (out: Outcome)
    modifies ctx, p
    ensures Sent(State(p.calls, ctx.fields), out) == RunMsg(p.respond, GroupRoute, State(old(p.calls), old(ctx.fields)), m)
  {
    out := SendMsg(ctx, p, GroupRoute, m);
  }

  /** The state after `sendFriendMsg`, and what it returns. */
  datatype FriendSent = FriendSent(st: State, outcome: Option<Outcome>)

  /**
   * `sendFriendMsg`: without a direct-message session (`guild_id`) and
   * without a guild the user was seen in (`source_guild_id`) nothing is sent
   * and the result is `false` (here `None`). Without a session, one is
   * opened first and the message goes out on a COPY of the data overlaid
   * with the session, so the caller's data keeps its `message_id`.
   */
  function FriendSend(respond: Responder, st: State, m: OutMsg): FriendSent {
    var f := st.fields;
    if !Truthy(Get(f, "guild_id")) then
      if !Truthy(Get(f, "source_guild_id")) then FriendSent(st, None)
      else
        var session := Send(respond, st, OpenDirect(Get(f, "source_guild_id"), Get(f, "user_id")));
        var sent := RunMsg(respond, DirectRoute, State(session.st.calls, Overlay(f, session.response.data)), m);
        FriendSent(State(sent.st.calls, f), Some(sent.outcome))
    else
      var sent := RunMsg(respond, DirectRoute, st, m);
      FriendSent(sent.st, Some(sent.outcome))
  }

  method SendFriendMsg(ctx: Context, p: Platform, m: OutMsg) returns (r: Option<Outcome>)
    modifies ctx, p
    ensures FriendSent(State(p.calls, ctx.fields), r) == FriendSend(p.respond, State(old(p.calls), old(ctx.fields)), m)
  {
    if !Truthy(Get(ctx.fields, "guild_id")) {
      if !Truthy(Get(ctx.fields, "source_guild_id")) {
        return None;
      }
      var session := p.Request(OpenDirect(Get(ctx.fields, "source_guild_id"), Get(ctx.fields, "user_id")));
      var copy := new Context(Overlay(ctx.fields, session.data));
      var out := SendMsg(copy, p, DirectRoute, m);
      r := Some(out);
    } else {
      var out := SendMsg(ctx, p, DirectRoute, m);
      r := Some(out);
    }
  }

  /** `recallMsg`'s argument: one message id or an array of them. */
  datatype MessageIds = OneId(id: string) | IdList(ids: seq<string>)

  function IdArray(a: MessageIds): seq<string> {
    match a
    case OneId(id) => [id]
    case IdList(ids) => ids
  }

  /** One delete per id, in order, all on the context's channel. */
  function DeleteCalls(channel: Option<string>, ids: seq<string>, hidden: Option<bool>): (cs: seq<Call>)
    ensures |cs| == |ids|
    ensures forall k :: 0 <= k < |cs| ==> cs[k] == DeleteMessage(channel, ids[k], hidden)
  {
    seq(|ids|, k requires 0 <= k < |ids| => DeleteMessage(channel, ids[k], hidden))
  }

  /** The platform's answers to `cs`, made one after another after `history`. */
  function Replay(respond: Responder, history: seq<Call>, cs: seq<Call>): (rs: seq<Response>)
    ensures |rs| == |cs|
    decreases |cs|
  {
    if cs == [] then []
    else Replay(respond, history, cs[..|cs| - 1]) + [respond(history + cs[..|cs| - 1], cs[|cs| - 1])]
  }

  /** `recallMsg`: delete each id in turn and return the answers in order. */
  method Recall(ctx: Context, p: Platform, ids: MessageIds, hidden: Option<bool>) returns (msgs: seq<Response>)
    modifies p
    ensures p.calls == old(p.calls) + DeleteCalls(Get(ctx.fields, "channel_id"), IdArray(ids), hidden)
    ensures msgs == Replay(p.respond, old(p.calls), DeleteCalls(Get(ctx.fields, "channel_id"), IdArray(ids), hidden))
  {
    var all := IdArray(ids);
    ghost var cs := DeleteCalls(Get(ctx.fields, "channel_id"), all, hidden);
    msgs := [];
    var k := 0;
    while k < |all|
      invariant 0 <= k <= |all|
      invariant p.calls == old(p.calls) + cs[..k]
      invariant msgs == Replay(p.respond, old(p.calls), cs[..k])
    {
      assert cs[..k + 1][..k] == cs[..k];
      var r := p.Request(DeleteMessage(Get(ctx.fields, "channel_id"), all[k], hidden));
      msgs := msgs + [r];
      assert cs[..k + 1] == cs[..k] + [cs[k]];
      k := k + 1;
    }
    assert cs[..k] == cs;
  }
}
