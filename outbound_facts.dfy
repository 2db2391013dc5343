/**
 * What the composer promises, proved about its specification: the call log
 * only grows and every call is answered exactly once in `data`;
 * `message_id` lists exactly the ids present in `data`, in order; the last
 * `reply` anywhere in the message (nested nodes included) decides the final
 * `message_id`; the accumulated text is the segments' renderings in order
 * and goes out in one final call; and, for a message without nodes, the
 * exact list of calls: one per image, in order, each with the reply id in
 * force at that point, then at most one content call.
 */
module OutboundFacts {
  import opened Wrappers
  import opened Strings
  import opened Objects
  import opened Outbound

  // ---- the call log grows, each call answered once ----

  /** `b` extends `a`'s call log, and only `message_id` may differ in the fields. */
  ghost predicate Grows(a: State, b: State) {
    && |a.calls| <= |b.calls|
    && b.calls[..|a.calls|] == a.calls
    && forall k :: k != "message_id" ==> Get(b.fields, k) == Get(a.fields, k)
  }

  lemma {:induction false} GrowsTrans(a: State, b: State, c: State)
    requires Grows(a, b) && Grows(b, c)
    ensures Grows(a, c)
  {
    assert c.calls[..|a.calls|] == c.calls[..|b.calls|][..|a.calls|];
  }

  lemma {:induction false} AllDataSnoc(outs: seq<Outcome>, o: Outcome)
    ensures AllData(outs + [o]) == AllData(outs) + o.data
    ensures AllIds(outs + [o]) == AllIds(outs) + o.messageIds
  {
    assert (outs + [o])[..|outs|] == outs;
  }

  /** One more message of a node: the state after it, and its outcome appended. */
  lemma RunForwardLast(respond: Responder, route: Route, st: State, node: Seg, n: nat)
    requires node.Node? && 0 < n <= |node.messages|
    ensures var prev := RunForward(respond, route, st, node, n - 1);
            var r := RunMsg(respond, route, prev.st, node.messages[n - 1]);
            RunForward(respond, route, st, node, n) == Forwarded(r.st, prev.outcomes + [r.outcome])
  {
  }

  /**
   * A node yields one outcome per message, in order: the `k`-th is what
   * `sendMsg` returns for the `k`-th message, sent from the state the first
   * `k` messages left behind.
   */
  lemma {:induction false} RunForwardOutcomes(respond: Responder, route: Route, st: State, node: Seg, n: nat)
    requires node.Node? && n <= |node.messages|
    ensures |RunForward(respond, route, st, node, n).outcomes| == n
    ensures forall k :: 0 <= k < n ==>
              RunForward(respond, route, st, node, n).outcomes[k] ==
              RunMsg(respond, route, RunForward(respond, route, st, node, k).st, node.messages[k]).outcome
  {
    RunForwardCount(respond, route, st, node, n);
    forall k | 0 <= k < n
      ensures RunForward(respond, route, st, node, n).outcomes[k] ==
              RunMsg(respond, route, RunForward(respond, route, st, node, k).st, node.messages[k]).outcome
    {
      RunForwardNth(respond, route, st, node, n, k);
    }
  }

  lemma {:induction false} RunForwardCount(respond: Responder, route: Route, st: State, node: Seg, n: nat)
    requires node.Node? && n <= |node.messages|
    ensures |RunForward(respond, route, st, node, n).outcomes| == n
  {
    if n > 0 {
      RunForwardCount(respond, route, st, node, n - 1);
      RunForwardLast(respond, route, st, node, n);
    }
  }

  lemma {:induction false} RunForwardNth(respond: Responder, route: Route, st: State, node: Seg, n: nat, k: nat)
    requires node.Node? && k < n <= |node.messages|
    ensures k < |RunForward(respond, route, st, node, n).outcomes|
    ensures RunForward(respond, route, st, node, n).outcomes[k] ==
            RunMsg(respond, route, RunForward(respond, route, st, node, k).st, node.messages[k]).outcome
    decreases n
  {
    var prev := RunForward(respond, route, st, node, n - 1);
    var last := RunMsg(respond, route, prev.st, node.messages[n - 1]).outcome;
    RunForwardCount(respond, route, st, node, n - 1);
    RunForwardLast(respond, route, st, node, n);
    assert RunForward(respond, route, st, node, n).outcomes == prev.outcomes + [last];
    if k < n - 1 {
      RunForwardNth(respond, route, st, node, n - 1, k);
      SnocIndex(prev.outcomes, last, k);
    } else {
      SnocLast(prev.outcomes, last);
    }
  }

  lemma SnocLast<T>(a: seq<T>, x: T)
    ensures (a + [x])[|a|] == x
  {
  }

  lemma SnocIndex<T>(a: seq<T>, x: T, k: nat)
    requires k < |a|
    ensures (a + [x])[k] == a[k]
  {
  }

  lemma {:induction false} RunMsgGrows(respond: Responder, route: Route, st: State, m: OutMsg)
    ensures var r := RunMsg(respond, route, st, m);
            Grows(st, r.st) && |st.calls| + |r.outcome.data| == |r.st.calls|
    decreases m, 2
  {
    RunItemsGrows(respond, route, st, m, |Items(m)|);
  }

  lemma {:induction false} RunItemsGrows(respond: Responder, route: Route, st: State, m: OutMsg, n: nat)
    requires n <= |Items(m)|
    ensures var a := RunItems(respond, route, st, m, n);
            Grows(st, a.st) && |st.calls| + |a.msgs| + |a.ret| == |a.st.calls|
    decreases m, 1, n
  {
    if n > 0 {
      var before := RunItems(respond, route, st, m, n - 1);
      RunItemsGrows(respond, route, st, m, n - 1);
      StepGrows(respond, route, before, Items(m)[n - 1]);
      GrowsTrans(st, before.st, RunItems(respond, route, st, m, n).st);
    }
  }

  lemma {:induction false} StepGrows(respond: Responder, route: Route, acc: Acc, x: Item)
    ensures var b := Step(respond, route, acc, x);
            Grows(acc.st, b.st) && |b.st.calls| - |acc.st.calls| == (|b.msgs| + |b.ret|) - (|acc.msgs| + |acc.ret|)
    decreases x, 4
  {
    if x.Segment? {
      StepSegGrows(respond, route, acc, x.seg);
    }
  }

  lemma {:induction false} StepSegGrows(respond: Responder, route: Route, acc: Acc, s: Seg)
    ensures var b := StepSeg(respond, route, acc, s);
            Grows(acc.st, b.st) && |b.st.calls| - |acc.st.calls| == (|b.msgs| + |b.ret|) - (|acc.msgs| + |acc.ret|)
    decreases s, 3
  {
    match s
    case Node(ms) =>
      RunForwardGrows(respond, route, acc.st, s, |ms|);
    case Image(_) =>
      var b := StepSeg(respond, route, acc, s);
      assert b.st.calls[..|acc.st.calls|] == acc.st.calls;
    case _ =>
  }

  lemma {:induction false} RunForwardGrows(respond: Responder, route: Route, st: State, node: Seg, n: nat)
    requires node.Node? && n <= |node.messages|
    ensures var r := RunForward(respond, route, st, node, n);
            Grows(st, r.st) && |st.calls| + |AllData(r.outcomes)| == |r.st.calls| && |r.outcomes| == n
    decreases node, 0, n
  {
    if n > 0 {
      var prev := RunForward(respond, route, st, node, n - 1);
      var msg := node.messages[n - 1];
      var r := RunMsg(respond, route, prev.st, msg);
      RunForwardLast(respond, route, st, node, n);
      RunForwardGrows(respond, route, st, node, n - 1);
      RunMsgGrows(respond, route, prev.st, msg);
      ForwardGrowsStep(st, prev.st, r.st, prev.outcomes, r.outcome);
    }
  }

  lemma {:induction false} ForwardGrowsStep(a: State, b: State, c: State, outs: seq<Outcome>, out: Outcome)
    requires Grows(a, b) && |a.calls| + |AllData(outs)| == |b.calls|
    requires Grows(b, c) && |b.calls| + |out.data| == |c.calls|
    ensures Grows(a, c) && |a.calls| + |AllData(outs + [out])| == |c.calls|
  {
    GrowsTrans(a, b, c);
    AllDataSnoc(outs, out);
  }

  // ---- message ids are the ids in data ----

  lemma {:induction false} IdsOfAppend(a: seq<Response>, b: seq<Response>)
    ensures IdsOf(a + b) == IdsOf(a) + IdsOf(b)
    decreases |b|
  {
    if b != [] {
      var n := |b| - 1;
      var ab := a + b;
      var last := b[n];
      var tail := if Truthy(Get(last.data, "id")) then [last.data["id"]] else [];
      assert ab[..|ab| - 1] == a + b[..n];
      assert ab[|ab| - 1] == last;
      assert IdsOf(ab) == IdsOf(a + b[..n]) + tail;
      assert IdsOf(b) == IdsOf(b[..n]) + tail;
      IdsOfAppend(a, b[..n]);
    } else {
      assert a + b == a;
    }
  }

  /** `message_id` lists exactly the ids found in `data`, in `data`'s order. */
  lemma {:induction false} RunMsgIds(respond: Responder, route: Route, st: State, m: OutMsg)
    ensures var r := RunMsg(respond, route, st, m).outcome; r.messageIds == IdsOf(r.data)
    decreases m, 2
  {
    var acc := RunItems(respond, route, st, m, |Items(m)|);
    RunItemsIds(respond, route, st, m, |Items(m)|);
    var f := acc.st.fields;
    var ret := if acc.message != "" then acc.ret + [Send(respond, acc.st, Post(TargetOf(route, f), Content(acc.message, Get(f, "message_id")))).response] else acc.ret;
    IdsOfAppend(acc.msgs, ret);
  }

  lemma {:induction false} RunItemsIds(respond: Responder, route: Route, st: State, m: OutMsg, n: nat)
    requires n <= |Items(m)|
    ensures var a := RunItems(respond, route, st, m, n); a.ids == IdsOf(a.msgs)
    decreases m, 1, n
  {
    if n > 0 {
      RunItemsIds(respond, route, st, m, n - 1);
      StepIds(respond, route, RunItems(respond, route, st, m, n - 1), Items(m)[n - 1]);
    }
  }

  lemma {:induction false} StepIds(respond: Responder, route: Route, acc: Acc, x: Item)
    requires acc.ids == IdsOf(acc.msgs)
    ensures var b := Step(respond, route, acc, x); b.ids == IdsOf(b.msgs)
    decreases x, 4
  {
    if x.Segment? {
      StepSegIds(respond, route, acc, x.seg);
    }
  }

  lemma {:induction false} StepSegIds(respond: Responder, route: Route, acc: Acc, s: Seg)
    requires acc.ids == IdsOf(acc.msgs)
    ensures var b := StepSeg(respond, route, acc, s); b.ids == IdsOf(b.msgs)
    decreases s, 3
  {
    if s.Node? {
      var outs := RunForward(respond, route, acc.st, s, |s.messages|).outcomes;
      RunForwardIds(respond, route, acc.st, s, |s.messages|);
      AllIdsConsistent(outs);
      IdsOfAppend(acc.msgs, AllData(outs));
    }
  }

  /** Every result of a node lists exactly the ids found in its own `data`. */
  ghost predicate EachConsistent(outs: seq<Outcome>) {
    forall k :: 0 <= k < |outs| ==> outs[k].messageIds == IdsOf(outs[k].data)
  }

  lemma {:induction false} RunForwardIds(respond: Responder, route: Route, st: State, node: Seg, n: nat)
    requires node.Node? && n <= |node.messages|
    ensures EachConsistent(RunForward(respond, route, st, node, n).outcomes)
    decreases node, 0, n
  {
    if n > 0 {
      var prev := RunForward(respond, route, st, node, n - 1);
      var msg := node.messages[n - 1];
      RunForwardIds(respond, route, st, node, n - 1);
      RunMsgIds(respond, route, prev.st, msg);
      RunForwardLast(respond, route, st, node, n);
      ConsistentSnoc(prev.outcomes, RunMsg(respond, route, prev.st, msg).outcome);
    }
  }

  lemma {:induction false} ConsistentSnoc(outs: seq<Outcome>, out: Outcome)
    requires EachConsistent(outs) && out.messageIds == IdsOf(out.data)
    ensures EachConsistent(outs + [out])
  {
    var all := outs + [out];
    forall k | 0 <= k < |all| ensures all[k].messageIds == IdsOf(all[k].data) {
      if k < |outs| { assert all[k] == outs[k]; }
    }
  }

  /** For results that each list their own ids, the node's ids are the ids of its data. */
  lemma {:induction false} AllIdsConsistent(outs: seq<Outcome>)
    requires EachConsistent(outs)
    ensures AllIds(outs) == IdsOf(AllData(outs))
    decreases |outs|
  {
    if outs != [] {
      var init := outs[..|outs| - 1];
      var last := outs[|outs| - 1];
      assert EachConsistent(init) by {
        forall k | 0 <= k < |init| ensures init[k].messageIds == IdsOf(init[k].data) {
          assert init[k] == outs[k];
        }
      }
      AllIdsConsistent(init);
      IdsOfAppend(AllData(init), last.data);
    }
  }

  // ---- the reply in force ----

  /** The `reply` ids of a message, nested nodes included, in the order they are met. */
  function Replies(m: OutMsg): seq<Option<string>>
    decreases m, 2
  {
    RepliesItems(m, |Items(m)|)
  }

  function RepliesItems(m: OutMsg, n: nat): seq<Option<string>>
    requires n <= |Items(m)|
    decreases m, 1, n
  {
    if n == 0 then [] else RepliesItems(m, n - 1) + RepliesOf(Items(m)[n - 1])
  }

  function RepliesOf(x: Item): seq<Option<string>>
    decreases x, 4
  {
    match x
    case Scalar(_) => []
    case Segment(s) => RepliesSeg(s)
  }

  function RepliesSeg(s: Seg): seq<Option<string>>
    decreases s, 3
  {
    match s
    case Reply(id) => [id]
    case Node(ms) => RepliesForward(s, |ms|)
    case _ => []
  }

  function RepliesForward(node: Seg, n: nat): seq<Option<string>>
    requires node.Node? && n <= |node.messages|
    decreases node, 0, n
  {
    if n == 0 then [] else RepliesForward(node, n - 1) + Replies(node.messages[n - 1])
  }

  /** The fields after setting `message_id` to each of `rs` in turn: the last one wins. */
  function ApplyReplies(f: Fields, rs: seq<Option<string>>): Fields
    decreases |rs|
  {
    if rs == [] then f else Assign(ApplyReplies(f, rs[..|rs| - 1]), "message_id", rs[|rs| - 1])
  }

  lemma {:induction false} ApplyRepliesGet(f: Fields, rs: seq<Option<string>>)
    ensures Get(ApplyReplies(f, rs), "message_id") == if rs == [] then Get(f, "message_id") else rs[|rs| - 1]
    ensures forall k :: k != "message_id" ==> Get(ApplyReplies(f, rs), k) == Get(f, k)
    decreases |rs|
  {
    if rs != [] {
      ApplyRepliesGet(f, rs[..|rs| - 1]);
    }
  }

  lemma {:induction false} ApplyRepliesAppend(f: Fields, a: seq<Option<string>>, b: seq<Option<string>>)
    ensures ApplyReplies(f, a + b) == ApplyReplies(ApplyReplies(f, a), b)
    decreases |b|
  {
    if b == [] {
      assert a + b == a;
    } else {
      var n := |b| - 1;
      var ab := a + b;
      assert ab[..|ab| - 1] == a + b[..n];
      assert ab[|ab| - 1] == b[n];
      ApplyRepliesAppend(f, a, b[..n]);
    }
  }

  /** The context's fields after `sendMsg` are those before with every `reply` applied in order. */
  lemma {:induction false} RunMsgReplies(respond: Responder, route: Route, st: State, m: OutMsg)
    ensures RunMsg(respond, route, st, m).st.fields == ApplyReplies(st.fields, Replies(m))
    decreases m, 2
  {
    RunItemsReplies(respond, route, st, m, |Items(m)|);
  }

  lemma {:induction false} RunItemsReplies(respond: Responder, route: Route, st: State, m: OutMsg, n: nat)
    requires n <= |Items(m)|
    ensures RunItems(respond, route, st, m, n).st.fields == ApplyReplies(st.fields, RepliesItems(m, n))
    decreases m, 1, n
  {
    if n > 0 {
      var before := RunItems(respond, route, st, m, n - 1);
      RunItemsReplies(respond, route, st, m, n - 1);
      StepReplies(respond, route, before, Items(m)[n - 1]);
      ApplyRepliesAppend(st.fields, RepliesItems(m, n - 1), RepliesOf(Items(m)[n - 1]));
    }
  }

  lemma {:induction false} StepReplies(respond: Responder, route: Route, acc: Acc, x: Item)
    ensures Step(respond, route, acc, x).st.fields == ApplyReplies(acc.st.fields, RepliesOf(x))
    decreases x, 4
  {
    if x.Segment? {
      StepSegReplies(respond, route, acc, x.seg);
    }
  }

  lemma {:induction false} StepSegReplies(respond: Responder, route: Route, acc: Acc, s: Seg)
    ensures StepSeg(respond, route, acc, s).st.fields == ApplyReplies(acc.st.fields, RepliesSeg(s))
    decreases s, 3
  {
    match s
    case Node(ms) =>
      RunForwardReplies(respond, route, acc.st, s, |ms|);
    case Reply(id) =>
      assert [id][..0] == [];
    case _ =>
  }

  lemma {:induction false} RunForwardReplies(respond: Responder, route: Route, st: State, node: Seg, n: nat)
    requires node.Node? && n <= |node.messages|
    ensures RunForward(respond, route, st, node, n).st.fields == ApplyReplies(st.fields, RepliesForward(node, n))
    decreases node, 0, n
  {
    if n > 0 {
      var prev := RunForward(respond, route, st, node, n - 1);
      var msg := node.messages[n - 1];
      var r := RunMsg(respond, route, prev.st, msg);
      RunForwardReplies(respond, route, st, node, n - 1);
      RunMsgReplies(respond, route, prev.st, msg);
      ForwardRepliesStep(st.fields, prev.st.fields, r.st.fields, RepliesForward(node, n - 1), Replies(msg));
      RunForwardLast(respond, route, st, node, n);
    }
  }

  lemma {:induction false} ForwardRepliesStep(f0: Fields, f1: Fields, f2: Fields, a: seq<Option<string>>, b: seq<Option<string>>)
    requires f1 == ApplyReplies(f0, a) && f2 == ApplyReplies(f1, b)
    ensures f2 == ApplyReplies(f0, a + b)
  {
    ApplyRepliesAppend(f0, a, b);
  }

  /** After `sendMsg` the context's `message_id` is the last reply's id, or unchanged without one. */
  lemma {:induction false} LastReplyWins(respond: Responder, route: Route, st: State, m: OutMsg)
    ensures var f := RunMsg(respond, route, st, m).st.fields;
            var rs := Replies(m);
            Get(f, "message_id") == (if rs == [] then Get(st.fields, "message_id") else rs[|rs| - 1])
  {
    RunMsgReplies(respond, route, st, m);
    ApplyRepliesGet(st.fields, Replies(m));
  }

  // ---- the accumulated text and the final call ----

  /** What an element adds to `sendMsg`'s accumulated text. */
  function RenderedItem(x: Item): string {
    match x
    case Scalar(v) => v
    case Segment(s) => Rendered(s)
  }

  /** The text accumulated over `xs`, in order. */
  function Accumulated(xs: seq<Item>): string
    decreases |xs|
  {
    if xs == [] then "" else Accumulated(xs[..|xs| - 1]) + RenderedItem(xs[|xs| - 1])
  }

  lemma {:induction false} AccumulatedCons(x: Item, xs: seq<Item>)
    ensures Accumulated([x] + xs) == RenderedItem(x) + Accumulated(xs)
    decreases |xs|
  {
    if xs == [] {
      assert ([x] + xs)[..0] == [];
    } else {
      var n := |xs| - 1;
      var all := [x] + xs;
      assert all[..|all| - 1] == [x] + xs[..n];
      assert all[|all| - 1] == xs[n];
      AccumulatedCons(x, xs[..n]);
      ConcatAssoc(RenderedItem(x), Accumulated(xs[..n]), RenderedItem(xs[n]));
    }
  }

  /** Empty text exactly when every element renders to nothing. */
  lemma {:induction false} AccumulatedEmpty(xs: seq<Item>)
    ensures Accumulated(xs) == "" <==> forall k :: 0 <= k < |xs| ==> RenderedItem(xs[k]) == ""
    decreases |xs|
  {
    if xs != [] {
      var n := |xs| - 1;
      var front := xs[..n];
      AccumulatedEmpty(front);
      var a, b := Accumulated(front), RenderedItem(xs[n]);
      assert |Accumulated(xs)| == |a| + |b|;
      if Accumulated(xs) == "" {
        forall k | 0 <= k < |xs| ensures RenderedItem(xs[k]) == "" {
          if k < n { assert front[k] == xs[k]; }
        }
      } else if a == "" {
        assert RenderedItem(xs[n]) != "";
      } else {
        var j :| 0 <= j < n && RenderedItem(front[j]) != "";
        assert front[j] == xs[j];
      }
    }
  }

  lemma StepText(respond: Responder, route: Route, acc: Acc, x: Item)
    ensures Step(respond, route, acc, x).message == acc.message + RenderedItem(x)
  {
  }

  /** `sendMsg`'s accumulator after `n` elements is their renderings concatenated. */
  lemma {:induction false} RunItemsText(respond: Responder, route: Route, st: State, m: OutMsg, n: nat)
    requires n <= |Items(m)|
    ensures RunItems(respond, route, st, m, n).message == Accumulated(Items(m)[..n])
  {
    if n > 0 {
      RunItemsText(respond, route, st, m, n - 1);
      StepText(respond, route, RunItems(respond, route, st, m, n - 1), Items(m)[n - 1]);
      var xs := Items(m)[..n];
      assert xs[..n - 1] == Items(m)[..n - 1];
      assert xs[n - 1] == Items(m)[n - 1];
    }
  }

  /**
   * The text of the whole message goes out in one last call, after every
   * other call, with the final `message_id`; no call when it is empty.
   */
  lemma {:induction false} FinalContent(respond: Responder, route: Route, st: State, m: OutMsg)
    ensures var acc := RunItems(respond, route, st, m, |Items(m)|);
            var r := RunMsg(respond, route, st, m);
            var text := Accumulated(Items(m));
            && (text != "" ==>
                  r.st.calls == acc.st.calls + [Post(TargetOf(route, r.st.fields), Content(text, Get(r.st.fields, "message_id")))])
            && (text == "" ==> r.st == acc.st && r.outcome.data == acc.msgs + acc.ret)
  {
    RunItemsText(respond, route, st, m, |Items(m)|);
    assert Items(m)[..|Items(m)|] == Items(m);
  }

  // ---- a message without nodes: the exact calls ----

  predicate FlatItems(xs: seq<Item>) {
    forall k :: 0 <= k < |xs| ==> !(xs[k].Segment? && xs[k].seg.Node?)
  }

  /**
   * The calls a message without nodes makes, read front to back: an image
   * post at each image with the `message_id` in force there, a reply
   * changes that id, anything else adds to the text, and the text goes out
   * at the end if there is any.
   */
  function FlatPlan(route: Route, f: Fields, xs: seq<Item>, text: string): seq<Call>
    decreases |xs|
  {
    if xs == [] then
      if text != "" then [Post(TargetOf(route, f), Content(text, Get(f, "message_id")))] else []
    else
      var x := xs[0];
      if x.Segment? && x.seg.Image? then
        [Post(TargetOf(route, f), ImageBody(f, x.seg.file))] + FlatPlan(route, f, xs[1..], text)
      else if x.Segment? && x.seg.Reply? then
        FlatPlan(route, Assign(f, "message_id", x.seg.replyTo), xs[1..], text)
      else
        FlatPlan(route, f, xs[1..], text + RenderedItem(x))
  }

  function ImageCount(xs: seq<Item>): nat
    decreases |xs|
  {
    if xs == [] then 0
    else (if xs[0].Segment? && xs[0].seg.Image? then 1 else 0) + ImageCount(xs[1..])
  }

  /** Reading the first element moves its rendering from the rest into the text. */
  lemma {:induction false} TextStep(text: string, xs: seq<Item>)
    requires xs != []
    ensures text + Accumulated(xs) == (text + RenderedItem(xs[0])) + Accumulated(xs[1..])
  {
    assert [xs[0]] + xs[1..] == xs;
    AccumulatedCons(xs[0], xs[1..]);
    ConcatAssoc(text, RenderedItem(xs[0]), Accumulated(xs[1..]));
  }

  /** One image post per image, then one content call iff there is text. */
  lemma {:induction false} FlatPlanLength(route: Route, f: Fields, xs: seq<Item>, text: string)
    ensures |FlatPlan(route, f, xs, text)| == ImageCount(xs) + (if text + Accumulated(xs) != "" then 1 else 0)
    decreases |xs|
  {
    if xs != [] {
      var x := xs[0];
      var rest := xs[1..];
      TextStep(text, xs);
      if x.Segment? && x.seg.Image? {
        assert text + RenderedItem(x) == text;
        FlatPlanLength(route, f, rest, text);
      } else if x.Segment? && x.seg.Reply? {
        assert text + RenderedItem(x) == text;
        FlatPlanLength(route, Assign(f, "message_id", x.seg.replyTo), rest, text);
      } else {
        FlatPlanLength(route, f, rest, text + RenderedItem(x));
      }
    } else {
      assert text + Accumulated(xs) == text;
    }
  }

  /** The first calls, one per image, are image posts. */
  lemma {:induction false} FlatPlanImages(route: Route, f: Fields, xs: seq<Item>, text: string)
    ensures forall k :: 0 <= k < ImageCount(xs) && k < |FlatPlan(route, f, xs, text)| ==>
              FlatPlan(route, f, xs, text)[k].Post? && !FlatPlan(route, f, xs, text)[k].body.Content?
    decreases |xs|
  {
    if xs != [] {
      var x := xs[0];
      var rest := xs[1..];
      if x.Segment? && x.seg.Image? {
        FlatPlanImages(route, f, rest, text);
        var p := FlatPlan(route, f, xs, text);
        var q := FlatPlan(route, f, rest, text);
        assert p == [Post(TargetOf(route, f), ImageBody(f, x.seg.file))] + q;
        forall k | 0 < k < ImageCount(xs) && k < |p| ensures p[k].Post? && !p[k].body.Content? {
          assert ImageCount(xs) == 1 + ImageCount(rest);
          assert p[k] == q[k - 1] && k - 1 < ImageCount(rest) && k - 1 < |q|;
        }
      } else if x.Segment? && x.seg.Reply? {
        FlatPlanImages(route, Assign(f, "message_id", x.seg.replyTo), rest, text);
      } else {
        FlatPlanImages(route, f, rest, text + RenderedItem(x));
      }
    }
  }

  /** When there is text, the last call posts all of it. */
  lemma {:induction false} FlatPlanLast(route: Route, f: Fields, xs: seq<Item>, text: string)
    ensures text + Accumulated(xs) != "" ==> LastPosts(FlatPlan(route, f, xs, text), text + Accumulated(xs))
    decreases |xs|, 1
  {
    if xs == [] {
      assert text + Accumulated(xs) == text;
    } else if xs[0].Segment? && xs[0].seg.Image? {
      FlatPlanLastImage(route, f, xs, text);
    } else if xs[0].Segment? && xs[0].seg.Reply? {
      FlatPlanLastReply(route, f, xs, text);
    } else {
      FlatPlanLastText(route, f, xs, text);
    }
  }

  lemma {:induction false} FlatPlanLastImage(route: Route, f: Fields, xs: seq<Item>, text: string)
    requires xs != [] && xs[0].Segment? && xs[0].seg.Image?
    ensures text + Accumulated(xs) != "" ==> LastPosts(FlatPlan(route, f, xs, text), text + Accumulated(xs))
    decreases |xs|, 0
  {
    TextStep(text, xs);
    assert text + RenderedItem(xs[0]) == text;
    FlatPlanLast(route, f, xs[1..], text);
    LastPostsCons(Post(TargetOf(route, f), ImageBody(f, xs[0].seg.file)), FlatPlan(route, f, xs[1..], text), text + Accumulated(xs));
  }

  lemma {:induction false} FlatPlanLastReply(route: Route, f: Fields, xs: seq<Item>, text: string)
    requires xs != [] && xs[0].Segment? && xs[0].seg.Reply?
    ensures text + Accumulated(xs) != "" ==> LastPosts(FlatPlan(route, f, xs, text), text + Accumulated(xs))
    decreases |xs|, 0
  {
    TextStep(text, xs);
    assert text + RenderedItem(xs[0]) == text;
    FlatPlanLast(route, Assign(f, "message_id", xs[0].seg.replyTo), xs[1..], text);
  }

  lemma {:induction false} FlatPlanLastText(route: Route, f: Fields, xs: seq<Item>, text: string)
    requires xs != [] && !(xs[0].Segment? && (xs[0].seg.Image? || xs[0].seg.Reply?))
    ensures text + Accumulated(xs) != "" ==> LastPosts(FlatPlan(route, f, xs, text), text + Accumulated(xs))
    decreases |xs|, 0
  {
    TextStep(text, xs);
    FlatPlanLast(route, f, xs[1..], text + RenderedItem(xs[0]));
  }

  lemma LastPostsCons(c: Call, q: seq<Call>, text: string)
    ensures LastPosts(q, text) ==> LastPosts([c] + q, text)
  {
    if |q| > 0 { assert ([c] + q)[|q|] == q[|q| - 1]; }
  }

  /** `p` ends with a content post of `text`. */
  predicate LastPosts(p: seq<Call>, text: string) {
    |p| > 0 && p[|p| - 1].Post? && p[|p| - 1].body.Content? && p[|p| - 1].body.content == text
  }

  /** One image post per image, in order, then exactly one content call iff there is text, holding all of it. */
  lemma {:induction false} FlatPlanShape(route: Route, f: Fields, xs: seq<Item>, text: string)
    ensures var p := FlatPlan(route, f, xs, text);
            var all := text + Accumulated(xs);
            && |p| == ImageCount(xs) + (if all != "" then 1 else 0)
            && (forall k :: 0 <= k < ImageCount(xs) ==> p[k].Post? && !p[k].body.Content?)
            && (all != "" ==> p[|p| - 1].Post? && p[|p| - 1].body.Content? && p[|p| - 1].body.content == all)
  {
    FlatPlanLength(route, f, xs, text);
    FlatPlanImages(route, f, xs, text);
    FlatPlanLast(route, f, xs, text);
  }

  lemma {:induction false} ReplaySnoc(respond: Responder, h: seq<Call>, cs: seq<Call>, c: Call)
    ensures Replay(respond, h, cs + [c]) == Replay(respond, h, cs) + [respond(h + cs, c)]
  {
    assert (cs + [c])[..|cs|] == cs;
  }

  /** One element of a message without nodes, against the plan. */
  lemma {:induction false} FlatStep(respond: Responder, route: Route, h: seq<Call>, acc: Acc, x: Item, rest: seq<Item>)
    requires !(x.Segment? && x.seg.Node?)
    requires |h| <= |acc.st.calls| && acc.st.calls[..|h|] == h
    requires acc.ret == Replay(respond, h, acc.st.calls[|h|..])
    ensures var b := Step(respond, route, acc, x);
            && |h| <= |b.st.calls| && b.st.calls[..|h|] == h
            && b.msgs == acc.msgs && b.ids == acc.ids
            && acc.st.calls[|h|..] + FlatPlan(route, acc.st.fields, [x] + rest, acc.message)
               == b.st.calls[|h|..] + FlatPlan(route, b.st.fields, rest, b.message)
            && b.ret == Replay(respond, h, b.st.calls[|h|..])
  {
    var xs := [x] + rest;
    assert xs[0] == x && xs[1..] == rest;
    if x.Segment? && x.seg.Image? {
      FlatStepImage(respond, route, h, acc, x, rest);
    }
  }

  /** An image is posted at once, with the fields in force. */
  lemma {:induction false} FlatStepImage(respond: Responder, route: Route, h: seq<Call>, acc: Acc, x: Item, rest: seq<Item>)
    requires x.Segment? && x.seg.Image?
    requires |h| <= |acc.st.calls| && acc.st.calls[..|h|] == h
    requires acc.ret == Replay(respond, h, acc.st.calls[|h|..])
    ensures var b := Step(respond, route, acc, x);
            && |h| <= |b.st.calls| && b.st.calls[..|h|] == h
            && acc.st.calls[|h|..] + FlatPlan(route, acc.st.fields, [x] + rest, acc.message)
               == b.st.calls[|h|..] + FlatPlan(route, b.st.fields, rest, b.message)
            && b.ret == Replay(respond, h, b.st.calls[|h|..])
  {
    var xs := [x] + rest;
    assert xs[0] == x && xs[1..] == rest;
    var f := acc.st.fields;
    var c := Post(TargetOf(route, f), ImageBody(f, x.seg.file));
    var d := acc.st.calls[|h|..];
    assert acc.st.calls == h + d;
    assert (acc.st.calls + [c])[|h|..] == d + [c];
    assert (acc.st.calls + [c])[..|h|] == h;
    ConcatAssoc(d, [c], FlatPlan(route, f, rest, acc.message));
    ReplaySnoc(respond, h, d, c);
  }

  /**
   * After the first `n` elements of a message without nodes: no node results,
   * the calls so far extend the history `h`, they and the rest of the plan
   * make up the whole plan, and the answers so far are theirs.
   */
  predicate FlatSoFar(respond: Responder, route: Route, h: seq<Call>, f0: Fields, xs: seq<Item>, a: Acc, n: nat)
    requires n <= |xs|
  {
    && a.msgs == [] && a.ids == []
    && |h| <= |a.st.calls| && a.st.calls[..|h|] == h
    && FlatPlan(route, f0, xs, "") == a.st.calls[|h|..] + FlatPlan(route, a.st.fields, xs[n..], a.message)
    && a.ret == Replay(respond, h, a.st.calls[|h|..])
  }

  lemma {:induction false} FlatRunItems(respond: Responder, route: Route, st: State, m: OutMsg, n: nat)
    requires FlatItems(Items(m)) && n <= |Items(m)|
    ensures FlatSoFar(respond, route, st.calls, st.fields, Items(m), RunItems(respond, route, st, m, n), n)
  {
    var xs := Items(m);
    if n == 0 {
      assert st.calls[|st.calls|..] == [];
      assert xs[0..] == xs;
    } else {
      FlatRunItems(respond, route, st, m, n - 1);
      FlatSoFarStep(respond, route, st.calls, st.fields, xs, RunItems(respond, route, st, m, n - 1), n);
    }
  }

  lemma {:induction false} FlatSoFarStep(respond: Responder, route: Route, h: seq<Call>, f0: Fields, xs: seq<Item>, a: Acc, n: nat)
    requires FlatItems(xs) && 0 < n <= |xs|
    requires FlatSoFar(respond, route, h, f0, xs, a, n - 1)
    ensures FlatSoFar(respond, route, h, f0, xs, Step(respond, route, a, xs[n - 1]), n)
  {
    assert xs[n - 1..] == [xs[n - 1]] + xs[n..];
    FlatStep(respond, route, h, a, xs[n - 1], xs[n..]);
  }

  /** A message without nodes makes exactly the planned calls and returns their answers. */
  lemma {:induction false} FlatRun(respond: Responder, route: Route, st: State, m: OutMsg)
    requires FlatItems(Items(m))
    ensures var r := RunMsg(respond, route, st, m);
            var plan := FlatPlan(route, st.fields, Items(m), "");
            r.st.calls == st.calls + plan && r.outcome.data == Replay(respond, st.calls, plan)
  {
    var xs := Items(m);
    var a := RunItems(respond, route, st, m, |xs|);
    FlatRunItems(respond, route, st, m, |xs|);
    assert xs[|xs|..] == [];
    assert FlatSoFar(respond, route, st.calls, st.fields, xs, a, |xs|);
    FlatFinish(respond, route, st.calls, a, FlatPlan(route, st.fields, xs, ""));
  }

  /** The final content call completes the plan. */
  lemma {:induction false} FlatFinish(respond: Responder, route: Route, h: seq<Call>, a: Acc, plan: seq<Call>)
    requires a.msgs == [] && a.ids == []
    requires |h| <= |a.st.calls| && a.st.calls[..|h|] == h
    requires plan == a.st.calls[|h|..] + FlatPlan(route, a.st.fields, [], a.message)
    requires a.ret == Replay(respond, h, a.st.calls[|h|..])
    ensures var r := Finish(respond, route, a);
            r.st.calls == h + plan && r.outcome.data == Replay(respond, h, plan)
  {
    var d := a.st.calls[|h|..];
    assert a.st.calls == h + d;
    if a.message != "" {
      var f := a.st.fields;
      var c := Post(TargetOf(route, f), Content(a.message, Get(f, "message_id")));
      assert plan == d + [c];
      ConcatAssoc(h, d, [c]);
      ReplaySnoc(respond, h, d, c);
    } else {
      assert plan == d;
    }
  }

  // ---- sendFriendMsg ----

  /**
   * `sendFriendMsg` refuses exactly when the context has neither a
   * direct-message guild nor a source guild, and then makes no call; when
   * it has to open a session, that is its first call and the caller's
   * fields come back untouched.
   */
  lemma {:induction false} FriendSendGuard(respond: Responder, st: State, m: OutMsg)
    ensures var r := FriendSend(respond, st, m);
            var f := st.fields;
            && (r.outcome.None? <==> !Truthy(Get(f, "guild_id")) && !Truthy(Get(f, "source_guild_id")))
            && (r.outcome.None? ==> r.st == st)
            && (!Truthy(Get(f, "guild_id")) && Truthy(Get(f, "source_guild_id")) ==>
                  && r.st.fields == f
                  && |st.calls| < |r.st.calls| && r.st.calls[..|st.calls|] == st.calls
                  && r.st.calls[|st.calls|] == OpenDirect(Get(f, "source_guild_id"), Get(f, "user_id")))
  {
    var f := st.fields;
    if !Truthy(Get(f, "guild_id")) && Truthy(Get(f, "source_guild_id")) {
      FriendSession(respond, st, m);
    }
  }

  /** With only a source guild, the session is opened first and the caller's fields are kept. */
  lemma {:induction false} FriendSession(respond: Responder, st: State, m: OutMsg)
    requires !Truthy(Get(st.fields, "guild_id")) && Truthy(Get(st.fields, "source_guild_id"))
    ensures var r := FriendSend(respond, st, m);
            var f := st.fields;
            && r.st.fields == f
            && |st.calls| < |r.st.calls| && r.st.calls[..|st.calls|] == st.calls
            && r.st.calls[|st.calls|] == OpenDirect(Get(f, "source_guild_id"), Get(f, "user_id"))
  {
    var f := st.fields;
    var c := OpenDirect(Get(f, "source_guild_id"), Get(f, "user_id"));
    var session := Send(respond, st, c);
    var st1o := State(session.st.calls, Overlay(f, session.response.data));
    RunMsgGrows(respond, DirectRoute, st1o, m);
    PrefixOfPrefix(st.calls + [c], RunMsg(respond, DirectRoute, st1o, m).st.calls, |st.calls|);
  }

  /** A prefix of a sequence extending `a` agrees with `a` on its first elements. */
  lemma PrefixOfPrefix<T>(a: seq<T>, b: seq<T>, n: nat)
    requires n <= |a| <= |b| && b[..|a|] == a
    ensures b[..n] == a[..n] && forall k :: 0 <= k < |a| ==> b[k] == a[k]
  {
    assert forall k :: 0 <= k < |a| ==> b[k] == b[..|a|][k];
  }
}
