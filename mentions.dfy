/**
 * The inbound mention scan: the global regular expression `/<@!.+?>/g` over a
 * message's content, the pieces it cuts the content into, and the two
 * renderings of those pieces (the wire markup and the display string).
 *
 * In `<@!.+?>` the `.` matches any character but a line terminator, and the
 * lazy `+?` takes at least one character and then stops at the first `>`.
 */
module Mentions {
  import opened Wrappers
  import opened Strings

  /** A piece of an inbound message: plain text or a mention of a user id. */
  datatype Piece = PlainText(text: string) | Mention(qq: string)

  const Open: string := "<@!"

  /** The characters `.` does not match in a JavaScript regular expression. */
  predicate IsLineTerminator(c: char) {
    c == '\n' || c == '\r' || c == '\U{2028}' || c == '\U{2029}'
  }

  /** A user id as the lazy `.+?` captures it: not empty, on one line, no `>` after its first character. */
  predicate ValidId(qq: string) {
    && |qq| >= 1
    && (forall x :: 0 <= x < |qq| ==> !IsLineTerminator(qq[x]))
    && (forall x :: 1 <= x < |qq| ==> qq[x] != '>')
  }

  /** Index of the first `>` at or after `j` reached without crossing a line terminator. */
  function CloseFrom(s: string, j: nat): (k: Option<nat>)
    ensures k.Some? ==> j <= k.value < |s| && s[k.value] == '>'
    ensures k.Some? ==> forall x :: j <= x < k.value ==> s[x] != '>' && !IsLineTerminator(s[x])
    decreases |s| - j
  {
    if j >= |s| then None
    else if IsLineTerminator(s[j]) then None
    else if s[j] == '>' then Some(j)
    else CloseFrom(s, j + 1)
  }

  /** Any `>` reachable without a line terminator makes the lazy search succeed, no later than it. */
  lemma {:induction false} CloseFromFinds(s: string, j: nat, k: nat)
    requires j <= k < |s| && s[k] == '>'
    requires forall x :: j <= x < k ==> !IsLineTerminator(s[x])
    ensures CloseFrom(s, j).Some? && CloseFrom(s, j).value <= k
    decreases k - j
  {
    if j < k && s[j] != '>' {
      CloseFromFinds(s, j + 1, k);
    }
  }

  /** The end (exclusive) of the match of `<@!.+?>` that starts at `p`, if any. */
  function MentionAt(s: string, p: nat): (e: Option<nat>)
    ensures e.Some? ==> p + 5 <= e.value <= |s| && OccursAt(s, Open, p) && s[e.value - 1] == '>'
  {
    if p + 3 < |s| && s[p..p + 3] == Open && !IsLineTerminator(s[p + 3]) then
      match CloseFrom(s, p + 4)
      case None => None
      case Some(k) =>
        var qq := s[p + 3..k];
        assert forall x :: 0 <= x < |qq| ==> qq[x] == s[p + 3 + x];
        Some(k + 1)
    else None
  }

  /** The leftmost match at or after `from`, as (start, end). */
  function NextMention(s: string, from: nat): (r: Option<(nat, nat)>)
    ensures r.Some? ==> from <= r.value.0 && MentionAt(s, r.value.0) == Some(r.value.1)
    ensures r.Some? ==> forall q :: from <= q < r.value.0 ==> MentionAt(s, q).None?
    ensures r.None? ==> forall q :: from <= q ==> MentionAt(s, q).None?
    decreases |s| - from
  {
    if from >= |s| then
      assert forall q :: from <= q ==> MentionAt(s, q).None?;
      None
    else
      match MentionAt(s, from)
      case Some(e) => Some((from, e))
      case None => NextMention(s, from + 1)
  }

  /** The strings the global match returns, left to right. */
  function Matches(s: string): seq<string>
    decreases |s|
  {
    match NextMention(s, 0)
    case None => []
    case Some((p, e)) => [s[p..e]] + Matches(s[e..])
  }

  /** A run of text as pieces: none when empty. */
  function Lead(t: string): seq<Piece> {
    if t == "" then [] else [PlainText(t)]
  }

  /** The pieces of `content`: text between mentions (never empty), each mention's id. */
  function Scan(s: string): (ps: seq<Piece>)
    ensures forall k :: 0 <= k < |ps| && ps[k].PlainText? ==> ps[k].text != ""
    decreases |s|
  {
    match NextMention(s, 0)
    case None => Lead(s)
    case Some((p, e)) => Lead(s[..p]) + [Mention(s[p + 3..e - 1])] + Scan(s[e..])
  }

  /** The wire markup of one piece: a mention is `<@!id>`. */
  function Markup(x: Piece): string {
    match x
    case PlainText(t) => t
    case Mention(qq) => Open + qq + ">"
  }

  /** How a mention appears in the display string: `[提及：id]`. */
  function MentionTag(qq: string): string {
    "[提及：" + qq + "]"
  }

  /** The display form of one piece. */
  function Shown(x: Piece): string {
    match x
    case PlainText(t) => t
    case Mention(qq) => MentionTag(qq)
  }

  /** The wire markup of pieces. */
  function Wire(ps: seq<Piece>): string
    decreases |ps|
  {
    if ps == [] then "" else Markup(ps[0]) + Wire(ps[1..])
  }

  /** The display string `raw_message` of pieces. */
  function Display(ps: seq<Piece>): string
    decreases |ps|
  {
    if ps == [] then "" else Shown(ps[0]) + Display(ps[1..])
  }

  lemma {:induction false} WireAppend(a: seq<Piece>, b: seq<Piece>)
    ensures Wire(a + b) == Wire(a) + Wire(b)
    decreases |a|
  {
    if a == [] {
      assert a + b == b;
    } else {
      assert (a + b)[0] == a[0];
      assert (a + b)[1..] == a[1..] + b;
      WireAppend(a[1..], b);
    }
  }

  lemma {:induction false} DisplayAppend(a: seq<Piece>, b: seq<Piece>)
    ensures Display(a + b) == Display(a) + Display(b)
    decreases |a|
  {
    if a == [] {
      assert a + b == b;
    } else {
      assert (a + b)[0] == a[0];
      assert (a + b)[1..] == a[1..] + b;
      DisplayAppend(a[1..], b);
    }
  }

  /** One step of the scan: the text before the leftmost match, the match, the rest. */
  lemma {:induction false} ScanStep(s: string, p: nat, e: nat)
    requires NextMention(s, 0) == Some((p, e))
    ensures Scan(s) == Lead(s[..p]) + [Mention(s[p + 3..e - 1])] + Scan(s[e..])
  {
  }

  /** Where the leftmost match lies. */
  lemma {:induction false} NextMentionBounds(s: string, p: nat, e: nat)
    requires NextMention(s, 0) == Some((p, e))
    ensures p + 5 <= e <= |s| && OccursAt(s, Open, p) && s[e - 1] == '>'
  {
  }

  /** A match cuts the content into the text before it, its markup and the rest. */
  lemma {:induction false} SplitAroundMatch(s: string, p: nat, e: nat)
    requires p + 5 <= e <= |s| && OccursAt(s, Open, p) && s[e - 1] == '>'
    ensures s == s[..p] + Open + s[p + 3..e - 1] + ">" + s[e..]
  {
    assert s[p..p + 3] == Open;
    assert s[e - 1..e] == ">";
    assert s == s[..p] + s[p..p + 3] + s[p + 3..e - 1] + s[e - 1..e] + s[e..];
  }

  lemma {:induction false} WireStep(a: string, qq: string, tail: seq<Piece>)
    ensures Wire(Lead(a) + [Mention(qq)] + tail) == a + Open + qq + ">" + Wire(tail)
  {
    var m := Mention(qq);
    var lead := Lead(a);
    assert Wire(lead) == a by {
      if a != "" { assert Wire(lead) == a + Wire([]); }
    }
    assert lead + [m] + tail == lead + ([m] + tail);
    WireAppend(lead, [m] + tail);
    WireCons(m, tail);
  }

  /** Writing the pieces back as markup reproduces the content exactly. */
  lemma {:induction false} ScanRoundTrip(s: string)
    ensures Wire(Scan(s)) == s
    decreases |s|
  {
    match NextMention(s, 0)
    case None =>
      if s != "" {
        assert Wire([PlainText(s)]) == s + Wire([]);
      }
    case Some((p, e)) =>
      NextMentionBounds(s, p, e);
      ScanRoundTrip(s[e..]);
      ScanStep(s, p, e);
      WireStep(s[..p], s[p + 3..e - 1], Scan(s[e..]));
      SplitAroundMatch(s, p, e);
  }

  /** Every mention id the scan produces is as `.+?` captures it. */
  lemma {:induction false} ScanIds(s: string)
    ensures forall k :: 0 <= k < |Scan(s)| && Scan(s)[k].Mention? ==> ValidId(Scan(s)[k].qq)
    decreases |s|
  {
    match NextMention(s, 0)
    case None =>
    case Some((p, e)) =>
      NextMentionBounds(s, p, e);
      MentionId(s, p, e);
      ScanIds(s[e..]);
      ScanStep(s, p, e);
      var ps := Lead(s[..p]) + [Mention(s[p + 3..e - 1])] + Scan(s[e..]);
      forall k | 0 <= k < |ps| && ps[k].Mention? ensures ValidId(ps[k].qq) {
        if k > |Lead(s[..p])| {
          assert ps[k] == Scan(s[e..])[k - |Lead(s[..p])| - 1];
        }
      }
  }

  /** The id a match captures. */
  lemma {:induction false} MentionId(s: string, p: nat, e: nat)
    requires MentionAt(s, p) == Some(e)
    ensures ValidId(s[p + 3..e - 1])
  {
    var k := CloseFrom(s, p + 4).value;
    assert k == e - 1;
    var qq := s[p + 3..k];
    assert forall x :: 0 <= x < |qq| ==> qq[x] == s[p + 3 + x];
  }

  /** `t` contains no `<@!`. */
  predicate MarkerFree(t: string) {
    forall q :: 0 <= q < |t| ==> !OccursAt(t, Open, q)
  }

  /** Content without any `<@!` is a single text piece. */
  lemma {:induction false} ScanMarkerFree(s: string)
    requires s != "" && MarkerFree(s)
    ensures Scan(s) == [PlainText(s)]
  {
    assert forall q :: MentionAt(s, q).None?;
  }

  /**
   * Pieces as the scan produces them: texts are not empty, contain no `<@!`
   * and never stand next to each other; ids are as `.+?` captures them.
   */
  predicate Canonical(ps: seq<Piece>) {
    && (forall k :: 0 <= k < |ps| && ps[k].PlainText? ==>
          ps[k].text != "" && MarkerFree(ps[k].text))
    && (forall k :: 0 <= k < |ps| && ps[k].Mention? ==> ValidId(ps[k].qq))
    && (forall k :: 0 <= k < |ps| - 1 ==> !(ps[k].PlainText? && ps[k + 1].PlainText?))
  }

  lemma {:induction false} CloseFromExact(s: string, j: nat, k: nat)
    requires j <= k < |s| && s[k] == '>'
    requires forall x :: j <= x < k ==> s[x] != '>' && !IsLineTerminator(s[x])
    ensures CloseFrom(s, j) == Some(k)
    decreases k - j
  {
    if j < k {
      CloseFromExact(s, j + 1, k);
    }
  }

  /** A well-formed mention written at `|pre|` is matched exactly there. */
  lemma {:induction false} MentionAtWire(pre: string, qq: string, post: string)
    requires ValidId(qq)
    ensures MentionAt(pre + Open + qq + ">" + post, |pre|) == Some(|pre| + |qq| + 4)
  {
    var s := pre + Open + qq + ">" + post;
    var p := |pre|;
    assert s[p..p + 3] == Open;
    assert forall x :: 0 <= x < |qq| ==> s[p + 3 + x] == qq[x];
    assert s[p + 3 + |qq|] == '>';
    CloseFromExact(s, p + 4, p + 3 + |qq|);
  }

  /** Marker-free text followed by a well-formed mention: the scan takes the text, then the mention. */
  lemma {:induction false} ScanOfMarkup(a: string, qq: string, c: string)
    requires MarkerFree(a) && ValidId(qq)
    ensures Scan(a + Open + qq + ">" + c) == Lead(a) + [Mention(qq)] + Scan(c)
  {
    var s := a + Open + qq + ">" + c;
    var p := |a|;
    var e := p + |qq| + 4;
    MentionAtWire(a, qq, c);
    assert s[..p] == a;
    forall q | 0 <= q < p
      ensures MentionAt(s, q).None?
    {
      if q + 3 <= p {
        assert s[q..q + 3] == a[q..q + 3];
        assert !OccursAt(a, Open, q);
      } else if q + 2 == p {
        assert s[q + 2] == '<';
      } else {
        assert s[q + 1] == '<';
      }
    }
    assert NextMention(s, 0) == Some((p, e));
    ScanStep(s, p, e);
    assert s[p + 3..e - 1] == qq;
    assert s[e..] == c;
  }

  lemma {:induction false} CanonicalSuffix(ps: seq<Piece>, n: nat)
    requires Canonical(ps) && n <= |ps|
    ensures Canonical(ps[n..])
  {
    assert forall k :: 0 <= k < |ps| - n ==> ps[n..][k] == ps[k + n];
  }

  lemma {:induction false} WireCons(x: Piece, rest: seq<Piece>)
    ensures Wire([x] + rest) == Markup(x) + Wire(rest)
  {
    assert ([x] + rest)[1..] == rest;
  }

  lemma {:induction false} ScanWireMention(qq: string, rest: seq<Piece>)
    requires ValidId(qq) && Scan(Wire(rest)) == rest
    ensures Scan(Wire([Mention(qq)] + rest)) == [Mention(qq)] + rest
  {
    WireCons(Mention(qq), rest);
    assert Wire([Mention(qq)] + rest) == "" + Open + qq + ">" + Wire(rest);
    ScanOfMarkup("", qq, Wire(rest));
  }

  lemma {:induction false} ScanWireText(t: string, qq: string, rest: seq<Piece>)
    requires t != "" && MarkerFree(t) && ValidId(qq) && Scan(Wire(rest)) == rest
    ensures Scan(Wire([PlainText(t), Mention(qq)] + rest)) == [PlainText(t), Mention(qq)] + rest
  {
    WireCons(Mention(qq), rest);
    assert [PlainText(t), Mention(qq)] + rest == [PlainText(t)] + ([Mention(qq)] + rest);
    WireCons(PlainText(t), [Mention(qq)] + rest);
    assert t + (Open + qq + ">" + Wire(rest)) == t + Open + qq + ">" + Wire(rest);
    ScanOfMarkup(t, qq, Wire(rest));
    assert Lead(t) == [PlainText(t)];
  }

  /** Scanning canonical pieces written as markup gives the same pieces back. */
  lemma {:induction false} ScanWire(ps: seq<Piece>)
    requires Canonical(ps)
    ensures Scan(Wire(ps)) == ps
    decreases |ps|
  {
    if ps == [] {
      assert NextMention("", 0).None?;
    } else if ps[0].Mention? {
      CanonicalSuffix(ps, 1);
      ScanWire(ps[1..]);
      ScanWireMention(ps[0].qq, ps[1..]);
      assert ps == [Mention(ps[0].qq)] + ps[1..];
    } else if |ps| == 1 {
      assert Wire(ps) == ps[0].text + Wire([]);
      assert Wire(ps) == ps[0].text;
      ScanMarkerFree(ps[0].text);
      assert ps == [PlainText(ps[0].text)];
    } else {
      assert ps[1].Mention?;
      CanonicalSuffix(ps, 2);
      ScanWire(ps[2..]);
      ScanWireText(ps[0].text, ps[1].qq, ps[2..]);
      assert ps == [PlainText(ps[0].text), Mention(ps[1].qq)] + ps[2..];
    }
  }

  /** Text without `<` contains no `<@!`. */
  lemma {:induction false} NoAngleMarkerFree(t: string)
    requires '<' !in t
    ensures MarkerFree(t)
  {
    forall q | 0 <= q < |t| ensures !OccursAt(t, Open, q) {
      assert t[q] in t;
    }
  }

  /** The example of a mention between two texts. */
  lemma {:induction false} ScanExample()
    ensures Scan("hello " + Open + "123" + ">" + " world") == [PlainText("hello "), Mention("123"), PlainText(" world")]
  {
    NoAngleMarkerFree("hello ");
    NoAngleMarkerFree(" world");
    ScanMarkerFree(" world");
    assert ValidId("123");
    ScanOfMarkup("hello ", "123", " world");
    assert Lead("hello ") == [PlainText("hello ")];
  }

  /** How the example's pieces are shown in the raw message text. */
  lemma {:induction false} DisplayExample()
    ensures Display([PlainText("hello "), Mention("123"), PlainText(" world")]) == "hello [提及：123] world"
  {
    var a, m, b := PlainText("hello "), Mention("123"), PlainText(" world");
    assert [a, m, b][1..] == [m, b];
    assert [m, b][1..] == [b];
    assert [b][1..] == [];
    assert Display([b]) == " world";
    assert Display([m, b]) == "[提及：123] world";
  }

  /**
   * `t.replace(/<@!(.+?)>/, "$1")`: the first match in `t` is replaced by the
   * text its group captured.
   */
  function ReplaceMention(t: string): string {
    match NextMention(t, 0)
    case None => t
    case Some((p, e)) => t[..p] + t[p + 3..e - 1] + t[e..]
  }

  /** A copy of a match, anywhere, is a match of the same length. */
  lemma {:induction false} MentionTransfer(s: string, p: nat, e: nat, t: string, q: nat)
    requires MentionAt(s, p) == Some(e)
    requires q + (e - p) <= |t| && t[q..q + (e - p)] == s[p..e]
    ensures MentionAt(t, q) == Some(q + (e - p))
  {
    var n := e - p;
    forall x | q <= x < q + n ensures t[x] == s[p + (x - q)] {
      assert t[q..q + n][x - q] == s[p..e][x - q];
    }
    assert t[q..q + 3] == Open by {
      var u, v := t[q..q + 3], s[p..p + 3];
      assert forall x :: 0 <= x < 3 ==> u[x] == v[x];
    }
    assert CloseFrom(s, p + 4) == Some(e - 1);
    assert t[q + n - 1] == '>';
    forall x | q + 4 <= x < q + n - 1
      ensures t[x] != '>' && !IsLineTerminator(t[x])
    {
      assert t[x] == s[p + (x - q)];
    }
    CloseFromExact(t, q + 4, q + n - 1);
  }

  /** The match string, scanned on its own, is one match covering all of it. */
  lemma {:induction false} MatchAlone(s: string, p: nat, e: nat)
    requires MentionAt(s, p) == Some(e)
    ensures NextMention(s[p..e], 0) == Some((0, e - p))
    ensures ReplaceMention(s[p..e]) == s[p + 3..e - 1]
  {
    var m := s[p..e];
    MentionTransfer(s, p, e, m, 0);
    assert m[0..e - p] == m;
    assert m[3..e - p - 1] == s[p + 3..e - 1] by {
      var u, v := m[3..e - p - 1], s[p + 3..e - 1];
      assert forall x :: 0 <= x < e - p - 4 ==> u[x] == m[3 + x] && v[x] == s[p + 3 + x];
    }
    assert m[..0] == "" && m[e - p..] == "";
  }

  /** The leftmost match is also the first occurrence of its own text. */
  lemma {:induction false} MatchFirstOccurrence(s: string, p: nat, e: nat)
    requires NextMention(s, 0) == Some((p, e))
    ensures FirstIndexOf(s, s[p..e], 0) == Some(p)
  {
    var m := s[p..e];
    assert OccursAt(s, m, p);
    match FirstIndexOf(s, m, 0)
    case None =>
    case Some(q) =>
      if q < p {
        assert s[q..q + |m|] == m;
        MentionTransfer(s, p, e, s, q);
      }
  }

  /**
   * One turn of the inbound loop: cutting the content at the first copy of
   * its first match gives the text before the mention and the rest, and the
   * rest has the remaining matches.
   */
  lemma {:induction false} CutStep(s: string)
    requires Matches(s) != []
    ensures Matches(s)[1..] == Matches(CutAtFirst(s, Matches(s)[0]).1)
    ensures Scan(s) == Lead(CutAtFirst(s, Matches(s)[0]).0)
                       + [Mention(ReplaceMention(Matches(s)[0]))]
                       + Scan(CutAtFirst(s, Matches(s)[0]).1)
  {
    var r := NextMention(s, 0);
    var p, e := r.value.0, r.value.1;
    NextMentionBounds(s, p, e);
    assert Matches(s) == [s[p..e]] + Matches(s[e..]);
    MatchFirstOccurrence(s, p, e);
    assert CutAtFirst(s, s[p..e]) == (s[..p], s[e..]);
    MatchAlone(s, p, e);
    ScanStep(s, p, e);
  }

  /** With no match left, the rest of the content is one text piece, if any. */
  lemma {:induction false} ScanNoMatch(s: string)
    requires Matches(s) == []
    ensures Scan(s) == Lead(s)
  {
  }
}
