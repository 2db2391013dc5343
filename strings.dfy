/**
 * The few JavaScript string operations the adapter relies on:
 * `String.prototype.split` and `Array.prototype.join` with a one-character
 * separator, prefix tests (`/^base64:\/\//`), the first occurrence of a
 * substring, and the truthiness of a string-valued field.
 */
module Strings {
  import opened Wrappers

  /** `String.prototype.split` at `sep`: the pieces between occurrences of `sep`; never empty. */
  function Split(s: string, sep: char): (parts: seq<string>)
    ensures |parts| >= 1
    ensures forall k :: 0 <= k < |parts| ==> sep !in parts[k]
    decreases |s|
  {
    if s == [] then [""]
    else if s[0] == sep then [""] + Split(s[1..], sep)
    else
      var rest := Split(s[1..], sep);
      [[s[0]] + rest[0]] + rest[1..]
  }

  /** `Array.prototype.join`: the pieces with `sep` between each two. */
  function Join(parts: seq<string>, sep: char): string
    decreases |parts|
  {
    if parts == [] then ""
    else if |parts| == 1 then parts[0]
    else parts[0] + [sep] + Join(parts[1..], sep)
  }

  /** Joining the pieces of a split gives back the original string. */
  lemma {:induction false} JoinSplit(s: string, sep: char)
    ensures Join(Split(s, sep), sep) == s
    decreases |s|
  {
    if s == [] {
    } else if s[0] == sep {
      JoinSplit(s[1..], sep);
      var rest := Split(s[1..], sep);
      assert Split(s, sep) == [""] + rest;
      assert Join([""] + rest, sep) == "" + [sep] + Join(rest, sep);
    } else {
      JoinSplit(s[1..], sep);
      var rest := Split(s[1..], sep);
      var parts := [[s[0]] + rest[0]] + rest[1..];
      assert Split(s, sep) == parts;
      if |rest| == 1 {
        assert Join(parts, sep) == [s[0]] + rest[0];
      } else {
        assert parts[1..] == rest[1..];
        assert Join(parts, sep) == [s[0]] + rest[0] + [sep] + Join(rest[1..], sep);
        assert Join(rest, sep) == rest[0] + [sep] + Join(rest[1..], sep);
      }
    }
  }

  /** Splitting a join of separator-free pieces gives back the pieces. */
  lemma {:induction false} SplitJoin(parts: seq<string>, sep: char)
    requires |parts| >= 1
    requires forall k :: 0 <= k < |parts| ==> sep !in parts[k]
    ensures Split(Join(parts, sep), sep) == parts
    decreases |parts|, |parts[0]|
  {
    var p := parts[0];
    if p == [] {
      if |parts| == 1 {
      } else {
        SplitJoin(parts[1..], sep);
        assert Join(parts, sep) == [sep] + Join(parts[1..], sep);
        assert ([sep] + Join(parts[1..], sep))[1..] == Join(parts[1..], sep);
        assert parts == [""] + parts[1..];
      }
    } else {
      var shorter := [p[1..]] + parts[1..];
      assert sep !in shorter[0] by { assert forall c :: c in p[1..] ==> c in p; }
      SplitJoin(shorter, sep);
      JoinFirstChar(parts, sep);
      var s := Join(parts, sep);
      assert s == [p[0]] + Join(shorter, sep);
      assert s[0] == p[0] && s[0] != sep;
      assert s[1..] == Join(shorter, sep);
      var rest := Split(s[1..], sep);
      assert rest == shorter;
      assert [[p[0]] + rest[0]] + rest[1..] == parts by {
        assert [p[0]] + p[1..] == p;
        assert rest[1..] == parts[1..];
      }
    }
  }

  /** Peeling the first character off the first piece of a join. */
  lemma JoinFirstChar(parts: seq<string>, sep: char)
    requires |parts| >= 1 && parts[0] != []
    ensures Join(parts, sep) == [parts[0][0]] + Join([parts[0][1..]] + parts[1..], sep)
  {
    var shorter := [parts[0][1..]] + parts[1..];
    assert shorter[1..] == parts[1..];
    assert parts[0] == [parts[0][0]] + parts[0][1..];
  }

  /** `s` starts with `prefix`. */
  predicate HasPrefix(prefix: string, s: string) {
    |prefix| <= |s| && s[..|prefix|] == prefix
  }

  /** `s` contains `t` at position `p`. */
  predicate OccursAt(s: string, t: string, p: nat) {
    p + |t| <= |s| && s[p..p + |t|] == t
  }

  /** Position of the first occurrence of `t` in `s` at or after `from`. */
  function FirstIndexOf(s: string, t: string, from: nat): (r: Option<nat>)
    ensures r.Some? ==> from <= r.value && OccursAt(s, t, r.value)
    ensures r.Some? ==> forall q :: from <= q < r.value ==> !OccursAt(s, t, q)
    ensures r.None? ==> forall q :: from <= q ==> !OccursAt(s, t, q)
    decreases |s| - from
  {
    if from + |t| > |s| then None
    else if s[from..from + |t|] == t then Some(from)
    else FirstIndexOf(s, t, from + 1)
  }

  /**
   * Splitting at `t`, keeping the first piece and gluing the others back
   * together with `t`: the text before the first occurrence of `t` and the
   * text after it, for a non-empty `t`; when `t` does not occur, the whole
   * string and the empty string.
   */
  function CutAtFirst(s: string, t: string): (r: (string, string))
    ensures FirstIndexOf(s, t, 0).Some? ==> s == r.0 + t + r.1
    ensures FirstIndexOf(s, t, 0).Some? ==> FirstIndexOf(s, t, 0) == Some(|r.0|)
    ensures FirstIndexOf(s, t, 0).None? ==> r == (s, "")
  {
    match FirstIndexOf(s, t, 0)
    case None => (s, "")
    case Some(p) =>
      assert s == s[..p] + s[p..p + |t|] + s[p + |t|..];
      (s[..p], s[p + |t|..])
  }

  /** JavaScript truthiness of an optional string: present and not "". */
  predicate Truthy(v: Option<string>) {
    v.Some? && v.value != ""
  }

  /** `${v}` in a template literal: an absent value prints as "undefined". */
  function Interpolate(v: Option<string>): string {
    v.GetOr("undefined")
  }

  /** Concatenation regroups; stated once so that proofs can name the step. */
  lemma ConcatAssoc<T>(a: seq<T>, b: seq<T>, c: seq<T>)
    ensures (a + b) + c == a + (b + c)
  {
  }
}
