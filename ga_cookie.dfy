/**
 * Deriving the external `clientId` from the first-party analytics cookie.
 *
 * `parseGaClientIdFromCookie` looks for `_ga=<value>` in `document.cookie`
 * with the pattern `(?:^|;\s*)_ga=([^;]+)`, splits the value on "." and joins
 * the third and fourth parts: `GA1.2.1234567890.1234567890` gives
 * `1234567890.1234567890`. A missing cookie, a missing `_ga` entry or a value
 * with fewer than four parts gives null; nothing in it can fail.
 */
module GaCookie {
  import opened JsValues

  /** JavaScript's `\s`: the WhiteSpace and LineTerminator code points. */
  predicate IsJsSpace(c: char) {
    c == ' ' || c == '\t' || c == '\n' || c == '\r' || c == '\U{000B}' || c == '\U{000C}'
    || c == '\U{00A0}' || c == '\U{1680}' || ('\U{2000}' <= c <= '\U{200A}')
    || c == '\U{2028}' || c == '\U{2029}' || c == '\U{202F}' || c == '\U{205F}'
    || c == '\U{3000}' || c == '\U{FEFF}'
  }

  /** The end of the run of `\s` starting at `i` (greedy `\s*`). */
  function SkipSpaces(s: string, i: nat): (j: nat)
    requires i <= |s|
    ensures i <= j <= |s|
    ensures j < |s| ==> !IsJsSpace(s[j])
    decreases |s| - i
  {
    if i < |s| && IsJsSpace(s[i]) then SkipSpaces(s, i + 1) else i
  }

  /** The end of the run of non-";" characters starting at `i` (greedy `[^;]*`). */
  function RunEnd(s: string, i: nat): (j: nat)
    requires i <= |s|
    ensures i <= j <= |s|
    ensures forall k :: i <= k < j ==> s[k] != ';'
    ensures j < |s| ==> s[j] == ';'
    decreases |s| - i
  {
    if i < |s| && s[i] != ';' then RunEnd(s, i + 1) else i
  }

  /** The capture of `_ga=([^;]+)` when the literal `_ga=` starts at `j`. */
  function ValueAt(s: string, j: nat): Option<string>
    requires j <= |s|
  {
    if j + 4 < |s| && s[j..j + 4] == "_ga=" && s[j + 4] != ';'
    then Some(s[j + 4..RunEnd(s, j + 4)])
    else None
  }

  /** A match of the whole pattern starting at `i`: first via `^`, then via `;\s*`. */
  function MatchAt(s: string, i: nat): Option<string>
    requires i < |s|
  {
    var viaStart := if i == 0 then ValueAt(s, 0) else None;
    if viaStart.Some? then viaStart
    else if s[i] == ';' then ValueAt(s, SkipSpaces(s, i + 1))
    else None
  }

  /** The leftmost match at or after `i`, as `String.prototype.match` finds it. */
  function FindFrom(s: string, i: nat): Option<string>
    requires i <= |s|
    decreases |s| - i
  {
    if i == |s| then None
    else
      var m := MatchAt(s, i);
      if m.Some? then m else FindFrom(s, i + 1)
  }

  /** `s.split(d)`. */
  function Split(s: string, d: char): (parts: seq<string>)
    ensures |parts| >= 1
    decreases |s|
  {
    if |s| == 0 then [""]
    else
      var rest := Split(s[1..], d);
      if s[0] == d then [""] + rest
      else [[s[0]] + rest[0]] + rest[1..]
  }

  /** `parts.join(d)`, the inverse of `Split`. */
  function Join(parts: seq<string>, d: char): string
    requires |parts| >= 1
    decreases |parts|
  {
    if |parts| == 1 then parts[0] else parts[0] + [d] + Join(parts[1..], d)
  }

  /** The value part: `parts.length >= 4 ? parts[2] + "." + parts[3] : null`. */
  function ClientIdOfGaValue(v: string): Option<string> {
    var parts := Split(v, '.');
    if |parts| >= 4 then Some(parts[2] + "." + parts[3]) else None
  }

  /**
   * `parseGaClientIdFromCookie()`, with the host's `document.cookie` as input
   * (None when there is no document). `decodeURIComponent` is taken as the
   * identity.
   */
  function ParseGaClientIdFromCookie(cookie: Option<string>): (r: Option<string>)
    ensures !Truthy(cookie) ==> r.None?
    ensures Truthy(cookie) && FindFrom(cookie.value, 0).None? ==> r.None?
    ensures Truthy(cookie) && FindFrom(cookie.value, 0).Some? ==>
      var parts := Split(FindFrom(cookie.value, 0).value, '.');
      (r.Some? <==> |parts| >= 4) && (r.Some? ==> r.value == parts[2] + "." + parts[3])
  {
    if !Truthy(cookie) then None
    else
      match FindFrom(cookie.value, 0)
      case None => None
      case Some(v) => ClientIdOfGaValue(v)
  }

  /** Splitting and joining again gives the string back. */
  lemma {:induction false} JoinSplit(s: string, d: char)
    ensures Join(Split(s, d), d) == s
    decreases |s|
  {
    if |s| > 0 {
      var rest := Split(s[1..], d);
      JoinSplit(s[1..], d);
      if s[0] == d {
        assert ([""] + rest)[1..] == rest;
      } else {
        var parts := [[s[0]] + rest[0]] + rest[1..];
        if |rest| == 1 {
          assert parts == [[s[0]] + rest[0]];
        } else {
          assert parts[1..] == rest[1..];
          assert Join(rest, d) == rest[0] + [d] + Join(rest[1..], d);
        }
        assert s == [s[0]] + s[1..];
      }
    }
  }

  /** No part produced by `Split` contains the separator. */
  lemma {:induction false} SplitPartsFree(s: string, d: char)
    ensures forall p :: p in Split(s, d) ==> d !in p
    decreases |s|
  {
    if |s| > 0 {
      SplitPartsFree(s[1..], d);
    }
  }

  /** A separator-free piece followed by the separator splits off as one part. */
  lemma {:induction false} SplitPiece(p: string, t: string, d: char)
    requires d !in p
    ensures Split(p + [d] + t, d) == [p] + Split(t, d)
    ensures Split(p, d) == [p]
    decreases |p|
  {
    if |p| == 0 {
      assert p + [d] + t == [d] + t;
      assert ([d] + t)[1..] == t;
    } else {
      SplitPiece(p[1..], t, d);
      assert (p + [d] + t)[1..] == p[1..] + [d] + t;
      assert p == [p[0]] + p[1..];
    }
  }

  /** Joining separator-free parts and splitting again gives the parts back. */
  lemma {:induction false} SplitJoin(parts: seq<string>, d: char)
    requires |parts| >= 1
    requires forall p :: p in parts ==> d !in p
    ensures Split(Join(parts, d), d) == parts
    decreases |parts|
  {
    SplitPiece(parts[0], "", d);
    if |parts| > 1 {
      SplitJoin(parts[1..], d);
      SplitPiece(parts[0], Join(parts[1..], d), d);
      assert parts == [parts[0]] + parts[1..];
    }
  }

  /**
   * The `_ga` value written as `GA<v>.<depth>.<random>.<timestamp>` yields
   * `<random>.<timestamp>` when no field contains a dot.
   */
  lemma ClientIdOfFormattedValue(version: string, depth: string, rand: string, ts: string)
    requires '.' !in version && '.' !in depth && '.' !in rand && '.' !in ts
    ensures ClientIdOfGaValue(version + "." + depth + "." + rand + "." + ts) == Some(rand + "." + ts)
  {
    var parts := [version, depth, rand, ts];
    SplitJoin(parts, '.');
    assert Join([ts], '.') == ts;
    assert [rand, ts][1..] == [ts];
    assert Join([rand, ts], '.') == rand + "." + ts;
    assert [depth, rand, ts][1..] == [rand, ts];
    assert Join([depth, rand, ts], '.') == depth + "." + rand + "." + ts;
    assert parts[1..] == [depth, rand, ts];
    assert Join(parts, '.') == version + "." + depth + "." + rand + "." + ts;
  }

  /** A value with fewer than three dots has fewer than four parts and yields null. */
  lemma {:induction false} SplitCountsSeparators(s: string, d: char)
    ensures |Split(s, d)| == 1 + multiset(s)[d]
    decreases |s|
  {
    if |s| > 0 {
      SplitCountsSeparators(s[1..], d);
      assert s == [s[0]] + s[1..];
      assert multiset(s) == multiset{s[0]} + multiset(s[1..]);
    }
  }

  lemma FewDotsGiveNull(v: string)
    requires multiset(v)['.'] < 3
    ensures ClientIdOfGaValue(v) == None
  {
    SplitCountsSeparators(v, '.');
  }

  /** `\s*` run over exactly `n` spaces. */
  lemma {:induction false} SkipSpacesOver(s: string, i: nat, n: nat)
    requires i + n <= |s|
    requires forall k :: i <= k < i + n ==> IsJsSpace(s[k])
    requires i + n < |s| ==> !IsJsSpace(s[i + n])
    ensures SkipSpaces(s, i) == i + n
    decreases n
  {
    if n > 0 {
      SkipSpacesOver(s, i + 1, n - 1);
    }
  }

  /** `[^;]*` run over exactly `n` characters. */
  lemma {:induction false} RunEndOver(s: string, i: nat, n: nat)
    requires i + n <= |s|
    requires forall k :: i <= k < i + n ==> s[k] != ';'
    requires i + n < |s| ==> s[i + n] == ';'
    ensures RunEnd(s, i) == i + n
    decreases n
  {
    if n > 0 {
      RunEndOver(s, i + 1, n - 1);
    }
  }

  /** An entry `_ga=<v>` at `j`, ended by ";" or by the end, captures `v`. */
  lemma ValueAtEntry(s: string, j: nat, v: string)
    requires |v| > 0 && ';' !in v
    requires j + 4 + |v| <= |s| && s[j..j + 4 + |v|] == "_ga=" + v
    requires j + 4 + |v| < |s| ==> s[j + 4 + |v|] == ';'
    ensures ValueAt(s, j) == Some(v)
  {
    assert s[j..j + 4] == s[j..j + 4 + |v|][..4] == "_ga=";
    assert forall k :: j + 4 <= k < j + 4 + |v| ==> s[k] == s[j..j + 4 + |v|][k - j] == v[k - j - 4];
    assert s[j + 4] == v[0];
    RunEndOver(s, j + 4, |v|);
    assert s[j + 4..j + 4 + |v|] == s[j..j + 4 + |v|][4..] == v;
  }

  /** Positions where no match starts are passed over by the leftmost search. */
  lemma {:induction false} FindFromSkips(s: string, i: nat, k: nat)
    requires i <= k <= |s|
    requires forall j :: i <= j < k ==> MatchAt(s, j).None?
    ensures FindFrom(s, i) == FindFrom(s, k)
    decreases k - i
  {
    if i < k {
      FindFromSkips(s, i + 1, k);
    }
  }

  /** A cookie string that starts with the `_ga` entry yields that entry's value. */
  lemma LeadingGaEntryIsFound(v: string, tail: string)
    requires |v| > 0 && ';' !in v
    requires tail == [] || tail[0] == ';'
    ensures FindFrom("_ga=" + v + tail, 0) == Some(v)
  {
    var s := "_ga=" + v + tail;
    assert s[0..4 + |v|] == "_ga=" + v;
    ValueAtEntry(s, 0, v);
  }

  /** A ";" at `k` followed by `\s*` up to `j` and the entry there: the search from `k` finds it. */
  lemma MatchAfterSeparator(s: string, k: nat, j: nat, v: string)
    requires k < j <= |s| && s[k] == ';'
    requires k == 0 ==> ValueAt(s, 0).None?
    requires SkipSpaces(s, k + 1) == j && ValueAt(s, j) == Some(v)
    ensures FindFrom(s, k) == Some(v)
  {
    assert MatchAt(s, k) == Some(v);
  }

  /** No match starts inside a first entry that holds no ";" and does not open with `_ga=`. */
  lemma NoMatchInFirstEntry(s: string, k: nat)
    requires k < |s| && s[k] == ';' && ';' !in s[..k]
    requires !(k >= 4 && s[..4] == "_ga=")
    ensures ValueAt(s, 0).None?
    ensures forall i :: 0 <= i < k ==> MatchAt(s, i).None?
  {
    if 4 < |s| && k < 4 {
      assert s[0..4][k] == ';';
    } else if 4 < |s| {
      assert s[0..4] == s[..4];
    }
    forall i | 0 <= i < k
      ensures MatchAt(s, i).None?
    {
      assert s[..k][i] == s[i];
    }
  }

  /** The search over a cookie laid out as first entry, ";", whitespace and a `_ga` entry at `j`. */
  lemma FoundAfterFirstEntry(s: string, k: nat, j: nat, v: string)
    requires k < j <= |s| && s[k] == ';' && ';' !in s[..k]
    requires !(k >= 4 && s[..4] == "_ga=")
    requires forall i :: k + 1 <= i < j ==> IsJsSpace(s[i])
    requires |v| > 0 && ';' !in v
    requires j + 4 + |v| <= |s| && s[j..j + 4 + |v|] == "_ga=" + v
    requires j + 4 + |v| < |s| ==> s[j + 4 + |v|] == ';'
    ensures FindFrom(s, 0) == Some(v)
  {
    NoMatchInFirstEntry(s, k);
    FindFromSkips(s, 0, k);
    assert s[j] == s[j..j + 4 + |v|][0] == '_';
    SkipSpacesOver(s, k + 1, j - k - 1);
    ValueAtEntry(s, j, v);
    MatchAfterSeparator(s, k, j, v);
  }

  /**
   * An entry `_ga=<v>` after a first entry `pre` (one that is not itself the
   * `_ga` entry), a ";" and any whitespace is found, and it is the leftmost
   * one: a later `_ga` entry in `rest` is ignored. The parser then yields the
   * client id of `v`.
   */
  lemma GaEntryAfterSeparatorIsFound(cookie: string, pre: string, sp: string, v: string, rest: string)
    requires cookie == pre + ";" + sp + "_ga=" + v + rest
    requires ';' !in pre && !(|pre| >= 4 && pre[..4] == "_ga=")
    requires forall k :: 0 <= k < |sp| ==> IsJsSpace(sp[k])
    requires |v| > 0 && ';' !in v
    requires rest == [] || rest[0] == ';'
    ensures FindFrom(cookie, 0) == Some(v)
    ensures ParseGaClientIdFromCookie(Some(cookie)) == ClientIdOfGaValue(v)
  {
    var k := |pre|;
    var j := k + 1 + |sp|;
    assert cookie[..k] == pre && cookie[k] == ';';
    assert |pre| >= 4 ==> cookie[..4] == pre[..4];
    assert forall i :: k + 1 <= i < j ==> cookie[i] == sp[i - k - 1];
    assert cookie[j..j + 4 + |v|] == "_ga=" + v;
    assert j + 4 + |v| < |cookie| ==> cookie[j + 4 + |v|] == rest[0];
    FoundAfterFirstEntry(cookie, k, j, v);
  }
}
