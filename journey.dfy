/**
 * The journey: a bounded, ordered log of the most recent tracked events.
 *
 * `_pushJourney` appends an entry and then splices the oldest entries off the
 * front until at most `journeyMaxLen` remain; `_withJourney` and `recommend`
 * attach `journey.slice(-journeyMaxLen)`. Both are the "last N" window of the
 * entries recorded so far.
 */
module Journey {
  import opened JsValues

  /** `{ ts, eventType, url }` as pushed by the tracking calls. */
  datatype Entry = Entry(ts: string, eventType: string, url: string)

  /** `s.slice(-n)` for `n >= 1`: the last `min(n, |s|)` elements. */
  function Window<T>(s: seq<T>, n: nat): (r: seq<T>)
    requires n >= 1
    ensures |r| == Min(n, |s|)
  {
    if |s| <= n then s else s[|s| - n..]
  }

  /** The window is the newest part of the sequence, in the original order. */
  lemma WindowIsNewestSuffix<T>(s: seq<T>, n: nat)
    requires n >= 1
    ensures s == s[..|s| - |Window(s, n)|] + Window(s, n)
  {
  }

  /** Trimming early loses nothing the window would keep. */
  lemma {:induction false} WindowAbsorbs<T>(s: seq<T>, e: T, n: nat)
    requires n >= 1
    ensures Window(Window(s, n) + [e], n) == Window(s + [e], n)
  {
    if |s| > n {
      var w := s[|s| - n..];
      assert (s + [e])[|s| + 1 - n..] == w[1..] + [e];
      assert (w + [e])[|w| + 1 - n..] == w[1..] + [e];
    }
  }

  /** The journey after recording `es` one at a time from `journey`. */
  function RecordAll(journey: seq<Entry>, es: seq<Entry>, maxLen: nat): seq<Entry>
    requires maxLen >= 1
    decreases |es|
  {
    if es == [] then journey else RecordAll(Window(journey + [es[0]], maxLen), es[1..], maxLen)
  }

  /**
   * For every sequence of recordings, the journey is the last `maxLen`
   * entries of all entries recorded, oldest first; its length never exceeds
   * `maxLen`.
   */
  lemma {:induction false} RecordAllIsWindow(journey: seq<Entry>, es: seq<Entry>, maxLen: nat)
    requires maxLen >= 1
    requires |journey| <= maxLen
    ensures RecordAll(journey, es, maxLen) == Window(journey + es, maxLen)
    ensures |RecordAll(journey, es, maxLen)| <= maxLen
    decreases |es|
  {
    assert Window(journey, maxLen) == journey;
    RecordAllFromWindow(journey, journey, es, maxLen);
  }

  /** Helper: recording from a window of `all` is the window of `all` extended. */
  lemma {:induction false} RecordAllFromWindow(journey: seq<Entry>, all: seq<Entry>, es: seq<Entry>, maxLen: nat)
    requires maxLen >= 1
    requires journey == Window(all, maxLen)
    ensures RecordAll(journey, es, maxLen) == Window(all + es, maxLen)
    decreases |es|
  {
    if es == [] {
      assert all + es == all;
    } else {
      var next := Window(journey + [es[0]], maxLen);
      assert RecordAll(journey, es, maxLen) == RecordAll(next, es[1..], maxLen);
      WindowAbsorbs(all, es[0], maxLen);
      assert next == Window(all + [es[0]], maxLen);
      RecordAllFromWindow(next, all + [es[0]], es[1..], maxLen);
      assert all + [es[0]] + es[1..] == all + es;
    }
  }

  /** A window of a window no longer than `n` is itself: `slice(-n)` of the journey is the journey. */
  lemma SnapshotOfBoundedJourney<T>(s: seq<T>, n: nat)
    requires n >= 1 && |s| <= n
    ensures Window(s, n) == s
  {
  }
}
