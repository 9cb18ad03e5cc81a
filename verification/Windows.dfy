/** The 30-element windows that the hub and the browser keep per agent (and the browser per
    container), against the full log of what was recorded. */
module Windows {

  const WINDOW := 30

  function Last<T>(s: seq<T>): seq<T> {
    if |s| <= WINDOW then s else s[|s| - WINDOW..]
  }

  function Get<T>(m: map<string, seq<T>>, k: string): seq<T> {
    if k in m then m[k] else []
  }

  /** Record one value: append to the key's window and keep the tail. */
  function Push<T>(m: map<string, seq<T>>, k: string, x: T): map<string, seq<T>> {
    m[k := Last(Get(m, k) + [x])]
  }

  function PushAll<T>(m: map<string, seq<T>>, log: seq<(string, T)>): map<string, seq<T>> {
    if log == [] then m
    else Push(PushAll(m, log[..|log| - 1]), log[|log| - 1].0, log[|log| - 1].1)
  }

  /** The values a log records under one key, in order. */
  function Project<T>(log: seq<(string, T)>, k: string): seq<T> {
    if log == [] then []
    else Project(log[..|log| - 1], k) + if log[|log| - 1].0 == k then [log[|log| - 1].1] else []
  }

  /** A window of a window is the window of the whole: what was trimmed is never needed again. */
  lemma LastOfLast<T>(s: seq<T>, t: seq<T>)
    ensures Last(Last(s) + t) == Last(s + t)
  {
    if |s| > WINDOW {
      assert (Last(s) + t)[|t|..] == Last(s + t);
    }
  }

  /** After any interleaving over many keys, each window is the tail of that key's own log; this
      also covers a table that starts from windows of some earlier history. */
  lemma {:induction false} WindowIsTailOfLog<T>(m: map<string, seq<T>>, past: seq<T>, log: seq<(string, T)>, k: string)
    requires Get(m, k) == Last(past)
    ensures Get(PushAll(m, log), k) == Last(past + Project(log, k))
    ensures k in PushAll(m, log) <==> k in m || Project(log, k) != []
  {
    if log == [] {
      assert past + Project(log, k) == past;
    } else {
      var front, x := log[..|log| - 1], log[|log| - 1].1;
      WindowIsTailOfLog(m, past, front, k);
      if log[|log| - 1].0 == k {
        LastOfLast(past + Project(front, k), [x]);
        assert past + Project(log, k) == past + Project(front, k) + [x];
      } else {
        assert past + Project(log, k) == past + Project(front, k);
      }
    }
  }

  lemma {:induction false} PushAllConcat<T>(m: map<string, seq<T>>, a: seq<(string, T)>, b: seq<(string, T)>)
    ensures PushAll(m, a + b) == PushAll(PushAll(m, a), b)
  {
    if b == [] {
      assert a + b == a;
    } else {
      PushAllConcat(m, a, b[..|b| - 1]);
      assert (a + b)[..|a + b| - 1] == a + b[..|b| - 1];
    }
  }
}
