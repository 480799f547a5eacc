/**
 What a run of either reconciler does to the outside world, in order: the
 webhook posts and page patches it issues, then how it ends. A run that
 raises keeps the effects it already had and saves no state.
 */
module Effects {
  import opened PyJson

  datatype Event =
    | Post(payload: Json)               // POST of a message to the Discord webhook
    | Patch(pageId: Json, body: Json)   // PATCH of a Notion page's properties

  datatype End<S> =
    | Saved(state: S)     // the loop finished and the state file is written
    | Crashed(error: PyError)
    | Exited              // `exit()` before anything was fetched or sent

  datatype Run<S> = Run(events: seq<Event>, end: End<S>)

  /** Number of webhook posts among `events`. */
  function PostCount(events: seq<Event>): nat
  {
    if |events| == 0 then 0 else (if events[0].Post? then 1 else 0) + PostCount(events[1..])
  }

  lemma {:induction false} PostCountAppend(a: seq<Event>, b: seq<Event>)
    ensures PostCount(a + b) == PostCount(a) + PostCount(b)
    decreases |a|
  {
    if |a| == 0 {
      assert a + b == b;
    } else {
      assert (a + b)[0] == a[0];
      assert (a + b)[1..] == a[1..] + b;
      PostCountAppend(a[1..], b);
    }
  }

  /**
   The text `json.dump` writes for a dict key: a string as it is, an integer
   in decimal, and True, False and None as `true`, `false` and `null`. A
   list or dict cannot be a dict key, so it has no text.
   */
  function DumpedKey(k: Json): (r: Option<string>)
    ensures r.Some? <==> Hashable(k)
    ensures k.JStr? ==> r == Some(k.s)
    ensures !k.JStr? && r.Some? ==> |r.value| > 0 && r.value[0] in "-0123456789tfn"
  {
    match k
    case JStr(s) => Some(s)
    case JInt(n) => Some(IntText(n))
    case JBool(b) => Some(if b then "true" else "false")
    case JNull => Some("null")
    case _ => None
  }

  /** Every key of `state` has a text, and no two keys share one. */
  predicate DumpsDistinctly(state: map<Json, Json>) {
    && (forall k :: k in state ==> DumpedKey(k).Some?)
    && (forall a, b :: a in state && b in state && DumpedKey(a) == DumpedKey(b) ==> a == b)
  }

  /**
   The state file's contents after `json.dump` and a later `json.load`: each
   key becomes the string `json.dump` wrote for it, and each value is kept.
   */
  function Reloaded(state: map<Json, Json>): (r: map<Json, Json>)
    requires DumpsDistinctly(state)
    ensures forall k :: k in r ==> k.JStr?
    ensures forall k :: k in state ==> JStr(DumpedKey(k).value) in r && r[JStr(DumpedKey(k).value)] == state[k]
    ensures r.Keys == set k | k in state :: JStr(DumpedKey(k).value)
  {
    map k | k in state :: JStr(DumpedKey(k).value) := state[k]
  }

  /** A state keyed by strings survives the file round trip unchanged. */
  lemma ReloadedStringKeys(state: map<Json, Json>)
    requires forall k :: k in state ==> k.JStr?
    ensures DumpsDistinctly(state)
    ensures Reloaded(state) == state
  {
    assert forall k :: k in state ==> JStr(DumpedKey(k).value) == k;
    var r := Reloaded(state);
    assert r.Keys == state.Keys by {
      assert (set k | k in state :: JStr(DumpedKey(k).value)) == state.Keys;
    }
  }

  /** An integer key comes back as its decimal string, a different key. */
  lemma ReloadedIntKey(n: int, v: Json)
    ensures DumpsDistinctly(map[JInt(n) := v])
    ensures Reloaded(map[JInt(n) := v]) == map[JStr(IntText(n)) := v]
    ensures JInt(n) !in Reloaded(map[JInt(n) := v])
  {
    var state := map[JInt(n) := v];
    assert DumpedKey(JInt(n)) == Some(IntText(n));
    assert (set k | k in state :: JStr(DumpedKey(k).value)) == {JStr(IntText(n))};
  }
}
