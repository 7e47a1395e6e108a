/**
 * A coach's scenario catalog and the fuzzy matcher over it. The catalog is the coach's
 * slice of the scenario database, in dictionary iteration order; each entry may carry the
 * canonical user phrase (`"user"`) and this coach's reply (`"anne"` or `"hiro"`).
 * The similarity ratio of difflib's `SequenceMatcher` is a parameter.
 */
module Scenarios {
  import opened Wrappers
  import opened Text

  datatype Scenario = Scenario(key: string, user: Option<string>, reply: Option<string>)

  type Catalog = seq<Scenario>

  /** The similarity ratio, applied to the lower-cased message and the lower-cased phrase. */
  type Similarity = (string, string) -> real

  const Threshold: real := 0.7

  /** Entry `j` has a canonical phrase and is similar enough to the message to be kept. */
  predicate Qualifies(cat: Catalog, sim: Similarity, msg: string, j: int) {
    0 <= j < |cat| && cat[j].user.Some? && Ratio(cat, sim, msg, j) >= Threshold
  }

  function Ratio(cat: Catalog, sim: Similarity, msg: string, j: int): real
    requires 0 <= j < |cat| && cat[j].user.Some?
  {
    sim(Lower(msg), Lower(cat[j].user.value))
  }

  /**
   * Reference meaning of the match: entry `b` qualifies, no qualifying entry has a higher
   * ratio, and every earlier qualifying entry has a strictly lower one (first-seen wins).
   */
  ghost predicate IsFirstBest(cat: Catalog, sim: Similarity, msg: string, b: int) {
    && Qualifies(cat, sim, msg, b)
    && (forall j :: Qualifies(cat, sim, msg, j) ==> Ratio(cat, sim, msg, j) <= Ratio(cat, sim, msg, b))
    && (forall j :: 0 <= j < b && Qualifies(cat, sim, msg, j) ==> Ratio(cat, sim, msg, j) < Ratio(cat, sim, msg, b))
  }

  /** What the scan knows after looking at entries `0 .. i-1`. */
  ghost predicate ScanInvariant(cat: Catalog, sim: Similarity, msg: string, i: nat, best: Option<nat>, bestRatio: real) {
    && i <= |cat|
    && (best.None? ==>
          bestRatio == 0.0 && forall j :: 0 <= j < i ==> !Qualifies(cat, sim, msg, j))
    && (best.Some? ==>
          && best.value < i
          && Qualifies(cat, sim, msg, best.value)
          && Ratio(cat, sim, msg, best.value) == bestRatio
          && (forall j :: 0 <= j < i && Qualifies(cat, sim, msg, j) ==> Ratio(cat, sim, msg, j) <= bestRatio)
          && (forall j :: 0 <= j < best.value && Qualifies(cat, sim, msg, j) ==> Ratio(cat, sim, msg, j) < bestRatio))
  }

  /** The `for` loop of `find_matching_scenario`, from entry `i` on, as an index. */
  function ScanFrom(cat: Catalog, sim: Similarity, msg: string, i: nat, best: Option<nat>, bestRatio: real): (r: Option<nat>)
    requires ScanInvariant(cat, sim, msg, i, best, bestRatio)
    ensures r.None? <==> forall j :: 0 <= j < |cat| ==> !Qualifies(cat, sim, msg, j)
    ensures r.Some? ==> IsFirstBest(cat, sim, msg, r.value)
    decreases |cat| - i
  {
    if i == |cat| then best
    else if cat[i].user.Some? then
      var similarity := Ratio(cat, sim, msg, i);
      if similarity > bestRatio && similarity >= Threshold then
        ScanFrom(cat, sim, msg, i + 1, Some(i), similarity)
      else
        ScanFrom(cat, sim, msg, i + 1, best, bestRatio)
    else
      ScanFrom(cat, sim, msg, i + 1, best, bestRatio)
  }

  /** Position of the entry `find_matching_scenario` settles on, if any. */
  function FindMatchIndex(cat: Catalog, sim: Similarity, msg: string): (r: Option<nat>)
    ensures r.None? <==> forall j :: 0 <= j < |cat| ==> !Qualifies(cat, sim, msg, j)
    ensures r.Some? ==> IsFirstBest(cat, sim, msg, r.value)
  {
    ScanFrom(cat, sim, msg, 0, None, 0.0)
  }

  /**
   * `find_matching_scenario`: the key of the first entry with the highest ratio, provided
   * that ratio is at least 0.7; `None` when no entry with a phrase reaches the threshold.
   */
  function FindMatchingScenario(cat: Catalog, sim: Similarity, msg: string): (r: Option<string>)
    ensures r.None? <==> forall j :: 0 <= j < |cat| ==> !Qualifies(cat, sim, msg, j)
    ensures r.Some? ==> exists b :: IsFirstBest(cat, sim, msg, b) && cat[b].key == r.value
  {
    match FindMatchIndex(cat, sim, msg)
    case None => None
    case Some(b) => Some(cat[b].key)
  }

  /** At most one entry meets the reference meaning, so the match is determined by it. */
  lemma FirstBestIsUnique(cat: Catalog, sim: Similarity, msg: string, a: int, b: int)
    requires IsFirstBest(cat, sim, msg, a) && IsFirstBest(cat, sim, msg, b)
    ensures a == b
  {
  }

  /** The matcher never settles on an entry below the threshold or one without a phrase. */
  lemma NeverBelowThreshold(cat: Catalog, sim: Similarity, msg: string)
    ensures FindMatchIndex(cat, sim, msg).Some? ==>
              var b := FindMatchIndex(cat, sim, msg).value;
              b < |cat| && cat[b].user.Some? && Ratio(cat, sim, msg, b) >= Threshold
  {
  }

  /** Of two qualifying entries with equal ratio, the later one is never chosen. */
  lemma TieGoesToEarlier(cat: Catalog, sim: Similarity, msg: string, i: nat, j: nat)
    requires i < j
    requires Qualifies(cat, sim, msg, i) && Qualifies(cat, sim, msg, j)
    requires Ratio(cat, sim, msg, i) == Ratio(cat, sim, msg, j)
    ensures FindMatchIndex(cat, sim, msg) != Some(j)
  {
  }

  /**
   * Entries without a canonical phrase are skipped: inserting one anywhere in the catalog
   * leaves the chosen key unchanged.
   */
  lemma {:induction false} PhraselessEntryIgnored(cat: Catalog, sim: Similarity, msg: string, k: nat, e: Scenario)
    requires k <= |cat|
    requires e.user.None?
    ensures FindMatchingScenario(cat[..k] + [e] + cat[k..], sim, msg) == FindMatchingScenario(cat, sim, msg)
  {
    var cat' := cat[..k] + [e] + cat[k..];
    // Position `j` of `cat` is position `Shift(j)` of `cat'`; the new entry never qualifies.
    assert forall j :: 0 <= j < k ==> cat'[j] == cat[j];
    assert forall j :: k <= j < |cat| ==> cat'[j + 1] == cat[j];
    assert !Qualifies(cat', sim, msg, k);
    assert forall j :: 0 <= j < |cat| ==> (Qualifies(cat, sim, msg, j) <==> Qualifies(cat', sim, msg, Shift(j, k)));
    assert forall j :: Qualifies(cat, sim, msg, j) ==> Ratio(cat, sim, msg, j) == Ratio(cat', sim, msg, Shift(j, k));
    assert forall j' :: Qualifies(cat', sim, msg, j') ==> j' != k && Qualifies(cat, sim, msg, Unshift(j', k)) && Shift(Unshift(j', k), k) == j';
    match FindMatchIndex(cat, sim, msg)
    case None =>
      forall j' | 0 <= j' < |cat'|
        ensures !Qualifies(cat', sim, msg, j')
      {
        if j' != k { assert !Qualifies(cat, sim, msg, Unshift(j', k)); }
      }
    case Some(b) =>
      assert IsFirstBest(cat', sim, msg, Shift(b, k)) by {
        forall j' | Qualifies(cat', sim, msg, j')
          ensures Ratio(cat', sim, msg, j') <= Ratio(cat', sim, msg, Shift(b, k))
        {
          assert Qualifies(cat, sim, msg, Unshift(j', k));
        }
        forall j' | 0 <= j' < Shift(b, k) && Qualifies(cat', sim, msg, j')
          ensures Ratio(cat', sim, msg, j') < Ratio(cat', sim, msg, Shift(b, k))
        {
          assert Unshift(j', k) < b && Qualifies(cat, sim, msg, Unshift(j', k));
        }
      }
      var b' := FindMatchIndex(cat', sim, msg).value;
      FirstBestIsUnique(cat', sim, msg, b', Shift(b, k));
  }

  function Shift(j: nat, k: nat): nat {
    if j < k then j else j + 1
  }

  function Unshift(j: nat, k: nat): nat {
    if j <= k then j else j - 1
  }

  /** No two entries share a key, as in the dictionary the catalog comes from. */
  predicate DistinctKeys(cat: Catalog) {
    forall i, j :: 0 <= i < j < |cat| ==> cat[i].key != cat[j].key
  }

  /**
   * `get_exact_response`: this coach's reply stored under `key`, or the empty string when
   * the key is unknown or the entry has no reply.
   */
  function GetExactResponse(cat: Catalog, key: string): (r: string)
    ensures (forall i :: 0 <= i < |cat| ==> cat[i].key != key) ==> r == ""
    ensures r != "" ==> exists i :: 0 <= i < |cat| && cat[i].key == key && cat[i].reply == Some(r)
    decreases |cat|
  {
    if cat == [] then ""
    else if cat[0].key == key then cat[0].reply.GetOr("")
    else
      var r := GetExactResponse(cat[1..], key);
      assert r != "" ==> exists i :: 0 <= i < |cat[1..]| && cat[1..][i].key == key && cat[1..][i].reply == Some(r);
      r
  }

  /** With distinct keys, looking up a matched entry's key returns that entry's reply. */
  lemma {:induction false} ExactResponseOfEntry(cat: Catalog, i: nat)
    requires DistinctKeys(cat)
    requires i < |cat|
    ensures GetExactResponse(cat, cat[i].key) == cat[i].reply.GetOr("")
    decreases i
  {
    if i > 0 {
      assert cat[0].key != cat[i].key;
      assert DistinctKeys(cat[1..]) by {
        forall a, b | 0 <= a < b < |cat[1..]|
          ensures cat[1..][a].key != cat[1..][b].key
        {
          assert cat[1..][a] == cat[a + 1] && cat[1..][b] == cat[b + 1];
        }
      }
      ExactResponseOfEntry(cat[1..], i - 1);
      assert cat[1..][i - 1] == cat[i];
    }
  }
}
