/**
 * The priority policy both `get_response` methods follow: a safety script for a red or
 * amber message, else a canned catalog reply, else a generated one.
 */
module Routing {
  import opened Wrappers
  import opened Safety
  import opened Scenarios

  /** Which source answers a message; `reply` is the canned text for a catalog hit. */
  datatype Source = SafetyScript(tier: Tier) | Canned(key: string, reply: string) | Generate

  /**
   * The branch `get_response` takes. A matched key and the looked-up reply are both checked
   * for truthiness, so an empty key or an empty reply falls through to the generator.
   */
  function Route(cat: Catalog, sim: Similarity, msg: string): (r: Source)
    ensures r.SafetyScript? <==> DetectSafetyLevel(msg) != Green
    ensures r.SafetyScript? ==> r.tier == DetectSafetyLevel(msg)
    ensures r.Canned? ==>
              && FindMatchingScenario(cat, sim, msg) == Some(r.key)
              && r.key != "" && r.reply != ""
              && r.reply == GetExactResponse(cat, r.key)
              && exists b :: IsFirstBest(cat, sim, msg, b) && cat[b].key == r.key
    ensures r.Generate? <==>
              && DetectSafetyLevel(msg) == Green
              && (FindMatchingScenario(cat, sim, msg).None?
                  || FindMatchingScenario(cat, sim, msg).value == ""
                  || GetExactResponse(cat, FindMatchingScenario(cat, sim, msg).value) == "")
  {
    var tier := DetectSafetyLevel(msg);
    if tier != Green then SafetyScript(tier)
    else
      match FindMatchingScenario(cat, sim, msg)
      case Some(key) =>
        var exact := GetExactResponse(cat, key);
        if key != "" && exact != "" then Canned(key, exact) else Generate
      case None => Generate
  }

  /** A message no entry qualifies for, and no phrase flags, goes to the generator. */
  lemma NoMatchGenerates(cat: Catalog, sim: Similarity, msg: string)
    requires DetectSafetyLevel(msg) == Green
    requires forall j :: 0 <= j < |cat| ==> !Qualifies(cat, sim, msg, j)
    ensures Route(cat, sim, msg) == Generate
  {
  }
}
