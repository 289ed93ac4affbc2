/**
 * The two-key load balancer of `HybridAI`: the `key_usage` table, the choice
 * of key for the next request, the counter update after each attempt, and the
 * derived statistics view.
 */
module LoadBalancer {
  import opened Wrappers

  datatype KeyName = Key1 | Key2

  /** The counters `key_usage[name]` keeps for one key (its `last_used` timestamp is not modelled). */
  datatype Usage = Usage(requests: nat, errors: nat)

  type UsageTable = map<KeyName, Usage>

  /** The table `__init__` starts from. */
  const FreshTable: UsageTable := map[Key1 := Usage(0, 0), Key2 := Usage(0, 0)]

  predicate HasBothKeys(t: UsageTable) {
    forall k: KeyName :: k in t
  }

  /** No key has recorded more errors than requests. */
  predicate Consistent(t: UsageTable) {
    HasBothKeys(t) && t[Key1].errors <= t[Key1].requests && t[Key2].errors <= t[Key2].requests
  }

  /** A key counts as configured when its environment value is set and non-empty (`None` is modelled as ""). */
  predicate Configured(key1: string, key2: string, k: KeyName) {
    if k == Key1 then key1 != "" else key2 != ""
  }

  /** The load-balancing score: every error weighs as much as ten requests. */
  function Score(u: Usage): nat {
    u.requests + u.errors * 10
  }

  /** The text of the exception `_get_available_api_key` raises. */
  const NoKeysMessage: string := "No API keys available"

  /**
   * `_get_available_api_key`: fails when neither key is set; otherwise picks a
   * configured key of least score, preferring key_1 on a tie.
   */
  function SelectKey(key1: string, key2: string, t: UsageTable): (r: Result<KeyName, string>)
    requires HasBothKeys(t)
    ensures r.Failure? <==> key1 == "" && key2 == ""
    ensures r.Success? ==> Configured(key1, key2, r.value)
    ensures r.Success? ==> forall k :: Configured(key1, key2, k) ==> Score(t[r.value]) <= Score(t[k])
    ensures r == Success(Key2) ==> key1 == "" || Score(t[Key2]) < Score(t[Key1])
  {
    if key1 == "" && key2 != "" then Success(Key2)
    else if key2 == "" && key1 != "" then Success(Key1)
    else if key1 == "" && key2 == "" then Failure(NoKeysMessage)
    else if Score(t[Key1]) <= Score(t[Key2]) then Success(Key1)
    else Success(Key2)
  }

  /**
   * `_update_usage(key_name, success)`: one more request for the named key,
   * one more error exactly when the attempt failed, the other key untouched.
   */
  function Record(t: UsageTable, k: KeyName, success: bool): (t': UsageTable)
    requires HasBothKeys(t)
    ensures HasBothKeys(t') && t'.Keys == t.Keys
    ensures t'[k].requests == t[k].requests + 1
    ensures t'[k].errors == t[k].errors + (if success then 0 else 1)
    ensures forall other :: other in t && other != k ==> t'[other] == t[other]
    ensures Consistent(t) ==> Consistent(t')
  {
    t[k := Usage(t[k].requests + 1, if success then t[k].errors else t[k].errors + 1)]
  }

  datatype KeyStats = KeyStats(requests: nat, errors: nat, successRate: real)

  datatype UsageStats = UsageStats(key1: KeyStats, key2: KeyStats)

  /** One key's entry of `get_usage_stats`: the success rate is a percentage of the requests made. */
  function Stats(u: Usage): (s: KeyStats)
    ensures s.requests == u.requests && s.errors == u.errors
    ensures u.errors <= u.requests ==> 0.0 <= s.successRate <= 100.0
    ensures u.requests > 0 && u.errors == 0 ==> s.successRate == 100.0
    ensures u.errors == u.requests ==> s.successRate == 0.0
  {
    var made: nat := if u.requests > 1 then u.requests else 1;
    var rate := (u.requests - u.errors) as real / made as real * 100.0;
    assert u.errors <= u.requests ==> rate <= 100.0 by {
      if u.errors <= u.requests {
        assert (u.requests - u.errors) as real <= made as real;
        DivAtMostOne((u.requests - u.errors) as real, made as real);
      }
    }
    KeyStats(u.requests, u.errors, rate)
  }

  lemma DivAtMostOne(x: real, y: real)
    requires 0.0 <= x <= y && y > 0.0
    ensures 0.0 <= x / y <= 1.0
  {
  }
}
