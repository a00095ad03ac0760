// The older runtime's credentials file: provider tokens and the inference provider list, with
// the order in which providers are tried (entries marked `main` first), and the update the
// `add-codex` command applies to that list.

module Auth {
  import opened Wrappers

  /** `{ token }`; a hand-written file may lack the token. */
  datatype AuthEntry = AuthEntry(token: Option<string>)

  /** One configured inference provider. */
  datatype ProviderEntry = ProviderEntry(id: string, model: string, main: Option<bool>)

  datatype InferenceConfig = InferenceConfig(providers: Option<seq<ProviderEntry>>)

  datatype AuthConfig = AuthConfig(
    telegram: Option<AuthEntry>, codex: Option<AuthEntry>, openaiCodex: Option<AuthEntry>,
    claudeCode: Option<AuthEntry>, claude: Option<AuthEntry>, inference: Option<InferenceConfig>)

  /** `entry?.token`. */
  function TokenOf(entry: Option<AuthEntry>): Option<string>
  {
    if entry.Some? then entry.value.token else None
  }

  /** `getCodexToken`: the codex token, else the openai-codex token, else null. */
  function GetCodexToken(auth: AuthConfig): (r: Option<string>)
    ensures TokenOf(auth.codex).Some? ==> r == TokenOf(auth.codex)
    ensures TokenOf(auth.codex).None? ==> r == TokenOf(auth.openaiCodex)
  {
    TokenOf(auth.codex).OrElse(TokenOf(auth.openaiCodex))
  }

  /** `getClaudeCodeToken`: the claude-code token, else the claude token, else null. */
  function GetClaudeCodeToken(auth: AuthConfig): (r: Option<string>)
    ensures TokenOf(auth.claudeCode).Some? ==> r == TokenOf(auth.claudeCode)
    ensures TokenOf(auth.claudeCode).None? ==> r == TokenOf(auth.claude)
  {
    TokenOf(auth.claudeCode).OrElse(TokenOf(auth.claude))
  }

  /** `entry.main` is truthy. */
  predicate IsMain(entry: ProviderEntry)
  {
    entry.main == Some(true)
  }

  /** `filter(entry => entry.main)`. */
  function Mains(providers: seq<ProviderEntry>): (r: seq<ProviderEntry>)
    ensures forall i :: 0 <= i < |r| ==> IsMain(r[i])
    ensures |r| <= |providers|
  {
    if providers == [] then []
    else
      assert providers == [providers[0]] + providers[1..];
      (if IsMain(providers[0]) then [providers[0]] else []) + Mains(providers[1..])
  }

  /** `filter(entry => !entry.main)`. */
  function Others(providers: seq<ProviderEntry>): (r: seq<ProviderEntry>)
    ensures forall i :: 0 <= i < |r| ==> !IsMain(r[i])
    ensures |r| <= |providers|
  {
    if providers == [] then []
    else
      assert providers == [providers[0]] + providers[1..];
      (if IsMain(providers[0]) then [] else [providers[0]]) + Others(providers[1..])
  }

  /** `getInferenceProviders`: [] for a missing list; the list itself when nothing is main;
      otherwise the main entries, then the others, each group in its original order. */
  function GetInferenceProviders(auth: AuthConfig): (r: seq<ProviderEntry>)
    ensures var providers := if auth.inference.Some? then auth.inference.value.providers.GetOr([]) else [];
      && (Mains(providers) == [] ==> r == providers)
      && (Mains(providers) != [] ==> r == Mains(providers) + Others(providers))
  {
    var providers := if auth.inference.Some? then auth.inference.value.providers.GetOr([]) else [];
    if |providers| == 0 then []
    else
      var mainProviders := Mains(providers);
      if |mainProviders| == 0 then providers else mainProviders + Others(providers)
  }

  /** Splitting into main and other entries loses and duplicates nothing. */
  lemma {:induction false} PartitionIsPermutation(providers: seq<ProviderEntry>)
    ensures multiset(Mains(providers)) + multiset(Others(providers)) == multiset(providers)
  {
    if providers != [] {
      var head, tail := providers[0], providers[1..];
      PartitionIsPermutation(tail);
      assert multiset(providers) == multiset{head} + multiset(tail) by {
        assert providers == [head] + tail;
      }
      if IsMain(head) {
        assert multiset(Mains(providers)) == multiset{head} + multiset(Mains(tail));
      } else {
        assert multiset(Others(providers)) == multiset{head} + multiset(Others(tail));
      }
    }
  }

  /** The reordered provider list is a permutation of the configured one, with every main
      entry before every other entry; when some entry is main, the list opens with the main
      entries in configured order and goes on with the others in configured order, and
      otherwise it is the configured list. */
  lemma ProvidersReordered(auth: AuthConfig)
    ensures var providers := if auth.inference.Some? then auth.inference.value.providers.GetOr([]) else [];
      var r := GetInferenceProviders(auth);
      var n := |Mains(providers)|;
      && multiset(r) == multiset(providers)
      && (forall i, j :: 0 <= i < j < |r| && IsMain(r[j]) ==> IsMain(r[i]))
      && (n == 0 ==> r == providers)
      && (n > 0 ==>
            && n <= |r|
            && PicksInOrder(providers, r[..n], Positions(providers, true, 0), true)
            && PicksInOrder(providers, r[n..], Positions(providers, false, 0), false))
  {
    var providers := if auth.inference.Some? then auth.inference.value.providers.GetOr([]) else [];
    GroupsKeepOrder(providers);
    var r := GetInferenceProviders(auth);
    if Mains(providers) != [] {
      assert r[..|Mains(providers)|] == Mains(providers) && r[|Mains(providers)|..] == Others(providers);
    }
    PartitionIsPermutation(providers);
    assert multiset(Mains(providers) + Others(providers)) == multiset(providers);
    if Mains(providers) != [] {
      MainsThenOthers(Mains(providers), Others(providers));
    } else {
      NoMains(providers);
    }
  }

  /** Each group keeps the configured order: the main entries are the configured list at the
      increasing positions of its main entries, and likewise the other entries. */
  lemma GroupsKeepOrder(providers: seq<ProviderEntry>)
    ensures PicksInOrder(providers, Mains(providers), Positions(providers, true, 0), true)
    ensures PicksInOrder(providers, Others(providers), Positions(providers, false, 0), false)
  {
    assert providers[0..] == providers;
    PositionsPick(providers, true, 0);
    PositionsPick(providers, false, 0);
    PositionsIncreasing(providers, true, 0);
    PositionsIncreasing(providers, false, 0);
  }

  /** `group` is `providers` read at the strictly increasing positions `at`, which are exactly
      the positions whose entry is main (when `main`) or not main (otherwise). */
  ghost predicate PicksInOrder(providers: seq<ProviderEntry>, group: seq<ProviderEntry>, at: seq<nat>, main: bool)
  {
    && |at| == |group|
    && (forall k :: 0 <= k < |at| ==> at[k] < |providers| && group[k] == providers[at[k]])
    && (forall k, l :: 0 <= k < l < |at| ==> at[k] < at[l])
    && (forall i :: 0 <= i < |providers| && IsMain(providers[i]) == main ==> i in at)
  }

  /** The positions from `from` on whose entry is main (when `main`) or not, in increasing order. */
  ghost function Positions(providers: seq<ProviderEntry>, main: bool, from: nat): seq<nat>
    requires from <= |providers|
    decreases |providers| - from
  {
    if from == |providers| then []
    else (if IsMain(providers[from]) == main then [from] else []) + Positions(providers, main, from + 1)
  }

  function Group(providers: seq<ProviderEntry>, main: bool): seq<ProviderEntry>
  {
    if main then Mains(providers) else Others(providers)
  }

  /** The group from `from` on is the list read at `Positions`. */
  lemma {:induction false} PositionsPick(providers: seq<ProviderEntry>, main: bool, from: nat)
    requires from <= |providers|
    ensures var at := Positions(providers, main, from);
      var group := Group(providers[from..], main);
      && |at| == |group|
      && (forall k :: 0 <= k < |at| ==> from <= at[k] < |providers| && group[k] == providers[at[k]])
    decreases |providers| - from
  {
    if from < |providers| {
      PositionsPick(providers, main, from + 1);
      var rest := providers[from..];
      assert rest[0] == providers[from] && rest[1..] == providers[from + 1..];
      var head := if IsMain(providers[from]) == main then [from] else [];
      var tail := Positions(providers, main, from + 1);
      var at := head + tail;
      var group := Group(rest, main);
      assert group == (if IsMain(providers[from]) == main then [providers[from]] else []) + Group(providers[from + 1..], main);
      forall k | 0 <= k < |at| ensures from <= at[k] < |providers| && group[k] == providers[at[k]] {
        if k >= |head| {
          assert at[k] == tail[k - |head|];
        }
      }
    }
  }

  /** `Positions` is strictly increasing, lies at or after `from`, and holds every position
      from `from` on whose entry is (or is not) main. */
  lemma {:induction false} PositionsIncreasing(providers: seq<ProviderEntry>, main: bool, from: nat)
    requires from <= |providers|
    ensures var at := Positions(providers, main, from);
      && (forall k :: 0 <= k < |at| ==> from <= at[k])
      && (forall k, l :: 0 <= k < l < |at| ==> at[k] < at[l])
      && (forall i :: from <= i < |providers| && IsMain(providers[i]) == main ==> i in at)
    decreases |providers| - from
  {
    if from < |providers| {
      PositionsIncreasing(providers, main, from + 1);
      var head := if IsMain(providers[from]) == main then [from] else [];
      var tail := Positions(providers, main, from + 1);
      var at := head + tail;
      forall k | 0 <= k < |at| ensures from <= at[k] {
        if k >= |head| {
          assert at[k] == tail[k - |head|];
        }
      }
      forall k, l | 0 <= k < l < |at| ensures at[k] < at[l] {
        if k >= |head| {
          assert at[k] == tail[k - |head|] && at[l] == tail[l - |head|];
        } else {
          assert at[l] == tail[l - 1];
        }
      }
    }
  }

  /** A list of main entries followed by a list of other entries has every main entry first. */
  lemma MainsThenOthers(mains: seq<ProviderEntry>, others: seq<ProviderEntry>)
    requires forall i :: 0 <= i < |mains| ==> IsMain(mains[i])
    requires forall i :: 0 <= i < |others| ==> !IsMain(others[i])
    ensures var r := mains + others; forall i, j :: 0 <= i < j < |r| && IsMain(r[j]) ==> IsMain(r[i])
  {
    var r := mains + others;
    forall k | |mains| <= k < |r| ensures !IsMain(r[k]) {
      assert r[k] == others[k - |mains|];
    }
  }

  /** A list none of whose entries is main has no main entry at all. */
  lemma {:induction false} NoMains(providers: seq<ProviderEntry>)
    requires Mains(providers) == []
    ensures forall i :: 0 <= i < |providers| ==> !IsMain(providers[i])
  {
    if providers != [] {
      assert providers == [providers[0]] + providers[1..];
      NoMains(providers[1..]);
      forall i | 1 <= i < |providers| ensures !IsMain(providers[i]) {
        assert providers[i] == providers[1..][i - 1];
      }
    }
  }

  /** Clearing `main` on every entry: `list.map(item => ({ ...item, main: false }))`. */
  function Demoted(list: seq<ProviderEntry>): (r: seq<ProviderEntry>)
    ensures |r| == |list|
    ensures forall i :: 0 <= i < |list| ==> r[i] == list[i].(main := Some(false))
  {
    if list == [] then [] else [list[0].(main := Some(false))] + Demoted(list[1..])
  }

  /** `filter(item => item.id !== id)`. */
  function WithoutId(providers: seq<ProviderEntry>, id: string): (r: seq<ProviderEntry>)
    ensures forall e :: e in r <==> e in providers && e.id != id
    ensures |r| <= |providers|
  {
    if providers == [] then []
    else
      assert providers == [providers[0]] + providers[1..];
      (if providers[0].id != id then [providers[0]] else []) + WithoutId(providers[1..], id)
  }

  /** The `add-codex` update of the provider list: earlier entries with the new entry's id go;
      a main entry goes first and demotes every other one; otherwise it goes last, not main. */
  function UpdateProviders(providers: Option<seq<ProviderEntry>>, entry: ProviderEntry): (r: seq<ProviderEntry>)
    ensures var list := WithoutId(providers.GetOr([]), entry.id);
      && |r| == |list| + 1
      && (IsMain(entry) ==> r[0] == entry.(main := Some(true)) && forall i :: 1 <= i < |r| ==> r[i] == list[i - 1].(main := Some(false)))
      && (!IsMain(entry) ==> r == list + [entry.(main := Some(false))])
  {
    var list := WithoutId(providers.GetOr([]), entry.id);
    if IsMain(entry) then [entry.(main := Some(true))] + Demoted(list) else list + [entry.(main := Some(false))]
  }

  /** After the update exactly one entry carries the new entry's id. */
  lemma UpdateLeavesOne(providers: Option<seq<ProviderEntry>>, entry: ProviderEntry)
    ensures var r := UpdateProviders(providers, entry);
      exists k :: 0 <= k < |r| && r[k].id == entry.id && forall i :: 0 <= i < |r| && i != k ==> r[i].id != entry.id
  {
    var list := WithoutId(providers.GetOr([]), entry.id);
    var r := UpdateProviders(providers, entry);
    var k := if IsMain(entry) then 0 else |r| - 1;
    forall i | 0 <= i < |r| && i != k ensures r[i].id != entry.id {
      if IsMain(entry) {
        assert list[i - 1] in list;
      } else {
        assert r[i] == list[i] && list[i] in list;
      }
    }
    assert r[k].id == entry.id;
  }

  /** Re-running the update with the same entry gives the same list. */
  lemma {:induction false} UpdateIdempotent(providers: Option<seq<ProviderEntry>>, entry: ProviderEntry)
    ensures UpdateProviders(Some(UpdateProviders(providers, entry)), entry) == UpdateProviders(providers, entry)
  {
    var list := WithoutId(providers.GetOr([]), entry.id);
    if IsMain(entry) {
      MainUpdateIdempotent(list, entry);
    } else {
      WithoutIdAppend(list, [entry.(main := Some(false))], entry.id);
      WithoutIdNone(list, entry.id);
    }
  }

  /** A main entry's update, applied to its own result, leaves the demoted rest as it was. */
  lemma MainUpdateIdempotent(list: seq<ProviderEntry>, entry: ProviderEntry)
    requires IsMain(entry) && forall e :: e in list ==> e.id != entry.id
    ensures WithoutId([entry.(main := Some(true))] + Demoted(list), entry.id) == Demoted(list)
    ensures Demoted(Demoted(list)) == Demoted(list)
  {
    WithoutIdDemoted(list, entry.id);
    WithoutIdAppend([entry.(main := Some(true))], Demoted(list), entry.id);
    DemotedTwice(list);
  }

  lemma {:induction false} WithoutIdAppend(a: seq<ProviderEntry>, b: seq<ProviderEntry>, id: string)
    ensures WithoutId(a + b, id) == WithoutId(a, id) + WithoutId(b, id)
    decreases |a|
  {
    if a == [] {
      assert a + b == b;
    } else {
      assert (a + b)[0] == a[0] && (a + b)[1..] == a[1..] + b;
      WithoutIdAppend(a[1..], b, id);
    }
  }

  lemma {:induction false} WithoutIdNone(list: seq<ProviderEntry>, id: string)
    requires forall e :: e in list ==> e.id != id
    ensures WithoutId(list, id) == list
    decreases |list|
  {
    if list != [] {
      assert list[0] in list;
      assert forall e :: e in list[1..] ==> e in list;
      WithoutIdNone(list[1..], id);
    }
  }

  lemma {:induction false} WithoutIdDemoted(list: seq<ProviderEntry>, id: string)
    requires forall e :: e in list ==> e.id != id
    ensures WithoutId(Demoted(list), id) == Demoted(list)
  {
    forall e | e in Demoted(list) ensures e.id != id {
      var i :| 0 <= i < |list| && Demoted(list)[i] == e;
      assert list[i] in list;
    }
    WithoutIdNone(Demoted(list), id);
  }

  lemma DemotedTwice(list: seq<ProviderEntry>)
    ensures Demoted(Demoted(list)) == Demoted(list)
  {
  }
}
