// How the newer runtime's pi-ai provider plugins rank a provider's models before picking a
// default: reasoning models first, then a size tier read from keywords in the model's id
// and name, then the larger context window, the larger output limit, the later release
// date found in the id or name, and finally the id. The list is sorted with that
// comparator, so the first model of the sorted list is one no other model precedes.
//
// `localeCompare` on ids is modelled as code-unit lexicographic order, and `toLowerCase`
// as ASCII lower-casing.

module ModelRanking {
  import opened Wrappers
  import JsBuiltins

  /** The fields of a pi-ai model the ranking reads. */
  datatype ModelInfo = ModelInfo(id: string, name: string, reasoning: bool, contextWindow: int, maxTokens: int)

  /** `${model.id} ${model.name}`: the text the tier and the date are read from. */
  function Label(m: ModelInfo): string
  {
    m.id + " " + m.name
  }

  // ---------------------------------------------------------------- size tier

  const LargeWords: seq<string> := ["opus", "ultra", "pro", "max", "xlarge", "xl", "plus"]
  const MediumWords: seq<string> := ["medium", "standard"]
  const SmallWords: seq<string> := ["mini", "small", "lite", "tiny", "nano"]

  /** An alternation regex `/(w1|w2|...)/` matches somewhere in `s`. */
  predicate MentionsAny(s: string, words: seq<string>)
  {
    exists i :: 0 <= i < |words| && JsBuiltins.Contains(s, words[i])
  }

  /** `modelTier`: +2 for a large-size keyword, +1 for a medium one, -2 for a small one,
      each counted at most once, on the lower-cased label. */
  function ModelTier(m: ModelInfo): (r: int)
    ensures -2 <= r <= 3
    ensures var s := JsBuiltins.ToLower(Label(m));
      && (MentionsAny(s, LargeWords) && !MentionsAny(s, SmallWords) ==> r >= 2)
      && (!MentionsAny(s, LargeWords) && MentionsAny(s, SmallWords) ==> r < 0)
      && (!MentionsAny(s, LargeWords) && !MentionsAny(s, SmallWords) ==> r == (if MentionsAny(s, MediumWords) then 1 else 0))
  {
    var s := JsBuiltins.ToLower(Label(m));
    (if MentionsAny(s, LargeWords) then 2 else 0)
      + (if MentionsAny(s, MediumWords) then 1 else 0)
      - (if MentionsAny(s, SmallWords) then 2 else 0)
  }

  /** A small-size keyword anywhere in the label keeps a model out of the large tier,
      whatever large keyword it also holds. */
  lemma SmallKeywordCapsTier(m: ModelInfo, w: nat, at: int)
    requires w < |SmallWords| && JsBuiltins.OccursAt(JsBuiltins.ToLower(Label(m)), SmallWords[w], at)
    ensures ModelTier(m) < 2
  {
    JsBuiltins.ContainsIffOccurs(JsBuiltins.ToLower(Label(m)), SmallWords[w]);
  }

  /** The keywords are matched as substrings: "gemini" holds "mini", so a Gemini "pro" model
      never reaches the large tier. */
  lemma GeminiProIsNotLarge()
    ensures ModelTier(ModelInfo("gemini-pro", "", false, 0, 0)) < 2
  {
    var m := ModelInfo("gemini-pro", "", false, 0, 0);
    var s := JsBuiltins.ToLower(Label(m));
    assert Label(m)[2..6] == "mini";
    assert s[2..6] == "mini";
    SmallKeywordCapsTier(m, 0, 2);
  }

  // ---------------------------------------------------------------- date score

  predicate IsSeparator(c: char)
  {
    c == '-' || c == '_' || c == '/'
  }

  /** `n` decimal digits start at offset `i`. */
  predicate DigitsAt(s: string, i: nat, n: nat)
  {
    i + n <= |s| && forall k :: i <= k < i + n ==> JsBuiltins.IsDigit(s[k])
  }

  /** `Number` of the two digits at offset `i`. */
  function TwoDigits(s: string, i: nat): (r: nat)
    requires i + 2 <= |s|
    ensures DigitsAt(s, i, 2) ==> r < 100
  {
    JsBuiltins.DigitValue(s[i]) * 10 + JsBuiltins.DigitValue(s[i + 1])
  }

  /** The groups of one match of `(20\d{2})[-_/]?(\d{2})(?:[-_/]?(\d{2}))?`; the day is
      absent when its optional group did not take part. */
  datatype DateMatch = DateMatch(year: nat, month: nat, day: Option<nat>)

  /** Where an optional separator followed by two digits starts its digits at offset `j`:
      the separator is tried first, as the greedy `?` does. */
  function TwoDigitsAfterSeparator(s: string, j: nat): Option<nat>
  {
    if j < |s| && IsSeparator(s[j]) && DigitsAt(s, j + 1, 2) then Some(j + 1)
    else if DigitsAt(s, j, 2) then Some(j)
    else None
  }

  /** The regex tried at offset `i`. A separator is not a digit, so the greedy choices never
      need to be revisited: if the month cannot follow a separator it cannot start at the
      separator either, and the day group is optional. */
  function MatchAt(s: string, i: nat): (r: Option<DateMatch>)
    ensures r.Some? ==> 2000 <= r.value.year < 2100 && r.value.month < 100 && (r.value.day.Some? ==> r.value.day.value < 100)
  {
    if !(i + 4 <= |s| && s[i] == '2' && s[i + 1] == '0' && DigitsAt(s, i + 2, 2)) then None
    else
      match TwoDigitsAfterSeparator(s, i + 4)
      case None => None
      case Some(m) =>
        var day := TwoDigitsAfterSeparator(s, m + 2);
        Some(DateMatch(2000 + TwoDigits(s, i + 2), TwoDigits(s, m), if day.Some? then Some(TwoDigits(s, day.value)) else None))
  }

  /** `value.match(...)`: the leftmost match at or after offset `i`. */
  function FirstMatch(s: string, i: nat): (r: Option<DateMatch>)
    ensures r.Some? ==> 2000 <= r.value.year < 2100 && r.value.month < 100 && (r.value.day.Some? ==> r.value.day.value < 100)
    decreases |s| - i
  {
    if i >= |s| then None
    else if MatchAt(s, i).Some? then MatchAt(s, i)
    else FirstMatch(s, i + 1)
  }

  /** The match found is the one at the leftmost offset where the pattern matches, and none
      is found exactly when it matches nowhere. */
  lemma {:induction false} FirstMatchLeftmost(s: string, i: nat)
    ensures FirstMatch(s, i).Some? ==>
      exists k :: i <= k < |s| && MatchAt(s, k) == FirstMatch(s, i) && forall k' :: i <= k' < k ==> MatchAt(s, k').None?
    ensures FirstMatch(s, i).None? ==> forall k :: i <= k < |s| ==> MatchAt(s, k).None?
    decreases |s| - i
  {
    if i < |s| {
      if MatchAt(s, i).Some? {
        assert MatchAt(s, i) == FirstMatch(s, i);
      } else {
        FirstMatchLeftmost(s, i + 1);
        if FirstMatch(s, i + 1).Some? {
          var k :| i + 1 <= k < |s| && MatchAt(s, k) == FirstMatch(s, i + 1) && forall k' :: i + 1 <= k' < k ==> MatchAt(s, k').None?;
          assert forall k' :: i <= k' < k ==> MatchAt(s, k').None?;
        }
      }
    }
  }

  /** The score `latest` gets: above any date. */
  const LatestScore := 99999999

  /** `parseDateScore`: "latest" in any case wins; otherwise the leftmost date match gives
      year * 10000 + month * 100 + day, the day defaulting to 1; a month "00" or no match
      gives 0. */
  function ParseDateScore(m: ModelInfo): (r: int)
    ensures JsBuiltins.Contains(JsBuiltins.ToLower(Label(m)), "latest") ==> r == LatestScore
    ensures !JsBuiltins.Contains(JsBuiltins.ToLower(Label(m)), "latest") && FirstMatch(Label(m), 0).None? ==> r == 0
    ensures r == LatestScore || r == 0 || 20000100 <= r <= 20999999
  {
    var value := Label(m);
    if JsBuiltins.Contains(JsBuiltins.ToLower(value), "latest") then LatestScore
    else
      match FirstMatch(value, 0)
      case None => 0
      case Some(d) =>
        if d.month == 0 then 0 else d.year * 10000 + d.month * 100 + d.day.GetOr(1)
  }

  predicate NoDigits(s: string)
  {
    forall k :: 0 <= k < |s| ==> !JsBuiltins.IsDigit(s[k])
  }

  /** The leftmost match skips every offset where no match starts. */
  lemma {:induction false} FirstMatchSkips(s: string, i: nat, j: nat)
    requires i <= j <= |s|
    requires forall k :: i <= k < j ==> MatchAt(s, k).None?
    ensures FirstMatch(s, i) == FirstMatch(s, j)
    decreases j - i
  {
    if i < j {
      assert MatchAt(s, i).None?;
      assert FirstMatch(s, i) == FirstMatch(s, i + 1);
      FirstMatchSkips(s, i + 1, j);
    }
  }

  /** The two digits of `n` written at offset `i` read back as `n`. */
  lemma TwoDigitsOf(s: string, i: nat, n: nat)
    requires n < 100 && i + 2 <= |s|
    requires s[i] == JsBuiltins.DigitChar(n / 10) && s[i + 1] == JsBuiltins.DigitChar(n % 10)
    ensures DigitsAt(s, i, 2) && TwoDigits(s, i) == n
  {
    assert JsBuiltins.DigitValue(s[i]) == n / 10;
    assert JsBuiltins.DigitValue(s[i + 1]) == n % 10;
  }

  /** The ten characters of `20yy<sep>mm<sep>dd`. */
  function DateText(y: nat, mo: nat, d: nat, s1: char, s2: char): string
    requires y < 100 && mo < 100 && d < 100
  {
    ['2', '0', JsBuiltins.DigitChar(y / 10), JsBuiltins.DigitChar(y % 10), s1,
     JsBuiltins.DigitChar(mo / 10), JsBuiltins.DigitChar(mo % 10), s2,
     JsBuiltins.DigitChar(d / 10), JsBuiltins.DigitChar(d % 10)]
  }

  /** A full date with separators matches where it starts. */
  lemma MatchOfDate(s: string, p: nat, y: nat, mo: nat, d: nat, s1: char, s2: char)
    requires y < 100 && mo < 100 && d < 100 && IsSeparator(s1) && IsSeparator(s2)
    requires p + 10 <= |s| && s[p..p + 10] == DateText(y, mo, d, s1, s2)
    ensures MatchAt(s, p) == Some(DateMatch(2000 + y, mo, Some(d)))
  {
    var date := DateText(y, mo, d, s1, s2);
    forall k | 0 <= k < 10
      ensures s[p + k] == date[k]
    {
      assert s[p..p + 10][k] == s[p + k];
    }
    TwoDigitsOf(s, p + 2, y);
    TwoDigitsOf(s, p + 5, mo);
    TwoDigitsOf(s, p + 8, d);
    assert TwoDigitsAfterSeparator(s, p + 4) == Some(p + 5);
    assert TwoDigitsAfterSeparator(s, p + 7) == Some(p + 8);
  }

  /** A label whose first digits form a full `20yy-mm-dd` date (with any of the separators)
      scores that date, whatever follows it. */
  lemma DatedLabel(prefix: string, y: nat, mo: nat, d: nat, s1: char, s2: char, rest: string)
    requires NoDigits(prefix)
    requires y < 100 && 1 <= mo < 100 && d < 100 && IsSeparator(s1) && IsSeparator(s2)
    ensures FirstMatch(prefix + DateText(y, mo, d, s1, s2) + rest, 0) == Some(DateMatch(2000 + y, mo, Some(d)))
  {
    var s := prefix + DateText(y, mo, d, s1, s2) + rest;
    var p := |prefix|;
    forall k | 0 <= k < p
      ensures MatchAt(s, k).None?
    {
      assert s[k] == prefix[k];
    }
    FirstMatchSkips(s, 0, p);
    assert s[p..p + 10] == DateText(y, mo, d, s1, s2);
    MatchOfDate(s, p, y, mo, d, s1, s2);
  }

  lemma JoinAssociates(a: string, b: string, c: string)
    ensures (a + b) + c == a + (b + c)
  {
  }

  /** Such a label, without "latest" in it, scores year * 10000 + month * 100 + day. */
  lemma DatedLabelScore(id: string, y: nat, mo: nat, d: nat, s1: char, s2: char, rest: string)
    requires NoDigits(id)
    requires y < 100 && 1 <= mo < 100 && d < 100 && IsSeparator(s1) && IsSeparator(s2)
    requires !JsBuiltins.Contains(JsBuiltins.ToLower(Label(ModelInfo(id + DateText(y, mo, d, s1, s2), rest, false, 0, 0))), "latest")
    ensures ParseDateScore(ModelInfo(id + DateText(y, mo, d, s1, s2), rest, false, 0, 0)) == (2000 + y) * 10000 + mo * 100 + d
  {
    JoinAssociates(id + DateText(y, mo, d, s1, s2), " ", rest);
    DatedLabel(id, y, mo, d, s1, s2, " " + rest);
  }

  // ---------------------------------------------------------------- comparator

  /** `a.localeCompare(b)`, modelled as code-unit lexicographic order. */
  function IdOrder(a: string, b: string): (r: int)
    ensures -1 <= r <= 1
    decreases |a|
  {
    if a == [] then (if b == [] then 0 else -1)
    else if b == [] then 1
    else if a[0] < b[0] then -1
    else if a[0] > b[0] then 1
    else IdOrder(a[1..], b[1..])
  }

  lemma {:induction false} IdOrderAntisymmetric(a: string, b: string)
    ensures IdOrder(a, b) == -IdOrder(b, a)
    ensures IdOrder(a, b) == 0 <==> a == b
    decreases |a|
  {
    if a != [] && b != [] && a[0] == b[0] {
      IdOrderAntisymmetric(a[1..], b[1..]);
      if a[1..] == b[1..] {
        assert a == [a[0]] + a[1..] && b == [b[0]] + b[1..];
      }
    }
  }

  lemma {:induction false} IdOrderTransitive(a: string, b: string, c: string)
    requires IdOrder(a, b) <= 0 && IdOrder(b, c) <= 0
    ensures IdOrder(a, c) <= 0
    decreases |a|
  {
    if a != [] && b != [] && c != [] && a[0] == b[0] && b[0] == c[0] {
      IdOrderTransitive(a[1..], b[1..], c[1..]);
    }
  }

  /** `compareModels`: negative when `a` sorts first. */
  function CompareModels(a: ModelInfo, b: ModelInfo): int
  {
    if a.reasoning != b.reasoning then (if a.reasoning then -1 else 1)
    else if ModelTier(a) != ModelTier(b) then ModelTier(b) - ModelTier(a)
    else if a.contextWindow != b.contextWindow then b.contextWindow - a.contextWindow
    else if a.maxTokens != b.maxTokens then b.maxTokens - a.maxTokens
    else if ParseDateScore(a) != ParseDateScore(b) then ParseDateScore(b) - ParseDateScore(a)
    else IdOrder(a.id, b.id)
  }

  /** `a` may come before `b`. */
  predicate Precedes(a: ModelInfo, b: ModelInfo)
  {
    CompareModels(a, b) <= 0
  }

  /** The comparator is consistent: swapping its arguments flips the sign, and it is zero
      only for models with the same id that tie on every key. */
  lemma CompareAntisymmetric(a: ModelInfo, b: ModelInfo)
    ensures CompareModels(a, b) < 0 <==> CompareModels(b, a) > 0
    ensures CompareModels(a, b) == 0 <==> CompareModels(b, a) == 0
    ensures CompareModels(a, b) == 0 ==> a.id == b.id
  {
    IdOrderAntisymmetric(a.id, b.id);
  }

  /** Any two models can be ordered. */
  lemma PrecedesTotal(a: ModelInfo, b: ModelInfo)
    ensures Precedes(a, b) || Precedes(b, a)
  {
    CompareAntisymmetric(a, b);
  }

  lemma PrecedesTransitive(a: ModelInfo, b: ModelInfo, c: ModelInfo)
    requires Precedes(a, b) && Precedes(b, c)
    ensures Precedes(a, c)
  {
    if a.reasoning == b.reasoning == c.reasoning
      && ModelTier(a) == ModelTier(b) == ModelTier(c)
      && a.contextWindow == b.contextWindow == c.contextWindow
      && a.maxTokens == b.maxTokens == c.maxTokens
      && ParseDateScore(a) == ParseDateScore(b) == ParseDateScore(c)
    {
      IdOrderTransitive(a.id, b.id, c.id);
    }
  }

  /** A reasoning model precedes every model that does not reason. */
  lemma ReasoningFirst(a: ModelInfo, b: ModelInfo)
    requires a.reasoning && !b.reasoning
    ensures CompareModels(a, b) < 0 && !Precedes(b, a)
  {
  }

  // ---------------------------------------------------------------- sorting

  /** Inserts `m` before the first model it may precede, so that it stays ahead of models it
      ties with: the stable place for an element that came first. */
  function Insert(m: ModelInfo, sorted: seq<ModelInfo>): (r: seq<ModelInfo>)
    ensures multiset(r) == multiset(sorted) + multiset{m}
  {
    if sorted == [] then [m]
    else if Precedes(m, sorted[0]) then [m] + sorted
    else
      assert sorted == [sorted[0]] + sorted[1..];
      [sorted[0]] + Insert(m, sorted[1..])
  }

  /** `[...models].sort(compareModels)`, as a stable insertion sort. */
  function SortModels(models: seq<ModelInfo>): (r: seq<ModelInfo>)
    ensures multiset(r) == multiset(models)
  {
    if models == [] then []
    else
      assert models == [models[0]] + models[1..];
      Insert(models[0], SortModels(models[1..]))
  }

  predicate Sorted(s: seq<ModelInfo>)
  {
    forall i, j :: 0 <= i < j < |s| ==> Precedes(s[i], s[j])
  }

  /** A model that precedes the head of a sorted list precedes all of it. */
  lemma PrependSorted(m: ModelInfo, sorted: seq<ModelInfo>)
    requires Sorted(sorted) && sorted != [] && Precedes(m, sorted[0])
    ensures Sorted([m] + sorted)
  {
    var r := [m] + sorted;
    forall i, j | 0 <= i < j < |r|
      ensures Precedes(r[i], r[j])
    {
      if i == 0 && j > 1 {
        PrecedesTransitive(m, sorted[0], sorted[j - 1]);
      }
    }
  }

  lemma {:induction false} InsertSorted(m: ModelInfo, sorted: seq<ModelInfo>)
    requires Sorted(sorted)
    ensures Sorted(Insert(m, sorted))
  {
    if sorted == [] {
    } else if Precedes(m, sorted[0]) {
      PrependSorted(m, sorted);
    } else {
      PrecedesTotal(m, sorted[0]);
      var rest := sorted[1..];
      assert Sorted(rest);
      InsertSorted(m, rest);
      var tail := Insert(m, rest);
      assert tail[0] == m || tail[0] == sorted[1];
      PrependSorted(sorted[0], tail);
    }
  }

  /** The sorted list is ordered by the comparator (and, by its contract, a permutation). */
  lemma {:induction false} SortModelsSorted(models: seq<ModelInfo>)
    ensures Sorted(SortModels(models))
  {
    if models != [] {
      SortModelsSorted(models[1..]);
      InsertSorted(models[0], SortModels(models[1..]));
    }
  }

  /** The first model of the sorted list is one of the models and precedes all of them. */
  lemma SortedFirstIsBest(models: seq<ModelInfo>)
    requires models != []
    ensures SortModels(models) != [] && SortModels(models)[0] in models
    ensures forall m :: m in models ==> Precedes(SortModels(models)[0], m)
  {
    var s := SortModels(models);
    SortModelsSorted(models);
    assert |s| == |models| by { assert |multiset(s)| == |multiset(models)|; }
    assert s[0] in multiset(models);
    forall m | m in models
      ensures Precedes(s[0], m)
    {
      assert m in multiset(s);
      var k :| 0 <= k < |s| && s[k] == m;
      if k == 0 {
        CompareAntisymmetric(m, m);
        IdOrderAntisymmetric(m.id, m.id);
      }
    }
  }
}
