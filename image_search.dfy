/**
  The image selection pipeline of backend/app/image_search.py: cleaning an
  activity name, choosing a category, building search queries and collecting
  at most three distinct image URLs from two search back-ends.
 */
module ImageSearch {
  import opened Text
  import opened Seqs

  /** A search back-end (Unsplash or Pexels): the URLs it returns for a query and a requested count. */
  type SearchOracle = (string, int) -> seq<string>

  datatype Source = Unsplash | Pexels

  /** One request made to a back-end. */
  datatype SearchCall = SearchCall(source: Source, query: string, count: int)

  /** What a back-end answered to a call. */
  function Answer(c: SearchCall, unsplash: SearchOracle, pexels: SearchOracle): seq<string>
  {
    if c.source == Unsplash then unsplash(c.query, c.count) else pexels(c.query, c.count)
  }

  // ---------------------------------------------------------------------------
  // Name cleaning

  /** The action words removed from the front of a name, in the order they are tried. */
  const ActionPrefixes: seq<string> := [
    "游览", "参观", "打卡", "体验", "探索", "午餐", "晚餐", "早餐", "美食",
    "文化体验", "午餐推荐", "晚餐推荐", "品尝", "前往", "到达", "伴手礼采购"]

  predicate IsColon(c: char) { c == ':' || c == '：' }

  /** One pattern `^P[:：]?`: removes `p` and one optional colon from the front of `s`. */
  function StripPrefix(s: string, p: string): (r: string)
    ensures |r| <= |s| && r == s[|s| - |r|..]
    ensures IsPrefix(p, s) ==> |r| <= |s| - |p|
    ensures !IsPrefix(p, s) ==> r == s
  {
    if IsPrefix(p, s) then
      var t := s[|p|..];
      if t != [] && IsColon(t[0]) then t[1..] else t
    else s
  }

  /** Applies the patterns `ps` once each, in order, each to the previous result. */
  function StripPrefixes(s: string, ps: seq<string>): (r: string)
    ensures |r| <= |s| && r == s[|s| - |r|..]
  {
    if ps == [] then s
    else
      var t := StripPrefixes(s, ps[..|ps| - 1]);
      var r := StripPrefix(t, ps[|ps| - 1]);
      assert r == s[|s| - |t|..][|t| - |r|..] == s[|s| - |r|..];
      r
  }

  /** The first pattern is applied first, and the rest to what it leaves. */
  lemma {:induction false} StripPrefixesFirst(s: string, p: string, ps: seq<string>)
    ensures StripPrefixes(s, [p] + ps) == StripPrefixes(StripPrefix(s, p), ps)
    decreases |ps|
  {
    var qs := [p] + ps;
    if ps != [] {
      var n := |ps|;
      assert qs[..|qs| - 1] == [p] + ps[..n - 1] && qs[|qs| - 1] == ps[n - 1];
      calc {
        StripPrefixes(s, qs);
      ==
        StripPrefix(StripPrefixes(s, [p] + ps[..n - 1]), ps[n - 1]);
      == { StripPrefixesFirst(s, p, ps[..n - 1]); }
        StripPrefix(StripPrefixes(StripPrefix(s, p), ps[..n - 1]), ps[n - 1]);
      ==
        StripPrefixes(StripPrefix(s, p), ps);
      }
    } else {
      assert qs == [p] && qs[..0] == [];
    }
  }

  /** A name that starts with none of the patterns is left as it is. */
  lemma {:induction false} StripPrefixesNoMatch(s: string, ps: seq<string>)
    requires forall i :: 0 <= i < |ps| ==> !IsPrefix(ps[i], s)
    ensures StripPrefixes(s, ps) == s
    decreases |ps|
  {
    if ps != [] {
      StripPrefixesNoMatch(s, ps[..|ps| - 1]);
    }
  }

  /** A pattern followed by a colon loses both, and only them. */
  lemma PrefixAndColonStripped(p: string, c: char, rest: string)
    requires IsColon(c)
    ensures StripPrefix(p + [c] + rest, p) == rest
  {
    var s := p + [c] + rest;
    assert s[..|p|] == p && s[|p|] == c && s[|p| + 1..] == rest;
  }

  /** A pattern not followed by a colon loses just the pattern. */
  lemma PrefixStripped(p: string, rest: string)
    requires rest == [] || !IsColon(rest[0])
    ensures StripPrefix(p + rest, p) == rest
  {
    var s := p + rest;
    assert s[..|p|] == p && s[|p|..] == rest;
  }

  predicate IsOpenBracket(c: char) { c == '（' || c == '(' }
  predicate IsCloseBracket(c: char) { c == '）' || c == ')' }
  predicate IsShopMark(c: char) { c == '店' || c == '铺' || c == '馆' || c == '厅' }

  /** The first index at or after `from` holding a closing bracket, or `|s|`. */
  function FirstClose(s: string, from: nat): (j: nat)
    requires from <= |s|
    decreases |s| - from
    ensures from <= j <= |s|
    ensures j < |s| ==> IsCloseBracket(s[j])
    ensures forall k :: from <= k < j ==> !IsCloseBracket(s[k])
  {
    if from == |s| || IsCloseBracket(s[from]) then from else FirstClose(s, from + 1)
  }

  /**
    The length of a match of `[（(][^）)]*[店铺馆厅][）)]` at the front of `s`,
    or 0. Since the middle part excludes closing brackets, a match can only end
    at the first closing bracket, and the character before it must be a shop mark.
   */
  function ShopSuffixLength(s: string): (n: nat)
    ensures n == 0 || 3 <= n <= |s|
    ensures n > 0 ==> IsOpenBracket(s[0]) && IsCloseBracket(s[n - 1]) && IsShopMark(s[n - 2])
    ensures n > 0 ==> forall k :: 1 <= k < n - 1 ==> !IsCloseBracket(s[k])
  {
    if s != [] && IsOpenBracket(s[0]) then
      var j := FirstClose(s, 1);
      if j < |s| && j >= 2 && IsShopMark(s[j - 1]) then j + 1 else 0
    else 0
  }

  /** `re.sub` of the shop-suffix pattern with "": every match, scanning left to right, is removed. */
  function RemoveShopSuffixes(s: string): (r: string)
    ensures |r| <= |s|
    ensures IsSubsequence(r, s)
  {
    if s == [] then []
    else
      var n := ShopSuffixLength(s);
      if n > 0 then
        var r := RemoveShopSuffixes(s[n..]);
        SubsequenceSkip(r, s, n);
        r
      else
        var r := [s[0]] + RemoveShopSuffixes(s[1..]);
        assert r[1..] == RemoveShopSuffixes(s[1..]);
        r
  }

  /** Text without an opening bracket holds no shop suffix and is left as it is. */
  lemma {:induction false} NoBracketNoChange(s: string)
    requires forall k :: 0 <= k < |s| ==> !IsOpenBracket(s[k])
    ensures RemoveShopSuffixes(s) == s
    decreases |s|
  {
    if s != [] {
      NoBracketNoChange(s[1..]);
      assert [s[0]] + s[1..] == s;
    }
  }

  /**
    A bracketed shop suffix after text without brackets is removed, and what
    follows it is processed on its own: "哈尔滨红肠（中央大街店）" loses its
    branch name.
   */
  lemma {:induction false} ShopSuffixRemoved(a: string, m: string, b: string)
    requires forall k :: 0 <= k < |a| ==> !IsOpenBracket(a[k])
    requires ShopSuffixLength(m + b) == |m| > 0
    ensures RemoveShopSuffixes(a + m + b) == a + RemoveShopSuffixes(b)
    decreases |a|
  {
    if a == [] {
      SuffixFirst(m, b);
    } else {
      var s := a + m + b;
      ConsTail(a, m, b);
      assert !IsOpenBracket(a[0]);
      assert forall k :: 0 <= k < |a[1..]| ==> a[1..][k] == a[k + 1];
      calc {
        RemoveShopSuffixes(s);
      == { RemovedAtOther(s); }
        [a[0]] + RemoveShopSuffixes(a[1..] + m + b);
      == { ShopSuffixRemoved(a[1..], m, b); }
        [a[0]] + (a[1..] + RemoveShopSuffixes(b));
      == { assert [a[0]] + a[1..] == a; }
        a + RemoveShopSuffixes(b);
      }
    }
  }

  lemma SuffixFirst(m: string, b: string)
    requires ShopSuffixLength(m + b) == |m| > 0
    ensures RemoveShopSuffixes([] + m + b) == [] + RemoveShopSuffixes(b)
  {
    assert [] + m + b == m + b && (m + b)[|m|..] == b;
    RemovedAtSuffix(m + b);
  }

  lemma ConsTail(a: string, m: string, b: string)
    requires a != []
    ensures (a + m + b)[0] == a[0] && (a + m + b)[1..] == a[1..] + m + b
  {
  }

  /** One step of the scan at a shop suffix. */
  lemma RemovedAtSuffix(s: string)
    requires ShopSuffixLength(s) > 0
    ensures RemoveShopSuffixes(s) == RemoveShopSuffixes(s[ShopSuffixLength(s)..])
  {
  }

  /** One step of the scan at a character that does not open a bracket. */
  lemma RemovedAtOther(s: string)
    requires s != [] && !IsOpenBracket(s[0])
    ensures RemoveShopSuffixes(s) == [s[0]] + RemoveShopSuffixes(s[1..])
  {
  }

  /** A bracketed shop suffix at the end of a name without other brackets leaves just the name. */
  lemma TrailingShopSuffixRemoved(a: string, m: string)
    requires forall k :: 0 <= k < |a| ==> !IsOpenBracket(a[k])
    requires ShopSuffixLength(m) == |m| > 0
    ensures RemoveShopSuffixes(a + m) == a
  {
    assert m + [] == m && a + m + [] == a + m;
    ShopSuffixRemoved(a, m, []);
  }

  lemma BranchNameRemoved()
    ensures RemoveShopSuffixes("哈尔滨红肠（中央大街店）") == "哈尔滨红肠"
  {
    var m := "（中央大街店）";
    assert FirstClose(m, 1) == 6;
    TrailingShopSuffixRemoved("哈尔滨红肠", m);
    assert "哈尔滨红肠" + m == "哈尔滨红肠（中央大街店）";
  }

  lemma {:induction false} SubsequenceSkip(r: string, s: string, n: nat)
    requires n <= |s| && IsSubsequence(r, s[n..])
    ensures IsSubsequence(r, s)
    decreases n
  {
    if n > 0 {
      assert s[n..] == s[1..][n - 1..];
      SubsequenceSkip(r, s[1..], n - 1);
      SubsequenceCons(r, s[1..], s[0]);
      assert [s[0]] + s[1..] == s;
    }
  }

  /** The cleaned name that the search queries are built from. */
  function CleanedName(activityName: string): string
  {
    Strip(RemoveShopSuffixes(StripPrefixes(activityName, ActionPrefixes)))
  }

  /** The prefix loop: `for pattern in prefixes: clean_name = re.sub(pattern, '', clean_name)`. */
  method StripEachPrefix(name: string, prefixes: seq<string>) returns (clean: string)
    ensures clean == StripPrefixes(name, prefixes)
  {
    clean := name;
    for i := 0 to |prefixes|
      invariant clean == StripPrefixes(name, prefixes[..i])
    {
      assert prefixes[..i + 1][..i] == prefixes[..i];
      clean := StripPrefix(clean, prefixes[i]);
    }
    assert prefixes[..|prefixes|] == prefixes;
  }

  /** The name cleaning steps as the source runs them: the prefix loop, the shop-suffix removal, the trim. */
  method CleanName(activityName: string) returns (clean: string)
    ensures clean == CleanedName(activityName)
    ensures |clean| <= |activityName|
  {
    clean := StripEachPrefix(activityName, ActionPrefixes);
    clean := Strip(RemoveShopSuffixes(clean));
  }

  /**
    The patterns run in list order, so a shorter pattern listed first shadows a
    longer one: in the source's list "午餐" (index 5) comes before "午餐推荐"
    (index 10), and once "午餐" is removed the longer pattern no longer matches.
   */
  lemma LunchPrefixShadowsLunchRecommendation()
    ensures ActionPrefixes[5] == "午餐" && ActionPrefixes[10] == "午餐推荐"
    ensures StripPrefixes("午餐推荐：锅包肉", ["午餐", "午餐推荐"]) == "推荐：锅包肉"
  {
    var s := "午餐推荐：锅包肉";
    var ps := ["午餐", "午餐推荐"];
    assert ps[..1][..0] == [] && ps[..1][0] == "午餐";
    assert IsPrefix("午餐", s) && s[2..] == "推荐：锅包肉";
    assert StripPrefixes(s, ps[..1]) == "推荐：锅包肉";
    assert ps[..2] == ps;
    var t := "推荐：锅包肉";
    assert !IsPrefix("午餐推荐", t) by { assert t[..4][0] == t[0]; }
  }

  // ---------------------------------------------------------------------------
  // Categories

  /** The categories a caller may pass; any other value (including "") is replaced by detection. */
  const KnownCategories: seq<string> := ["景点", "餐厅", "美食", "酒店", "公园", "博物馆", "寺庙", "古镇", "夜景", "购物"]

  const FoodWords: seq<string> := ["餐", "饭", "吃", "食", "厅", "馆", "铺", "包", "饺", "面", "菜", "锅", "烤", "炖"]
  const MuseumWords: seq<string> := ["博物"]
  const TempleWords: seq<string> := ["寺", "庙", "宫", "文庙"]
  const ParkWords: seq<string> := ["公园", "花园"]
  const ShoppingWords: seq<string> := ["购物", "商场", "商城", "专卖"]
  const HotelWords: seq<string> := ["酒店", "宾馆", "民宿"]

  /** Python's `any(word in s for word in words)`. */
  predicate MentionsAny(s: string, words: seq<string>)
  {
    exists i :: 0 <= i < |words| && Contains(s, words[i])
  }

  /** The category chosen for an activity: the caller's when it is known, else detected from the raw name. */
  function DetectCategory(activityName: string, category: string): (r: string)
    ensures r in KnownCategories
    ensures category in KnownCategories ==> r == category
  {
    if category != "" && category in KnownCategories then category
    else if MentionsAny(activityName, FoodWords) then "美食"
    else if MentionsAny(activityName, MuseumWords) then "博物馆"
    else if MentionsAny(activityName, TempleWords) then "寺庙"
    else if MentionsAny(activityName, ParkWords) then "公园"
    else if MentionsAny(activityName, ShoppingWords) then "购物"
    else if MentionsAny(activityName, HotelWords) then "酒店"
    else "景点"
  }

  /** The detection rules as a priority table: the first row whose words occur in the name decides. */
  const CategoryRules: seq<(string, seq<string>)> := [
    ("美食", FoodWords), ("博物馆", MuseumWords), ("寺庙", TempleWords),
    ("公园", ParkWords), ("购物", ShoppingWords), ("酒店", HotelWords)]

  function FirstMatchingRule(name: string, rules: seq<(string, seq<string>)>): (r: string)
    ensures r == "景点" || exists i :: 0 <= i < |rules| && r == rules[i].0
    ensures forall i :: (0 <= i < |rules| && MentionsAny(name, rules[i].1)
                         && forall k :: 0 <= k < i ==> !MentionsAny(name, rules[k].1)) ==> r == rules[i].0
    ensures (forall i :: 0 <= i < |rules| ==> !MentionsAny(name, rules[i].1)) ==> r == "景点"
  {
    if rules == [] then "景点"
    else if MentionsAny(name, rules[0].1) then rules[0].0
    else
      var r := FirstMatchingRule(name, rules[1..]);
      assert forall i :: 1 <= i < |rules| ==> rules[i] == rules[1..][i - 1];
      assert r != "景点" ==> exists i :: 1 <= i < |rules| && r == rules[i].0 by {
        if r != "景点" {
          var i :| 0 <= i < |rules[1..]| && r == rules[1..][i].0;
          assert rules[i + 1] == rules[1..][i];
        }
      }
      r
  }

  /** An unknown category is detected by the priority food > museum > temple > park > shopping > hotel > sight. */
  lemma DetectionFollowsPriority(activityName: string, category: string)
    requires category !in KnownCategories
    ensures DetectCategory(activityName, category) == FirstMatchingRule(activityName, CategoryRules)
  {
    var n := activityName;
    var r0 := CategoryRules;
    var r1, r2, r3, r4, r5 := r0[1..], r0[2..], r0[3..], r0[4..], r0[5..];
    assert r0[1..] == r1 && r1[1..] == r2 && r2[1..] == r3 && r3[1..] == r4 && r4[1..] == r5 && r5[1..] == [];
    assert FirstMatchingRule(n, r5) == if MentionsAny(n, HotelWords) then "酒店" else "景点";
    assert FirstMatchingRule(n, r4) == if MentionsAny(n, ShoppingWords) then "购物" else FirstMatchingRule(n, r5);
    assert FirstMatchingRule(n, r3) == if MentionsAny(n, ParkWords) then "公园" else FirstMatchingRule(n, r4);
    assert FirstMatchingRule(n, r2) == if MentionsAny(n, TempleWords) then "寺庙" else FirstMatchingRule(n, r3);
    assert FirstMatchingRule(n, r1) == if MentionsAny(n, MuseumWords) then "博物馆" else FirstMatchingRule(n, r2);
    assert FirstMatchingRule(n, r0) == if MentionsAny(n, FoodWords) then "美食" else FirstMatchingRule(n, r1);
  }

  // ---------------------------------------------------------------------------
  // Queries

  /** Keywords of dishes, in the order they are tried, with the English search words for each. */
  const FoodPatterns: seq<(string, string)> := [
    ("饺子", "dumplings chinese"), ("包子", "baozi steamed bun"), ("馒头", "mantou steamed bun"),
    ("春饼", "spring pancake chinese"), ("烤肉", "korean bbq grilled meat"), ("火锅", "hotpot chinese"),
    ("铁锅炖", "stew chinese casserole"), ("砂锅", "clay pot stew"), ("西餐", "western food steak"),
    ("俄罗斯", "russian food cuisine"), ("红肠", "sausage harbin"), ("锅包肉", "sweet sour pork chinese"),
    ("小笼", "xiaolongbao soup dumplings"), ("面", "noodles chinese"), ("粥", "congee rice porridge"),
    ("烧烤", "bbq grilled"), ("海鲜", "seafood"), ("川菜", "sichuan spicy food"),
    ("粤菜", "cantonese dim sum"), ("东北菜", "northeastern chinese food")]

  /** The first row of `patterns`, from index `from` on, whose keyword occurs in `name`; its English words, or "". */
  function FirstFoodMatch(name: string, patterns: seq<(string, string)>, from: nat): (r: string)
    requires from <= |patterns|
    requires forall k :: 0 <= k < |patterns| ==> patterns[k].1 != ""
    decreases |patterns| - from
    ensures r == "" <==> forall k :: from <= k < |patterns| ==> !Contains(name, patterns[k].0)
    ensures r != "" ==> exists k :: (from <= k < |patterns| && Contains(name, patterns[k].0)
      && r == patterns[k].1 && forall m :: from <= m < k ==> !Contains(name, patterns[m].0))
  {
    if from == |patterns| then ""
    else if Contains(name, patterns[from].0) then patterns[from].1
    else FirstFoodMatch(name, patterns, from + 1)
  }

  /** The English search words of the first dish keyword found in a restaurant name, or "". */
  function ExtractFoodKeywords(name: string, location: string): (r: string)
    ensures r == "" <==> forall k :: 0 <= k < |FoodPatterns| ==> !Contains(name, FoodPatterns[k].0)
    ensures r != "" ==> exists k :: (0 <= k < |FoodPatterns| && Contains(name, FoodPatterns[k].0)
      && r == FoodPatterns[k].1 && forall m :: 0 <= m < k ==> !Contains(name, FoodPatterns[m].0))
  {
    FirstFoodMatch(name, FoodPatterns, 0)
  }

  const CuisineMap: map<string, string> := map[
    "哈尔滨" := "northeastern chinese Harbin", "上海" := "shanghai cuisine", "北京" := "beijing peking food",
    "成都" := "sichuan spicy food", "广州" := "cantonese dim sum", "西安" := "xian food noodles",
    "重庆" := "chongqing hotpot spicy", "杭州" := "hangzhou cuisine", "南京" := "jiangsu cuisine",
    "长沙" := "hunan spicy food"]

  /** The regional cuisine of a city; "chinese food" for a city without an entry. Never empty. */
  function GetRegionalCuisine(location: string): (r: string)
    ensures r != ""
    ensures location in CuisineMap ==> r == CuisineMap[location]
    ensures location !in CuisineMap ==> r == "chinese food"
  {
    if location in CuisineMap then CuisineMap[location] else "chinese food"
  }

  const FamousLandmarks: seq<string> := [
    "故宫", "长城", "天安门", "外滩", "东方明珠", "西湖", "兵马俑", "布达拉宫", "九寨沟", "黄山",
    "张家界", "颐和园", "天坛", "圣索菲亚", "中央大街", "太阳岛", "冰雪大世界"]

  /** The name mentions one of the famous landmarks. */
  predicate IsFamousLandmark(name: string)
  {
    MentionsAny(name, FamousLandmarks)
  }

  /**
    A name with a landmark anywhere in it, such as "参观故宫博物院", is famous,
    so its sight queries end with the bare name.
   */
  lemma MentioningALandmarkIsFamous(before: string, i: nat, after: string, loc: string)
    requires i < |FamousLandmarks|
    ensures var name := before + FamousLandmarks[i] + after;
      && IsFamousLandmark(name)
      && var qs := BuildSearchQueries(name, loc, "景点"); qs[|qs| - 1] == name
  {
    var name := before + FamousLandmarks[i] + after;
    ContainsInside(before, FamousLandmarks[i], after);
    assert Contains(name, FamousLandmarks[i]);
  }

  predicate IsFoodCategory(cat: string) { cat == "美食" || cat == "餐厅" }

  /** Food queries: the dish words when a dish was recognised, the regional cuisine, then a generic query. */
  function FoodQueries(foodKeywords: string, loc: string): (qs: seq<string>)
    ensures 1 <= |qs| <= 3 && forall i :: 0 <= i < |qs| ==> qs[i] != ""
    ensures qs[|qs| - 1] == "Chinese food dish cuisine"
    ensures loc != "" ==> |qs| >= 2 && qs[|qs| - 2] == GetRegionalCuisine(loc) + " cuisine food"
    ensures foodKeywords != "" <==> |qs| == (if loc != "" then 3 else 2)
    ensures foodKeywords != "" ==> qs[0] == foodKeywords + " food dish"
  {
    (if foodKeywords != "" then [foodKeywords + " food dish"] else [])
    + (if loc != "" then
         var regional := GetRegionalCuisine(loc);
         if regional != "" then [regional + " cuisine food"] else []
       else [])
    + ["Chinese food dish cuisine"]
  }

  /** Sight queries: name and city, name alone as a travel attraction, and the bare name of a famous landmark. */
  function SightQueries(name: string, loc: string, famous: bool): (qs: seq<string>)
    ensures 1 <= |qs| <= 3
    ensures (name + " travel attraction") in qs
    ensures famous <==> qs[|qs| - 1] == name
  {
    var qs := (if loc != "" then [name + " " + loc + " landmark"] else [])
      + [name + " travel attraction"]
      + (if famous then [name] else []);
    assert !famous ==> qs[|qs| - 1] == name + " travel attraction";
    assert |name + " travel attraction"| > |name|;
    qs
  }

  /** Queries for the other categories: museum, temple, shopping, park and the default. */
  function OtherQueries(name: string, loc: string, cat: string): (qs: seq<string>)
    ensures 1 <= |qs| <= 3
    ensures forall i :: 0 <= i < |qs| ==> qs[i] != ""
    ensures loc == "" ==> |qs| == (if cat == "寺庙" then 2 else 1)
  {
    if cat == "博物馆" then
      [name + " museum"] + (if loc != "" then [loc + " museum gallery"] else [])
    else if cat == "寺庙" then
      [name + " temple"] + (if loc != "" then [loc + " temple shrine"] else []) + ["Chinese temple architecture"]
    else if cat == "购物" then
      (if loc != "" then [loc + " shopping mall"] else []) + ["shopping mall retail store"]
    else if cat == "公园" then
      [name + " park"] + (if loc != "" then [loc + " park garden nature"] else [])
    else
      (if loc != "" then [name + " " + loc] else []) + [name + " travel"]
  }

  /** `build_search_queries`: the queries for one activity, from specific to generic. */
  function BuildSearchQueries(name: string, loc: string, cat: string): (qs: seq<string>)
    ensures 1 <= |qs| <= 3
    ensures IsFoodCategory(cat) ==> qs == FoodQueries(ExtractFoodKeywords(name, loc), loc)
    ensures cat == "景点" ==> qs == SightQueries(name, loc, IsFamousLandmark(name))
  {
    if IsFoodCategory(cat) then FoodQueries(ExtractFoodKeywords(name, loc), loc)
    else if cat == "景点" then SightQueries(name, loc, IsFamousLandmark(name))
    else OtherQueries(name, loc, cat)
  }

  // ---------------------------------------------------------------------------
  // Collecting images

  /** Python's loop `for img in xs: if img not in acc: acc.append(img)`. */
  function AppendAbsent(acc: seq<string>, xs: seq<string>): (r: seq<string>)
    decreases |xs|
    ensures |r| >= |acc| && r[..|acc|] == acc
    ensures forall x :: x in r <==> x in acc || x in xs
  {
    if xs == [] then acc
    else
      var next := if xs[0] in acc then acc else acc + [xs[0]];
      var r := AppendAbsent(next, xs[1..]);
      assert r[..|next|][..|acc|] == r[..|acc|];
      assert forall x :: x in xs <==> x == xs[0] || x in xs[1..];
      r
  }

  /** Each appended element is new and appears once: the merge never duplicates what it adds. */
  lemma {:induction false} AppendAbsentAddsDistinct(acc: seq<string>, xs: seq<string>)
    ensures var r := AppendAbsent(acc, xs);
      forall i, j :: |acc| <= i < |r| && 0 <= j < |r| && i != j ==> r[i] != r[j]
    decreases |xs|
  {
    if xs != [] {
      var next := if xs[0] in acc then acc else acc + [xs[0]];
      AppendAbsentAddsDistinct(next, xs[1..]);
      var r := AppendAbsent(acc, xs);
      forall i, j | |acc| <= i < |r| && 0 <= j < |r| && i != j ensures r[i] != r[j] {
        assert r == AppendAbsent(next, xs[1..]);
        assert r[..|next|] == next;
        if i < |next| {
          assert i == |acc| && r[i] == next[i] == xs[0] && xs[0] !in acc;
          if j < |acc| {
            assert r[j] == next[j] == acc[j];
          }
        }
      }
    }
  }

  /** The images and the back-end calls of the collection loop. */
  datatype Progress = Progress(images: seq<string>, calls: seq<SearchCall>)

  /** One round of the loop, entered with fewer than three images: Unsplash, then Pexels to top up. */
  function QueryRound(q: string, images: seq<string>, unsplash: SearchOracle, pexels: SearchOracle): (p: Progress)
    requires |images| < 3
  {
    var askU := SearchCall(Unsplash, q, 3 - |images|);
    var afterU := images + unsplash(q, 3 - |images|);
    if |afterU| < 3 then
      var askP := SearchCall(Pexels, q, 3 - |afterU|);
      Progress(AppendAbsent(afterU, pexels(q, 3 - |afterU|)), [askU, askP])
    else
      Progress(afterU, [askU])
  }

  /** The collection loop over `queries`, stopping once three or more images are held. */
  function Collect(queries: seq<string>, images: seq<string>, unsplash: SearchOracle, pexels: SearchOracle): (p: Progress)
    decreases |queries|
  {
    if queries == [] || |images| >= 3 then Progress(images, [])
    else
      var round := QueryRound(queries[0], images, unsplash, pexels);
      var rest := Collect(queries[1..], round.images, unsplash, pexels);
      Progress(rest.images, round.calls + rest.calls)
  }

  /** The value `get_image_for_activity` returns. */
  function ImagesForActivity(activityName: string, location: string, category: string,
                             unsplash: SearchOracle, pexels: SearchOracle): seq<string>
  {
    var queries := BuildSearchQueries(CleanedName(activityName), location, DetectCategory(activityName, category));
    FirstThreeDistinct(Collect(queries, [], unsplash, pexels).images)
  }

  /** `list(dict.fromkeys(images))[:3]`: the first three distinct images, in order of first appearance. */
  function FirstThreeDistinct(xs: seq<string>): (r: seq<string>)
    ensures |r| <= 3 && NoDup(r)
    ensures forall x :: x in r ==> x in xs
    ensures |r| == if |Dedup(xs)| < 3 then |Dedup(xs)| else 3
    ensures r == Dedup(xs)[..|r|]
  {
    var deduped := Dedup(xs);
    var r := if deduped != [] then deduped[..if |deduped| < 3 then |deduped| else 3] else [];
    assert forall x :: x in r ==> x in deduped;
    r
  }

  /** The Pexels merge: appends each result not already held, in order. */
  method AppendEachAbsent(acc: seq<string>, xs: seq<string>) returns (r: seq<string>)
    ensures r == AppendAbsent(acc, xs)
  {
    r := acc;
    for j := 0 to |xs|
      invariant AppendAbsent(r, xs[j..]) == AppendAbsent(acc, xs)
    {
      assert xs[j..][1..] == xs[j + 1..];
      var img := xs[j];
      if img !in r {
        r := r + [img];
      }
    }
  }

  /** One round of the loop body: Unsplash, then Pexels while fewer than three images are held. */
  method RunRound(query: string, held: seq<string>, unsplash: SearchOracle, pexels: SearchOracle)
    returns (images: seq<string>, calls: seq<SearchCall>)
    requires |held| < 3
    ensures Progress(images, calls) == QueryRound(query, held, unsplash, pexels)
  {
    var askU := SearchCall(Unsplash, query, 3 - |held|);
    images := held + unsplash(query, 3 - |held|);
    if |images| < 3 {
      var askP := SearchCall(Pexels, query, 3 - |images|);
      images := AppendEachAbsent(images, pexels(query, 3 - |images|));
      calls := [askU, askP];
    } else {
      calls := [askU];
    }
  }

  /** The collection loop: for each query until three images are held. */
  method CollectImages(queries: seq<string>, unsplash: SearchOracle, pexels: SearchOracle)
    returns (images: seq<string>, calls: seq<SearchCall>)
    ensures Progress(images, calls) == Collect(queries, [], unsplash, pexels)
  {
    ghost var total := Collect(queries, [], unsplash, pexels);
    images, calls := [], [];
    var i := 0;
    while i < |queries|
      invariant 0 <= i <= |queries|
      invariant Collect(queries[i..], images, unsplash, pexels).images == total.images
      invariant calls + Collect(queries[i..], images, unsplash, pexels).calls == total.calls
    {
      if |images| >= 3 {
        break;
      }
      assert queries[i..][1..] == queries[i + 1..];
      var roundImages, roundCalls := RunRound(queries[i], images, unsplash, pexels);
      calls := calls + roundCalls;
      images := roundImages;
      i := i + 1;
    }
    assert Collect(queries[i..], images, unsplash, pexels) == Progress(images, []);
  }

  /**
    `get_image_for_activity`: cleans the name, picks the category, builds the
    queries and runs the collection loop, returning the images and the calls
    it made to the back-ends.
   */
  method GetImageForActivity(activityName: string, location: string, category: string,
                             unsplash: SearchOracle, pexels: SearchOracle)
    returns (images: seq<string>, calls: seq<SearchCall>)
    ensures images == ImagesForActivity(activityName, location, category, unsplash, pexels)
    ensures |images| <= 3 && NoDup(images)
    ensures forall x :: x in images ==> exists c :: c in calls && x in Answer(c, unsplash, pexels)
    ensures forall c :: c in calls ==> 1 <= c.count <= 3
  {
    var cleanName := CleanName(activityName);
    var cat := DetectCategory(activityName, category);
    var queries := BuildSearchQueries(cleanName, location, cat);
    images, calls := CollectImages(queries, unsplash, pexels);
    CollectProvenance(queries, [], unsplash, pexels);
    CollectCallCounts(queries, [], unsplash, pexels);
    images := FirstThreeDistinct(images);
  }

  /** Every image a round holds was held before it or came from one of the round's calls. */
  lemma RoundProvenance(q: string, images: seq<string>, unsplash: SearchOracle, pexels: SearchOracle)
    requires |images| < 3
    ensures var round := QueryRound(q, images, unsplash, pexels);
      forall x :: x in round.images ==> x in images || exists c :: c in round.calls && x in Answer(c, unsplash, pexels)
  {
    var round := QueryRound(q, images, unsplash, pexels);
    var afterU := images + unsplash(q, 3 - |images|);
    assert Answer(round.calls[0], unsplash, pexels) == unsplash(q, 3 - |images|);
    assert round.calls[0] in round.calls;
    if |afterU| < 3 {
      assert Answer(round.calls[1], unsplash, pexels) == pexels(q, 3 - |afterU|);
      assert round.calls[1] in round.calls;
    }
  }

  /** Every collected image was held at the start or came from one of the calls made. */
  lemma {:induction false} CollectProvenance(queries: seq<string>, images: seq<string>,
                                            unsplash: SearchOracle, pexels: SearchOracle)
    ensures var p := Collect(queries, images, unsplash, pexels);
      forall x :: x in p.images ==> x in images || exists c :: c in p.calls && x in Answer(c, unsplash, pexels)
    decreases |queries|
  {
    if queries != [] && |images| < 3 {
      var round := QueryRound(queries[0], images, unsplash, pexels);
      CollectProvenance(queries[1..], round.images, unsplash, pexels);
      RoundProvenance(queries[0], images, unsplash, pexels);
      var rest := Collect(queries[1..], round.images, unsplash, pexels);
      var p := Collect(queries, images, unsplash, pexels);
      assert p.calls == round.calls + rest.calls;
      assert forall c :: c in round.calls || c in rest.calls ==> c in p.calls;
    }
  }

  /** Each back-end is asked for between one and three images: the loop never asks once it holds three. */
  lemma {:induction false} CollectCallCounts(queries: seq<string>, images: seq<string>,
                                            unsplash: SearchOracle, pexels: SearchOracle)
    ensures var p := Collect(queries, images, unsplash, pexels);
      && (forall c :: c in p.calls ==> 1 <= c.count <= 3)
      && |p.calls| <= 2 * |queries|
      && (forall k :: 0 <= k < |p.calls| && p.calls[k].source == Pexels ==>
            k > 0 && p.calls[k - 1].source == Unsplash && p.calls[k - 1].query == p.calls[k].query
            && p.calls[k].count <= p.calls[k - 1].count)
    decreases |queries|
  {
    if queries != [] && |images| < 3 {
      var round := QueryRound(queries[0], images, unsplash, pexels);
      CollectCallCounts(queries[1..], round.images, unsplash, pexels);
      var rest := Collect(queries[1..], round.images, unsplash, pexels);
      var p := Collect(queries, images, unsplash, pexels);
      assert p.calls == round.calls + rest.calls;
      forall k | 0 <= k < |p.calls| && p.calls[k].source == Pexels
        ensures k > 0 && p.calls[k - 1].source == Unsplash && p.calls[k - 1].query == p.calls[k].query
            && p.calls[k].count <= p.calls[k - 1].count
      {
        if k >= |round.calls| {
          var m := k - |round.calls|;
          assert p.calls[k] == rest.calls[m];
          if m == 0 {
            assert false;
          }
          assert p.calls[k - 1] == rest.calls[m - 1];
        }
      }
      forall c | c in rest.calls ensures 1 <= c.count <= 3 { }
    }
  }

  /** With back-ends that never return anything, the loop adds nothing to what it holds. */
  lemma {:induction false} CollectWithEmptyBackends(queries: seq<string>, images: seq<string>,
                                                   unsplash: SearchOracle, pexels: SearchOracle)
    requires forall q, n :: unsplash(q, n) == [] && pexels(q, n) == []
    ensures Collect(queries, images, unsplash, pexels).images == images
    decreases |queries|
  {
    if queries != [] && |images| < 3 {
      var q := queries[0];
      assert images + unsplash(q, 3 - |images|) == images;
      assert AppendAbsent(images, pexels(q, 3 - |images|)) == images;
      CollectWithEmptyBackends(queries[1..], images, unsplash, pexels);
    }
  }

  /** With two back-ends that never return anything, no image is found. */
  lemma NothingFoundWhenBackendsEmpty(activityName: string, location: string, category: string,
                                      unsplash: SearchOracle, pexels: SearchOracle)
    requires forall q, n :: unsplash(q, n) == [] && pexels(q, n) == []
    ensures ImagesForActivity(activityName, location, category, unsplash, pexels) == []
  {
    var queries := BuildSearchQueries(CleanedName(activityName), location, DetectCategory(activityName, category));
    CollectWithEmptyBackends(queries, [], unsplash, pexels);
    assert Dedup<string>([]) == [];
  }

  /** `get_image_for_location`: the first Unsplash result, else the first Pexels result, else "". */
  function GetImageForLocation(location: string, imageType: string,
                               unsplash: SearchOracle, pexels: SearchOracle): (r: string)
    ensures var q := location + " " + imageType + " travel";
      && (unsplash(q, 1) != [] ==> r == unsplash(q, 1)[0])
      && (unsplash(q, 1) == [] && pexels(q, 1) != [] ==> r == pexels(q, 1)[0])
      && (unsplash(q, 1) == [] && pexels(q, 1) == [] ==> r == "")
  {
    var query := location + " " + imageType + " travel";
    var fromUnsplash := unsplash(query, 1);
    if fromUnsplash != [] then fromUnsplash[0]
    else
      var fromPexels := pexels(query, 1);
      if fromPexels != [] then fromPexels[0] else ""
  }

  // ---------------------------------------------------------------------------
  // Placeholder images

  /** Characters `urllib.parse.quote` leaves as they are (its default safe set is "/"). */
  predicate IsQuoteSafe(c: char)
  {
    ('A' <= c <= 'Z') || ('a' <= c <= 'z') || ('0' <= c <= '9') || c == '_' || c == '.' || c == '-' || c == '~' || c == '/'
  }

  /** A UTF-8 continuation byte, `10xxxxxx`. */
  predicate IsContinuation(b: nat) { 0x80 <= b < 0xC0 }

  /**
    The UTF-8 encoding of one character: the length is fixed by the code point's
    range, the lead byte announces it and the rest are continuation bytes.
   */
  function Utf8(c: char): (bs: seq<nat>)
    ensures 1 <= |bs| <= 4 && forall i :: 0 <= i < |bs| ==> bs[i] < 256
    ensures |bs| == if c as int < 0x80 then 1 else if c as int < 0x800 then 2 else if c as int < 0x1_0000 then 3 else 4
    ensures |bs| == 1 ==> bs[0] < 0x80
    ensures |bs| == 2 ==> 0xC0 <= bs[0] < 0xE0
    ensures |bs| == 3 ==> 0xE0 <= bs[0] < 0xF0
    ensures |bs| == 4 ==> 0xF0 <= bs[0] < 0xF8
    ensures forall i :: 1 <= i < |bs| ==> IsContinuation(bs[i])
  {
    var cp := c as int;
    if cp < 0x80 then [cp]
    else if cp < 0x800 then [0xC0 + cp / 64, 0x80 + cp % 64]
    else if cp < 0x1_0000 then [0xE0 + cp / 4096, 0x80 + (cp / 64) % 64, 0x80 + cp % 64]
    else [0xF0 + cp / 262144, 0x80 + (cp / 4096) % 64, 0x80 + (cp / 64) % 64, 0x80 + cp % 64]
  }

  /** Reads back the code point of a well-formed one- to four-byte UTF-8 sequence. */
  function Utf8Value(bs: seq<nat>): int
    requires 1 <= |bs| <= 4
  {
    var b := seq(|bs|, i requires 0 <= i < |bs| => bs[i] as int);
    if |b| == 1 then b[0]
    else if |b| == 2 then (b[0] - 0xC0) * 64 + (b[1] - 0x80)
    else if |b| == 3 then ((b[0] - 0xE0) * 64 + (b[1] - 0x80)) * 64 + (b[2] - 0x80)
    else (((b[0] - 0xF0) * 64 + (b[1] - 0x80)) * 64 + (b[2] - 0x80)) * 64 + (b[3] - 0x80)
  }

  /** Decoding the bytes gives the character back. */
  lemma Utf8RoundTrip(c: char)
    ensures Utf8Value(Utf8(c)) == c as int
  {
    var cp := c as int;
    if cp >= 0x1_0000 {
      assert cp / 262144 * 64 + (cp / 4096) % 64 == cp / 4096;
      assert cp / 4096 * 64 + (cp / 64) % 64 == cp / 64;
    } else if cp >= 0x800 {
      assert cp / 4096 * 64 + (cp / 64) % 64 == cp / 64;
    }
  }

  /** "中" (U+4E2D) is the three bytes E4 B8 AD. */
  lemma Utf8OfZhong()
    ensures Utf8('中') == [0xE4, 0xB8, 0xAD]
  {
  }

  const HexDigits: string := "0123456789ABCDEF"

  predicate IsUrlChar(c: char) { IsQuoteSafe(c) || c == '%' }

  /** The escape of one byte: `%` and its two upper-case hexadecimal digits, high nibble first. */
  function Escape(b: nat): (e: string)
    requires b < 256
    ensures |e| == 3 && forall i :: 0 <= i < 3 ==> IsUrlChar(e[i])
  {
    ['%', HexDigits[b / 16], HexDigits[b % 16]]
  }

  function PercentEncode(bs: seq<nat>): (r: string)
    requires forall i :: 0 <= i < |bs| ==> bs[i] < 256
    ensures |r| == 3 * |bs|
    ensures forall i :: 0 <= i < |r| ==> IsUrlChar(r[i])
  {
    if bs == [] then [] else Escape(bs[0]) + PercentEncode(bs[1..])
  }

  /** Byte `k` becomes characters `3k` to `3k + 2` of the encoding: `%`, its high nibble, its low nibble. */
  lemma {:induction false} PercentEncodeAt(bs: seq<nat>, k: nat)
    requires forall i :: 0 <= i < |bs| ==> bs[i] < 256
    requires k < |bs|
    ensures PercentEncode(bs)[3 * k] == '%'
    ensures PercentEncode(bs)[3 * k + 1] == HexDigits[bs[k] / 16]
    ensures PercentEncode(bs)[3 * k + 2] == HexDigits[bs[k] % 16]
    decreases k
  {
    var tail := bs[1..];
    assert PercentEncode(bs) == Escape(bs[0]) + PercentEncode(tail);
    if k > 0 {
      assert tail[k - 1] == bs[k];
      PercentEncodeAt(tail, k - 1);
      ShiftedByThree(Escape(bs[0]), PercentEncode(tail), k - 1);
    } else {
      EscapeFirst(Escape(bs[0]), PercentEncode(tail));
    }
  }

  lemma EscapeFirst(e: string, rest: string)
    requires |e| == 3
    ensures (e + rest)[0] == e[0] && (e + rest)[1] == e[1] && (e + rest)[2] == e[2]
  {
  }

  lemma ShiftedByThree(e: string, rest: string, j: nat)
    requires |e| == 3 && 3 * j + 2 < |rest|
    ensures (e + rest)[3 * (j + 1)] == rest[3 * j]
    ensures (e + rest)[3 * (j + 1) + 1] == rest[3 * j + 1]
    ensures (e + rest)[3 * (j + 1) + 2] == rest[3 * j + 2]
  {
  }

  /** How `quote` writes one character. */
  function QuoteChar(c: char): (e: string)
    ensures forall i :: 0 <= i < |e| ==> IsUrlChar(e[i])
    ensures IsQuoteSafe(c) ==> e == [c]
  {
    if IsQuoteSafe(c) then [c] else PercentEncode(Utf8(c))
  }

  /** `urllib.parse.quote(s)`: safe characters kept, every other one percent-encoded as UTF-8. */
  function Quote(s: string): (r: string)
    ensures forall i :: 0 <= i < |r| ==> IsUrlChar(r[i])
    ensures (forall i :: 0 <= i < |s| ==> IsQuoteSafe(s[i])) ==> r == s
  {
    if s == [] then [] else QuoteChar(s[0]) + Quote(s[1..])
  }

  lemma QuoteCons(s: string)
    requires s != []
    ensures Quote(s) == QuoteChar(s[0]) + Quote(s[1..])
  {
  }

  lemma HeadTail(a: string, b: string)
    requires a != []
    ensures (a + b)[0] == a[0] && (a + b)[1..] == a[1..] + b
  {
  }

  /** Quoting works character by character: the quote of a concatenation is the concatenation of the quotes. */
  lemma {:induction false} QuoteAppend(a: string, b: string)
    ensures Quote(a + b) == Quote(a) + Quote(b)
    decreases |a|
  {
    if a == [] {
      assert a + b == b && Quote(a) == [];
    } else {
      HeadTail(a, b);
      calc {
        Quote(a + b);
      == { QuoteCons(a + b); }
        QuoteChar(a[0]) + Quote(a[1..] + b);
      == { QuoteAppend(a[1..], b); }
        QuoteChar(a[0]) + (Quote(a[1..]) + Quote(b));
      == { AppendAssociative(QuoteChar(a[0]), Quote(a[1..]), Quote(b)); }
        (QuoteChar(a[0]) + Quote(a[1..])) + Quote(b);
      == { QuoteCons(a); }
        Quote(a) + Quote(b);
      }
    }
  }

  /** An unsafe character becomes the escapes of its UTF-8 bytes: "中" is quoted as "%E4%B8%AD". */
  lemma QuoteOfZhong()
    ensures Quote("中") == "%E4%B8%AD"
  {
    Utf8OfZhong();
    var bs: seq<nat> := [0xE4, 0xB8, 0xAD];
    assert PercentEncode(bs) == Escape(0xE4) + (Escape(0xB8) + (Escape(0xAD) + []));
    calc {
      Quote("中");
    == { QuoteCons("中"); }
      QuoteChar('中') + Quote([]);
    ==
      PercentEncode(bs);
    }
  }

  const PlaceholderColors: seq<string> := ["3b82f6", "8b5cf6", "ec4899", "f59e0b", "10b981"]

  function PlaceholderUrl(color: string, encodedText: string): string
  {
    "https://placehold.co/800x600/" + color + "/ffffff?text=" + encodedText
  }

  /** The text shown on a placeholder: its first 20 characters, URL-quoted. */
  function PlaceholderText(text: string): string
  {
    Quote(text[..if |text| < 20 then |text| else 20])
  }

  /** `get_placeholder_images`: `count` URLs (none for a negative count), URL `i` in colour `i % 5`. */
  method GetPlaceholderImages(text: string, count: int) returns (images: seq<string>)
    ensures |images| == if count < 0 then 0 else count
    ensures forall i :: 0 <= i < |images| ==>
      images[i] == PlaceholderUrl(PlaceholderColors[i % |PlaceholderColors|], PlaceholderText(text))
  {
    var encodedText := PlaceholderText(text);
    images := [];
    var i := 0;
    while i < count
      invariant i == |images|
      invariant count >= 0 ==> i <= count
      invariant count < 0 ==> i == 0
      invariant forall k :: 0 <= k < i ==>
        images[k] == PlaceholderUrl(PlaceholderColors[k % |PlaceholderColors|], encodedText)
    {
      var color := PlaceholderColors[i % |PlaceholderColors|];
      images := images + [PlaceholderUrl(color, encodedText)];
      i := i + 1;
    }
  }

  /** Five consecutive placeholders all differ: each carries a different colour. */
  lemma PlaceholderColorsDistinct(encodedText: string, i: nat, j: nat)
    requires i < j < |PlaceholderColors|
    ensures PlaceholderUrl(PlaceholderColors[i], encodedText) != PlaceholderUrl(PlaceholderColors[j], encodedText)
  {
    var u := PlaceholderUrl(PlaceholderColors[i], encodedText);
    var v := PlaceholderUrl(PlaceholderColors[j], encodedText);
    assert u[29..35] == PlaceholderColors[i];
    assert v[29..35] == PlaceholderColors[j];
  }
}
