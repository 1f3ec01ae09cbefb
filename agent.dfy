/**
  The data handling of backend/app/agent.py around the language model: the
  JSON candidate cut out of the model's answer, the required-key check, the
  image assignment with its global de-duplication, the image id of a URL and
  the budget estimate.
 */
module Agent {
  import opened Wrappers
  import opened Text
  import opened Seqs
  import opened Models
  import ImageSearch

  // ---------------------------------------------------------------------------
  // Cutting the JSON out of the model's answer

  const JsonFence: string := "```json"
  const Fence: string := "```"

  /** Python's `s.split(sep)[1]`: what lies between the first and the second `sep` (or the end). */
  function SecondPart(s: string, sep: string): (r: string)
    requires sep != [] && Contains(s, sep)
    ensures |r| < |s|
    ensures IsPrefix(r, After(s, sep)) && !Contains(r, sep)
    ensures |r| < |After(s, sep)| ==> OccursAt(After(s, sep), sep, |r|)
    ensures Contains(After(s, sep), sep) <==> |r| < |After(s, sep)|
  {
    Before(After(s, sep), sep)
  }

  /** The code-fence step: the body of the first ```json fence, else of the first ``` fence, else the text. */
  function Unfence(text: string): (r: string)
  {
    if Contains(text, JsonFence) then Strip(Before(SecondPart(text, JsonFence), Fence))
    else if Contains(text, Fence) then Strip(Before(SecondPart(text, Fence), Fence))
    else text
  }

  /** `text[text.find('{'):text.rfind('}') + 1]` when both braces occur, else `text`. */
  function BraceSlice(text: string): (r: string)
    ensures
      var i := IndexOf(text, "{");
      var j := LastIndexOfChar(text, '}');
      && (i == -1 || j == -1 ==> r == text)
      && (0 <= i <= j ==> r == text[i..j + 1] && r[0] == '{' && r[|r| - 1] == '}')
      && (0 <= j < i ==> r == "")
  {
    var i := IndexOf(text, "{");
    var j := LastIndexOfChar(text, '}');
    if i != -1 && j != -1 then
      assert OccursAt(text, "{", i);
      assert text[i..i + 1][0] == text[i];
      if i <= j then text[i..j + 1] else ""
    else text
  }

  /** The text handed to the JSON parser. */
  function JsonCandidate(output: string): string
  {
    BraceSlice(Unfence(Strip(output)))
  }

  /**
    The usual answer shape: when the body after the first ```json holds no
    second ```json, the candidate is that body up to the next ``` fence,
    trimmed.
   */
  lemma JsonFenceBody(text: string)
    requires Contains(text, JsonFence) && !Contains(After(text, JsonFence), JsonFence)
    ensures Unfence(text) == Strip(Before(After(text, JsonFence), Fence))
  {
    var body := After(text, JsonFence);
    assert Before(body, JsonFence) == body by {
      var r := Before(body, JsonFence);
      assert |r| == |body|;
      assert IsPrefix(r, body);
    }
  }

  // ---------------------------------------------------------------------------
  // Decoding

  /** Why `_parse_agent_output` fails: `json.loads` raised, or building the itinerary did. */
  datatype ParseError = InvalidJson | MissingRequiredFields | InvalidItinerary

  /** The message of the exception `_parse_agent_output` raises for each failure. */
  function ErrorMessage(e: ParseError): string
  {
    match e
    case InvalidJson => "Failed to parse LLM output as JSON"
    case MissingRequiredFields => "Failed to create TravelItinerary: Missing required fields"
    case InvalidItinerary => "Failed to create TravelItinerary"
  }

  /** `json.loads` on a candidate: the decoded top-level object, or `None` when it is not JSON. */
  type JsonParser<J> = string -> Option<map<string, J>>

  /** `TravelItinerary(**data)`: the built itinerary, or `None` when validation fails. */
  type ItineraryBuilder<!J> = map<string, J> -> Option<TravelItinerary>

  /** The decoding steps before the images: parse, check the two required keys, build. */
  function DecodeAgentOutput<J>(output: string, parse: JsonParser<J>, build: ItineraryBuilder<J>)
    : (r: Result<TravelItinerary, ParseError>)
    ensures parse(JsonCandidate(output)).None? <==> r == Err(InvalidJson)
    ensures r == Err(MissingRequiredFields) <==>
      (parse(JsonCandidate(output)).Some? &&
       ("overview" !in parse(JsonCandidate(output)).value || "dailyPlans" !in parse(JsonCandidate(output)).value))
    ensures r.Ok? <==>
      (parse(JsonCandidate(output)).Some?
       && "overview" in parse(JsonCandidate(output)).value && "dailyPlans" in parse(JsonCandidate(output)).value
       && build(parse(JsonCandidate(output)).value).Some?)
    ensures r.Ok? ==> Some(r.value) == build(parse(JsonCandidate(output)).value)
  {
    match parse(JsonCandidate(output))
    case None => Err(InvalidJson)
    case Some(data) =>
      if "overview" !in data || "dailyPlans" !in data then Err(MissingRequiredFields)
      else
        match build(data)
        case None => Err(InvalidItinerary)
        case Some(itinerary) => Ok(itinerary)
  }

  // ---------------------------------------------------------------------------
  // Image ids

  const PexelsMarker: string := "/photos/"
  const UnsplashMarker: string := "/photo-"

  /** A character of the class `[a-zA-Z0-9-]`. */
  predicate IsUnsplashIdChar(c: char)
  {
    ('a' <= c <= 'z') || ('A' <= c <= 'Z') || ('0' <= c <= '9') || c == '-'
  }

  /** The length of the longest run of characters satisfying `p` from index `k`. */
  function RunLength(s: string, k: nat, p: char -> bool): (n: nat)
    requires k <= |s|
    decreases |s| - k
    ensures k + n <= |s|
    ensures forall i :: k <= i < k + n ==> p(s[i])
    ensures k + n == |s| || !p(s[k + n])
  {
    if k == |s| || !p(s[k]) then 0 else 1 + RunLength(s, k + 1, p)
  }

  /** `/photos/(\d+)/` matches at `i` (the greedy digit run can only end where the `/` is). */
  predicate PexelsMatchAt(url: string, i: nat)
  {
    && OccursAt(url, PexelsMarker, i)
    && var n := RunLength(url, i + 8, IsDigit);
      n >= 1 && i + 8 + n < |url| && url[i + 8 + n] == '/'
  }

  /** The digits captured by a Pexels match at `i`. */
  function PexelsDigits(url: string, i: nat): (d: string)
    requires PexelsMatchAt(url, i)
    ensures |d| >= 1 && forall k :: 0 <= k < |d| ==> IsDigit(d[k])
  {
    url[i + 8..i + 8 + RunLength(url, i + 8, IsDigit)]
  }

  /** `/photo-([a-zA-Z0-9-]+)` matches at `i`. */
  predicate UnsplashMatchAt(url: string, i: nat)
  {
    OccursAt(url, UnsplashMarker, i) && RunLength(url, i + 7, IsUnsplashIdChar) >= 1
  }

  /** The characters captured by an Unsplash match at `i` (the greedy run). */
  function UnsplashCapture(url: string, i: nat): (c: string)
    requires UnsplashMatchAt(url, i)
    ensures |c| >= 1 && forall k :: 0 <= k < |c| ==> IsUnsplashIdChar(c[k])
  {
    url[i + 7..i + 7 + RunLength(url, i + 7, IsUnsplashIdChar)]
  }

  /** `re.search` for the Pexels pattern from index `from`: the leftmost match, or -1. */
  function FindPexels(url: string, from: nat): (i: int)
    requires from <= |url|
    decreases |url| - from
    ensures i == -1 || (from <= i < |url| && PexelsMatchAt(url, i))
    ensures forall k :: from <= k < (if i == -1 then |url| else i) ==> !PexelsMatchAt(url, k)
  {
    if from == |url| then -1
    else if PexelsMatchAt(url, from) then from
    else FindPexels(url, from + 1)
  }

  /** `re.search` for the Unsplash pattern from index `from`: the leftmost match, or -1. */
  function FindUnsplash(url: string, from: nat): (i: int)
    requires from <= |url|
    decreases |url| - from
    ensures i == -1 || (from <= i < |url| && UnsplashMatchAt(url, i))
    ensures forall k :: from <= k < (if i == -1 then |url| else i) ==> !UnsplashMatchAt(url, k)
  {
    if from == |url| then -1
    else if UnsplashMatchAt(url, from) then from
    else FindUnsplash(url, from + 1)
  }

  /** `_extract_image_id`: the Pexels photo number, else the Unsplash photo id, else the URL itself. */
  function ExtractImageId(url: string): (id: string)
    ensures
      var p := FindPexels(url, 0);
      var u := FindUnsplash(url, 0);
      && (p >= 0 ==> id == "pexels_" + PexelsDigits(url, p))
      && (p == -1 && u >= 0 ==> id == "unsplash_" + UnsplashCapture(url, u))
      && (p == -1 && u == -1 ==> id == url)
  {
    var p := FindPexels(url, 0);
    if p >= 0 then "pexels_" + PexelsDigits(url, p)
    else
      var u := FindUnsplash(url, 0);
      if u >= 0 then "unsplash_" + UnsplashCapture(url, u) else url
  }

  /** Two URLs that match neither pattern share an id only when they are equal. */
  lemma PlainUrlsKeepTheirIdentity(a: string, b: string)
    requires FindPexels(a, 0) == -1 && FindUnsplash(a, 0) == -1
    requires FindPexels(b, 0) == -1 && FindUnsplash(b, 0) == -1
    ensures ExtractImageId(a) == ExtractImageId(b) <==> a == b
  {
  }

  /** Two sizes of the same Pexels photo share an id, so only the first of them is kept. */
  lemma PexelsSizesShareId(prefix: string, digits: string, suffix1: string, suffix2: string)
    requires |digits| >= 1 && forall k :: 0 <= k < |digits| ==> IsDigit(digits[k])
    requires IndexOf(prefix + PexelsMarker, PexelsMarker) == |prefix|
    ensures ExtractImageId(prefix + PexelsMarker + digits + "/" + suffix1)
         == ExtractImageId(prefix + PexelsMarker + digits + "/" + suffix2)
  {
    PexelsIdOf(prefix, digits, suffix1);
    PexelsIdOf(prefix, digits, suffix2);
  }

  /** A URL whose first "/photos/" is followed by digits and a "/" has the id "pexels_" and those digits. */
  lemma PexelsIdOf(prefix: string, digits: string, suffix: string)
    requires |digits| >= 1 && forall k :: 0 <= k < |digits| ==> IsDigit(digits[k])
    requires IndexOf(prefix + PexelsMarker, PexelsMarker) == |prefix|
    ensures ExtractImageId(prefix + PexelsMarker + digits + "/" + suffix) == "pexels_" + digits
  {
    var url := prefix + PexelsMarker + digits + "/" + suffix;
    var i := |prefix|;
    var head := prefix + PexelsMarker;
    assert url[..|head|] == head;
    assert url[i..i + 8] == PexelsMarker;
    assert url[i + 8..i + 8 + |digits|] == digits;
    RunOver(url, i + 8, digits);
    assert PexelsMatchAt(url, i);
    forall k | 0 <= k < i ensures !PexelsMatchAt(url, k) {
      if OccursAt(url, PexelsMarker, k) {
        assert head[k..k + 8] == url[k..k + 8];
        assert OccursAt(head, PexelsMarker, k);
      }
    }
    FindPexelsFirst(url, 0, i);
  }

  /** The digit run at `k` is exactly `digits` when a `/` follows them. */
  lemma {:induction false} RunOver(url: string, k: nat, digits: string)
    requires k + |digits| < |url| && url[k..k + |digits|] == digits && url[k + |digits|] == '/'
    requires forall m :: 0 <= m < |digits| ==> IsDigit(digits[m])
    ensures RunLength(url, k, IsDigit) == |digits|
    decreases |digits|
  {
    if digits != [] {
      assert url[k] == digits[0];
      assert url[k + 1..k + 1 + |digits[1..]|] == digits[1..];
      RunOver(url, k + 1, digits[1..]);
    } else {
      assert url[k] == '/';
    }
  }

  lemma {:induction false} FindPexelsFirst(url: string, from: nat, i: nat)
    requires from <= i < |url| && PexelsMatchAt(url, i)
    requires forall k :: from <= k < i ==> !PexelsMatchAt(url, k)
    ensures FindPexels(url, from) == i
    decreases i - from
  {
    if from < i {
      FindPexelsFirst(url, from + 1, i);
    }
  }

  // ---------------------------------------------------------------------------
  // Budget estimate

  /** A non-empty run of decimal digits. */
  predicate IsDigitRun(r: string)
  {
    |r| >= 1 && forall k :: 0 <= k < |r| ==> IsDigit(r[k])
  }

  /** The number a digit run denotes, as `float` reads it. */
  function RunValue(r: string): nat
    requires IsDigitRun(r)
  {
    DecimalValue(r)
  }

  /** `re.findall(r'\d+', s)`: the maximal digit runs of `s`, left to right. */
  function DigitRuns(s: string): (runs: seq<string>)
    decreases |s|
    ensures forall i :: 0 <= i < |runs| ==> IsDigitRun(runs[i])
    ensures runs == [] <==> forall k :: 0 <= k < |s| ==> !IsDigit(s[k])
  {
    if s == [] then []
    else if IsDigit(s[0]) then
      var n := RunLength(s, 0, IsDigit);
      [s[..n]] + DigitRuns(s[n..])
    else
      var rest := DigitRuns(s[1..]);
      assert forall k :: 1 <= k < |s| ==> s[k] == s[1..][k - 1];
      rest
  }

  /** A digit run on its own is found whole: `findall` does not split it. */
  lemma DigitRunFoundWhole(d: string)
    requires IsDigitRun(d)
    ensures DigitRuns(d) == [d]
  {
    var n := RunLength(d, 0, IsDigit);
    assert n == |d|;
    assert d[..n] == d && d[n..] == [];
  }

  /**
    A run ends at the first non-digit: the runs of `a + [c] + b` are those of
    `a` followed by those of `b`, so no run is dropped, merged or cut short.
   */
  lemma {:induction false} DigitRunsSplit(a: string, c: char, b: string)
    requires !IsDigit(c)
    ensures DigitRuns(a + [c] + b) == DigitRuns(a) + DigitRuns(b)
    decreases |a|
  {
    if a == [] {
      SplitAtSeparator(c, b);
    } else if !IsDigit(a[0]) {
      DigitRunsSplit(a[1..], c, b);
      SplitAfterNonDigit(a, c, b);
    } else {
      var m := RunLength(a, 0, IsDigit);
      DigitRunsAtDigit(a);
      DigitRunsSplit(a[m..], c, b);
      SplitAfterRun(a, c, b);
    }
  }

  lemma SplitAtSeparator(c: char, b: string)
    requires !IsDigit(c)
    ensures DigitRuns([] + [c] + b) == DigitRuns([]) + DigitRuns(b)
  {
    var s := [] + [c] + b;
    DigitRunsAtNonDigit(s);
    assert s[1..] == b;
  }

  lemma SplitAfterNonDigit(a: string, c: char, b: string)
    requires !IsDigit(c) && a != [] && !IsDigit(a[0])
    requires DigitRuns(a[1..] + [c] + b) == DigitRuns(a[1..]) + DigitRuns(b)
    ensures DigitRuns(a + [c] + b) == DigitRuns(a) + DigitRuns(b)
  {
    var s := a + [c] + b;
    var t := a[1..] + [c] + b;
    SplitTail(a, c, b, 1);
    calc {
      DigitRuns(s);
    == { DigitRunsAtNonDigit(s); }
      DigitRuns(t);
    ==
      DigitRuns(a[1..]) + DigitRuns(b);
    == { DigitRunsAtNonDigit(a); }
      DigitRuns(a) + DigitRuns(b);
    }
  }

  lemma SplitAfterRun(a: string, c: char, b: string)
    requires !IsDigit(c) && a != [] && IsDigit(a[0])
    requires var m := RunLength(a, 0, IsDigit);
      m <= |a| && DigitRuns(a[m..] + [c] + b) == DigitRuns(a[m..]) + DigitRuns(b)
    ensures DigitRuns(a + [c] + b) == DigitRuns(a) + DigitRuns(b)
  {
    var s := a + [c] + b;
    var m := RunLength(a, 0, IsDigit);
    var t := a[m..] + [c] + b;
    RunEndsAtNonDigit(a, c, b);
    SplitTail(a, c, b, m);
    calc {
      DigitRuns(s);
    == { DigitRunsAtDigit(s); }
      [a[..m]] + DigitRuns(t);
    ==
      [a[..m]] + (DigitRuns(a[m..]) + DigitRuns(b));
    == { AppendAssociative([a[..m]], DigitRuns(a[m..]), DigitRuns(b)); }
      ([a[..m]] + DigitRuns(a[m..])) + DigitRuns(b);
    == { DigitRunsAtDigit(a); }
      DigitRuns(a) + DigitRuns(b);
    }
  }

  /** Cutting `a + [c] + b` at a point `n` inside `a`. */
  lemma SplitTail(a: string, c: char, b: string, n: nat)
    requires 0 < n <= |a|
    ensures (a + [c] + b)[0] == a[0]
    ensures (a + [c] + b)[..n] == a[..n]
    ensures (a + [c] + b)[n..] == a[n..] + [c] + b
  {
  }

  lemma DigitRunsAtNonDigit(s: string)
    requires s != [] && !IsDigit(s[0])
    ensures DigitRuns(s) == DigitRuns(s[1..])
  {
  }

  lemma DigitRunsAtDigit(s: string)
    requires s != [] && IsDigit(s[0])
    ensures var n := RunLength(s, 0, IsDigit);
      1 <= n && DigitRuns(s) == [s[..n]] + DigitRuns(s[n..])
  {
  }

  /** A run of `a` ends in `a + [c] + b` where it ends in `a`, since `c` is no digit. */
  lemma RunEndsAtNonDigit(a: string, c: char, b: string)
    requires !IsDigit(c)
    ensures RunLength(a + [c] + b, 0, IsDigit) == RunLength(a, 0, IsDigit)
  {
    var s := a + [c] + b;
    assert forall i :: 0 <= i < |a| ==> s[i] == a[i];
    assert s[|a|] == c;
  }

  /** `map(float, numbers)`. */
  function Amounts(runs: seq<string>): (xs: seq<real>)
    requires forall i :: 0 <= i < |runs| ==> IsDigitRun(runs[i])
    ensures |xs| == |runs| && forall i :: 0 <= i < |xs| ==> xs[i] == RunValue(runs[i]) as real
  {
    if runs == [] then [] else [RunValue(runs[0]) as real] + Amounts(runs[1..])
  }

  function Sum(xs: seq<real>): real
  {
    if xs == [] then 0.0 else xs[0] + Sum(xs[1..])
  }

  /** `sum(map(float, numbers)) / len(numbers)`. */
  function Mean(xs: seq<real>): real
    requires xs != []
  {
    Sum(xs) / |xs| as real
  }

  /** `_estimate_budget`: two defaults and the mean of the amounts the budget names. */
  function EstimateBudget(budget: string, days: int, travelers: int): (r: real)
    ensures budget == "" ==> r == 2000.0 * days as real * travelers as real
    ensures budget != "" && DigitRuns(budget) != [] ==> r == Mean(Amounts(DigitRuns(budget)))
    ensures budget != "" && DigitRuns(budget) == [] ==> r == 2000.0 * days as real
  {
    if budget == "" then 2000.0 * days as real * travelers as real
    else
      var numbers := DigitRuns(budget);
      if numbers != [] then Mean(Amounts(numbers))
      else 2000.0 * days as real
  }

  /** Amounts between `lo` and `hi` sum to between `lo` and `hi` times their number. */
  lemma {:induction false} SumBounded(xs: seq<real>, lo: real, hi: real)
    requires forall i :: 0 <= i < |xs| ==> lo <= xs[i] <= hi
    ensures lo * |xs| as real <= Sum(xs) <= hi * |xs| as real
    decreases |xs|
  {
    if xs != [] {
      SumBounded(xs[1..], lo, hi);
      BoundStep(lo, hi, xs[0], Sum(xs[1..]), |xs[1..]| as real);
    }
  }

  lemma BoundStep(lo: real, hi: real, v: real, s: real, n: real)
    requires lo <= v <= hi && lo * n <= s <= hi * n
    ensures lo * (n + 1.0) <= v + s <= hi * (n + 1.0)
  {
    assert lo * (n + 1.0) == lo * n + lo;
    assert hi * (n + 1.0) == hi * n + hi;
  }

  lemma QuotientBounded(lo: real, hi: real, s: real, n: real)
    requires n > 0.0 && lo * n <= s <= hi * n
    ensures lo <= s / n <= hi
  {
    var m := s / n;
    assert m * n == s;
  }

  /** A mean lies between the smallest and the largest amount. */
  lemma MeanBounded(xs: seq<real>, lo: real, hi: real)
    requires xs != [] && forall i :: 0 <= i < |xs| ==> lo <= xs[i] <= hi
    ensures lo <= Mean(xs) <= hi
  {
    SumBounded(xs, lo, hi);
    QuotientBounded(lo, hi, Sum(xs), |xs| as real);
  }

  /**
    When the budget names amounts, the estimate lies between the smallest and
    the largest of them and does not depend on the days or the travellers.
   */
  lemma EstimateIsMeanOfAmounts(budget: string, days: int, travelers: int, days2: int, travelers2: int,
                                lo: real, hi: real)
    requires budget != "" && DigitRuns(budget) != []
    requires forall i :: 0 <= i < |DigitRuns(budget)| ==> lo <= RunValue(DigitRuns(budget)[i]) as real <= hi
    ensures lo <= EstimateBudget(budget, days, travelers) <= hi
    ensures EstimateBudget(budget, days, travelers) == EstimateBudget(budget, days2, travelers2)
  {
    MeanBounded(Amounts(DigitRuns(budget)), lo, hi);
  }

  /** A budget with no digits ignores the number of travellers. */
  lemma BudgetWithoutAmountsIgnoresTravelers(budget: string, days: int, travelers: int, travelers2: int)
    requires budget != "" && forall k :: 0 <= k < |budget| ==> !IsDigit(budget[k])
    ensures EstimateBudget(budget, days, travelers) == EstimateBudget(budget, days, travelers2) == 2000.0 * days as real
  {
  }

  // ---------------------------------------------------------------------------
  // Activity categories

  predicate IsFoodTitle(title: string)
  {
    Contains(title, "餐") || Contains(title, "吃") || Contains(title, "美食")
  }

  /** The category `_add_images_to_itinerary` passes on for an activity title. */
  function ClassifyActivity(title: string): (c: string)
    ensures c in ["美食", "博物馆", "公园", "购物", "景点"]
    ensures c == "美食" <==> IsFoodTitle(title)
    ensures c == "博物馆" <==> !IsFoodTitle(title) && (Contains(title, "博物") || Contains(title, "寺") || Contains(title, "庙"))
    ensures c == "公园" <==>
      (!IsFoodTitle(title) && !(Contains(title, "博物") || Contains(title, "寺") || Contains(title, "庙"))
       && (Contains(title, "公园") || Contains(title, "花园")))
    ensures c == "购物" <==>
      (!IsFoodTitle(title) && !(Contains(title, "博物") || Contains(title, "寺") || Contains(title, "庙"))
       && !(Contains(title, "公园") || Contains(title, "花园")) && (Contains(title, "购物") || Contains(title, "商场")))
    ensures c == "景点" <==>
      (!IsFoodTitle(title) && !Contains(title, "博物") && !Contains(title, "寺")
       && !Contains(title, "庙") && !Contains(title, "公园") && !Contains(title, "花园")
       && !Contains(title, "购物") && !Contains(title, "商场"))
  {
    if IsFoodTitle(title) then "美食"
    else if Contains(title, "博物") || Contains(title, "寺") || Contains(title, "庙") then "博物馆"
    else if Contains(title, "公园") || Contains(title, "花园") then "公园"
    else if Contains(title, "购物") || Contains(title, "商场") then "购物"
    else "景点"
  }

  /** The agent's keyword table, in the order its `if`/`elif` chain tests it. */
  const ActivityRules: seq<(string, seq<string>)> := [
    ("美食", ["餐", "吃", "美食"]), ("博物馆", ["博物", "寺", "庙"]),
    ("公园", ["公园", "花园"]), ("购物", ["购物", "商场"])]

  /**
    The classification is the first row of the keyword table whose words occur
    in the title, and "景点" when none does.
   */
  lemma ClassificationFollowsPriority(title: string)
    ensures ClassifyActivity(title) == ImageSearch.FirstMatchingRule(title, ActivityRules)
  {
    var t := title;
    var r0 := ActivityRules;
    var r1, r2, r3 := r0[1..], r0[2..], r0[3..];
    assert r0[1..] == r1 && r1[1..] == r2 && r2[1..] == r3 && r3[1..] == [];
    MentionsAnyOf3(t, "餐", "吃", "美食");
    MentionsAnyOf3(t, "博物", "寺", "庙");
    MentionsAnyOf2(t, "公园", "花园");
    MentionsAnyOf2(t, "购物", "商场");
    assert ImageSearch.FirstMatchingRule(t, r3) == if ImageSearch.MentionsAny(t, ["购物", "商场"]) then "购物" else "景点";
    assert ImageSearch.FirstMatchingRule(t, r2) == if ImageSearch.MentionsAny(t, ["公园", "花园"]) then "公园"
                                               else ImageSearch.FirstMatchingRule(t, r3);
    assert ImageSearch.FirstMatchingRule(t, r1) == if ImageSearch.MentionsAny(t, ["博物", "寺", "庙"]) then "博物馆"
                                               else ImageSearch.FirstMatchingRule(t, r2);
  }

  lemma MentionsAnyOf2(t: string, a: string, b: string)
    ensures ImageSearch.MentionsAny(t, [a, b]) <==> Contains(t, a) || Contains(t, b)
  {
    if Contains(t, a) { assert [a, b][0] == a; }
    if Contains(t, b) { assert [a, b][1] == b; }
  }

  lemma MentionsAnyOf3(t: string, a: string, b: string, c: string)
    ensures ImageSearch.MentionsAny(t, [a, b, c]) <==> Contains(t, a) || Contains(t, b) || Contains(t, c)
  {
    if Contains(t, a) { assert [a, b, c][0] == a; }
    if Contains(t, b) { assert [a, b, c][1] == b; }
    if Contains(t, c) { assert [a, b, c][2] == c; }
  }

  /** Every category `ClassifyActivity` produces is a known one, so the search keeps it as given. */
  lemma ClassifiedCategoryIsKept(title: string, activityName: string)
    ensures ImageSearch.DetectCategory(activityName, ClassifyActivity(title)) == ClassifyActivity(title)
  {
    var c := ClassifyActivity(title);
    assert c in ImageSearch.KnownCategories;
  }

  // ---------------------------------------------------------------------------
  // Images for the itinerary

  /** What `get_image_for_activity` did for one activity: returned a list, or raised. */
  datatype FetchOutcome = Fetched(images: seq<string>) | Raised

  /** `get_image_for_activity(activity_name, location, category)` as seen by the agent. */
  type ImageFetcher = (string, string, string) -> FetchOutcome

  /** The fetcher of the running system: the image search over the two back-ends, which does not raise. */
  function SearchFetcher(unsplash: ImageSearch.SearchOracle, pexels: ImageSearch.SearchOracle): ImageFetcher
  {
    (name: string, location: string, category: string) =>
      Fetched(ImageSearch.ImagesForActivity(name, location, category, unsplash, pexels))
  }

  /** What the fetch gave for an activity; nothing when it raised. */
  function Fetch(a: Activity, destination: string, fetch: ImageFetcher): seq<string>
  {
    match fetch(a.title, destination, ClassifyActivity(a.title))
    case Fetched(images) => images
    case Raised => []
  }

  /** The ids of a list of images. */
  function IdsOf(images: seq<string>): set<string>
  {
    KeysOf(images, ExtractImageId)
  }

  /** No two images share an id. */
  predicate DistinctIds(images: seq<string>)
  {
    forall i, j :: 0 <= i < j < |images| ==> ExtractImageId(images[i]) != ExtractImageId(images[j])
  }

  /** The images of the activities, in order. */
  function ActivityImages(acts: seq<Activity>): seq<string>
  {
    if acts == [] then [] else ImagesOf(acts[0]) + ActivityImages(acts[1..])
  }

  /** Every image of the itinerary, day by day and activity by activity. */
  function DayImages(days: seq<DailyPlan>): seq<string>
  {
    if days == [] then [] else ActivityImages(days[0].activities) + DayImages(days[1..])
  }

  /**
    The second step over the activities of one day: each activity gets the
    fetched images whose ids are not yet used, and their ids become used.
    Returns the activities and the used ids after them.
   */
  function AssignActivities(acts: seq<Activity>, destination: string, fetch: ImageFetcher, used: set<string>)
    : (seq<Activity>, set<string>)
  {
    if acts == [] then ([], used)
    else
      var kept := KeptImages(acts[0], destination, fetch, used);
      var rest := AssignActivities(acts[1..], destination, fetch, used + IdsOf(kept));
      ([acts[0].(images := Some(kept))] + rest.0, rest.1)
  }

  /** The fetched images of one activity whose ids are not yet used. */
  function KeptImages(a: Activity, destination: string, fetch: ImageFetcher, used: set<string>): seq<string>
  {
    DedupBy(Fetch(a, destination, fetch), ExtractImageId, used)
  }

  /** The second step over the days, carrying the used ids from one day to the next. */
  function AssignDays(days: seq<DailyPlan>, destination: string, fetch: ImageFetcher, used: set<string>)
    : (seq<DailyPlan>, set<string>)
  {
    if days == [] then ([], used)
    else
      var day := AssignActivities(days[0].activities, destination, fetch, used);
      var rest := AssignDays(days[1..], destination, fetch, day.1);
      ([days[0].(activities := day.0)] + rest.0, rest.1)
  }

  /** The itinerary `_add_images_to_itinerary` returns. */
  function AddImages(itinerary: TravelItinerary, destination: string, fetch: ImageFetcher): TravelItinerary
  {
    itinerary.(dailyPlans := AssignDays(itinerary.dailyPlans, destination, fetch, {}).0)
  }

  /** The first step on one activity: a non-empty image list is replaced by an empty one. */
  function ClearActivity(a: Activity): Activity
  {
    if ImagesOf(a) != [] then a.(images := Some([])) else a
  }

  /** How many activities held images before the first step. */
  function CountWithImages(acts: seq<Activity>): nat
  {
    if acts == [] then 0 else (if ImagesOf(acts[0]) != [] then 1 else 0) + CountWithImages(acts[1..])
  }

  function CountDaysWithImages(days: seq<DailyPlan>): nat
  {
    if days == [] then 0 else CountWithImages(days[0].activities) + CountDaysWithImages(days[1..])
  }

  function ClearActivities(acts: seq<Activity>): seq<Activity>
  {
    if acts == [] then [] else [ClearActivity(acts[0])] + ClearActivities(acts[1..])
  }

  function ClearDays(days: seq<DailyPlan>): seq<DailyPlan>
  {
    if days == [] then [] else [days[0].(activities := ClearActivities(days[0].activities))] + ClearDays(days[1..])
  }

  // Properties of the assignment

  lemma DistinctIdsAppend(a: seq<string>, b: seq<string>)
    requires DistinctIds(a) && DistinctIds(b)
    requires forall x :: x in b ==> ExtractImageId(x) !in IdsOf(a)
    ensures DistinctIds(a + b)
  {
    var ab := a + b;
    forall i, j | 0 <= i < j < |ab| ensures ExtractImageId(ab[i]) != ExtractImageId(ab[j]) {
      if i < |a| && j >= |a| {
        assert ab[j] == b[j - |a|] && b[j - |a|] in b;
        assert ab[i] in a;
      } else if i >= |a| {
        assert ab[i] == b[i - |a|] && ab[j] == b[j - |a|];
      }
    }
  }

  /**
    Over one day: no id appears twice in the filled images, none was used
    before, and the used ids afterwards are the old ones plus the new images' ids.
   */
  lemma {:induction false} AssignActivitiesUnique(acts: seq<Activity>, destination: string, fetch: ImageFetcher,
                                                  used: set<string>)
    ensures var (out, after) := AssignActivities(acts, destination, fetch, used);
      && DistinctIds(ActivityImages(out))
      && (forall x :: x in ActivityImages(out) ==> ExtractImageId(x) !in used)
      && after == used + IdsOf(ActivityImages(out))
    decreases |acts|
  {
    if acts != [] {
      var kept := DedupBy(Fetch(acts[0], destination, fetch), ExtractImageId, used);
      DedupByProperties(Fetch(acts[0], destination, fetch), ExtractImageId, used);
      var used2 := used + IdsOf(kept);
      AssignActivitiesUnique(acts[1..], destination, fetch, used2);
      var (out, after) := AssignActivities(acts, destination, fetch, used);
      var rest := AssignActivities(acts[1..], destination, fetch, used2);
      assert out == [acts[0].(images := Some(kept))] + rest.0;
      assert out[1..] == rest.0;
      assert ActivityImages(out) == kept + ActivityImages(rest.0);
      DistinctIdsAppend(kept, ActivityImages(rest.0));
      KeysOfAppend(kept, ActivityImages(rest.0), ExtractImageId);
    }
  }

  /** Over the whole itinerary: no id appears twice, across activities or within one. */
  lemma {:induction false} AssignDaysUnique(days: seq<DailyPlan>, destination: string, fetch: ImageFetcher,
                                            used: set<string>)
    ensures var (out, after) := AssignDays(days, destination, fetch, used);
      && DistinctIds(DayImages(out))
      && (forall x :: x in DayImages(out) ==> ExtractImageId(x) !in used)
      && after == used + IdsOf(DayImages(out))
    decreases |days|
  {
    if days != [] {
      var day := AssignActivities(days[0].activities, destination, fetch, used);
      AssignActivitiesUnique(days[0].activities, destination, fetch, used);
      AssignDaysUnique(days[1..], destination, fetch, day.1);
      var (out, after) := AssignDays(days, destination, fetch, used);
      var rest := AssignDays(days[1..], destination, fetch, day.1);
      assert out == [days[0].(activities := day.0)] + rest.0;
      assert out[1..] == rest.0;
      assert DayImages(out) == ActivityImages(day.0) + DayImages(rest.0);
      DistinctIdsAppend(ActivityImages(day.0), DayImages(rest.0));
      KeysOfAppend(ActivityImages(day.0), DayImages(rest.0), ExtractImageId);
    }
  }

  /** After `_add_images_to_itinerary` no image id appears twice anywhere in the itinerary. */
  lemma AddImagesGloballyUnique(itinerary: TravelItinerary, destination: string, fetch: ImageFetcher)
    ensures DistinctIds(DayImages(AddImages(itinerary, destination, fetch).dailyPlans))
  {
    AssignDaysUnique(itinerary.dailyPlans, destination, fetch, {});
  }

  /**
    Over one day: the activities keep their number and every field but
    `images`, and each one's images are an order-preserving subsequence of
    what the fetch returned for it, empty when the fetch raised.
   */
  lemma {:induction false} AssignActivitiesShape(acts: seq<Activity>, destination: string, fetch: ImageFetcher,
                                                 used: set<string>)
    ensures var out := AssignActivities(acts, destination, fetch, used).0;
      && |out| == |acts|
      && (forall j :: 0 <= j < |out| ==> out[j] == acts[j].(images := out[j].images))
      && (forall j :: 0 <= j < |out| ==> out[j].images.Some? && IsSubsequence(out[j].images.value, Fetch(acts[j], destination, fetch)))
      && (forall j :: 0 <= j < |out| && fetch(acts[j].title, destination, ClassifyActivity(acts[j].title)).Raised? ==>
            out[j].images == Some([]))
    decreases |acts|
  {
    if acts != [] {
      var kept := DedupBy(Fetch(acts[0], destination, fetch), ExtractImageId, used);
      DedupByProperties(Fetch(acts[0], destination, fetch), ExtractImageId, used);
      AssignActivitiesShape(acts[1..], destination, fetch, used + IdsOf(kept));
      var out := AssignActivities(acts, destination, fetch, used).0;
      var rest := AssignActivities(acts[1..], destination, fetch, used + IdsOf(kept)).0;
      assert out == [acts[0].(images := Some(kept))] + rest;
      forall j | 1 <= j < |out| ensures out[j] == rest[j - 1] && acts[j] == acts[1..][j - 1] { }
    }
  }

  /**
    What happens to one activity: every field but `images` is kept, the images
    are an order-preserving subsequence of what was fetched for it, and none
    are left when the fetch raised.
   */
  predicate ActivityShaped(out: Activity, a: Activity, destination: string, fetch: ImageFetcher)
  {
    && out == a.(images := out.images)
    && out.images.Some? && IsSubsequence(out.images.value, Fetch(a, destination, fetch))
    && (fetch(a.title, destination, ClassifyActivity(a.title)).Raised? ==> out.images == Some([]))
  }

  lemma {:induction false} AssignDaysShape(days: seq<DailyPlan>, destination: string, fetch: ImageFetcher,
                                           used: set<string>)
    ensures var out := AssignDays(days, destination, fetch, used).0;
      && |out| == |days|
      && (forall j :: 0 <= j < |out| ==> out[j] == days[j].(activities := out[j].activities))
      && (forall j :: 0 <= j < |out| ==> |out[j].activities| == |days[j].activities|)
      && (forall d, j :: 0 <= d < |out| && 0 <= j < |out[d].activities| ==>
            ActivityShaped(out[d].activities[j], days[d].activities[j], destination, fetch))
    decreases |days|
  {
    if days != [] {
      var day := AssignActivities(days[0].activities, destination, fetch, used);
      AssignActivitiesShape(days[0].activities, destination, fetch, used);
      AssignDaysShape(days[1..], destination, fetch, day.1);
      var out := AssignDays(days, destination, fetch, used).0;
      var rest := AssignDays(days[1..], destination, fetch, day.1).0;
      assert out == [days[0].(activities := day.0)] + rest;
      forall j | 1 <= j < |out| ensures out[j] == rest[j - 1] && days[j] == days[1..][j - 1] { }
      forall d, j | 0 <= d < |out| && 0 <= j < |out[d].activities|
        ensures ActivityShaped(out[d].activities[j], days[d].activities[j], destination, fetch)
      {
        if d == 0 {
          assert out[0].activities == day.0;
        } else {
          assert out[d] == rest[d - 1] && days[d] == days[1..][d - 1];
        }
      }
    }
  }

  /**
    Over the whole itinerary: only `dailyPlans` changes, days and activities
    keep their number and other fields, and every activity's images are a
    subsequence of its own fetch, empty when that fetch raised.
   */
  lemma AddImagesShape(itinerary: TravelItinerary, destination: string, fetch: ImageFetcher)
    ensures var out := AddImages(itinerary, destination, fetch);
      var days := itinerary.dailyPlans;
      && out == itinerary.(dailyPlans := out.dailyPlans)
      && |out.dailyPlans| == |days|
      && (forall d :: 0 <= d < |days| ==>
            && out.dailyPlans[d] == days[d].(activities := out.dailyPlans[d].activities)
            && |out.dailyPlans[d].activities| == |days[d].activities|)
      && (forall d, j :: 0 <= d < |days| && 0 <= j < |days[d].activities| ==>
            ActivityShaped(out.dailyPlans[d].activities[j], days[d].activities[j], destination, fetch))
  {
    AssignDaysShape(itinerary.dailyPlans, destination, fetch, {});
  }

  /**
    With the image search of the running system as the fetcher, every activity
    of the returned itinerary has at most three images.
   */
  lemma SearchFetcherAtMostThree(itinerary: TravelItinerary, destination: string,
                                 unsplash: ImageSearch.SearchOracle, pexels: ImageSearch.SearchOracle)
    ensures var out := AddImages(itinerary, destination, SearchFetcher(unsplash, pexels));
      forall d, j :: 0 <= d < |out.dailyPlans| && 0 <= j < |out.dailyPlans[d].activities| ==>
        out.dailyPlans[d].activities[j].images.Some? && |out.dailyPlans[d].activities[j].images.value| <= 3
  {
    var fetch := SearchFetcher(unsplash, pexels);
    var out := AddImages(itinerary, destination, fetch);
    AddImagesShape(itinerary, destination, fetch);
    forall d, j | 0 <= d < |out.dailyPlans| && 0 <= j < |out.dailyPlans[d].activities|
      ensures out.dailyPlans[d].activities[j].images.Some? && |out.dailyPlans[d].activities[j].images.value| <= 3
    {
      var a := itinerary.dailyPlans[d].activities[j];
      var o := out.dailyPlans[d].activities[j];
      assert ActivityShaped(o, a, destination, fetch);
      assert |Fetch(a, destination, fetch)| <= 3;
      SubsequenceLength(o.images.value, Fetch(a, destination, fetch));
    }
  }

  /** The images the language model produced play no part: clearing them first changes nothing. */
  lemma {:induction false} ClearedActivitiesAssignAlike(acts: seq<Activity>, destination: string, fetch: ImageFetcher,
                                                        used: set<string>)
    ensures AssignActivities(ClearActivities(acts), destination, fetch, used)
         == AssignActivities(acts, destination, fetch, used)
    decreases |acts|
  {
    if acts != [] {
      var c := ClearActivities(acts);
      assert c[0].title == acts[0].title;
      assert c[1..] == ClearActivities(acts[1..]);
      var kept := DedupBy(Fetch(acts[0], destination, fetch), ExtractImageId, used);
      ClearedActivitiesAssignAlike(acts[1..], destination, fetch, used + IdsOf(kept));
      assert c[0].(images := Some(kept)) == acts[0].(images := Some(kept));
    }
  }

  lemma {:induction false} ClearedDaysAssignAlike(days: seq<DailyPlan>, destination: string, fetch: ImageFetcher,
                                                  used: set<string>)
    ensures AssignDays(ClearDays(days), destination, fetch, used) == AssignDays(days, destination, fetch, used)
    decreases |days|
  {
    if days != [] {
      var c := ClearDays(days);
      ClearedActivitiesAssignAlike(days[0].activities, destination, fetch, used);
      assert c[1..] == ClearDays(days[1..]);
      var day := AssignActivities(days[0].activities, destination, fetch, used);
      ClearedDaysAssignAlike(days[1..], destination, fetch, day.1);
      assert c[0].(activities := day.0) == days[0].(activities := day.0);
    }
  }

  // ---------------------------------------------------------------------------
  // The imperative steps

  /** One activity of the second step, read off the suffix that starts at it. */
  lemma AssignActivitiesAt(acts: seq<Activity>, j: nat, destination: string, fetch: ImageFetcher, used: set<string>)
    requires j < |acts|
    ensures var kept := KeptImages(acts[j], destination, fetch, used);
      var rest := AssignActivities(acts[j + 1..], destination, fetch, used + IdsOf(kept));
      AssignActivities(acts[j..], destination, fetch, used) == ([acts[j].(images := Some(kept))] + rest.0, rest.1)
  {
    assert acts[j..][0] == acts[j] && acts[j..][1..] == acts[j + 1..];
  }

  lemma AssignDaysAt(days: seq<DailyPlan>, d: nat, destination: string, fetch: ImageFetcher, used: set<string>)
    requires d < |days|
    ensures var day := AssignActivities(days[d].activities, destination, fetch, used);
      var rest := AssignDays(days[d + 1..], destination, fetch, day.1);
      AssignDays(days[d..], destination, fetch, used) == ([days[d].(activities := day.0)] + rest.0, rest.1)
  {
    assert days[d..][0] == days[d] && days[d..][1..] == days[d + 1..];
  }

  lemma ClearActivitiesAt(acts: seq<Activity>, j: nat)
    requires j < |acts|
    ensures ClearActivities(acts[j..]) == [ClearActivity(acts[j])] + ClearActivities(acts[j + 1..])
    ensures CountWithImages(acts[j..]) == (if ImagesOf(acts[j]) != [] then 1 else 0) + CountWithImages(acts[j + 1..])
  {
    assert acts[j..][0] == acts[j] && acts[j..][1..] == acts[j + 1..];
  }

  lemma ClearDaysAt(days: seq<DailyPlan>, d: nat)
    requires d < |days|
    ensures ClearDays(days[d..]) == [days[d].(activities := ClearActivities(days[d].activities))] + ClearDays(days[d + 1..])
    ensures CountDaysWithImages(days[d..]) == CountWithImages(days[d].activities) + CountDaysWithImages(days[d + 1..])
  {
    assert days[d..][0] == days[d] && days[d..][1..] == days[d + 1..];
  }

  /**
    The de-duplication loop for one activity: keeps each image whose key is
    unused and marks its key used (called with `ExtractImageId`).
   */
  method KeepUnusedImages<K(==)>(images: seq<string>, key: string -> K, used: set<K>)
    returns (unique: seq<string>, usedAfter: set<K>)
    ensures unique == DedupBy(images, key, used)
    ensures usedAfter == used + KeysOf(unique, key)
  {
    unique, usedAfter := [], used;
    assert images[0..] == images;
    for k := 0 to |images|
      invariant unique + DedupBy(images[k..], key, usedAfter) == DedupBy(images, key, used)
      invariant usedAfter == used + KeysOf(unique, key)
    {
      assert images[k..][1..] == images[k + 1..];
      var img := images[k];
      var imgKey := key(img);
      if imgKey !in usedAfter {
        KeysOfAppend(unique, [img], key);
        unique := unique + [img];
        usedAfter := usedAfter + {imgKey};
      }
    }
  }

  /** The second step on one activity: classify, fetch, keep the images with unused ids. */
  method AssignActivity(activity: Activity, destination: string, fetch: ImageFetcher, used: set<string>)
    returns (out: Activity, usedAfter: set<string>)
    ensures out == activity.(images := Some(KeptImages(activity, destination, fetch, used)))
    ensures usedAfter == used + IdsOf(KeptImages(activity, destination, fetch, used))
  {
    var category := ClassifyActivity(activity.title);
    var images: seq<string>;
    match fetch(activity.title, destination, category) {
      case Fetched(found) =>
        images, usedAfter := KeepUnusedImages(found, ExtractImageId, used);
      case Raised =>
        images, usedAfter := [], used;
        assert IdsOf([]) == {};
    }
    out := activity.(images := Some(images));
  }

  /** The second step over one day's activities. */
  method AssignDay(day: DailyPlan, destination: string, fetch: ImageFetcher, used: set<string>)
    returns (out: DailyPlan, usedAfter: set<string>)
    ensures out == day.(activities := AssignActivities(day.activities, destination, fetch, used).0)
    ensures usedAfter == AssignActivities(day.activities, destination, fetch, used).1
  {
    var acts := day.activities;
    var done: seq<Activity> := [];
    usedAfter := used;
    assert acts[0..] == acts;
    for j := 0 to |acts|
      invariant done + AssignActivities(acts[j..], destination, fetch, usedAfter).0
             == AssignActivities(acts, destination, fetch, used).0
      invariant AssignActivities(acts[j..], destination, fetch, usedAfter).1
             == AssignActivities(acts, destination, fetch, used).1
    {
      AssignActivitiesAt(acts, j, destination, fetch, usedAfter);
      var filledActivity, usedNext := AssignActivity(acts[j], destination, fetch, usedAfter);
      assert done + [filledActivity] + AssignActivities(acts[j + 1..], destination, fetch, usedNext).0
          == done + AssignActivities(acts[j..], destination, fetch, usedAfter).0;
      done, usedAfter := done + [filledActivity], usedNext;
    }
    assert acts[|acts|..] == [];
    out := day.(activities := done);
  }

  /** The first step over one day: empties every non-empty image list and counts them. */
  method ClearDay(day: DailyPlan) returns (out: DailyPlan, cleaned: nat)
    ensures out == day.(activities := ClearActivities(day.activities))
    ensures cleaned == CountWithImages(day.activities)
  {
    var acts := day.activities;
    var done: seq<Activity> := [];
    cleaned := 0;
    assert acts[0..] == acts;
    for j := 0 to |acts|
      invariant done + ClearActivities(acts[j..]) == ClearActivities(acts)
      invariant cleaned + CountWithImages(acts[j..]) == CountWithImages(acts)
    {
      ClearActivitiesAt(acts, j);
      var activity := acts[j];
      if ImagesOf(activity) != [] {
        activity := activity.(images := Some([]));
        cleaned := cleaned + 1;
      }
      assert activity == ClearActivity(acts[j]);
      AppendAssociative(done, [activity], ClearActivities(acts[j + 1..]));
      done := done + [activity];
    }
    assert acts[|acts|..] == [];
    out := day.(activities := done);
  }

  /** The first pass over the days: every activity's model-supplied images are emptied and counted. */
  method ClearItinerary(days: seq<DailyPlan>) returns (cleared: seq<DailyPlan>, cleanedCount: nat)
    ensures cleared == ClearDays(days)
    ensures cleanedCount == CountDaysWithImages(days)
  {
    cleared := [];
    cleanedCount := 0;
    assert days[0..] == days;
    for d := 0 to |days|
      invariant cleared + ClearDays(days[d..]) == ClearDays(days)
      invariant cleanedCount + CountDaysWithImages(days[d..]) == CountDaysWithImages(days)
    {
      ClearDaysAt(days, d);
      var day, n := ClearDay(days[d]);
      AppendAssociative(cleared, [day], ClearDays(days[d + 1..]));
      cleared := cleared + [day];
      cleanedCount := cleanedCount + n;
    }
    assert days[|days|..] == [];
  }

  /** The second pass: images are fetched and assigned day by day, sharing one set of used ids, starting empty. */
  method FillDays(days: seq<DailyPlan>, destination: string, fetch: ImageFetcher) returns (filled: seq<DailyPlan>)
    ensures filled == AssignDays(days, destination, fetch, {}).0
  {
    filled := [];
    var used: set<string> := {};
    assert days[0..] == days;
    for d := 0 to |days|
      invariant filled + AssignDays(days[d..], destination, fetch, used).0
             == AssignDays(days, destination, fetch, {}).0
    {
      AssignDaysAt(days, d, destination, fetch, used);
      var day, usedAfter := AssignDay(days[d], destination, fetch, used);
      AppendAssociative(filled, [day], AssignDays(days[d + 1..], destination, fetch, usedAfter).0);
      filled, used := filled + [day], usedAfter;
    }
    assert days[|days|..] == [];
  }

  /**
    `_add_images_to_itinerary`: clears the model's images, then fetches and
    assigns images activity by activity with one set of used ids across the
    whole itinerary. Also returns the number of activities it cleared.
   */
  method AddImagesToItinerary(itinerary: TravelItinerary, destination: string, fetch: ImageFetcher)
    returns (out: TravelItinerary, cleanedCount: nat)
    ensures out == AddImages(itinerary, destination, fetch)
    ensures cleanedCount == CountDaysWithImages(itinerary.dailyPlans)
    ensures DistinctIds(DayImages(out.dailyPlans))
    ensures |out.dailyPlans| == |itinerary.dailyPlans|
    ensures forall d :: 0 <= d < |out.dailyPlans| ==>
      |out.dailyPlans[d].activities| == |itinerary.dailyPlans[d].activities|
    ensures forall d, j :: 0 <= d < |out.dailyPlans| && 0 <= j < |out.dailyPlans[d].activities| ==>
      ActivityShaped(out.dailyPlans[d].activities[j], itinerary.dailyPlans[d].activities[j], destination, fetch)
  {
    var cleared;
    cleared, cleanedCount := ClearItinerary(itinerary.dailyPlans);
    var filled := FillDays(cleared, destination, fetch);
    ClearedDaysAssignAlike(itinerary.dailyPlans, destination, fetch, {});
    out := itinerary.(dailyPlans := filled);
    AddImagesGloballyUnique(itinerary, destination, fetch);
    AddImagesShape(itinerary, destination, fetch);
  }

  /** The destination the images are searched for; a missing one searches without a city. */
  function LocationOf(request: TravelRequest): string
  {
    if request.destination.Some? then request.destination.value else ""
  }

  /** `_parse_agent_output`: decode the answer, then add the images. */
  method ParseAgentOutput<J>(output: string, request: TravelRequest, parse: JsonParser<J>,
                             build: ItineraryBuilder<J>, fetch: ImageFetcher)
    returns (r: Result<TravelItinerary, ParseError>)
    ensures DecodeAgentOutput(output, parse, build).Err? ==> r == Err(DecodeAgentOutput(output, parse, build).error)
    ensures DecodeAgentOutput(output, parse, build).Ok? ==>
      r == Ok(AddImages(DecodeAgentOutput(output, parse, build).value, LocationOf(request), fetch))
  {
    var decoded := DecodeAgentOutput(output, parse, build);
    match decoded
    case Err(e) =>
      r := Err(e);
    case Ok(itinerary) =>
      var withImages, cleanedCount := AddImagesToItinerary(itinerary, LocationOf(request), fetch);
      r := Ok(withImages);
  }
}
