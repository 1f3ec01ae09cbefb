/**
  The result page: when the saved itinerary is loaded, every activity's images
  are filtered down to the three allowed photo hosts; the budget chart colours
  its slices in a cycle of six and each activity shows at most four images.
 */
module ResultPage {
  import opened Wrappers
  import opened Seqs
  import opened Models

  /**
    The hostname of `new URL(url)`, or `None` when the constructor throws.
    The WHATWG URL parser is not part of this model.
   */
  type UrlParser = string -> Option<string>

  const AllowedImageDomains: seq<string> := ["images.unsplash.com", "source.unsplash.com", "images.pexels.com"]

  /** `isValidImageUrl`: the hostname is one of the allowed domains, compared exactly. */
  predicate IsValidImageUrl(url: string, hostOf: UrlParser)
  {
    match hostOf(url)
    case None => false
    case Some(host) => exists i :: 0 <= i < |AllowedImageDomains| && host == AllowedImageDomains[i]
  }

  /**
    A URL passes exactly when it parses to one of the three hosts; a
    subdomain or any other host fails, and an unparsable URL fails.
   */
  lemma ValidUrlHosts(url: string, hostOf: UrlParser)
    ensures IsValidImageUrl(url, hostOf) <==>
      hostOf(url) in {Some("images.unsplash.com"), Some("source.unsplash.com"), Some("images.pexels.com")}
  {
    if hostOf(url).Some? && hostOf(url).value in AllowedImageDomains {
      var i :| 0 <= i < |AllowedImageDomains| && hostOf(url).value == AllowedImageDomains[i];
    }
  }

  function IsValidFor(hostOf: UrlParser): string -> bool
  {
    (url: string) => IsValidImageUrl(url, hostOf)
  }

  /** `filterValidImages`: a missing or empty list gives `[]`, otherwise the valid URLs in order. */
  function FilterValidImages(images: Option<seq<string>>, hostOf: UrlParser): seq<string>
  {
    if images.None? || images.value == [] then [] else Filter(images.value, IsValidFor(hostOf))
  }

  /**
    The result keeps, in their order, exactly the given URLs that are valid;
    filtering it again changes nothing.
   */
  lemma FilterValidImagesProperties(images: Option<seq<string>>, hostOf: UrlParser)
    ensures var r := FilterValidImages(images, hostOf);
      && (images.None? || images == Some([]) ==> r == [])
      && (images.Some? ==> IsSubsequence(r, images.value))
      && (forall url :: url in r <==> images.Some? && url in images.value && IsValidImageUrl(url, hostOf))
      && FilterValidImages(Some(r), hostOf) == r
  {
    if images.Some? && images.value != [] {
      FilterMembers(images.value, IsValidFor(hostOf));
      FilterIsSubsequence(images.value, IsValidFor(hostOf));
      FilterIdempotent(images.value, IsValidFor(hostOf));
    }
  }

  /** One activity after loading: only its images change. */
  function CleanActivity(a: Activity, hostOf: UrlParser): Activity
  {
    a.(images := Some(FilterValidImages(a.images, hostOf)))
  }

  function CleanActivities(acts: seq<Activity>, hostOf: UrlParser): seq<Activity>
  {
    if acts == [] then [] else [CleanActivity(acts[0], hostOf)] + CleanActivities(acts[1..], hostOf)
  }

  function CleanDays(days: seq<DailyPlan>, hostOf: UrlParser): seq<DailyPlan>
  {
    if days == [] then []
    else [days[0].(activities := CleanActivities(days[0].activities, hostOf))] + CleanDays(days[1..], hostOf)
  }

  /** The effect on the saved data: `dailyPlans` is rebuilt when present and left alone otherwise. */
  function CleanSavedPlans(dailyPlans: Option<seq<DailyPlan>>, hostOf: UrlParser): Option<seq<DailyPlan>>
  {
    if dailyPlans.None? then None else Some(CleanDays(dailyPlans.value, hostOf))
  }

  lemma {:induction false} CleanActivitiesShape(acts: seq<Activity>, hostOf: UrlParser)
    ensures var out := CleanActivities(acts, hostOf);
      && |out| == |acts|
      && forall j :: 0 <= j < |out| ==>
           out[j] == acts[j].(images := Some(FilterValidImages(acts[j].images, hostOf)))
  {
    if acts != [] {
      CleanActivitiesShape(acts[1..], hostOf);
      var out := CleanActivities(acts, hostOf);
      forall j | 1 <= j < |out| ensures out[j] == CleanActivities(acts[1..], hostOf)[j - 1] && acts[j] == acts[1..][j - 1] { }
    }
  }

  lemma {:induction false} CleanDaysShape(days: seq<DailyPlan>, hostOf: UrlParser)
    ensures var out := CleanDays(days, hostOf);
      && |out| == |days|
      && forall j :: 0 <= j < |out| ==> out[j] == days[j].(activities := CleanActivities(days[j].activities, hostOf))
  {
    if days != [] {
      CleanDaysShape(days[1..], hostOf);
      var out := CleanDays(days, hostOf);
      forall j | 1 <= j < |out| ensures out[j] == CleanDays(days[1..], hostOf)[j - 1] && days[j] == days[1..][j - 1] { }
    }
  }

  /** Over one day: the activities keep their number and every field but `images`, which keeps only valid URLs. */
  lemma CleanedActivities(acts: seq<Activity>, hostOf: UrlParser)
    ensures var out := CleanActivities(acts, hostOf);
      && |out| == |acts|
      && forall j :: 0 <= j < |out| ==>
           && out[j] == acts[j].(images := out[j].images)
           && out[j].images.Some?
           && forall url :: url in out[j].images.value <==>
                acts[j].images.Some? && url in acts[j].images.value && IsValidImageUrl(url, hostOf)
  {
    CleanActivitiesShape(acts, hostOf);
    forall j | 0 <= j < |acts|
      ensures forall url :: url in FilterValidImages(acts[j].images, hostOf) <==>
                acts[j].images.Some? && url in acts[j].images.value && IsValidImageUrl(url, hostOf)
    {
      FilterValidImagesProperties(acts[j].images, hostOf);
    }
  }

  /**
    Loading keeps the number of days and of activities and every field but
    `images`; every image left is valid and was there before; data without
    `dailyPlans` is unchanged.
   */
  lemma CleanSavedPlansShape(dailyPlans: Option<seq<DailyPlan>>, hostOf: UrlParser)
    ensures dailyPlans.None? ==> CleanSavedPlans(dailyPlans, hostOf) == None
    ensures dailyPlans.Some? ==>
      var days := dailyPlans.value;
      var out := CleanSavedPlans(dailyPlans, hostOf).value;
      && |out| == |days|
      && forall d :: 0 <= d < |out| ==>
           && out[d] == days[d].(activities := out[d].activities)
           && out[d].activities == CleanActivities(days[d].activities, hostOf)
  {
    if dailyPlans.Some? {
      CleanDaysShape(dailyPlans.value, hostOf);
    }
  }

  const Colors: seq<string> := ["#FF6B6B", "#4ECDC4", "#45B7D1", "#FFA07A", "#98D8C8", "#F7DC6F"]

  /** The fill of the budget chart's slice `index`. */
  function SliceColor(index: nat): string
  {
    Colors[index % |Colors|]
  }

  /** Slice colours repeat every six slices, and neighbouring slices never share one. */
  lemma SliceColorsCycle(index: nat)
    ensures SliceColor(index + 6) == SliceColor(index)
    ensures SliceColor(index) != SliceColor(index + 1)
  {
    var k := index % 6;
    assert (index + 1) % 6 == if k == 5 then 0 else k + 1;
    assert (index + 6) % 6 == k;
  }

  /** The images an activity card shows: the first four, none when the list is missing. */
  function ShownImages(images: Option<seq<string>>): (r: seq<string>)
    ensures |r| <= 4
    ensures images.Some? ==> |r| <= |images.value| && r == images.value[..|r|]
    ensures images.Some? && |images.value| <= 4 ==> r == images.value
    ensures images.Some? && |images.value| > 4 ==> |r| == 4
    ensures images.None? ==> r == []
  {
    if images.Some? && |images.value| > 0 then PyTake(images.value, 4) else []
  }
}
