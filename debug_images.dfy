/**
  The image-source audit script: it walks the itinerary's days, activities
  and images, counts activities and activities with images, and puts every
  image URL into one source bucket.
 */
module DebugImages {
  import opened Wrappers
  import opened Text
  import opened Seqs

  /** An activity as read from the JSON file: `images` may be missing. */
  datatype RawActivity = RawActivity(images: Option<seq<string>>)

  /** A day as read from the JSON file: any of its keys may be missing. */
  datatype RawDay = RawDay(day: Option<int>, title: Option<string>, activities: Option<seq<RawActivity>>)

  datatype Bucket = PicsumBucket | UnsplashBucket | PexelsBucket | PlaceholdBucket | OtherBucket

  /** The source of one URL, tested in the script's order: picsum, Unsplash, Pexels, placeholder, other. */
  function BucketOf(img: string): Bucket
  {
    if Contains(img, "picsum.photos") then PicsumBucket
    else if Contains(img, "images.unsplash.com") || Contains(img, "source.unsplash.com") then UnsplashBucket
    else if Contains(img, "images.pexels.com") then PexelsBucket
    else if Contains(img, "placehold") || Contains(img, "placeholder") then PlaceholdBucket
    else OtherBucket
  }

  /** A URL naming both picsum and another host counts as picsum only: the first test wins. */
  lemma BucketPriority(img: string)
    ensures Contains(img, "picsum.photos") ==> BucketOf(img) == PicsumBucket
    ensures !Contains(img, "picsum.photos") && Contains(img, "images.unsplash.com") ==> BucketOf(img) == UnsplashBucket
    ensures BucketOf(img) == OtherBucket ==>
      !Contains(img, "picsum.photos") && !Contains(img, "images.unsplash.com") && !Contains(img, "source.unsplash.com")
      && !Contains(img, "images.pexels.com") && !Contains(img, "placehold")
  {
  }

  /** The script's counters. */
  datatype Tally = Tally(totalActivities: nat, activitiesWithImages: nat,
                         picsum: nat, unsplash: nat, pexels: nat, placehold: nat, other: nat)

  const Zero := Tally(0, 0, 0, 0, 0, 0, 0)

  function CountOf(t: Tally, b: Bucket): nat
  {
    match b
    case PicsumBucket => t.picsum
    case UnsplashBucket => t.unsplash
    case PexelsBucket => t.pexels
    case PlaceholdBucket => t.placehold
    case OtherBucket => t.other
  }

  /** The number of images counted in all buckets. */
  function BucketTotal(t: Tally): nat
  {
    t.picsum + t.unsplash + t.pexels + t.placehold + t.other
  }

  /** The script's closing warning: some picsum or placeholder image was found. */
  predicate ShowsWarning(t: Tally)
  {
    t.picsum > 0 || t.placehold > 0
  }

  /**
    A way of sorting URLs into buckets. The counting below is written for any
    classifier; the script's own is `BucketOf`, which `Audit` plugs in.
   */
  type Classifier = string -> Bucket

  /** One image: the counter of its bucket goes up by one. */
  function AddImage(t: Tally, img: string, classify: Classifier): Tally
  {
    match classify(img)
    case PicsumBucket => t.(picsum := t.picsum + 1)
    case UnsplashBucket => t.(unsplash := t.unsplash + 1)
    case PexelsBucket => t.(pexels := t.pexels + 1)
    case PlaceholdBucket => t.(placehold := t.placehold + 1)
    case OtherBucket => t.(other := t.other + 1)
  }

  function CountImages(imgs: seq<string>, t: Tally, classify: Classifier): Tally
  {
    if imgs == [] then t else CountImages(imgs[1..], AddImage(t, imgs[0], classify), classify)
  }

  /** `activity.get('images', [])`. */
  function ImagesOf(a: RawActivity): seq<string>
  {
    if a.images.Some? then a.images.value else []
  }

  predicate HasImages(a: RawActivity)
  {
    ImagesOf(a) != []
  }

  /** One activity: always counted; when it has images, counted as such and its images bucketed. */
  function CountActivity(t: Tally, a: RawActivity, classify: Classifier): Tally
  {
    var counted := t.(totalActivities := t.totalActivities + 1);
    if HasImages(a) then CountImages(ImagesOf(a), counted.(activitiesWithImages := counted.activitiesWithImages + 1), classify)
    else counted
  }

  function CountActivities(acts: seq<RawActivity>, t: Tally, classify: Classifier): Tally
  {
    if acts == [] then t else CountActivities(acts[1..], CountActivity(t, acts[0], classify), classify)
  }

  /** `day.get('activities', [])`. */
  function ActivitiesOf(d: RawDay): seq<RawActivity>
  {
    if d.activities.Some? then d.activities.value else []
  }

  /** A day lacking `day` or `title` stops the script with a `KeyError` before its activities count. */
  predicate Readable(d: RawDay)
  {
    d.day.Some? && d.title.Some?
  }

  function CountDays(days: seq<RawDay>, t: Tally, classify: Classifier): Option<Tally>
  {
    if days == [] then Some(t)
    else if !Readable(days[0]) then None
    else CountDays(days[1..], CountActivities(ActivitiesOf(days[0]), t, classify), classify)
  }

  /** `data.get('dailyPlans', [])`. */
  function DaysOf(dailyPlans: Option<seq<RawDay>>): seq<RawDay>
  {
    if dailyPlans.Some? then dailyPlans.value else []
  }

  /** The counters the script prints, or `None` when it stops on a `KeyError`. */
  function Audit(dailyPlans: Option<seq<RawDay>>): Option<Tally>
  {
    CountDays(DaysOf(dailyPlans), Zero, BucketOf)
  }

  lemma CountImagesAt(imgs: seq<string>, k: nat, t: Tally, classify: Classifier)
    requires k < |imgs|
    ensures CountImages(imgs[k..], t, classify) == CountImages(imgs[k + 1..], AddImage(t, imgs[k], classify), classify)
  {
    assert imgs[k..][1..] == imgs[k + 1..];
  }

  lemma CountActivitiesAt(acts: seq<RawActivity>, j: nat, t: Tally, classify: Classifier)
    requires j < |acts|
    ensures CountActivities(acts[j..], t, classify) == CountActivities(acts[j + 1..], CountActivity(t, acts[j], classify), classify)
  {
    assert acts[j..][1..] == acts[j + 1..];
  }

  lemma CountDaysAt(days: seq<RawDay>, i: nat, t: Tally, classify: Classifier)
    requires i < |days|
    ensures CountDays(days[i..], t, classify) ==
      if !Readable(days[i]) then None
      else CountDays(days[i + 1..], CountActivities(ActivitiesOf(days[i]), t, classify), classify)
  {
    assert days[i..][1..] == days[i + 1..];
  }

  /** Buckets one activity's images into the counters, as the script's innermost loop does. */
  method BucketImages(imgs: seq<string>, t: Tally) returns (out: Tally)
    ensures out == CountImages(imgs, t, BucketOf)
  {
    var picsum, unsplash, pexels, placehold, other := t.picsum, t.unsplash, t.pexels, t.placehold, t.other;
    var k := 0;
    assert imgs[0..] == imgs;
    while k < |imgs|
      invariant 0 <= k <= |imgs|
      invariant CountImages(imgs[k..], Tally(t.totalActivities, t.activitiesWithImages,
                                             picsum, unsplash, pexels, placehold, other), BucketOf) == CountImages(imgs, t, BucketOf)
    {
      ghost var before := Tally(t.totalActivities, t.activitiesWithImages, picsum, unsplash, pexels, placehold, other);
      CountImagesAt(imgs, k, before, BucketOf);
      match BucketOf(imgs[k]) {
        case PicsumBucket => picsum := picsum + 1;
        case UnsplashBucket => unsplash := unsplash + 1;
        case PexelsBucket => pexels := pexels + 1;
        case PlaceholdBucket => placehold := placehold + 1;
        case OtherBucket => other := other + 1;
      }
      assert Tally(t.totalActivities, t.activitiesWithImages, picsum, unsplash, pexels, placehold, other) == AddImage(before, imgs[k], BucketOf);
      k := k + 1;
    }
    assert imgs[|imgs|..] == [];
    out := Tally(t.totalActivities, t.activitiesWithImages, picsum, unsplash, pexels, placehold, other);
  }

  /** The loop over one day's activities. */
  method CountDayActivities(acts: seq<RawActivity>, t: Tally) returns (out: Tally)
    ensures out == CountActivities(acts, t, BucketOf)
  {
    out := t;
    var j := 0;
    assert acts[0..] == acts;
    while j < |acts|
      invariant 0 <= j <= |acts|
      invariant CountActivities(acts[j..], out, BucketOf) == CountActivities(acts, t, BucketOf)
    {
      CountActivitiesAt(acts, j, out, BucketOf);
      out := out.(totalActivities := out.totalActivities + 1);
      var images := ImagesOf(acts[j]);
      if images != [] {
        out := out.(activitiesWithImages := out.activitiesWithImages + 1);
        out := BucketImages(images, out);
      }
      j := j + 1;
    }
    assert acts[|acts|..] == [];
  }

  /** The script's main loop over `dailyPlans`: the counters it prints, or `None` on a `KeyError`. */
  method AuditImages(dailyPlans: Option<seq<RawDay>>) returns (result: Option<Tally>)
    ensures result == Audit(dailyPlans)
  {
    var days := DaysOf(dailyPlans);
    var t := Zero;
    var i := 0;
    assert days[0..] == days;
    while i < |days|
      invariant 0 <= i <= |days|
      invariant CountDays(days[i..], t, BucketOf) == Audit(dailyPlans)
    {
      CountDaysAt(days, i, t, BucketOf);
      if days[i].day.None? || days[i].title.None? {
        return None;
      }
      t := CountDayActivities(ActivitiesOf(days[i]), t);
      i := i + 1;
    }
    assert days[|days|..] == [];
    return Some(t);
  }

  // ---- What the counters mean ----

  function InBucket(b: Bucket, classify: Classifier): string -> bool
  {
    (img: string) => classify(img) == b
  }

  /** The number of URLs in `imgs` that fall in bucket `b`. */
  function NumIn(imgs: seq<string>, b: Bucket, classify: Classifier): nat
  {
    |Filter(imgs, InBucket(b, classify))|
  }

  /** All images of a list of activities, in order. */
  function ImagesOfAll(acts: seq<RawActivity>): seq<string>
  {
    if acts == [] then [] else ImagesOf(acts[0]) + ImagesOfAll(acts[1..])
  }

  /** All activities of a list of days, in order. */
  function ActivitiesOfAll(days: seq<RawDay>): seq<RawActivity>
  {
    if days == [] then [] else ActivitiesOf(days[0]) + ActivitiesOfAll(days[1..])
  }

  function HasImagesFn(): RawActivity -> bool
  {
    (a: RawActivity) => HasImages(a)
  }

  /** The effect of a tally's activity counts and buckets, relative to a starting tally. */
  predicate Adds(t: Tally, out: Tally, acts: seq<RawActivity>, imgs: seq<string>, classify: Classifier)
  {
    && out.totalActivities == t.totalActivities + |acts|
    && out.activitiesWithImages == t.activitiesWithImages + |Filter(acts, HasImagesFn())|
    && out.picsum == t.picsum + NumIn(imgs, PicsumBucket, classify)
    && out.unsplash == t.unsplash + NumIn(imgs, UnsplashBucket, classify)
    && out.pexels == t.pexels + NumIn(imgs, PexelsBucket, classify)
    && out.placehold == t.placehold + NumIn(imgs, PlaceholdBucket, classify)
    && out.other == t.other + NumIn(imgs, OtherBucket, classify)
  }

  lemma {:induction false} CountImagesAdds(imgs: seq<string>, t: Tally, classify: Classifier)
    ensures Adds(t, CountImages(imgs, t, classify), [], imgs, classify)
  {
    if imgs != [] {
      CountImagesAdds(imgs[1..], AddImage(t, imgs[0], classify), classify);
    }
  }

  lemma AddsAppend(t: Tally, mid: Tally, out: Tally, a1: seq<RawActivity>, i1: seq<string>,
                   a2: seq<RawActivity>, i2: seq<string>, classify: Classifier)
    requires Adds(t, mid, a1, i1, classify) && Adds(mid, out, a2, i2, classify)
    ensures Adds(t, out, a1 + a2, i1 + i2, classify)
  {
    FilterAppend(a1, a2, HasImagesFn());
    FilterAppend(i1, i2, InBucket(PicsumBucket, classify));
    FilterAppend(i1, i2, InBucket(UnsplashBucket, classify));
    FilterAppend(i1, i2, InBucket(PexelsBucket, classify));
    FilterAppend(i1, i2, InBucket(PlaceholdBucket, classify));
    FilterAppend(i1, i2, InBucket(OtherBucket, classify));
  }

  lemma FilterOne(a: RawActivity)
    ensures Filter([a], HasImagesFn()) == if HasImages(a) then [a] else []
  {
    assert [a][1..] == [];
  }

  lemma CountActivityAdds(t: Tally, a: RawActivity, classify: Classifier)
    ensures Adds(t, CountActivity(t, a, classify), [a], ImagesOf(a), classify)
  {
    FilterOne(a);
    if HasImages(a) {
      var u := t.(totalActivities := t.totalActivities + 1, activitiesWithImages := t.activitiesWithImages + 1);
      CountImagesAdds(ImagesOf(a), u, classify);
      assert CountActivity(t, a, classify) == CountImages(ImagesOf(a), u, classify);
      assert |Filter([a], HasImagesFn())| == 1;
    } else {
      CountImagesAdds([], t, classify);
      assert ImagesOf(a) == [];
      assert |Filter([a], HasImagesFn())| == 0;
    }
  }

  lemma {:induction false} CountActivitiesAdds(acts: seq<RawActivity>, t: Tally, classify: Classifier)
    ensures Adds(t, CountActivities(acts, t, classify), acts, ImagesOfAll(acts), classify)
  {
    if acts != [] {
      var mid := CountActivity(t, acts[0], classify);
      CountActivityAdds(t, acts[0], classify);
      CountActivitiesAdds(acts[1..], mid, classify);
      AddsAppend(t, mid, CountActivities(acts, t, classify), [acts[0]], ImagesOf(acts[0]),
                 acts[1..], ImagesOfAll(acts[1..]), classify);
      assert [acts[0]] + acts[1..] == acts;
    }
  }

  lemma {:induction false} ImagesOfAllAppend(a: seq<RawActivity>, b: seq<RawActivity>)
    ensures ImagesOfAll(a + b) == ImagesOfAll(a) + ImagesOfAll(b)
  {
    if a != [] {
      ImagesOfAllAppend(a[1..], b);
      assert (a + b)[1..] == a[1..] + b;
    } else {
      assert a + b == b;
    }
  }

  lemma {:induction false} CountDaysAdds(days: seq<RawDay>, t: Tally, classify: Classifier)
    requires forall i :: 0 <= i < |days| ==> Readable(days[i])
    ensures CountDays(days, t, classify).Some?
    ensures Adds(t, CountDays(days, t, classify).value, ActivitiesOfAll(days), ImagesOfAll(ActivitiesOfAll(days)), classify)
  {
    if days == [] {
      assert Filter([], HasImagesFn()) == [];
    } else {
      assert Readable(days[0]);
      var acts := ActivitiesOf(days[0]);
      var mid := CountActivities(acts, t, classify);
      CountActivitiesAdds(acts, t, classify);
      assert forall i :: 0 <= i < |days[1..]| ==> Readable(days[1..][i]) by {
        forall i | 0 <= i < |days[1..]| ensures Readable(days[1..][i]) { assert days[1..][i] == days[i + 1]; }
      }
      CountDaysAdds(days[1..], mid, classify);
      ImagesOfAllAppend(acts, ActivitiesOfAll(days[1..]));
      AddsAppend(t, mid, CountDays(days, t, classify).value, acts, ImagesOfAll(acts),
                 ActivitiesOfAll(days[1..]), ImagesOfAll(ActivitiesOfAll(days[1..])), classify);
    }
  }

  lemma {:induction false} CountDaysFails(days: seq<RawDay>, t: Tally, classify: Classifier)
    ensures CountDays(days, t, classify).None? <==> exists i :: 0 <= i < |days| && !Readable(days[i])
  {
    if days != [] {
      CountDaysFails(days[1..], CountActivities(ActivitiesOf(days[0]), t, classify), classify);
      if exists i :: 0 <= i < |days[1..]| && !Readable(days[1..][i]) {
        var i :| 0 <= i < |days[1..]| && !Readable(days[1..][i]);
        assert days[1..][i] == days[i + 1];
      }
      if exists i :: 0 <= i < |days| && !Readable(days[i]) {
        var i :| 0 <= i < |days| && !Readable(days[i]);
        if i > 0 {
          assert days[1..][i - 1] == days[i];
        }
      }
    }
  }

  /** The audit stops exactly when some day lacks `day` or `title`. */
  lemma AuditStops(dailyPlans: Option<seq<RawDay>>)
    ensures Audit(dailyPlans).None? <==> exists i :: 0 <= i < |DaysOf(dailyPlans)| && !Readable(DaysOf(dailyPlans)[i])
  {
    CountDaysFails(DaysOf(dailyPlans), Zero, BucketOf);
  }

  /**
    What the printed numbers mean when the audit completes: every activity
    is counted, the activities with images are counted (never more than all
    activities), and each bucket holds exactly the URLs classified into it,
    so the buckets add up to the number of images seen.
   */
  lemma AuditCounts(dailyPlans: Option<seq<RawDay>>, t: Tally)
    requires Audit(dailyPlans) == Some(t)
    ensures var acts := ActivitiesOfAll(DaysOf(dailyPlans));
      var imgs := ImagesOfAll(acts);
      && t.totalActivities == |acts|
      && t.activitiesWithImages == |Filter(acts, HasImagesFn())| <= t.totalActivities
      && (forall b :: CountOf(t, b) == NumIn(imgs, b, BucketOf))
      && BucketTotal(t) == |imgs|
  {
    var days := DaysOf(dailyPlans);
    AuditStops(dailyPlans);
    CountDaysAdds(days, Zero, BucketOf);
    var acts := ActivitiesOfAll(days);
    var imgs := ImagesOfAll(acts);
    assert Adds(Zero, t, acts, imgs, BucketOf);
    FilterMembers(acts, HasImagesFn());
    BucketsPartition(imgs, BucketOf);
    forall b ensures CountOf(t, b) == NumIn(imgs, b, BucketOf) {
      match b {
        case PicsumBucket =>
        case UnsplashBucket =>
        case PexelsBucket =>
        case PlaceholdBucket =>
        case OtherBucket =>
      }
    }
  }

  /** Every URL falls in exactly one bucket, so the five bucket sizes add up to the list's length. */
  lemma {:induction false} BucketsPartition(imgs: seq<string>, classify: Classifier)
    ensures NumIn(imgs, PicsumBucket, classify) + NumIn(imgs, UnsplashBucket, classify) + NumIn(imgs, PexelsBucket, classify)
            + NumIn(imgs, PlaceholdBucket, classify) + NumIn(imgs, OtherBucket, classify) == |imgs|
  {
    if imgs != [] {
      BucketsPartition(imgs[1..], classify);
    }
  }

  /** The buckets the closing warning is about. */
  predicate Flagged(b: Bucket)
  {
    b == PicsumBucket || b == PlaceholdBucket
  }

  /**
    The warning is printed exactly when some URL seen is a picsum or
    placeholder image: given the bucket counts `AuditCounts` establishes for
    the audited images, `ShowsWarning` holds iff one of them is flagged.
   */
  lemma WarningFromCounts(imgs: seq<string>, t: Tally, classify: Classifier)
    requires t.picsum == NumIn(imgs, PicsumBucket, classify) && t.placehold == NumIn(imgs, PlaceholdBucket, classify)
    ensures ShowsWarning(t) <==> exists img :: img in imgs && Flagged(classify(img))
  {
    FilterMembers(imgs, InBucket(PicsumBucket, classify));
    FilterMembers(imgs, InBucket(PlaceholdBucket, classify));
    if exists img :: img in imgs && Flagged(classify(img)) {
      var img :| img in imgs && Flagged(classify(img));
      if classify(img) == PicsumBucket {
        assert img in Filter(imgs, InBucket(PicsumBucket, classify));
      } else {
        assert img in Filter(imgs, InBucket(PlaceholdBucket, classify));
      }
    }
    if ShowsWarning(t) {
      if t.picsum > 0 {
        var img := Filter(imgs, InBucket(PicsumBucket, classify))[0];
        assert img in Filter(imgs, InBucket(PicsumBucket, classify));
      } else {
        var img := Filter(imgs, InBucket(PlaceholdBucket, classify))[0];
        assert img in Filter(imgs, InBucket(PlaceholdBucket, classify));
      }
    }
  }
}
