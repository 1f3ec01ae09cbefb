/**
  The agent's tools module: combining photo results from Unsplash and
  Pexels for a place, and the weather text with its fixed fallback.
 */
module Tools {
  import opened Wrappers
  import opened Seqs
  import opened ImageSearch

  /** The query both photo services are asked with. */
  function PlaceQuery(placeName: string): string
  {
    placeName + " travel landmark"
  }

  /** What Pexels contributes: nothing unless Unsplash came back short, then its answer for the shortfall. */
  function PexelsShare(first: seq<string>, query: string, count: int, pexels: SearchOracle): seq<string>
  {
    if |first| < count then pexels(query, count - |first|) else []
  }

  /**
    `get_place_images`: Unsplash is asked for `count`; when it returns fewer,
    Pexels is asked for exactly the shortfall and its results are appended;
    the list is then cut to `count` (Python slicing).
   */
  method GetPlaceImages(placeName: string, count: int, unsplash: SearchOracle, pexels: SearchOracle)
    returns (images: seq<string>, calls: seq<SearchCall>)
    ensures var q := PlaceQuery(placeName);
      var first := unsplash(q, count);
      && 1 <= |calls| <= 2 && calls[0] == SearchCall(Unsplash, q, count)
      && (|calls| == 2 <==> |first| < count)
      && (|calls| == 2 ==> calls[1] == SearchCall(Pexels, q, count - |first|))
      && images == PyTake(first + PexelsShare(first, q, count, pexels), count)
    ensures count >= 0 ==> |images| <= count
    ensures var q := PlaceQuery(placeName);
      unsplash(q, count) == [] && (count <= 0 || pexels(q, count) == []) ==> images == []
  {
    var query := placeName + " travel landmark";
    images := unsplash(query, count);
    calls := [SearchCall(Unsplash, query, count)];
    if |images| < count {
      var remaining := count - |images|;
      var more := pexels(query, remaining);
      calls := calls + [SearchCall(Pexels, query, remaining)];
      images := images + more;
    }
    if images == [] {
      images := [];
    } else {
      images := PyTake(images, count);
    }
  }

  /** For a non-negative `count`: Unsplash's results come first and Pexels only fills the places Unsplash left. */
  lemma PlaceImagesOrder(first: seq<string>, query: string, count: nat, pexels: SearchOracle)
    ensures var r := PyTake(first + PexelsShare(first, query, count, pexels), count);
      && (|first| >= count ==> r == first[..count])
      && (|first| < count ==> r[..|first|] == first && |r| <= count
                              && r[|first|..] == PyTake(pexels(query, count - |first|), count - |first|))
  {
    var r := PyTake(first + PexelsShare(first, query, count, pexels), count);
    if |first| < count {
      var more := pexels(query, count - |first|);
      assert (first + more)[..|first|] == first;
      assert r[|first|..] == (first + more)[|first|..|r|];
      assert (first + more)[|first|..] == more;
    }
  }

  /** What the weather service answered, once the request was made. */
  datatype WeatherReply =
    | Raised                                                   // the request or the decoding threw
    | Replied(status: int, temp: Option<string>, description: Option<string>)

  /** The sentence used whenever no weather report is available. */
  function WeatherFallback(city: string): string
  {
    city + "天气宜人，建议带好防晒用品和雨具以备不时之需。"
  }

  function WeatherReport(city: string, temp: string, description: string): string
  {
    city + "当前温度" + temp + "°C，" + description + "。建议准备相应的衣物。"
  }

  /**
    `get_weather_info`: with a non-empty key the service is asked; a 200
    reply carrying both a temperature and a description gives the report,
    and everything else (no key, another status, a missing field) gives the fallback.
   */
  method GetWeatherInfo(city: string, apiKey: Option<string>, reply: WeatherReply)
    returns (text: string, requested: bool)
    ensures requested <==> apiKey.Some? && apiKey.value != ""
    ensures requested && reply.Replied? && reply.status == 200 && reply.temp.Some? && reply.description.Some? ==>
      text == WeatherReport(city, reply.temp.value, reply.description.value)
    ensures !(requested && reply.Replied? && reply.status == 200 && reply.temp.Some? && reply.description.Some?) ==>
      text == WeatherFallback(city)
  {
    requested := false;
    if apiKey.Some? && apiKey.value != "" {
      requested := true;
      if reply.Replied? && reply.status == 200 {
        if reply.temp.Some? && reply.description.Some? {
          return WeatherReport(city, reply.temp.value, reply.description.value), true;
        }
      }
    }
    return WeatherFallback(city), requested;
  }

  /** The two texts never coincide, so a caller can tell a report from the fallback. */
  lemma ReportIsNotFallback(city: string, temp: string, description: string)
    ensures WeatherReport(city, temp, description) != WeatherFallback(city)
  {
    var r := WeatherReport(city, temp, description);
    assert r[|city|] == '当';
    assert WeatherFallback(city)[|city|] == '天';
  }
}
