/**
 * The ad-break manifest loader (AdProvider.java): reads a JSON document
 * into ad breaks, with per-field defaults, and orders them by time offset.
 */
module Provider {
  import opened Wrappers
  import opened Json
  import opened Ads
  import opened AdBreaks
  import StableSort

  const DefaultVideoAdDuration: int := 30
  const DefaultAdSystem: string := "GDFP"

  /** The number a string of decimal digits denotes, most significant first. */
  function DigitsValue(s: string): (v: nat)
    requires forall i :: 0 <= i < |s| ==> '0' <= s[i] <= '9'
    ensures s == [] ==> v == 0
  {
    if s == [] then 0 else DigitsValue(s[..|s| - 1]) * 10 + (s[|s| - 1] as int - '0' as int)
  }

  /**
   * Integer.toString of a non-negative int: decimal digits without a
   * leading zero (a lone "0" for zero) that denote n.
   */
  function DecimalString(n: nat): (s: string)
    ensures |s| > 0 && forall i :: 0 <= i < |s| ==> '0' <= s[i] <= '9'
    ensures DigitsValue(s) == n
    ensures |s| == 1 <==> n < 10
    ensures |s| == 1 || s[0] != '0'
  {
    if n < 10 then ["0123456789"[n]]
    else
      var s := DecimalString(n / 10) + ["0123456789"[n % 10]];
      assert s[..|s| - 1] == DecimalString(n / 10);
      s
  }

  /** The id an ad gets when its entry has none: "ad-" and its position in the break. */
  function DefaultAdId(j: nat): string
  {
    "ad-" + DecimalString(j)
  }

  /** An optional string field, unescaped as a Java literal when present. */
  function OptUnescaped(obj: map<string, Json>, key: string, host: Host): (r: Option<string>)
    ensures r.Some? <==> Has(obj, key)
  {
    if Has(obj, key) then Some(host.unescape(GetString(obj, key, host).value)) else None
  }

  /** One entry of a break's "ads" array, at position j, with the break's default duration. */
  function AdFromJson(v: Json, j: nat, breakDuration: int, host: Host): (r: Result<Ad, JsonError>)
    ensures r.Ok? <==> v.JObj? && (Has(v.fields, "adParameters") ==> v.fields["adParameters"].JObj?)
  {
    match AsObject(v)
    case Err(e) => Err(e)
    case Ok(obj) =>
      var adId := OptString(obj, "id", DefaultAdId(j), host);
      var adSystem := OptString(obj, "adSystem", DefaultAdSystem, host);
      var mediaFile := OptUnescaped(obj, "mediaFile", host);
      var description := OptUnescaped(obj, "description", host);
      var adParameters: Result<Option<Json>, JsonError> :=
        if Has(obj, "adParameters") then
          (match AsObject(obj["adParameters"])
           case Err(e) => Err(e)
           case Ok(p) => Ok(Some(JObj(p))))
        else Ok(None);
      var adDuration := OptInt(obj, "duration", breakDuration, host);
      match adParameters
      case Err(e) => Err(e)
      case Ok(params) => Ok(NewAd(Some(adSystem), mediaFile, description, params, adDuration, adId))
  }

  /** The defaults an ad entry falls back on, and the fields it takes as given. */
  lemma AdDefaults(v: Json, j: nat, breakDuration: int, host: Host)
    requires AdFromJson(v, j, breakDuration, host).Ok?
    ensures var ad := AdFromJson(v, j, breakDuration, host).value;
      && (!Has(v.fields, "id") ==> ad.adId == DefaultAdId(j))
      && (Has(v.fields, "id") && v.fields["id"].JStr? ==> ad.adId == v.fields["id"].s)
      && (!Has(v.fields, "adSystem") ==> ad.adSystem == Some(DefaultAdSystem) && ad.IsRegularAd())
      && (Has(v.fields, "adSystem") && v.fields["adSystem"].JStr? ==> ad.adSystem == Some(v.fields["adSystem"].s))
      && (ad.mediaFile.Some? <==> Has(v.fields, "mediaFile"))
      && (Has(v.fields, "mediaFile") && v.fields["mediaFile"].JStr? ==> ad.mediaFile == Some(host.unescape(v.fields["mediaFile"].s)))
      && (ad.description.Some? <==> Has(v.fields, "description"))
      && (Has(v.fields, "description") && v.fields["description"].JStr? ==> ad.description == Some(host.unescape(v.fields["description"].s)))
      && (ad.adParameters == if Has(v.fields, "adParameters") then Some(v.fields["adParameters"]) else None)
      && (!Has(v.fields, "duration") ==> ad.duration == breakDuration)
      && (Has(v.fields, "duration") && v.fields["duration"].JNum? ==> ad.duration == v.fields["duration"].n)
  {
  }

  /** The position of the first failed result, or the length when none failed. */
  function FirstFailure<T>(rs: seq<Result<T, JsonError>>): (k: nat)
    ensures k <= |rs|
    ensures forall i :: 0 <= i < k ==> rs[i].Ok?
    ensures k < |rs| ==> rs[k].Err?
  {
    if rs == [] || rs[0].Err? then 0 else 1 + FirstFailure(rs[1..])
  }

  /** A break's whole "ads" array: every entry must parse, each at its own position. */
  function AdsFromJson(items: seq<Json>, breakDuration: int, host: Host): (r: Result<seq<Ad>, JsonError>)
    ensures r.Ok? <==> forall j :: 0 <= j < |items| ==> AdFromJson(items[j], j, breakDuration, host).Ok?
    ensures r.Ok? ==> |r.value| == |items|
    ensures r.Ok? ==> forall j :: 0 <= j < |items| ==> r.value[j] == AdFromJson(items[j], j, breakDuration, host).value
  {
    var rs := seq(|items|, j requires 0 <= j < |items| => AdFromJson(items[j], j, breakDuration, host));
    assert forall j :: 0 <= j < |items| ==> rs[j] == AdFromJson(items[j], j, breakDuration, host);
    if FirstFailure(rs) == |rs| then Ok(seq(|rs|, j requires 0 <= j < |rs| => rs[j].value))
    else Err(JsonException)
  }

  /** One entry of the "adBreaks" array. */
  function BreakFromJson(v: Json, host: Host): (r: Result<BreakData, JsonError>)
    ensures r.Ok? <==>
      && v.JObj?
      && Has(v.fields, "breakId")
      && GetInt(v.fields, "timeOffsetMs", host).Ok?
      && GetArray(v.fields, "ads").Ok?
      && AdsFromJson(GetArray(v.fields, "ads").value, OptInt(v.fields, "videoAdDuration", DefaultVideoAdDuration, host), host).Ok?
  {
    match AsObject(v)
    case Err(e) => Err(e)
    case Ok(obj) =>
      match GetString(obj, "breakId", host)
      case Err(e) => Err(e)
      case Ok(breakId) =>
        match GetInt(obj, "timeOffsetMs", host)
        case Err(e) => Err(e)
        case Ok(timeOffsetMs) =>
          var duration := OptInt(obj, "videoAdDuration", DefaultVideoAdDuration, host);
          match GetArray(obj, "ads")
          case Err(e) => Err(e)
          case Ok(items) =>
            match AdsFromJson(items, duration, host)
            case Err(e) => Err(e)
            case Ok(ads) => Ok(BreakData(breakId, timeOffsetMs, ads))
  }

  /** A parsed break keeps its id, offset and every ad entry; ads without a duration take the break's. */
  lemma BreakDefaults(v: Json, host: Host)
    requires BreakFromJson(v, host).Ok?
    ensures var b := BreakFromJson(v, host).value;
      && (v.fields["breakId"].JStr? ==> b.breakId == v.fields["breakId"].s)
      && (v.fields["timeOffsetMs"].JNum? ==> b.timeOffsetMs == v.fields["timeOffsetMs"].n)
      && |b.ads| == |v.fields["ads"].items|
      && (forall j :: 0 <= j < |b.ads| ==>
           b.ads[j] == AdFromJson(v.fields["ads"].items[j], j, OptInt(v.fields, "videoAdDuration", DefaultVideoAdDuration, host), host).value)
      && (!Has(v.fields, "videoAdDuration") ==>
           forall j :: 0 <= j < |b.ads| && !Has(v.fields["ads"].items[j].fields, "duration") ==> b.ads[j].duration == DefaultVideoAdDuration)
  {
    var b := BreakFromJson(v, host).value;
    var items := v.fields["ads"].items;
    var duration := OptInt(v.fields, "videoAdDuration", DefaultVideoAdDuration, host);
    forall j | 0 <= j < |b.ads|
      ensures !Has(items[j].fields, "duration") ==> b.ads[j].duration == duration
    {
      AdDefaults(items[j], j, duration, host);
    }
  }

  /** What the loop over "adBreaks" has appended when it stops, and whether it ran to the end. */
  datatype Loaded = Loaded(breaks: seq<BreakData>, complete: bool)

  /** The breaks before the first entry that fails, in manifest order. */
  function ParsedBreaks(items: seq<Json>, host: Host): (r: Loaded)
    ensures |r.breaks| <= |items|
    ensures forall i :: 0 <= i < |r.breaks| ==> BreakFromJson(items[i], host) == Ok(r.breaks[i])
    ensures r.complete <==> |r.breaks| == |items|
    ensures !r.complete ==> BreakFromJson(items[|r.breaks|], host).Err?
  {
    var rs := seq(|items|, i requires 0 <= i < |items| => BreakFromJson(items[i], host));
    var k := FirstFailure(rs);
    Loaded(seq(k, i requires 0 <= i < k => rs[i].value), k == |items|)
  }

  /** The manifest loop's stopping point fixes its result: whatever parsed before it, in order. */
  lemma ParsedBreaksUpTo(items: seq<Json>, host: Host, data: seq<BreakData>)
    requires |data| <= |items|
    requires forall k :: 0 <= k < |data| ==> BreakFromJson(items[k], host) == Ok(data[k])
    requires |data| < |items| ==> BreakFromJson(items[|data|], host).Err?
    ensures ParsedBreaks(items, host) == Loaded(data, |data| == |items|)
  {
    var r := ParsedBreaks(items, host);
    assert |r.breaks| == |data|;
    assert r.breaks == data;
  }

  /**
   * The whole document; `doc` is the raw text as parsed into JSON, None when
   * it is not JSON at all. Anything but an object holding an "adBreaks" array
   * stops the load before the first break.
   */
  function LoadManifest(doc: Option<Json>, host: Host): (r: Loaded)
    ensures doc.None? || !doc.value.JObj? ==> r == Loaded([], false)
  {
    if doc.None? || !doc.value.JObj? then Loaded([], false)
    else
      match GetArray(doc.value.fields, "adBreaks")
      case Err(_) => Loaded([], false)
      case Ok(items) => ParsedBreaks(items, host)
  }

  /** Parses the ads array the way the inner loop of the loader does. */
  method ParseAds(items: seq<Json>, breakDuration: int, host: Host) returns (r: Result<seq<Ad>, JsonError>)
    ensures r == AdsFromJson(items, breakDuration, host)
  {
    var ads: seq<Ad> := [];
    var j := 0;
    while j < |items|
      invariant 0 <= j <= |items| && |ads| == j
      invariant forall k :: 0 <= k < j ==> AdFromJson(items[k], k, breakDuration, host) == Ok(ads[k])
    {
      var parsed := AdFromJson(items[j], j, breakDuration, host);
      if parsed.Err? {
        assert !AdsFromJson(items, breakDuration, host).Ok?;
        assert AdsFromJson(items, breakDuration, host).error == JsonException;
        return Err(JsonException);
      }
      ads := ads + [parsed.value];
      j := j + 1;
    }
    assert AdsFromJson(items, breakDuration, host).value == ads;
    r := Ok(ads);
  }

  /**
   * The body of the loader's loop for one "adBreaks" entry: the break's
   * fields, then its "ads" array entry by entry.
   */
  method ParseBreak(v: Json, host: Host) returns (r: Result<BreakData, JsonError>)
    ensures r == BreakFromJson(v, host)
  {
    var obj := AsObject(v);
    if obj.Err? {
      return Err(obj.error);
    }
    var breakId := GetString(obj.value, "breakId", host);
    if breakId.Err? {
      return Err(breakId.error);
    }
    var timeOffsetMs := GetInt(obj.value, "timeOffsetMs", host);
    if timeOffsetMs.Err? {
      return Err(timeOffsetMs.error);
    }
    var duration := OptInt(obj.value, "videoAdDuration", DefaultVideoAdDuration, host);
    var items := GetArray(obj.value, "ads");
    if items.Err? {
      return Err(items.error);
    }
    var ads := ParseAds(items.value, duration, host);
    if ads.Err? {
      return Err(ads.error);
    }
    return Ok(BreakData(breakId.value, timeOffsetMs.value, ads.value));
  }

  function OffsetOf(b: AdBreak): int
  {
    b.timeOffsetMs
  }

  function BreakDataOf(b: AdBreak): BreakData
  {
    b.Data()
  }

  function DataOf(breaks: seq<AdBreak>): seq<BreakData>
  {
    seq(|breaks|, i requires 0 <= i < |breaks| => breaks[i].Data())
  }

  lemma DataOfConcat(xs: seq<AdBreak>, ys: seq<AdBreak>)
    ensures DataOf(xs + ys) == DataOf(xs) + DataOf(ys)
  {
    assert forall k :: 0 <= k < |ys| ==> (xs + ys)[|xs| + k] == ys[k];
  }

  function DataOffset(d: BreakData): int
  {
    d.timeOffsetMs
  }

  /** Sorting the break objects by offset sorts their values the same way, and loses none of them. */
  lemma SortedData(breaks: seq<AdBreak>)
    ensures DataOf(StableSort.SortBy(breaks, OffsetOf)) == StableSort.SortBy(DataOf(breaks), DataOffset)
    ensures multiset(StableSort.SortBy(breaks, OffsetOf)) == multiset(breaks)
  {
    StableSort.SortByMap(breaks, BreakDataOf, OffsetOf, DataOffset);
    assert DataOf(breaks) == StableSort.Map(BreakDataOf, breaks);
    assert DataOf(StableSort.SortBy(breaks, OffsetOf)) == StableSort.Map(BreakDataOf, StableSort.SortBy(breaks, OffsetOf));
    StableSort.SortByIsStableSort(breaks, OffsetOf);
  }

  class AdProvider {
    var adBreakList: seq<AdBreak>

    /**
     * Loads the manifest. A complete load is a stable sort of the manifest's
     * breaks by offset; a load that stopped keeps what was appended, unsorted.
     */
    constructor (doc: Option<Json>, host: Host)
      ensures var loaded := LoadManifest(doc, host);
        DataOf(adBreakList) == if loaded.complete then StableSort.SortBy(loaded.breaks, DataOffset) else loaded.breaks
      ensures LoadManifest(doc, host).complete ==>
        && StableSort.Sorted(DataOf(adBreakList), DataOffset)
        && multiset(DataOf(adBreakList)) == multiset(LoadManifest(doc, host).breaks)
        && forall k :: StableSort.WithKey(DataOf(adBreakList), DataOffset, k) == StableSort.WithKey(LoadManifest(doc, host).breaks, DataOffset, k)
      ensures forall b :: b in adBreakList ==> fresh(b) && b.Unplayed()
    {
      adBreakList := [];
      new;
      ParseAdBreaks(doc, host);
      var loaded := LoadManifest(doc, host);
      assert DataOf([]) + loaded.breaks == loaded.breaks;
      if loaded.complete {
        StableSort.SortByIsStableSort(loaded.breaks, DataOffset);
      }
    }

    /** A copy of the list: the caller's sequence is its own, the breaks in it are shared. */
    method GetAllAdBreaks() returns (r: seq<AdBreak>)
      ensures r == adBreakList
    {
      r := adBreakList;
    }

    /** Appends the manifest's breaks to the list, then sorts the list when every break parsed. */
    method ParseAdBreaks(doc: Option<Json>, host: Host)
      modifies this
      ensures var loaded := LoadManifest(doc, host);
        DataOf(adBreakList) ==
          if loaded.complete then StableSort.SortBy(DataOf(old(adBreakList)) + loaded.breaks, DataOffset)
          else DataOf(old(adBreakList)) + loaded.breaks
      ensures forall b :: b in adBreakList ==>
        b in old(adBreakList) || (fresh(b) && b.Unplayed())
    {
      if doc.None? || !doc.value.JObj? {
        return;
      }
      var arr := GetArray(doc.value.fields, "adBreaks");
      if arr.Err? {
        return;
      }
      var complete := AppendBreaks(arr.value, host);
      if !complete {
        forall b | b in adBreakList
          ensures b in old(adBreakList) || (fresh(b) && b.Unplayed())
        {
          var k :| 0 <= k < |adBreakList| && adBreakList[k] == b;
          if k < |old(adBreakList)| {
            assert old(adBreakList)[k] == b;
          }
        }
        return;
      }
      ghost var unsorted := adBreakList;
      adBreakList := StableSort.SortBy(adBreakList, OffsetOf);
      SortedData(unsorted);
      forall b | b in adBreakList
        ensures b in old(adBreakList) || (fresh(b) && b.Unplayed())
      {
        assert b in multiset(unsorted);
        var k :| 0 <= k < |unsorted| && unsorted[k] == b;
        if k < |old(adBreakList)| {
          assert old(adBreakList)[k] == b;
        }
      }
    }

    /** One pass of that loop: a new, unplayed break holding `data` goes at the end of the list. */
    method AddBreak(data: BreakData) returns (adBreak: AdBreak)
      modifies this
      ensures fresh(adBreak) && adBreak.Unplayed() && adBreak.Data() == data
      ensures adBreakList == old(adBreakList) + [adBreak]
    {
      adBreak := new AdBreak(data.breakId, data.timeOffsetMs, data.ads);
      adBreakList := adBreakList + [adBreak];
    }

    /** The loop over the "adBreaks" array: appends each break until an entry fails. */
    method AppendBreaks(items: seq<Json>, host: Host) returns (complete: bool)
      modifies this
      ensures complete == ParsedBreaks(items, host).complete
      ensures DataOf(adBreakList) == DataOf(old(adBreakList)) + ParsedBreaks(items, host).breaks
      ensures |adBreakList| >= |old(adBreakList)| && adBreakList[..|old(adBreakList)|] == old(adBreakList)
      ensures forall k :: |old(adBreakList)| <= k < |adBreakList| ==> fresh(adBreakList[k]) && adBreakList[k].Unplayed()
    {
      ghost var loaded := ParsedBreaks(items, host);
      ghost var appended: seq<AdBreak> := [];
      var i := 0;
      while i < |items|
        invariant 0 <= i <= |loaded.breaks| && |appended| == i
        invariant adBreakList == old(adBreakList) + appended
        invariant DataOf(appended) == loaded.breaks[..i]
        invariant forall k :: 0 <= k < i ==> fresh(appended[k]) && appended[k].Unplayed()
      {
        var parsed := ParseBreak(items[i], host);
        if parsed.Err? {
          assert i == |loaded.breaks|;
          break;
        }
        assert i < |loaded.breaks| && loaded.breaks[i] == parsed.value;
        assert loaded.breaks[..i + 1] == loaded.breaks[..i] + [parsed.value];
        var adBreak := AddBreak(parsed.value);
        DataOfConcat(appended, [adBreak]);
        appended := appended + [adBreak];
        i := i + 1;
      }
      complete := i == |items|;
      assert i == |loaded.breaks| && loaded.breaks[..i] == loaded.breaks;
      DataOfConcat(old(adBreakList), appended);
      assert forall k :: |old(adBreakList)| <= k < |adBreakList| ==> adBreakList[k] == appended[k - |old(adBreakList)|];
    }
  }
}
