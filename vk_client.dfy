/**
 * Track-list extraction from the remote service's `audio.get` response
 * (core/vk_client.py, `get_audio`). The HTTP request is a parameter that maps
 * the request to the decoded response or to a raised error. Every exception
 * the extraction can raise makes the whole call return the empty list.
 */
module VkClient {
  import opened Wrappers
  import opened PyJson

  /** One track record as `get_audio` builds it; `imageUrl` is JNull for Python's None. */
  datatype Track = Track(id: Json, ownerId: Json, artist: Json, title: Json, url: Json, duration: Json, imageUrl: Json)

  /** An API request: the method name and its parameters. */
  datatype ApiCall = ApiCall(name: string, params: seq<(string, Json)>)

  /** What the request gave: the `response` member of the reply, or a raised error. */
  datatype ApiResult = Response(data: Json) | ApiError

  // ---------------------------------------------------------------------------
  // Python's int() on the resolution suffix of a `photo_<N>` key.

  /**
   * The characters Python's `int()` skips around a number: the ASCII white
   * space \t \n \v \f \r and the space, and the non-ASCII characters Unicode
   * calls white space (which `int()` first rewrites to a space). The ASCII
   * separators U+001C to U+001F count as white space for `str.strip()` but
   * not for `int()`.
   */
  predicate IsSpace(c: char) {
    ('\U{9}' <= c <= '\U{D}') || c == ' ' || c == '\U{85}' || c == '\U{A0}' ||
    c == '\U{1680}' || ('\U{2000}' <= c <= '\U{200A}') || c == '\U{2028}' || c == '\U{2029}' ||
    c == '\U{202F}' || c == '\U{205F}' || c == '\U{3000}'
  }

  function TrimStart(s: string): string {
    if |s| > 0 && IsSpace(s[0]) then TrimStart(s[1..]) else s
  }

  function TrimEnd(s: string): string {
    if |s| > 0 && IsSpace(s[|s| - 1]) then TrimEnd(s[..|s| - 1]) else s
  }

  predicate IsDigit(c: char) {
    '0' <= c <= '9'
  }

  predicate AllDigits(s: string) {
    forall k :: 0 <= k < |s| ==> IsDigit(s[k])
  }

  /** The value of a string of decimal digits, most significant first. */
  function DigitsValue(s: string): nat
    requires AllDigits(s)
  {
    if |s| == 0 then 0 else 10 * DigitsValue(s[..|s| - 1]) + (s[|s| - 1] as int - '0' as int)
  }

  /** The most decimal digits Python's `int()` converts by default; longer strings raise ValueError. */
  const MaxStrDigits: nat := 4300

  /**
   * Python int(s) for a string: surrounding white space, an optional sign and
   * between one and MaxStrDigits decimal digits; None where Python raises
   * ValueError. Python also admits single underscores between digits; the
   * strings given here come from `split('_')` and never hold one.
   */
  function ParseInt(s: string): Option<int> {
    var t := TrimEnd(TrimStart(s));
    if |t| >= 2 && (t[0] == '+' || t[0] == '-') && AllDigits(t[1..]) && |t| - 1 <= MaxStrDigits then
      Some(if t[0] == '-' then 0 - DigitsValue(t[1..]) else DigitsValue(t[1..]))
    else if |t| >= 1 && AllDigits(t) && |t| <= MaxStrDigits then Some(DigitsValue(t))
    else None
  }

  /** An ASCII separator such as U+001C is not skipped: `int()` rejects the string. */
  lemma SeparatorNotSkipped()
    ensures ParseInt("\U{1C}600") == None
  {
    var s := "\U{1C}600";
    assert !IsSpace(s[0]) && !IsDigit(s[0]);
    assert TrimStart(s) == s;
    assert TrimEnd(s) == s;
  }

  /** A digit string longer than MaxStrDigits is rejected. */
  lemma TooManyDigits(s: string)
    requires AllDigits(s) && |s| > MaxStrDigits
    ensures ParseInt(s) == None
  {
    DigitsUntrimmed(s);
  }

  /** `s` up to its first underscore: element 1 of `key.split('_')` once the `photo` before it is removed. */
  function Segment(s: string): string {
    if |s| == 0 || s[0] == '_' then [] else [s[0]] + Segment(s[1..])
  }

  /** The resolution `N` of a `photo_<N>` key, or None when the key is not one or the suffix does not parse. */
  function Resolution(key: string): Option<int> {
    if |key| >= 6 && key[..6] == "photo_" then ParseInt(Segment(key[6..])) else None
  }

  // The decimal spelling of a number, the partner of ParseInt.

  function Digit(d: nat): (c: char)
    requires d < 10
    ensures IsDigit(c) && c as int - '0' as int == d
  {
    ['0', '1', '2', '3', '4', '5', '6', '7', '8', '9'][d]
  }

  function Decimal(n: nat): (s: string)
    ensures |s| > 0 && AllDigits(s)
  {
    if n < 10 then [Digit(n)] else Decimal(n / 10) + [Digit(n % 10)]
  }

  lemma {:induction false} DecimalValue(n: nat)
    ensures DigitsValue(Decimal(n)) == n
  {
    if n >= 10 {
      var s := Decimal(n);
      assert s[..|s| - 1] == Decimal(n / 10);
      DecimalValue(n / 10);
    }
  }

  lemma {:induction false} DigitsUntrimmed(s: string)
    requires AllDigits(s)
    ensures TrimStart(s) == s && TrimEnd(s) == s
  {
  }

  lemma {:induction false} DigitsOneSegment(s: string)
    requires AllDigits(s)
    ensures Segment(s) == s
  {
    if |s| > 0 {
      DigitsOneSegment(s[1..]);
      assert s == [s[0]] + s[1..];
    }
  }

  /** A key spelled `photo_` followed by the decimal digits of `n` has resolution `n`. */
  lemma PhotoKeyResolution(n: nat)
    requires |Decimal(n)| <= MaxStrDigits
    ensures Resolution("photo_" + Decimal(n)) == Some(n)
  {
    var key := "photo_" + Decimal(n);
    assert key[6..] == Decimal(n);
    DigitsOneSegment(Decimal(n));
    DigitsUntrimmed(Decimal(n));
    DecimalValue(n);
  }

  /** A `photo_` key whose digit suffix is longer than MaxStrDigits does not compete. */
  lemma LongSuffixSkipped(digits: string)
    requires AllDigits(digits) && |digits| > MaxStrDigits
    ensures Rank("photo_" + digits) == 0
  {
    var key := "photo_" + digits;
    assert key[6..] == digits;
    DigitsOneSegment(digits);
    TooManyDigits(digits);
  }

  // ---------------------------------------------------------------------------
  // Thumbnail selection: the `photo_<N>` value with the largest N.

  /** The resolution a key competes with: N when it is a `photo_<N>` key with N > 0, else 0. */
  function Rank(key: string): nat {
    match Resolution(key)
    case Some(n) => if n > 0 then n else 0
    case None => 0
  }

  /** The ranks of the keys, in order. */
  function Ranks(pairs: seq<(string, Json)>): (r: seq<nat>)
    ensures |r| == |pairs|
  {
    if |pairs| == 0 then [] else Ranks(pairs[..|pairs| - 1]) + [Rank(pairs[|pairs| - 1].0)]
  }

  /** Entry `j` of the rank table is the rank of key `j`. */
  lemma {:induction false} RanksAt(pairs: seq<(string, Json)>, j: nat)
    requires j < |pairs|
    ensures Ranks(pairs)[j] == Rank(pairs[j].0)
  {
    if j < |pairs| - 1 {
      var front := pairs[..|pairs| - 1];
      RanksAt(front, j);
      assert front[j] == pairs[j];
    }
  }

  /** The largest of the ranks, or 0. */
  function MaxRank(ranks: seq<nat>): (m: nat)
    ensures forall j :: 0 <= j < |ranks| ==> ranks[j] <= m
    ensures m > 0 ==> exists j :: 0 <= j < |ranks| && ranks[j] == m
  {
    if |ranks| == 0 then 0
    else
      var m := MaxRank(ranks[..|ranks| - 1]);
      var r := ranks[|ranks| - 1];
      if r > m then r else m
  }

  /** The index of the first rank equal to `n`, or the length when there is none. */
  function FirstWithRank(ranks: seq<nat>, n: nat): (k: nat)
    ensures k <= |ranks|
    ensures k < |ranks| ==> ranks[k] == n
    ensures forall j :: 0 <= j < k ==> ranks[j] != n
  {
    if |ranks| == 0 then 0
    else if ranks[0] == n then 0
    else 1 + FirstWithRank(ranks[1..], n)
  }

  /** The value of the first pair of the largest positive rank, or JNull when no rank is positive. */
  function Choice(pairs: seq<(string, Json)>, ranks: seq<nat>): Json
    requires |ranks| == |pairs|
  {
    var m := MaxRank(ranks);
    if m == 0 then JNull else pairs[FirstWithRank(ranks, m)].1
  }

  /** The thumbnail URL: the value of the first key of the largest positive rank, or JNull. */
  function BestPhoto(pairs: seq<(string, Json)>): Json {
    Choice(pairs, Ranks(pairs))
  }

  /** Without a positive rank there is no choice. */
  lemma NoChoice(pairs: seq<(string, Json)>, ranks: seq<nat>)
    requires |ranks| == |pairs| && forall j :: 0 <= j < |ranks| ==> ranks[j] == 0
    ensures Choice(pairs, ranks) == JNull
  {
  }

  /** The choice is pair `k` when rank `k` is positive, larger than every earlier one and at least every later one. */
  lemma ChoiceIsFirstLargest(pairs: seq<(string, Json)>, ranks: seq<nat>, k: nat)
    requires |ranks| == |pairs| && k < |ranks| && ranks[k] > 0
    requires forall j :: 0 <= j < k ==> ranks[j] < ranks[k]
    requires forall j :: k < j < |ranks| ==> ranks[j] <= ranks[k]
    ensures Choice(pairs, ranks) == pairs[k].1
  {
    var m := MaxRank(ranks);
    assert m == ranks[k];
    var f := FirstWithRank(ranks, m);
    assert f == k;
  }

  /** When some rank is positive, the choice is the first pair of the largest rank. */
  lemma ChoiceHasFirstLargest(pairs: seq<(string, Json)>, ranks: seq<nat>)
    requires |ranks| == |pairs| && exists j :: 0 <= j < |ranks| && ranks[j] > 0
    ensures var k := FirstWithRank(ranks, MaxRank(ranks));
      k < |ranks| && ranks[k] > 0 && Choice(pairs, ranks) == pairs[k].1 &&
      (forall j :: 0 <= j < k ==> ranks[j] < ranks[k]) &&
      (forall j :: k < j < |ranks| ==> ranks[j] <= ranks[k])
  {
  }

  /** One more pair: a strictly larger rank takes over, anything else leaves the choice. */
  lemma ChoiceAppend(pairs: seq<(string, Json)>, ranks: seq<nat>, p: (string, Json), r: nat)
    requires |ranks| == |pairs|
    ensures MaxRank(ranks + [r]) == if r > MaxRank(ranks) then r else MaxRank(ranks)
    ensures Choice(pairs + [p], ranks + [r]) == if r > MaxRank(ranks) then p.1 else Choice(pairs, ranks)
  {
    var t, rt := pairs + [p], ranks + [r];
    assert rt[..|rt| - 1] == ranks;
    var m := MaxRank(ranks);
    if r > m {
      var f := FirstWithRank(rt, r);
      assert rt[|ranks|] == r;
      assert forall j :: 0 <= j < |ranks| ==> rt[j] == ranks[j] <= m;
      assert f == |ranks|;
    } else if m > 0 {
      var k := FirstWithRank(ranks, m);
      var f := FirstWithRank(rt, m);
      assert k < |ranks|;
      assert f == k;
    }
  }

  /**
   * The thumbnail is the value of the first `photo_<N>` key of the largest
   * positive N (strictly larger than every earlier one), and JNull when there
   * is no such key.
   */
  lemma BestPhotoSpec(pairs: seq<(string, Json)>, k: nat)
    requires k < |pairs| && Rank(pairs[k].0) > 0
    requires forall j :: 0 <= j < k ==> Rank(pairs[j].0) < Rank(pairs[k].0)
    requires forall j :: k < j < |pairs| ==> Rank(pairs[j].0) <= Rank(pairs[k].0)
    ensures BestPhoto(pairs) == pairs[k].1
  {
    var ranks := Ranks(pairs);
    forall j | 0 <= j < |pairs| ensures ranks[j] == Rank(pairs[j].0) {
      RanksAt(pairs, j);
    }
    ChoiceIsFirstLargest(pairs, ranks, k);
  }

  /** Without a `photo_<N>` key of positive N there is no thumbnail. */
  lemma NoPhoto(pairs: seq<(string, Json)>)
    requires forall j :: 0 <= j < |pairs| ==> Rank(pairs[j].0) == 0
    ensures BestPhoto(pairs) == JNull
  {
    var ranks := Ranks(pairs);
    forall j | 0 <= j < |pairs| ensures ranks[j] == 0 {
      RanksAt(pairs, j);
    }
    NoChoice(pairs, ranks);
  }

  /** One step of the scan: the table, maximum and choice of one more key. */
  lemma ScanStep(pairs: seq<(string, Json)>, k: nat)
    requires k < |pairs|
    ensures Ranks(pairs[..k + 1]) == Ranks(pairs[..k]) + [Rank(pairs[k].0)]
    ensures MaxRank(Ranks(pairs[..k + 1])) ==
      if Rank(pairs[k].0) > MaxRank(Ranks(pairs[..k])) then Rank(pairs[k].0) else MaxRank(Ranks(pairs[..k]))
    ensures Choice(pairs[..k + 1], Ranks(pairs[..k + 1])) ==
      if Rank(pairs[k].0) > MaxRank(Ranks(pairs[..k])) then pairs[k].1 else Choice(pairs[..k], Ranks(pairs[..k]))
  {
    assert pairs[..k + 1][..k] == pairs[..k];
    assert pairs[..k + 1] == pairs[..k] + [pairs[k]];
    ChoiceAppend(pairs[..k], Ranks(pairs[..k]), pairs[k], Rank(pairs[k].0));
  }

  /** A parsed resolution beats a best-so-far that is not negative exactly when the key's rank does. */
  lemma RankBeats(key: string, m: int)
    requires m >= 0
    ensures (Resolution(key).Some? && Resolution(key).value > m) <==> Rank(key) > m
  {
  }

  /** Scans the keys as get_audio does, keeping the value of each strictly larger `photo_<N>`. */
  method SelectThumbnail(pairs: seq<(string, Json)>) returns (imageUrl: Json)
    ensures imageUrl == BestPhoto(pairs)
  {
    var maxRes: int := 0;
    imageUrl := JNull;
    for k := 0 to |pairs|
      invariant maxRes == MaxRank(Ranks(pairs[..k]))
      invariant imageUrl == Choice(pairs[..k], Ranks(pairs[..k]))
    {
      var (key, val) := pairs[k];
      ScanStep(pairs, k);
      RankBeats(key, maxRes);
      // A `photo_` key whose suffix does not parse is passed over.
      var res := Resolution(key);
      if res.Some? && res.value > maxRes {
        maxRes := res.value;
        imageUrl := val;
      }
    }
    assert pairs[..|pairs|] == pairs;
  }

  // ---------------------------------------------------------------------------
  // One item of the response.

  /** What happens to one item: dropped, turned into a track, or an exception. */
  datatype ItemOutcome = Skip | Keep(track: Track) | Raise

  /** The item's thumbnail URL; None when looking for it raises. */
  function ImageUrl(item: Json): Option<Json> {
    match In("album", item)
    case None => None
    case Some(false) => Some(JNull)
    case Some(true) =>
      match Subscript(item, "album")
      case None => None
      case Some(album) =>
        match In("thumb", album)
        case None => None
        case Some(false) => Some(JNull)
        case Some(true) =>
          match Subscript(album, "thumb")
          case None => None
          case Some(thumb) =>
            if thumb.JObject? then Some(BestPhoto(thumb.fields)) else Some(BestPhoto(album.fields))
  }

  /** The track record for an item; None when one of the copied fields is missing (KeyError). */
  function Record(item: Json, imageUrl: Json): Option<Track> {
    var id, owner, artist := Subscript(item, "id"), Subscript(item, "owner_id"), Subscript(item, "artist");
    var title, url, duration := Subscript(item, "title"), Subscript(item, "url"), Subscript(item, "duration");
    if id.Some? && owner.Some? && artist.Some? && title.Some? && url.Some? && duration.Some? then
      Some(Track(id.value, owner.value, artist.value, title.value, url.value, duration.value, imageUrl))
    else None
  }

  /** An item without a truthy `url` is dropped; otherwise it becomes a track unless a step raises. */
  function Outcome(item: Json): ItemOutcome {
    match In("url", item)
    case None => Raise
    case Some(false) => Skip
    case Some(true) =>
      match Subscript(item, "url")
      case None => Raise
      case Some(u) =>
        if !Truthy(u) then Skip
        else
          match ImageUrl(item)
          case None => Raise
          case Some(image) =>
            match Record(item, image)
            case None => Raise
            case Some(t) => Keep(t)
  }

  /** A kept item is an object whose six fields are copied unchanged, with a truthy `url`. */
  lemma KeptCopiesFields(item: Json, t: Track)
    requires Outcome(item) == Keep(t)
    ensures item.JObject?
    ensures Lookup(item.fields, "id") == Some(t.id) && Lookup(item.fields, "owner_id") == Some(t.ownerId)
    ensures Lookup(item.fields, "artist") == Some(t.artist) && Lookup(item.fields, "title") == Some(t.title)
    ensures Lookup(item.fields, "url") == Some(t.url) && Truthy(t.url)
    ensures Lookup(item.fields, "duration") == Some(t.duration)
    ensures ImageUrl(item) == Some(t.imageUrl)
  {
  }

  /** An object item is dropped exactly when its `url` is missing or falsy. */
  lemma SkipWithoutUrl(item: Json)
    requires item.JObject?
    ensures Outcome(item) == Skip <==>
      (Lookup(item.fields, "url").None? || !Truthy(Lookup(item.fields, "url").value))
  {
  }

  /**
   * For an object item: no album, or an object album without `thumb`, gives
   * no thumbnail; an object `thumb` is scanned; any other `thumb` makes the
   * album's own keys be scanned.
   */
  lemma ImageUrlCases(item: Json)
    requires item.JObject?
    ensures Lookup(item.fields, "album").None? ==> ImageUrl(item) == Some(JNull)
    ensures Lookup(item.fields, "album").Some? ==> var album := Lookup(item.fields, "album").value;
      (album.JObject? && Lookup(album.fields, "thumb").None? ==> ImageUrl(item) == Some(JNull)) &&
      (album.JObject? && Lookup(album.fields, "thumb").Some? ==>
        var thumb := Lookup(album.fields, "thumb").value;
        ImageUrl(item) == Some(if thumb.JObject? then BestPhoto(thumb.fields) else BestPhoto(album.fields)))
  {
  }

  // ---------------------------------------------------------------------------
  // The whole list.

  /** What happens to each item, in order. */
  function Outcomes(items: seq<Json>): (r: seq<ItemOutcome>)
    ensures |r| == |items| && forall i :: 0 <= i < |items| ==> r[i] == Outcome(items[i])
  {
    seq(|items|, i requires 0 <= i < |items| => Outcome(items[i]))
  }

  /** The tracks of the kept items, in order; None when any item raises. */
  function Collect(outcomes: seq<ItemOutcome>): Option<seq<Track>> {
    if |outcomes| == 0 then Some([])
    else
      match Collect(outcomes[..|outcomes| - 1])
      case None => None
      case Some(ts) =>
        match outcomes[|outcomes| - 1]
        case Raise => None
        case Skip => Some(ts)
        case Keep(t) => Some(ts + [t])
  }

  /** The tracks `get_audio` builds from a list of items; None when an item raises. */
  function TrackList(items: seq<Json>): Option<seq<Track>> {
    Collect(Outcomes(items))
  }

  /** The positions of the kept outcomes, in increasing order. */
  function KeptIndices(outcomes: seq<ItemOutcome>): (r: seq<nat>)
    ensures forall j :: 0 <= j < |r| ==> r[j] < |outcomes| && outcomes[r[j]].Keep?
    ensures forall j, k :: 0 <= j < k < |r| ==> r[j] < r[k]
    ensures forall i :: 0 <= i < |outcomes| && outcomes[i].Keep? ==> i in r
    ensures |r| <= |outcomes|
  {
    if |outcomes| == 0 then []
    else
      var r := KeptIndices(outcomes[..|outcomes| - 1]);
      if outcomes[|outcomes| - 1].Keep? then r + [|outcomes| - 1] else r
  }

  /** The list is lost exactly when some outcome is an exception. */
  lemma {:induction false} CollectRaises(outcomes: seq<ItemOutcome>)
    ensures Collect(outcomes).None? <==> exists i :: 0 <= i < |outcomes| && outcomes[i] == Raise
  {
    if |outcomes| > 0 {
      var front := outcomes[..|outcomes| - 1];
      CollectRaises(front);
      assert forall i :: 0 <= i < |front| ==> front[i] == outcomes[i];
    }
  }

  /** The collected tracks are those of the kept outcomes, in order. */
  lemma {:induction false} CollectOrder(outcomes: seq<ItemOutcome>, ts: seq<Track>)
    requires Collect(outcomes) == Some(ts)
    ensures |ts| == |KeptIndices(outcomes)| <= |outcomes|
    ensures forall j :: 0 <= j < |ts| ==> outcomes[KeptIndices(outcomes)[j]] == Keep(ts[j])
  {
    if |outcomes| > 0 {
      var front := outcomes[..|outcomes| - 1];
      var fs := Collect(front).value;
      CollectOrder(front, fs);
      assert forall i :: 0 <= i < |front| ==> front[i] == outcomes[i];
    }
  }

  /** The list of tracks is lost exactly when some item raises. */
  lemma TrackListRaises(items: seq<Json>)
    ensures TrackList(items).None? <==> exists i :: 0 <= i < |items| && Outcome(items[i]) == Raise
  {
    var os := Outcomes(items);
    CollectRaises(os);
    if TrackList(items).None? {
      var i :| 0 <= i < |os| && os[i] == Raise;
      assert Outcome(items[i]) == Raise;
    }
  }

  /**
   * The tracks are those of the kept items, in the items' order: track `j`
   * comes from the item at the `j`-th kept index, and no kept item is missed.
   */
  lemma TrackListOrder(items: seq<Json>, ts: seq<Track>)
    requires TrackList(items) == Some(ts)
    ensures var kept := KeptIndices(Outcomes(items));
      |ts| == |kept| <= |items| &&
      (forall j :: 0 <= j < |ts| ==> kept[j] < |items| && Outcome(items[kept[j]]) == Keep(ts[j])) &&
      (forall i :: 0 <= i < |items| && Outcome(items[i]).Keep? ==> i in kept)
  {
    CollectOrder(Outcomes(items), ts);
  }

  /** One more item extends the list by that item's outcome. */
  lemma TrackListAppend(items: seq<Json>, i: nat)
    requires i < |items|
    ensures TrackList(items[..i + 1]) ==
      match TrackList(items[..i])
      case None => None
      case Some(ts) =>
        match Outcome(items[i])
        case Raise => None
        case Skip => Some(ts)
        case Keep(t) => Some(ts + [t])
  {
    var os, os' := Outcomes(items[..i]), Outcomes(items[..i + 1]);
    assert os'[..i] == os;
  }

  /** An item that raises makes the whole list raise, wherever it stands. */
  lemma RaiseAborts(items: seq<Json>, i: nat)
    requires i < |items| && Outcome(items[i]) == Raise
    ensures TrackList(items) == None
  {
    TrackListRaises(items);
  }

  /** The parameters of the `audio.get` request: the count, and the owner when one is given. */
  function AudioParams(owner: Json, count: Json): (r: seq<(string, Json)>)
    ensures Lookup(r, "count") == Some(count)
    ensures Lookup(r, "owner_id") == if Truthy(owner) then Some(owner) else None
  {
    [("count", count)] + if Truthy(owner) then [("owner_id", owner)] else []
  }

  /** The tracks `get_audio` returns for an API outcome: empty on a raised error or an empty response. */
  function TracksFrom(result: ApiResult): seq<Track> {
    match result
    case ApiError => []
    case Response(data) =>
      if !Truthy(data) then []
      else
        match Get(data, "items", JArray([]))
        case None => []
        case Some(items) =>
          match Iter(items)
          case None => []
          case Some(xs) =>
            match TrackList(xs)
            case None => []
            case Some(ts) => ts
  }

  /** A response holding a list of items gives those items' tracks, or nothing when one raises. */
  lemma TracksFromItems(fields: seq<(string, Json)>, xs: seq<Json>)
    requires fields != [] && Lookup(fields, "items") == Some(JArray(xs))
    ensures TrackList(xs).Some? ==> TracksFrom(Response(JObject(fields))) == TrackList(xs).value
    ensures (exists i :: 0 <= i < |xs| && Outcome(xs[i]) == Raise) ==> TracksFrom(Response(JObject(fields))) == []
  {
    TrackListRaises(xs);
  }

  /** The API client; only the access token matters to `get_audio`. */
  class Client {
    var accessToken: Option<string>

    constructor ()
      ensures accessToken == None
    {
      accessToken := None;
    }

    /**
     * Fetches the user's tracks: nothing without a token; otherwise the
     * tracks of the `audio.get` response.
     */
    method GetAudio(owner: Json, count: Json, callApi: ApiCall -> ApiResult) returns (tracks: seq<Track>)
      ensures !(accessToken.Some? && |accessToken.value| > 0) ==> tracks == []
      ensures accessToken.Some? && |accessToken.value| > 0 ==>
        tracks == TracksFrom(callApi(ApiCall("audio.get", AudioParams(owner, count))))
    {
      if !(accessToken.Some? && |accessToken.value| > 0) {
        return [];
      }
      var params := [("count", count)];
      if Truthy(owner) {
        params := params + [("owner_id", owner)];
      }
      assert params == AudioParams(owner, count);
      var response := callApi(ApiCall("audio.get", params));
      if response.ApiError? {
        return [];
      }
      var data := response.data;
      if !Truthy(data) {
        return [];
      }
      var itemsValue := Get(data, "items", JArray([]));
      if itemsValue.None? {
        return [];
      }
      var iterated := Iter(itemsValue.value);
      if iterated.None? {
        return [];
      }
      var extracted := ExtractTracks(iterated.value);
      tracks := if extracted.Some? then extracted.value else [];
    }
  }

  /** The loop of `get_audio` over the items; None where it leaves the loop through an exception. */
  method ExtractTracks(items: seq<Json>) returns (r: Option<seq<Track>>)
    ensures r == TrackList(items)
  {
    var tracks: seq<Track> := [];
    for i := 0 to |items|
      invariant TrackList(items[..i]) == Some(tracks)
    {
      TrackListAppend(items, i);
      var outcome := ExtractItem(items[i]);
      match outcome
      case Raise =>
        RaiseAborts(items, i);
        return None;
      case Skip =>
      case Keep(t) =>
        tracks := tracks + [t];
    }
    assert items[..|items|] == items;
    return Some(tracks);
  }

  /** The body of the loop for one item: skip it, build its track, or raise. */
  method ExtractItem(item: Json) returns (outcome: ItemOutcome)
    ensures outcome == Outcome(item)
  {
    var hasUrl := In("url", item);
    if hasUrl.None? {
      return Raise;
    }
    if !hasUrl.value {
      return Skip;
    }
    var url := Subscript(item, "url");
    if url.None? {
      return Raise;
    }
    if !Truthy(url.value) {
      return Skip;
    }
    // From here on the item is an object: item['url'] succeeded.
    var fields := item.fields;
    var imageUrl := ExtractImage(item);
    if imageUrl.None? {
      return Raise;
    }
    var id, ownerId, artist := Lookup(fields, "id"), Lookup(fields, "owner_id"), Lookup(fields, "artist");
    var title, duration := Lookup(fields, "title"), Lookup(fields, "duration");
    if id.None? || ownerId.None? || artist.None? || title.None? || duration.None? {
      return Raise;
    }
    return Keep(Track(id.value, ownerId.value, artist.value, title.value, url.value, duration.value, imageUrl.value));
  }

  /** The thumbnail lookup for an object item; None where it raises. */
  method ExtractImage(item: Json) returns (imageUrl: Option<Json>)
    requires item.JObject?
    ensures imageUrl == ImageUrl(item)
  {
    imageUrl := Some(JNull);
    var album := Lookup(item.fields, "album");
    if album.Some? {
      var hasThumb := In("thumb", album.value);
      if hasThumb.None? {
        return None;
      }
      if hasThumb.value {
        var thumb := Subscript(album.value, "thumb");
        if thumb.None? {
          return None;
        }
        var url;
        if thumb.value.JObject? {
          url := SelectThumbnail(thumb.value.fields);
        } else {
          url := SelectThumbnail(album.value.fields);
        }
        imageUrl := Some(url);
      }
    }
  }
}
